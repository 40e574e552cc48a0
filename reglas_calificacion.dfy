/** The grade ledger (`CalificacionService`) as functions of the tables: each write
    gives either an error or the tables after it, each read gives response views.
    The service class in `CalificacionServicio` carries these out on the store. */
module CalificacionReglas {
  import opened Comun
  import opened Entidades
  import opened DtoSolicitud
  import opened DtoRespuesta
  import opened BaseDatos
  import ER = EstudianteRepositorio
  import MR = MateriaRepositorio
  import CR = CalificacionRepositorio

  // ------------------------------------------------------------------ conversion

  /** `convertirAResponseDTO`: the grade with its student, course and teacher resolved
      through the tables; a relation that resolves to nothing reads "N/A". */
  function VistaCalificacion(t: Tablas, c: Calificacion): (v: CalificacionVista)
    requires c.nota.Some?
    ensures VistaCoherente(v)
    ensures v.id == Some(c.id) && v.nota == c.nota
    ensures v.tipoEvaluacion == c.tipoEvaluacion && v.observaciones == c.observaciones
    ensures v.fechaCreacion == Some(c.fechaCreacion) && v.fechaActualizacion == c.fechaActualizacion
    ensures ExistePersona(t.personas, c.estudianteId) <==> v.estudianteId == Some(c.estudianteId)
    ensures ExisteMateria(t.materias, c.materiaId) <==> v.materiaId == Some(c.materiaId)
    ensures ExistePersona(t.personas, c.profesorId) <==> v.profesorId == Some(c.profesorId)
  {
    VistaDe(c, ER.FindById(t.personas, c.estudianteId), MR.FindById(t.materias, c.materiaId),
      ER.FindById(t.personas, c.profesorId))
  }

  /** The view of a grade once its three relations have been looked up, with "N/A" in
      the name fields of a relation that was not found. */
  function VistaDe(c: Calificacion, estudiante: Option<Estudiante>, materia: Option<Materia>,
                   profesor: Option<Estudiante>): CalificacionVista
    requires c.nota.Some?
  {
    CalificacionVista(
      Some(c.id),
      if estudiante.Some? then Some(estudiante.value.id) else None,
      if estudiante.Some? then Some(NombreCompleto(estudiante.value)) else Some("N/A"),
      if estudiante.Some? then estudiante.value.cedula else None,
      if materia.Some? then Some(materia.value.id) else None,
      if materia.Some? then materia.value.nombre else Some("N/A"),
      if materia.Some? then materia.value.codigo else Some("N/A"),
      if profesor.Some? then Some(profesor.value.id) else None,
      if profesor.Some? then Some(NombreCompleto(profesor.value)) else Some("N/A"),
      c.nota,
      c.tipoEvaluacion,
      c.observaciones,
      Some(c.fechaCreacion),
      c.fechaActualizacion,
      Some(NotaConFormato(c.nota.value)),
      Some(EsAprobatoria(c.nota.value)))
  }

  /** The views of a list of grades, in the same order. */
  function Vistas(t: Tablas, cs: seq<Calificacion>): (r: seq<CalificacionVista>)
    requires forall c | c in cs :: c.nota.Some?
    ensures |r| == |cs|
    ensures forall i | 0 <= i < |cs| :: r[i] == VistaCalificacion(t, cs[i])
  {
    seq(|cs|, i requires 0 <= i < |cs| => VistaCalificacion(t, cs[i]))
  }

  /** A converted list holds exactly the views of the grades it was made from. */
  lemma EnVistas(t: Tablas, cs: seq<Calificacion>)
    requires forall c | c in cs :: c.nota.Some?
    ensures forall v :: v in Vistas(t, cs) <==> exists c | c in cs :: v == VistaCalificacion(t, c)
  {
    var r := Vistas(t, cs);
    forall v | v in r
      ensures exists c | c in cs :: v == VistaCalificacion(t, c)
    {
      var i :| 0 <= i < |r| && r[i] == v;
      assert cs[i] in cs;
    }
    forall c | c in cs
      ensures VistaCalificacion(t, c) in r
    {
      var i :| 0 <= i < |cs| && cs[i] == c;
      assert r[i] == VistaCalificacion(t, c);
    }
  }

  /** In a consistent store every stored grade resolves all three of its relations. */
  lemma VistaResuelta(t: Tablas, c: Calificacion)
    requires Consistentes(t) && c in t.calificaciones
    ensures var v := VistaCalificacion(t, c);
      && v.estudianteId == Some(c.estudianteId)
      && v.materiaId == Some(c.materiaId)
      && v.profesorId == Some(c.profesorId)
  {
  }

  // ------------------------------------------------------------------ reads

  /** `obtenerTodasLasCalificaciones`: one view per stored grade, in table order. */
  function ObtenerTodasLasCalificaciones(t: Tablas): (r: seq<CalificacionVista>)
    requires Consistentes(t)
    ensures |r| == |t.calificaciones|
    ensures forall i | 0 <= i < |r| :: r[i].id == Some(t.calificaciones[i].id)
    ensures forall i | 0 <= i < |r| ::
      t.calificaciones[i] in t.calificaciones && r[i] == VistaCalificacion(t, t.calificaciones[i])
  {
    Vistas(t, t.calificaciones)
  }

  /** `obtenerCalificacionPorId`: NotFound exactly when no grade has that key. */
  function ObtenerCalificacionPorId(t: Tablas, id: int): (r: Result<CalificacionVista>)
    requires Consistentes(t)
    ensures r.Err? ==> r.error == ResourceNotFound
    ensures r.Ok? <==> exists c | c in t.calificaciones :: c.id == id
    ensures r.Ok? ==> r.value.id == Some(id) && r.value.estudianteId.Some? && VistaCoherente(r.value)
    ensures r.Ok? ==> exists c | c in t.calificaciones && c.id == id :: r.value == VistaCalificacion(t, c)
  {
    match CR.FindById(t.calificaciones, id)
    case None => Err(ResourceNotFound)
    case Some(c) =>
      VistaResuelta(t, c);
      Ok(VistaCalificacion(t, c))
  }

  /** `obtenerCalificacionesPorEstudiante`: the views of that student's grades. */
  function ObtenerCalificacionesPorEstudiante(t: Tablas, estudianteId: int): (r: seq<CalificacionVista>)
    requires Consistentes(t)
    ensures |r| == |CR.FindByEstudianteId(t.calificaciones, estudianteId)|
    ensures forall i | 0 <= i < |r| :: r[i].estudianteId == Some(estudianteId)
    ensures forall v :: v in r <==>
      exists c | c in t.calificaciones && c.estudianteId == estudianteId :: v == VistaCalificacion(t, c)
  {
    EnVistas(t, CR.FindByEstudianteId(t.calificaciones, estudianteId));
    Vistas(t, CR.FindByEstudianteId(t.calificaciones, estudianteId))
  }

  /** `obtenerCalificacionesPorMateria`: the views of that course's grades. */
  function ObtenerCalificacionesPorMateria(t: Tablas, materiaId: int): (r: seq<CalificacionVista>)
    requires Consistentes(t)
    ensures |r| == |CR.FindByMateriaId(t.calificaciones, materiaId)|
    ensures forall i | 0 <= i < |r| :: r[i].materiaId == Some(materiaId)
    ensures forall v :: v in r <==>
      exists c | c in t.calificaciones && c.materiaId == materiaId :: v == VistaCalificacion(t, c)
  {
    EnVistas(t, CR.FindByMateriaId(t.calificaciones, materiaId));
    Vistas(t, CR.FindByMateriaId(t.calificaciones, materiaId))
  }

  /** `obtenerCalificacionesPorProfesor`: the views of the grades that teacher gave. */
  function ObtenerCalificacionesPorProfesor(t: Tablas, profesorId: int): (r: seq<CalificacionVista>)
    requires Consistentes(t)
    ensures |r| == |CR.FindByProfesorId(t.calificaciones, profesorId)|
    ensures forall i | 0 <= i < |r| :: r[i].profesorId == Some(profesorId)
    ensures forall v :: v in r <==>
      exists c | c in t.calificaciones && c.profesorId == profesorId :: v == VistaCalificacion(t, c)
  {
    EnVistas(t, CR.FindByProfesorId(t.calificaciones, profesorId));
    Vistas(t, CR.FindByProfesorId(t.calificaciones, profesorId))
  }

  /** `obtenerCalificacionesEstudianteEnMateria`. */
  function ObtenerCalificacionesEstudianteEnMateria(t: Tablas, estudianteId: int, materiaId: int): (r: seq<CalificacionVista>)
    requires Consistentes(t)
    ensures |r| == |CR.FindByEstudianteIdAndMateriaId(t.calificaciones, estudianteId, materiaId)|
    ensures forall i | 0 <= i < |r| :: r[i].estudianteId == Some(estudianteId) && r[i].materiaId == Some(materiaId)
    ensures forall v :: v in r <==>
      exists c | c in t.calificaciones && c.estudianteId == estudianteId && c.materiaId == materiaId :: v == VistaCalificacion(t, c)
  {
    EnVistas(t, CR.FindByEstudianteIdAndMateriaId(t.calificaciones, estudianteId, materiaId));
    Vistas(t, CR.FindByEstudianteIdAndMateriaId(t.calificaciones, estudianteId, materiaId))
  }

  /** `obtenerCalificacionesAprobatorias`: every view is marked as passing. */
  function ObtenerCalificacionesAprobatorias(t: Tablas): (r: seq<CalificacionVista>)
    requires Consistentes(t)
    ensures |r| == |CR.FindCalificacionesAprobatorias(t.calificaciones)|
    ensures forall i | 0 <= i < |r| :: r[i].esAprobatoria == Some(true)
    ensures forall v :: v in r <==>
      exists c | c in t.calificaciones && c.nota.Some? && c.nota.value >= 30 :: v == VistaCalificacion(t, c)
  {
    EnVistas(t, CR.FindCalificacionesAprobatorias(t.calificaciones));
    Vistas(t, CR.FindCalificacionesAprobatorias(t.calificaciones))
  }

  /** `obtenerCalificacionesReprobatorias`: every view is marked as failing. */
  function ObtenerCalificacionesReprobatorias(t: Tablas): (r: seq<CalificacionVista>)
    requires Consistentes(t)
    ensures |r| == |CR.FindCalificacionesReprobatorias(t.calificaciones)|
    ensures forall i | 0 <= i < |r| :: r[i].esAprobatoria == Some(false)
    ensures forall v :: v in r <==>
      exists c | c in t.calificaciones && c.nota.Some? && c.nota.value < 30 :: v == VistaCalificacion(t, c)
  {
    EnVistas(t, CR.FindCalificacionesReprobatorias(t.calificaciones));
    Vistas(t, CR.FindCalificacionesReprobatorias(t.calificaciones))
  }

  // ------------------------------------------------------------------ averages

  /** `promedio != null ? promedio : BigDecimal.ZERO`. */
  function CeroSiNulo(p: Option<real>): real {
    if p.Some? then p.value else 0.0
  }

  /** `calcularPromedioGeneralEstudiante`: the AVG over the student's grades, or
      exactly 0 when there is none to average. */
  function CalcularPromedioGeneralEstudiante(t: Tablas, estudianteId: int): (r: real)
    ensures var s := CR.FindByEstudianteId(t.calificaciones, estudianteId);
      && (CR.CuentaNotas(s) == 0 ==> r == 0.0)
      && (CR.CuentaNotas(s) > 0 ==> CR.Promedio(s) == Some(r))
  {
    CeroSiNulo(CR.CalcularPromedioGeneralEstudiante(t.calificaciones, estudianteId))
  }

  /** `calcularPromedioEstudianteEnMateria`. */
  function CalcularPromedioEstudianteEnMateria(t: Tablas, estudianteId: int, materiaId: int): (r: real)
    ensures var s := CR.FindByEstudianteIdAndMateriaId(t.calificaciones, estudianteId, materiaId);
      && (CR.CuentaNotas(s) == 0 ==> r == 0.0)
      && (CR.CuentaNotas(s) > 0 ==> CR.Promedio(s) == Some(r))
  {
    CeroSiNulo(CR.CalcularPromedioEstudianteEnMateria(t.calificaciones, estudianteId, materiaId))
  }

  /** `calcularPromedioMateria`. */
  function CalcularPromedioMateria(t: Tablas, materiaId: int): (r: real)
    ensures var s := CR.FindByMateriaId(t.calificaciones, materiaId);
      && (CR.CuentaNotas(s) == 0 ==> r == 0.0)
      && (CR.CuentaNotas(s) > 0 ==> CR.Promedio(s) == Some(r))
  {
    CeroSiNulo(CR.CalcularPromedioMateria(t.calificaciones, materiaId))
  }

  /** Over stored grades, every average the service reports lies between 0.0 and 5.0. */
  lemma PromediosEnRango(t: Tablas, estudianteId: int, materiaId: int)
    requires Consistentes(t)
    ensures 0.0 <= CalcularPromedioGeneralEstudiante(t, estudianteId) <= 50.0
    ensures 0.0 <= CalcularPromedioEstudianteEnMateria(t, estudianteId, materiaId) <= 50.0
    ensures 0.0 <= CalcularPromedioMateria(t, materiaId) <= 50.0
  {
    var a := CR.FindByEstudianteId(t.calificaciones, estudianteId);
    var b := CR.FindByEstudianteIdAndMateriaId(t.calificaciones, estudianteId, materiaId);
    var m := CR.FindByMateriaId(t.calificaciones, materiaId);
    assert forall i | 0 <= i < |a| :: a[i] in a;
    assert forall i | 0 <= i < |b| :: b[i] in b;
    assert forall i | 0 <= i < |m| :: m[i] in m;
    if CR.Promedio(a).Some? { CR.PromedioEnRango(a); }
    if CR.Promedio(b).Some? { CR.PromedioEnRango(b); }
    if CR.Promedio(m).Some? { CR.PromedioEnRango(m); }
  }

  // ------------------------------------------------------------------ access

  /** `puedeVerCalificacion`: NotFound for a missing grade whatever the role; otherwise
      an admin, the grading teacher or the graded student. */
  function PuedeVerCalificacion(t: Tablas, email: Option<string>, id: int, rol: Rol): (r: Result<bool>)
    ensures r.Err? <==> CR.FindById(t.calificaciones, id).None?
    ensures r.Err? ==> r.error == ResourceNotFound
    ensures r == Ok(true) <==>
      exists c | c in t.calificaciones && c.id == id && c == CR.FindById(t.calificaciones, id).value ::
        || rol == ADMIN
        || (rol == PROFESOR && Igual(EmailDe(t.personas, c.profesorId), email))
        || (rol == ESTUDIANTE && Igual(EmailDe(t.personas, c.estudianteId), email))
  {
    match CR.FindById(t.calificaciones, id)
    case None => Err(ResourceNotFound)
    case Some(c) =>
      if rol == ADMIN then Ok(true)
      else if rol == PROFESOR && Igual(EmailDe(t.personas, c.profesorId), email) then Ok(true)
      else Ok(rol == ESTUDIANTE && Igual(EmailDe(t.personas, c.estudianteId), email))
  }

  /** `puedeModificarCalificacion`: true for an admin without any lookup, false for a
      student, and for a teacher the ownership test (NotFound if the grade is missing). */
  function PuedeModificarCalificacion(t: Tablas, email: Option<string>, id: int, rol: Rol): (r: Result<bool>)
    ensures rol == ADMIN ==> r == Ok(true)
    ensures rol == ESTUDIANTE ==> r == Ok(false)
    ensures r.Err? <==> rol == PROFESOR && CR.FindById(t.calificaciones, id).None?
    ensures r.Err? ==> r.error == ResourceNotFound
    ensures rol == PROFESOR && r.Ok? ==>
      r.value == Igual(EmailDe(t.personas, CR.FindById(t.calificaciones, id).value.profesorId), email)
  {
    if rol == ADMIN then Ok(true)
    else if rol == PROFESOR then
      match CR.FindById(t.calificaciones, id)
      case None => Err(ResourceNotFound)
      case Some(c) => Ok(Igual(EmailDe(t.personas, c.profesorId), email))
    else Ok(false)
  }

  /** Whoever may modify an existing grade may also see it. */
  lemma ModificarImplicaVer(t: Tablas, email: Option<string>, id: int, rol: Rol)
    requires PuedeModificarCalificacion(t, email, id, rol) == Ok(true)
    requires CR.FindById(t.calificaciones, id).Some?
    ensures PuedeVerCalificacion(t, email, id, rol) == Ok(true)
  {
  }

  // ------------------------------------------------------------------ writes

  /** `crearCalificacion`: the caller must be a stored teacher, the student and the
      course must exist (the student looked up first), and the course must be taught by
      the caller; then the grade is inserted and validated. */
  function CrearCalificacion(t: Tablas, d: CalificacionRequestDTO, emailProfesor: Option<string>, ahora: int): (r: Result<Cambio<Calificacion>>)
    ensures r.Err? ==> r.error in {ResourceNotFound, IllegalArgument, ConstraintViolation}
    ensures r.Ok? ==>
      var c := r.value.registro;
      && r.value.tablas == t.(calificaciones := t.calificaciones + [c],
                              sigCalificacion := t.sigCalificacion + 1)
      && c.id == t.sigCalificacion
      && d.estudianteId == Some(c.estudianteId) && d.materiaId == Some(c.materiaId)
      && c.nota == d.nota && c.tipoEvaluacion == d.tipoEvaluacion && c.observaciones == d.observaciones
      && c.fechaCreacion == ahora && c.fechaActualizacion.None?
      && CalificacionValida(c)
  {
    match NuevaCalificacion(t, d, emailProfesor, ahora)
    case Err(e) => Err(e)
    case Ok(c) =>
      Ok(Cambio(t.(calificaciones := t.calificaciones + [c], sigCalificacion := t.sigCalificacion + 1), c))
  }

  /** The checks of `crearCalificacion` in their order, and the grade it saves (with the
      key the store hands out next) when they all pass. */
  function NuevaCalificacion(t: Tablas, d: CalificacionRequestDTO, emailProfesor: Option<string>, ahora: int): Result<Calificacion> {
    match ER.FindByEmail(t.personas, emailProfesor)
    case None => Err(ResourceNotFound)
    case Some(profesor) =>
      if profesor.rol != PROFESOR then Err(IllegalArgument)
      else if d.estudianteId.None? then Err(IllegalArgument)
      else match ER.FindById(t.personas, d.estudianteId.value)
      case None => Err(ResourceNotFound)
      case Some(estudiante) =>
        if d.materiaId.None? then Err(IllegalArgument)
        else match MR.FindById(t.materias, d.materiaId.value)
        case None => Err(ResourceNotFound)
        case Some(materia) =>
          if materia.profesorId != Some(profesor.id) then Err(IllegalArgument)
          else
            var c := Calificacion(t.sigCalificacion, estudiante.id, materia.id, profesor.id,
              d.nota, d.tipoEvaluacion, d.observaciones, ahora, None);
            if !CalificacionValida(c) then Err(ConstraintViolation) else Ok(c)
  }

  /** What creation needs of the tables and the request: a stored PROFESOR with the
      caller's email who teaches the requested course, a stored student, and fields that
      satisfy the grade's constraints. */
  predicate PuedeCrearCalificacion(t: Tablas, d: CalificacionRequestDTO, emailProfesor: Option<string>) {
    && d.estudianteId.Some? && ExistePersona(t.personas, d.estudianteId.value)
    && d.materiaId.Some?
    && d.nota.Some? && NotaEnRango(d.nota.value)
    && AtMost(d.tipoEvaluacion, 20) && AtMost(d.observaciones, 500)
    && exists p, m | p in t.personas && m in t.materias ::
         && p.email == emailProfesor && p.rol == PROFESOR
         && m.id == d.materiaId.value && m.profesorId == Some(p.id)
  }

  /** With unique emails and increasing course keys (as in every consistent store),
      creation succeeds exactly when `PuedeCrearCalificacion` holds. */
  lemma CrearCalificacionExito(t: Tablas, d: CalificacionRequestDTO, emailProfesor: Option<string>, ahora: int)
    requires ER.EmailsUnicos(t.personas) && MR.IdsCrecientes(t.materias)
    ensures CrearCalificacion(t, d, emailProfesor, ahora).Ok? <==> PuedeCrearCalificacion(t, d, emailProfesor)
  {
    if PuedeCrearCalificacion(t, d, emailProfesor) {
      var p, m :| p in t.personas && m in t.materias
        && p.email == emailProfesor && p.rol == PROFESOR
        && m.id == d.materiaId.value && m.profesorId == Some(p.id);
      var k :| 0 <= k < |t.personas| && t.personas[k] == p;
      ER.FindByEmailUnico(t.personas, emailProfesor, k);
      MR.FindByIdUnico(t.materias, m);
    }
  }

  /** Who may create a grade: an unknown email is NotFound and a stored non-teacher is
      IllegalArgument; a created grade's student is stored, and its teacher is the stored
      PROFESOR with the caller's email who teaches its course. */
  lemma CrearCalificacionQuien(t: Tablas, d: CalificacionRequestDTO, emailProfesor: Option<string>, ahora: int)
    ensures var r := CrearCalificacion(t, d, emailProfesor, ahora);
      && (!ER.ExistsByEmail(t.personas, emailProfesor) ==> r == Err(ResourceNotFound))
      && (ER.ExistsByEmail(t.personas, emailProfesor)
            && ER.FindByEmail(t.personas, emailProfesor).value.rol != PROFESOR ==>
          r == Err(IllegalArgument))
      && (r.Ok? ==>
            var c := r.value.registro;
            && ExistePersona(t.personas, c.estudianteId)
            && (exists p | p in t.personas ::
                  p.email == emailProfesor && p.rol == PROFESOR && p.id == c.profesorId)
            && (exists m | m in t.materias :: m.id == c.materiaId && m.profesorId == Some(c.profesorId)))
  {
  }

  /** A successful creation keeps every constraint of the store. */
  lemma CrearCalificacionConserva(t: Tablas, d: CalificacionRequestDTO, emailProfesor: Option<string>, ahora: int)
    requires Consistentes(t)
    requires CrearCalificacion(t, d, emailProfesor, ahora).Ok?
    ensures Consistentes(CrearCalificacion(t, d, emailProfesor, ahora).value.tablas)
  {
    var c := CrearCalificacion(t, d, emailProfesor, ahora).value.registro;
    InsertarCalificacionConserva(t, c);
  }

  /** `actualizarCalificacion`: NotFound for a missing key, IllegalArgument unless the
      caller's email is the grading teacher's (whatever the caller's role), then nota,
      tipoEvaluacion and observaciones are overwritten. Only a changed row is flushed,
      validated and stamped by `@PreUpdate`; the response is built before the flush and
      so shows the previous modification time. */
  function ActualizarCalificacion(t: Tablas, id: int, d: CalificacionRequestDTO, emailProfesor: Option<string>, ahora: int): (r: Result<Cambio<Calificacion>>)
    ensures r.Err? ==> r.error in {ResourceNotFound, IllegalArgument, ConstraintViolation}
    ensures r.Ok? ==>
      && r.value.registro.nota == d.nota
      && r.value.registro.tipoEvaluacion == d.tipoEvaluacion
      && r.value.registro.observaciones == d.observaciones
      && r.value.tablas.personas == t.personas && r.value.tablas.materias == t.materias
      && |r.value.tablas.calificaciones| == |t.calificaciones|
    ensures r.Ok? ==>
      && CR.Posicion(t.calificaciones, id).Some?
      && var i := CR.Posicion(t.calificaciones, id).value;
      && r.value.tablas == t.(calificaciones := t.calificaciones[i := r.value.tablas.calificaciones[i]])
      && (r.value.registro == t.calificaciones[i] ==> r.value.tablas == t)
      && (r.value.registro != t.calificaciones[i] ==>
            r.value.tablas.calificaciones[i] == CalificacionPreUpdate(r.value.registro, ahora))
  {
    match CalificacionPropia(t, id, emailProfesor)
    case Err(e) => Err(e)
    case Ok(i) => ModificarEn(t, i, d, ahora)
  }

  /** The rest of the update once the grade sits at row `i`: overwrite the three fields,
      and flush the row only when that changed it. */
  function ModificarEn(t: Tablas, i: nat, d: CalificacionRequestDTO, ahora: int): (r: Result<Cambio<Calificacion>>)
    requires i < |t.calificaciones|
    ensures r.Err? <==> r == Err(ConstraintViolation)
    ensures r.Ok? ==>
      && r.value.registro == t.calificaciones[i].(nota := d.nota, tipoEvaluacion := d.tipoEvaluacion,
                                                   observaciones := d.observaciones)
      && |r.value.tablas.calificaciones| == |t.calificaciones|
      && r.value.tablas == t.(calificaciones := t.calificaciones[i := r.value.tablas.calificaciones[i]])
      && (r.value.registro == t.calificaciones[i] ==> r.value.tablas == t)
      && (r.value.registro != t.calificaciones[i] ==>
            r.value.tablas.calificaciones[i] == CalificacionPreUpdate(r.value.registro, ahora))
  {
    var c := t.calificaciones[i];
    var nueva := c.(nota := d.nota, tipoEvaluacion := d.tipoEvaluacion, observaciones := d.observaciones);
    if nueva == c then Ok(Cambio(t, c))
    else if !CalificacionValida(nueva) then Err(ConstraintViolation)
    else Ok(Cambio(t.(calificaciones := t.calificaciones[i := CalificacionPreUpdate(nueva, ahora)]), nueva))
  }

  /** The first two steps of updating and deleting a grade: the position of the grade with
      that key (NotFound if there is none), provided the caller's email is its teacher's
      (IllegalArgument otherwise). */
  function CalificacionPropia(t: Tablas, id: int, emailProfesor: Option<string>): (r: Result<nat>)
    ensures r.Ok? ==> r.value < |t.calificaciones| && t.calificaciones[r.value].id == id
  {
    match CR.Posicion(t.calificaciones, id)
    case None => Err(ResourceNotFound)
    case Some(i) =>
      if !Igual(EmailDe(t.personas, t.calificaciones[i].profesorId), emailProfesor) then Err(IllegalArgument)
      else Ok(i)
  }

  /** The update finds the grade by its key (NotFound exactly when there is none) and
      only its teacher's email gets through; the saved grade is the stored one with the
      three request fields. */
  lemma ActualizarCalificacionQuien(t: Tablas, id: int, d: CalificacionRequestDTO, emailProfesor: Option<string>, ahora: int)
    ensures var r := ActualizarCalificacion(t, id, d, emailProfesor, ahora);
      && (CR.FindById(t.calificaciones, id).None? <==> r == Err(ResourceNotFound))
      && (r.Ok? ==>
            var c := r.value.registro;
            && c == CR.FindById(t.calificaciones, id).value.(nota := d.nota,
                  tipoEvaluacion := d.tipoEvaluacion, observaciones := d.observaciones)
            && Igual(EmailDe(t.personas, c.profesorId), emailProfesor))
  {
  }

  /** A successful update keeps every constraint of the store. */
  lemma ActualizarCalificacionConserva(t: Tablas, id: int, d: CalificacionRequestDTO, emailProfesor: Option<string>, ahora: int)
    requires Consistentes(t)
    requires ActualizarCalificacion(t, id, d, emailProfesor, ahora).Ok?
    ensures Consistentes(ActualizarCalificacion(t, id, d, emailProfesor, ahora).value.tablas)
    ensures CalificacionValida(ActualizarCalificacion(t, id, d, emailProfesor, ahora).value.registro)
  {
    ModificarEnConserva(t, CalificacionPropia(t, id, emailProfesor).value, d, ahora);
  }

  /** The same for the write step alone, whichever row it rewrites. */
  lemma ModificarEnConserva(t: Tablas, i: nat, d: CalificacionRequestDTO, ahora: int)
    requires Consistentes(t)
    requires i < |t.calificaciones| && ModificarEn(t, i, d, ahora).Ok?
    ensures Consistentes(ModificarEn(t, i, d, ahora).value.tablas)
    ensures CalificacionValida(ModificarEn(t, i, d, ahora).value.registro)
  {
    var c := t.calificaciones[i];
    var nueva := c.(nota := d.nota, tipoEvaluacion := d.tipoEvaluacion, observaciones := d.observaciones);
    if nueva != c {
      ReemplazarCalificacionConserva(t, i, CalificacionPreUpdate(nueva, ahora));
    }
  }

  /** `eliminarCalificacion`: the same existence and ownership checks, then the row is
      deleted. */
  function EliminarCalificacion(t: Tablas, id: int, emailProfesor: Option<string>): (r: Result<Tablas>)
    ensures r.Err? ==> r.error in {ResourceNotFound, IllegalArgument}
    ensures r.Ok? ==>
      && r.value.personas == t.personas && r.value.materias == t.materias
      && |r.value.calificaciones| == |t.calificaciones| - 1
  {
    match CalificacionPropia(t, id, emailProfesor)
    case Err(e) => Err(e)
    case Ok(i) => Ok(t.(calificaciones := t.calificaciones[..i] + t.calificaciones[i + 1..]))
  }

  /** Deletion finds the grade by its key (NotFound exactly when there is none) and only
      its teacher's email gets through. */
  lemma EliminarCalificacionQuien(t: Tablas, id: int, emailProfesor: Option<string>)
    ensures var r := EliminarCalificacion(t, id, emailProfesor);
      && (CR.FindById(t.calificaciones, id).None? <==> r == Err(ResourceNotFound))
      && (r.Ok? ==> Igual(EmailDe(t.personas, CR.FindById(t.calificaciones, id).value.profesorId), emailProfesor))
  {
  }

  /** With unique keys, deletion removes exactly the grade with that key: every other
      grade stays, and the store keeps its constraints. */
  lemma EliminarCalificacionQuitaSoloEsa(t: Tablas, id: int, emailProfesor: Option<string>)
    requires Consistentes(t)
    requires EliminarCalificacion(t, id, emailProfesor).Ok?
    ensures var t2 := EliminarCalificacion(t, id, emailProfesor).value;
      && (forall c | c in t.calificaciones :: c in t2.calificaciones <==> c.id != id)
      && Consistentes(t2)
  {
    var i := CalificacionPropia(t, id, emailProfesor).value;
    CR.QuitarFila(t.calificaciones, i);
    BorrarCalificacionConserva(t, i);
  }

  /** An administrator can never update or delete a grade through the service: the
      grade's teacher is a different stored person, and emails are unique. */
  lemma AdminNoModificaCalificaciones(t: Tablas, k: nat, id: int, d: CalificacionRequestDTO, ahora: int)
    requires Consistentes(t)
    requires k < |t.personas| && t.personas[k].rol == ADMIN
    ensures ActualizarCalificacion(t, id, d, t.personas[k].email, ahora).Err?
    ensures EliminarCalificacion(t, id, t.personas[k].email).Err?
  {
    match CR.Posicion(t.calificaciones, id)
    case None =>
    case Some(i) =>
      assert t.calificaciones[i] in t.calificaciones;
      EmailDeProfesorNoEsDeOtroRol(t, t.calificaciones[i].profesorId, k);
    assert CalificacionPropia(t, id, t.personas[k].email).Err?;
  }
}
