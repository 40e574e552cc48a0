/** The person directory (`EstudianteService`) as functions of the tables: the reads
    give response views of active persons only, and each write gives either an error or
    the tables after it. `EstudianteServicio` carries the writes out on the store. */
module EstudianteReglas {
  import opened Comun
  import opened Entidades
  import opened DtoSolicitud
  import opened DtoRespuesta
  import opened BaseDatos
  import ER = EstudianteRepositorio
  import MR = MateriaRepositorio
  import CR = CalificacionRepositorio

  // ------------------------------------------------------------------ conversion

  /** `convertirAResponseDTO`: the full constructor fed with the entity's fields; the
      password is not part of the response. */
  function VistaEstudiante(e: Estudiante): (v: EstudianteVista)
    ensures v.id == Some(e.id) && v.email == e.email && v.cedula == e.cedula
    ensures v.rol == Some(e.rol) && v.activo == Some(e.activo)
    ensures v.nombreCompleto == Some(NombreCompleto(e))
  {
    EstudianteVista(Some(e.id), e.nombre, e.apellido, e.email, e.cedula, e.carrera, e.semestre,
      e.fechaNacimiento, e.telefono, e.direccion, Some(e.rol), Some(e.activo),
      Some(e.fechaCreacion), e.fechaActualizacion, Some(Str(e.nombre) + " " + Str(e.apellido)))
  }

  /** The views of a list of persons, in the same order. */
  function Vistas(s: seq<Estudiante>): (r: seq<EstudianteVista>)
    ensures |r| == |s|
    ensures forall i | 0 <= i < |s| :: r[i] == VistaEstudiante(s[i])
  {
    seq(|s|, i requires 0 <= i < |s| => VistaEstudiante(s[i]))
  }

  /** A view is in the list of views exactly when the list holds a person with that
      view. */
  lemma EnVistas(s: seq<Estudiante>)
    ensures forall e | e in s :: VistaEstudiante(e) in Vistas(s)
    ensures forall v | v in Vistas(s) :: exists e | e in s :: v == VistaEstudiante(e)
  {
    forall e | e in s
      ensures VistaEstudiante(e) in Vistas(s)
    {
      var k :| 0 <= k < |s| && s[k] == e;
      assert Vistas(s)[k] == VistaEstudiante(e);
    }
    forall v | v in Vistas(s)
      ensures exists e | e in s :: v == VistaEstudiante(e)
    {
      var k :| 0 <= k < |Vistas(s)| && Vistas(s)[k] == v;
      assert s[k] in s;
    }
  }

  // ------------------------------------------------------------------ reads

  /** `obtenerTodosLosEstudiantes`: exactly the active persons. */
  function ObtenerTodosLosEstudiantes(t: Tablas): (r: seq<EstudianteVista>)
    ensures forall v | v in r :: v.activo == Some(true)
    ensures forall e | e in t.personas :: VistaEstudiante(e) in r <==> e.activo
  {
    EnVistas(ER.FindByActivoTrue(t.personas));
    Vistas(ER.FindByActivoTrue(t.personas))
  }

  /** `obtenerProfesores`: exactly the active teachers. */
  function ObtenerProfesores(t: Tablas): (r: seq<EstudianteVista>)
    ensures forall v | v in r :: v.activo == Some(true) && v.rol == Some(PROFESOR)
    ensures forall e | e in t.personas :: VistaEstudiante(e) in r <==> e.activo && e.rol == PROFESOR
  {
    var s := ER.FindByActivoTrue(ER.FindByRol(t.personas, PROFESOR));
    EnVistas(s);
    Vistas(s)
  }

  /** `buscarPorCarrera`: the active persons of that career. */
  function BuscarPorCarrera(t: Tablas, carrera: string): (r: seq<EstudianteVista>)
    ensures forall v | v in r :: v.activo == Some(true) && v.carrera == Some(carrera)
    ensures forall e | e in t.personas :: VistaEstudiante(e) in r <==> e.activo && e.carrera == Some(carrera)
  {
    var s := ER.FindByActivoTrue(ER.FindByCarrera(t.personas, carrera));
    EnVistas(s);
    Vistas(s)
  }

  /** `buscarPorSemestre`: the active persons of that semester. */
  function BuscarPorSemestre(t: Tablas, semestre: int): (r: seq<EstudianteVista>)
    ensures forall v | v in r :: v.activo == Some(true) && v.semestre == Some(semestre)
    ensures forall e | e in t.personas :: VistaEstudiante(e) in r <==> e.activo && e.semestre == Some(semestre)
  {
    var s := ER.FindByActivoTrue(ER.FindBySemestre(t.personas, semestre));
    EnVistas(s);
    Vistas(s)
  }

  /** `buscarPorNombreCompleto`: the active persons whose full name contains the text,
      ignoring case (the repository search itself keeps inactive ones). */
  function BuscarPorNombreCompleto(t: Tablas, q: string): (r: seq<EstudianteVista>)
    ensures forall v | v in r :: v.activo == Some(true)
    ensures forall e | e in t.personas ::
      VistaEstudiante(e) in r <==> e.activo && ER.NombreCompletoContiene(e, q)
  {
    var s := ER.FindByActivoTrue(ER.FindByNombreCompletoContainingIgnoreCase(t.personas, q));
    EnVistas(s);
    Vistas(s)
  }

  /** `obtenerEstudiantePorId`: NotFound for a missing or an inactive person. */
  function ObtenerEstudiantePorId(t: Tablas, id: int): (r: Result<EstudianteVista>)
    ensures r.Err? ==> r.error == ResourceNotFound
    ensures r.Ok? ==> r.value.id == Some(id) && r.value.activo == Some(true)
  {
    match ER.FindById(t.personas, id)
    case None => Err(ResourceNotFound)
    case Some(e) => if !e.activo then Err(ResourceNotFound) else Ok(VistaEstudiante(e))
  }

  /** With distinct keys, the lookup by key succeeds exactly for an active stored person,
      and then shows that person. */
  lemma ObtenerEstudiantePorIdActivo(t: Tablas, id: int)
    requires ER.IdsCrecientes(t.personas)
    ensures ObtenerEstudiantePorId(t, id).Ok? <==> exists e | e in t.personas :: e.id == id && e.activo
    ensures forall e | e in t.personas && e.id == id && e.activo ::
      ObtenerEstudiantePorId(t, id) == Ok(VistaEstudiante(e))
  {
    forall e | e in t.personas && e.id == id
      ensures ER.FindById(t.personas, id) == Some(e)
    {
      ER.FindByIdUnico(t.personas, e);
    }
  }

  /** `obtenerEstudiantePorEmail`: NotFound for a missing or an inactive person. */
  function ObtenerEstudiantePorEmail(t: Tablas, email: Option<string>): (r: Result<EstudianteVista>)
    ensures r.Err? ==> r.error == ResourceNotFound
    ensures r.Ok? ==> r.value.email == email && r.value.activo == Some(true)
  {
    match ER.FindByEmail(t.personas, email)
    case None => Err(ResourceNotFound)
    case Some(e) => if !e.activo then Err(ResourceNotFound) else Ok(VistaEstudiante(e))
  }

  /** With the unique email column, the lookup by email succeeds exactly for an active
      stored person with that email, and then shows that person. */
  lemma ObtenerEstudiantePorEmailActivo(t: Tablas, email: Option<string>)
    requires ER.EmailsUnicos(t.personas)
    ensures ObtenerEstudiantePorEmail(t, email).Ok? <==> exists e | e in t.personas :: e.email == email && e.activo
    ensures forall e | e in t.personas && e.email == email && e.activo ::
      ObtenerEstudiantePorEmail(t, email) == Ok(VistaEstudiante(e))
  {
    forall e | e in t.personas && e.email == email
      ensures ER.FindByEmail(t.personas, email) == Some(e)
    {
      var k :| 0 <= k < |t.personas| && t.personas[k] == e;
      ER.FindByEmailUnico(t.personas, email, k);
    }
  }

  // ------------------------------------------------------------------ access

  /** `puedeEditarEstudiante`: true for an admin without any lookup; for any other role
      (the role is not checked further) NotFound for a missing person, otherwise whether
      the person's email is the caller's. */
  function PuedeEditarEstudiante(t: Tablas, email: Option<string>, id: int, rol: Rol): (r: Result<bool>)
    ensures rol == ADMIN ==> r == Ok(true)
    ensures r.Err? <==> rol != ADMIN && !ExistePersona(t.personas, id)
    ensures r.Err? ==> r.error == ResourceNotFound
    ensures rol != ADMIN && r.Ok? ==> r.value == Igual(EmailDe(t.personas, id), email)
  {
    if rol == ADMIN then Ok(true)
    else
      match ER.FindById(t.personas, id)
      case None => Err(ResourceNotFound)
      case Some(e) => Ok(Igual(e.email, email))
  }

  /** With distinct keys and unique emails, a caller who is not an admin may edit only
      the stored person who has the caller's own email. */
  lemma PuedeEditarSoloASiMismo(t: Tablas, email: Option<string>, id: int, rol: Rol)
    requires ER.IdsCrecientes(t.personas) && ER.EmailsUnicos(t.personas)
    requires rol != ADMIN
    ensures PuedeEditarEstudiante(t, email, id, rol) == Ok(true) <==>
      exists e | e in t.personas :: e.id == id && e.email == email && email.Some?
  {
    forall e | e in t.personas && e.id == id
      ensures ER.FindById(t.personas, id) == Some(e)
    {
      ER.FindByIdUnico(t.personas, e);
    }
  }

  // ------------------------------------------------------------------ students of a course

  /** The student of each grade, in grade order (one per grade, repeats included). */
  function EstudiantesDe(p: seq<Estudiante>, cs: seq<Calificacion>): (r: seq<Estudiante>)
    ensures forall e | e in r :: e in p && exists c | c in cs :: c.estudianteId == e.id
    ensures forall c | c in cs && ER.FindById(p, c.estudianteId).Some? ::
      ER.FindById(p, c.estudianteId).value in r
  {
    if cs == [] then []
    else
      var resto := EstudiantesDe(p, cs[1..]);
      assert forall c | c in cs[1..] :: c in cs;
      assert forall c | c in cs :: c == cs[0] || c in cs[1..];
      match ER.FindById(p, cs[0].estudianteId)
      case None => resto
      case Some(e) => [e] + resto
  }

  /** The active students, without repeats, holding a grade in that course: the grades
      mapped to their students, then `distinct()`, then the filter on `activo`. */
  function AlumnosDeMateria(t: Tablas, materiaId: int): (r: seq<Estudiante>)
    ensures forall i, j | 0 <= i < j < |r| :: r[i] != r[j]
    ensures forall e | e in r :: e in t.personas && e.activo
    ensures forall e | e in r :: exists c | c in t.calificaciones :: c.materiaId == materiaId && c.estudianteId == e.id
  {
    var s := Distinct(EstudiantesDe(t.personas, CR.FindByMateriaId(t.calificaciones, materiaId)));
    FilterSinRepetidos(s, (e: Estudiante) => e.activo);
    Filter(s, (e: Estudiante) => e.activo)
  }

  /** `obtenerEstudiantesDeMateria`: NotFound unless the course exists and is taught by
      that teacher; then the views of the course's active students, without repeats. A
      course without a teacher would dereference null, so the caller must not pass one. */
  function ObtenerEstudiantesDeMateria(t: Tablas, materiaId: int, profesorId: int): (r: Result<seq<EstudianteVista>>)
    requires MR.FindById(t.materias, materiaId).Some? ==> MR.FindById(t.materias, materiaId).value.profesorId.Some?
    ensures r.Err? ==> r.error == ResourceNotFound
    ensures r.Ok? <==> (exists m | m in t.materias ::
      m.id == materiaId && m.profesorId == Some(profesorId) && m == MR.FindById(t.materias, materiaId).value)
    ensures r.Ok? ==> forall v | v in r.value :: v.activo == Some(true)
  {
    match MR.FindById(t.materias, materiaId)
    case None => Err(ResourceNotFound)
    case Some(m) =>
      if m.profesorId.value != profesorId then Err(ResourceNotFound)
      else
        var s := AlumnosDeMateria(t, materiaId);
        EnVistas(s);
        Ok(Vistas(s))
  }

  /** In a consistent store the list holds exactly the active persons with a grade in
      the course, and no person twice. */
  lemma EstudiantesDeMateriaExactos(t: Tablas, materiaId: int, profesorId: int)
    requires Consistentes(t)
    requires MR.FindById(t.materias, materiaId).Some? ==> MR.FindById(t.materias, materiaId).value.profesorId.Some?
    requires ObtenerEstudiantesDeMateria(t, materiaId, profesorId).Ok?
    ensures var r := ObtenerEstudiantesDeMateria(t, materiaId, profesorId).value;
      && (forall i, j | 0 <= i < j < |r| :: r[i] != r[j])
      && (forall e | e in t.personas ::
            VistaEstudiante(e) in r <==>
              e.activo && exists c | c in t.calificaciones :: c.materiaId == materiaId && c.estudianteId == e.id)
  {
    AlumnosDeMateriaExactos(t, materiaId);
  }

  /** In a consistent store the views of a course's students are exactly the active
      persons with a grade in the course, none twice. */
  lemma AlumnosDeMateriaExactos(t: Tablas, materiaId: int)
    requires Consistentes(t)
    ensures var r := Vistas(AlumnosDeMateria(t, materiaId));
      && (forall i, j | 0 <= i < j < |r| :: r[i] != r[j])
      && (forall e | e in t.personas ::
            VistaEstudiante(e) in r <==>
              e.activo && exists c | c in t.calificaciones :: c.materiaId == materiaId && c.estudianteId == e.id)
  {
    var s := AlumnosDeMateria(t, materiaId);
    var r := Vistas(s);
    var g := CR.FindByMateriaId(t.calificaciones, materiaId);
    var u := EstudiantesDe(t.personas, g);
    EnVistas(s);
    forall i, j | 0 <= i < j < |r|
      ensures r[i] != r[j]
    {
      assert s[i] in t.personas && s[j] in t.personas;
      ER.FindByIdUnico(t.personas, s[i]);
      ER.FindByIdUnico(t.personas, s[j]);
    }
    forall e | e in t.personas && e.activo && exists c | c in t.calificaciones :: c.materiaId == materiaId && c.estudianteId == e.id
      ensures VistaEstudiante(e) in r
    {
      var c :| c in t.calificaciones && c.materiaId == materiaId && c.estudianteId == e.id;
      assert c in g;
      ER.FindByIdUnico(t.personas, e);
      assert e in u;
      assert e in Distinct(u);
    }
    forall e | e in t.personas && VistaEstudiante(e) in r
      ensures e in s
    {
      var x :| x in s && VistaEstudiante(e) == VistaEstudiante(x);
      ER.FindByIdUnico(t.personas, e);
      ER.FindByIdUnico(t.personas, x);
    }
  }

  // ------------------------------------------------------------------ writes

  /** Saving the person at row `i` after its setters ran: an unchanged entity is not
      flushed; a changed one is validated (on day `hoy`) and stamped by `@PreUpdate`. The
      saved value is the one the response is built from, before the stamp. */
  function GuardarPersona(t: Tablas, i: nat, nueva: Estudiante, hoy: int, ahora: int): (r: Result<Cambio<Estudiante>>)
    requires i < |t.personas|
    ensures r.Err? ==> r.error == ConstraintViolation
    ensures r.Err? <==> nueva != t.personas[i] && !EstudianteValido(nueva, hoy)
    ensures r.Ok? ==>
      && r.value.registro == nueva
      && |r.value.tablas.personas| == |t.personas|
      && r.value.tablas == t.(personas := t.personas[i := r.value.tablas.personas[i]])
      && r.value.tablas.personas[i].(fechaActualizacion := nueva.fechaActualizacion) == nueva
  {
    if nueva == t.personas[i] then Ok(Cambio(t, nueva))
    else if !EstudianteValido(nueva, hoy) then Err(ConstraintViolation)
    else Ok(Cambio(t.(personas := t.personas[i := EstudiantePreUpdate(nueva, ahora)]), nueva))
  }

  /** `crearEstudiante`: Duplicate if the email is taken (checked first), then if the
      cédula is; otherwise a new person with the request's fields, the encoded password
      and the role ESTUDIANTE, validated when it is inserted. */
  function CrearEstudiante(t: Tablas, d: EstudianteRequestDTO, codificar: string -> string, hoy: int, ahora: int): (r: Result<Cambio<Estudiante>>)
    ensures r.Err? ==> r.error in {DuplicateResource, IllegalArgument, ConstraintViolation}
    ensures r.Ok? ==>
      var e := r.value.registro;
      && r.value.tablas == t.(personas := t.personas + [e], sigPersona := t.sigPersona + 1)
      && e.id == t.sigPersona && e.rol == ESTUDIANTE && e.activo
      && e.nombre == d.nombre && e.apellido == d.apellido && e.email == d.email && e.cedula == d.cedula
      && e.carrera == d.carrera && e.semestre == d.semestre && e.fechaNacimiento == d.fechaNacimiento
      && e.telefono == d.telefono && e.direccion == d.direccion
      && d.password.Some? && e.password == Some(codificar(d.password.value))
      && e.fechaCreacion == ahora && e.fechaActualizacion.None?
      && EstudianteValido(e, hoy)
  {
    match NuevaPersona(t, d, codificar, hoy, ahora)
    case Err(x) => Err(x)
    case Ok(e) => Ok(Cambio(t.(personas := t.personas + [e], sigPersona := t.sigPersona + 1), e))
  }

  /** The checks of `crearEstudiante` in their order, and the person it inserts (under
      the key the store hands out next). Encoding a null password is an
      IllegalArgument. */
  function NuevaPersona(t: Tablas, d: EstudianteRequestDTO, codificar: string -> string, hoy: int, ahora: int): Result<Estudiante> {
    if ER.ExistsByEmail(t.personas, d.email) then Err(DuplicateResource)
    else if ER.ExistsByCedula(t.personas, d.cedula) then Err(DuplicateResource)
    else if d.password.None? then Err(IllegalArgument)
    else
      var e := NuevoEstudiante(t.sigPersona, d.nombre, d.apellido, d.email, d.cedula, d.carrera,
        d.semestre, d.fechaNacimiento, d.telefono, d.direccion, Some(codificar(d.password.value)), ahora);
      if !EstudianteValido(e, hoy) then Err(ConstraintViolation) else Ok(e)
  }

  /** A taken email or a taken cédula is refused as Duplicate, and a created person's
      email and cédula were free. */
  lemma CrearEstudianteDuplicado(t: Tablas, d: EstudianteRequestDTO, codificar: string -> string, hoy: int, ahora: int)
    ensures var r := CrearEstudiante(t, d, codificar, hoy, ahora);
      && (ER.ExistsByEmail(t.personas, d.email) ==> r == Err(DuplicateResource))
      && (ER.ExistsByCedula(t.personas, d.cedula) ==> r == Err(DuplicateResource))
      && (r.Ok? ==> !ER.ExistsByEmail(t.personas, d.email) && !ER.ExistsByCedula(t.personas, d.cedula))
  {
  }

  /** A body that passed `@Valid`, with an encoder whose hashes are at least six
      non-blank characters, fails only on a taken email or cédula. */
  lemma CrearEstudianteValido(t: Tablas, d: EstudianteRequestDTO, codificar: string -> string, hoy: int, ahora: int)
    requires EstudianteRequestValida(d, hoy)
    requires !Blank(codificar(d.password.value)) && |codificar(d.password.value)| >= 6
    ensures CrearEstudiante(t, d, codificar, hoy, ahora).Ok? <==>
      !ER.ExistsByEmail(t.personas, d.email) && !ER.ExistsByCedula(t.personas, d.cedula)
  {
  }

  /** A successful creation keeps every constraint of the store. */
  lemma CrearEstudianteConserva(t: Tablas, d: EstudianteRequestDTO, codificar: string -> string, hoy: int, ahora: int)
    requires Consistentes(t)
    requires CrearEstudiante(t, d, codificar, hoy, ahora).Ok?
    ensures Consistentes(CrearEstudiante(t, d, codificar, hoy, ahora).value.tablas)
  {
    InsertarPersonaConserva(t, CrearEstudiante(t, d, codificar, hoy, ahora).value.registro);
  }

  /** The row of an active person with that key; NotFound for a missing or an inactive
      one. */
  function PersonaActiva(t: Tablas, id: int): (r: Result<nat>)
    ensures r.Err? ==> r.error == ResourceNotFound
    ensures r.Ok? ==> r.value < |t.personas| && t.personas[r.value].id == id && t.personas[r.value].activo
    ensures r.Err? <==> ER.FindById(t.personas, id).None? || !ER.FindById(t.personas, id).value.activo
  {
    match ER.Posicion(t.personas, id)
    case None => Err(ResourceNotFound)
    case Some(i) => if !t.personas[i].activo then Err(ResourceNotFound) else Ok(i)
  }

  /** The stored person after the update's setters: the request's fields, and a newly
      encoded password only when the request carries a non-blank one. */
  function ConDatos(e: Estudiante, d: EstudianteRequestDTO, codificar: string -> string): Estudiante {
    e.(nombre := d.nombre, apellido := d.apellido, email := d.email, cedula := d.cedula,
       carrera := d.carrera, semestre := d.semestre, fechaNacimiento := d.fechaNacimiento,
       telefono := d.telefono, direccion := d.direccion,
       password := if d.password.Some? && !Blank(d.password.value) then Some(codificar(d.password.value))
                   else e.password)
  }

  /** `actualizarEstudiante`: NotFound for a missing or inactive person; Duplicate for
      an email, then a cédula, that changed and is taken; then the setters and the save. */
  function ActualizarEstudiante(t: Tablas, id: int, d: EstudianteRequestDTO, codificar: string -> string, hoy: int, ahora: int): (r: Result<Cambio<Estudiante>>)
    ensures r.Err? ==> r.error in {ResourceNotFound, DuplicateResource, ConstraintViolation}
    ensures r.Ok? ==>
      && r.value.tablas.materias == t.materias && r.value.tablas.calificaciones == t.calificaciones
      && |r.value.tablas.personas| == |t.personas|
      && var e := r.value.registro;
      && e.id == id && e.activo
      && e.nombre == d.nombre && e.apellido == d.apellido && e.email == d.email && e.cedula == d.cedula
      && e.carrera == d.carrera && e.semestre == d.semestre && e.fechaNacimiento == d.fechaNacimiento
      && e.telefono == d.telefono && e.direccion == d.direccion
    ensures r.Ok? ==>
      && ER.Posicion(t.personas, id).Some?
      && var i := ER.Posicion(t.personas, id).value;
      && r.value.tablas == t.(personas := t.personas[i := r.value.tablas.personas[i]])
      && (r.value.registro == t.personas[i] ==> r.value.tablas == t)
      && (r.value.registro != t.personas[i] ==>
            r.value.tablas.personas[i] == EstudiantePreUpdate(r.value.registro, ahora))
  {
    match PersonaActiva(t, id)
    case Err(x) => Err(x)
    case Ok(i) =>
      if ClaveOcupada(t, i, d) then Err(DuplicateResource)
      else GuardarPersona(t, i, ConDatos(t.personas[i], d, codificar), hoy, ahora)
  }

  /** The update's uniqueness checks on row `i`: a new email that some person has, or
      else a new cédula that some person has. */
  predicate ClaveOcupada(t: Tablas, i: nat, d: EstudianteRequestDTO)
    requires i < |t.personas|
  {
    || (!Igual(t.personas[i].email, d.email) && ER.ExistsByEmail(t.personas, d.email))
    || (!Igual(t.personas[i].cedula, d.cedula) && ER.ExistsByCedula(t.personas, d.cedula))
  }

  /** The update keeps the person's key, role, activity and creation time, and changes
      the password only for a non-blank one; re-sending the stored email and cédula
      never counts as a duplicate. */
  lemma ActualizarEstudianteConservaIdentidad(t: Tablas, id: int, d: EstudianteRequestDTO, codificar: string -> string, hoy: int, ahora: int)
    ensures var r := ActualizarEstudiante(t, id, d, codificar, hoy, ahora);
      && (r == Err(ResourceNotFound) <==>
            ER.FindById(t.personas, id).None? || !ER.FindById(t.personas, id).value.activo)
      && (r.Ok? ==>
            var antes := ER.FindById(t.personas, id).value;
            var e := r.value.registro;
            && e.rol == antes.rol && e.fechaCreacion == antes.fechaCreacion
            && e.fechaActualizacion == antes.fechaActualizacion
            && (d.password.Some? && !Blank(d.password.value) ==> e.password == Some(codificar(d.password.value)))
            && (d.password.None? || Blank(d.password.value) ==> e.password == antes.password))
      && (ER.FindById(t.personas, id).Some? && d.email.Some? && d.cedula.Some?
            && d.email == ER.FindById(t.personas, id).value.email
            && d.cedula == ER.FindById(t.personas, id).value.cedula ==>
          r != Err(DuplicateResource))
  {
  }

  /** A successful update keeps every constraint of the store. */
  lemma ActualizarEstudianteConserva(t: Tablas, id: int, d: EstudianteRequestDTO, codificar: string -> string, hoy: int, ahora: int)
    requires Consistentes(t)
    requires ActualizarEstudiante(t, id, d, codificar, hoy, ahora).Ok?
    ensures Consistentes(ActualizarEstudiante(t, id, d, codificar, hoy, ahora).value.tablas)
  {
    var i := PersonaActiva(t, id).value;
    var nueva := ConDatos(t.personas[i], d, codificar);
    if nueva != t.personas[i] {
      ReemplazarPersonaConserva(t, i, EstudiantePreUpdate(nueva, ahora));
    }
  }

  /** `eliminarEstudiante`: NotFound for a missing person (active or not); otherwise
      the person is marked inactive and saved. */
  function EliminarEstudiante(t: Tablas, id: int, hoy: int, ahora: int): (r: Result<Tablas>)
    ensures r.Err? ==> r.error in {ResourceNotFound, ConstraintViolation}
    ensures r == Err(ResourceNotFound) <==> !ExistePersona(t.personas, id)
    ensures r.Ok? ==>
      && r.value.materias == t.materias && r.value.calificaciones == t.calificaciones
      && |r.value.personas| == |t.personas|
  {
    match ER.Posicion(t.personas, id)
    case None => Err(ResourceNotFound)
    case Some(i) =>
      match GuardarPersona(t, i, t.personas[i].(activo := false), hoy, ahora)
      case Err(x) => Err(x)
      case Ok(c) => Ok(c.tablas)
  }

  /** With distinct keys, deletion marks that person inactive and leaves every other
      field of every row as it was, but for the modification time. */
  lemma EliminarEstudianteSoloDesactiva(t: Tablas, id: int, hoy: int, ahora: int)
    requires ER.IdsCrecientes(t.personas)
    requires EliminarEstudiante(t, id, hoy, ahora).Ok?
    ensures var p := EliminarEstudiante(t, id, hoy, ahora).value.personas;
      forall k | 0 <= k < |p| ::
        && (t.personas[k].id != id ==> p[k] == t.personas[k])
        && (t.personas[k].id == id ==>
              !p[k].activo
              && p[k].(activo := true, fechaActualizacion := None)
                 == t.personas[k].(activo := true, fechaActualizacion := None))
  {
    var i := ER.Posicion(t.personas, id).value;
    forall k | 0 <= k < |t.personas| && k != i
      ensures t.personas[k].id != id
    {
      if k < i { assert t.personas[k].id < t.personas[i].id; }
      if k > i { assert t.personas[i].id < t.personas[k].id; }
    }
  }

  /** Deleting twice is deleting once: the second save finds the person already
      inactive and changes nothing. */
  lemma EliminarEstudianteIdempotente(t: Tablas, id: int, hoy: int, ahora: int)
    requires EliminarEstudiante(t, id, hoy, ahora).Ok?
    ensures var t2 := EliminarEstudiante(t, id, hoy, ahora).value;
      EliminarEstudiante(t2, id, hoy, ahora) == Ok(t2)
  {
    var t2 := EliminarEstudiante(t, id, hoy, ahora).value;
    ER.PosicionMismasClaves(t.personas, t2.personas, id);
  }

  /** A successful deletion keeps every constraint of the store. */
  lemma EliminarEstudianteConserva(t: Tablas, id: int, hoy: int, ahora: int)
    requires Consistentes(t)
    requires EliminarEstudiante(t, id, hoy, ahora).Ok?
    ensures Consistentes(EliminarEstudiante(t, id, hoy, ahora).value)
  {
    var i := ER.Posicion(t.personas, id).value;
    var nueva := t.personas[i].(activo := false);
    if nueva != t.personas[i] {
      ReemplazarPersonaConserva(t, i, EstudiantePreUpdate(nueva, ahora));
    }
  }
}
