/** The course catalog (`MateriaService`) as functions of the tables. The list reads
    show active courses only, while the lookups by key and by code ignore `activa`;
    each write gives either an error or the tables after it. `MateriaServicio` carries
    the writes out on the store. */
module MateriaReglas {
  import opened Comun
  import opened Entidades
  import opened DtoSolicitud
  import opened DtoRespuesta
  import opened BaseDatos
  import ER = EstudianteRepositorio
  import MR = MateriaRepositorio

  // ------------------------------------------------------------------ conversion

  /** `convertirAResponseDTO`: the course's fields, its full name, and its teacher's key
      and full name when the course has a teacher. */
  function VistaMateria(t: Tablas, m: Materia): (v: MateriaVista)
    ensures v.id == Some(m.id) && v.codigo == m.codigo && v.nombre == m.nombre
    ensures v.activa == Some(m.activa)
    ensures v.nombreCompleto == Some(MateriaNombreCompleto(m))
    ensures v.profesorId.Some? ==> v.profesorId == m.profesorId && v.nombreProfesor.Some?
    ensures v.profesorId.None? ==> v.nombreProfesor.None?
  {
    VistaDe(m, if m.profesorId.Some? then ER.FindById(t.personas, m.profesorId.value) else None)
  }

  /** The view of a course once its teacher, if any, has been looked up. */
  function VistaDe(m: Materia, profesor: Option<Estudiante>): MateriaVista {
    MateriaVista(Some(m.id), m.nombre, m.codigo, m.descripcion, m.creditos, m.semestre, m.carrera,
      if profesor.Some? then Some(NombreCompleto(profesor.value)) else None,
      if profesor.Some? then Some(profesor.value.id) else None,
      Some(m.activa), Some(m.fechaCreacion), m.fechaActualizacion, Some(MateriaNombreCompleto(m)))
  }

  /** In a consistent store every course with a teacher shows that teacher. */
  lemma VistaMateriaResuelta(t: Tablas, m: Materia)
    requires Consistentes(t) && m in t.materias
    ensures VistaMateria(t, m).profesorId == m.profesorId
  {
  }

  /** The views of a list of courses, in the same order. */
  function Vistas(t: Tablas, s: seq<Materia>): (r: seq<MateriaVista>)
    ensures |r| == |s|
    ensures forall i | 0 <= i < |s| :: r[i] == VistaMateria(t, s[i])
  {
    seq(|s|, i requires 0 <= i < |s| => VistaMateria(t, s[i]))
  }

  /** A view is in the list of views exactly when the list holds a course with that
      view. */
  lemma EnVistas(t: Tablas, s: seq<Materia>)
    ensures forall m | m in s :: VistaMateria(t, m) in Vistas(t, s)
    ensures forall v | v in Vistas(t, s) :: exists m | m in s :: v == VistaMateria(t, m)
  {
    forall m | m in s
      ensures VistaMateria(t, m) in Vistas(t, s)
    {
      var k :| 0 <= k < |s| && s[k] == m;
      assert Vistas(t, s)[k] == VistaMateria(t, m);
    }
    forall v | v in Vistas(t, s)
      ensures exists m | m in s :: v == VistaMateria(t, m)
    {
      var k :| 0 <= k < |Vistas(t, s)| && Vistas(t, s)[k] == v;
      assert s[k] in s;
    }
  }

  // ------------------------------------------------------------------ reads

  /** `obtenerTodasLasMaterias`: exactly the active courses. */
  function ObtenerTodasLasMaterias(t: Tablas): (r: seq<MateriaVista>)
    ensures forall v | v in r :: v.activa == Some(true)
    ensures forall m | m in t.materias :: VistaMateria(t, m) in r <==> m.activa
  {
    EnVistas(t, MR.FindByActivaTrue(t.materias));
    Vistas(t, MR.FindByActivaTrue(t.materias))
  }

  /** `obtenerMateriaPorId`: NotFound only for a missing key; an inactive course is
      still returned. */
  function ObtenerMateriaPorId(t: Tablas, id: int): (r: Result<MateriaVista>)
    ensures r.Err? ==> r.error == ResourceNotFound
    ensures r.Err? <==> !ExisteMateria(t.materias, id)
    ensures r.Ok? ==> r.value.id == Some(id)
  {
    match MR.FindById(t.materias, id)
    case None => Err(ResourceNotFound)
    case Some(m) => Ok(VistaMateria(t, m))
  }

  /** `obtenerMateriaPorCodigo`: NotFound only when no course, active or not, has that
      code. */
  function ObtenerMateriaPorCodigo(t: Tablas, codigo: Option<string>): (r: Result<MateriaVista>)
    ensures r.Err? ==> r.error == ResourceNotFound
    ensures r.Err? <==> !MR.ExistsByCodigo(t.materias, codigo)
    ensures r.Ok? ==> r.value.codigo == codigo
  {
    match MR.FindByCodigo(t.materias, codigo)
    case None => Err(ResourceNotFound)
    case Some(m) => Ok(VistaMateria(t, m))
  }

  /** `buscarPorCarrera`: the active courses of that career. */
  function BuscarPorCarrera(t: Tablas, carrera: string): (r: seq<MateriaVista>)
    ensures forall v | v in r :: v.activa == Some(true)
    ensures forall m | m in t.materias :: VistaMateria(t, m) in r <==> m.activa && m.carrera == Some(carrera)
  {
    var s := MR.FindByActivaTrue(MR.FindByCarrera(t.materias, carrera));
    EnVistas(t, s);
    Vistas(t, s)
  }

  /** `buscarPorSemestre`: the active courses of that semester. */
  function BuscarPorSemestre(t: Tablas, semestre: int): (r: seq<MateriaVista>)
    ensures forall v | v in r :: v.activa == Some(true) && v.semestre == Some(semestre)
    ensures forall m | m in t.materias :: VistaMateria(t, m) in r <==> m.activa && m.semestre == Some(semestre)
  {
    var s := MR.FindByActivaTrue(MR.FindBySemestre(t.materias, semestre));
    EnVistas(t, s);
    Vistas(t, s)
  }

  /** `buscarPorCarreraYSemestre`: the active courses of that career and semester. */
  function BuscarPorCarreraYSemestre(t: Tablas, carrera: string, semestre: int): (r: seq<MateriaVista>)
    ensures forall v | v in r :: v.activa == Some(true) && v.semestre == Some(semestre)
    ensures forall m | m in t.materias ::
      VistaMateria(t, m) in r <==> m.activa && m.carrera == Some(carrera) && m.semestre == Some(semestre)
  {
    var s := MR.FindByActivaTrue(MR.FindByCarreraAndSemestre(t.materias, carrera, semestre));
    EnVistas(t, s);
    Vistas(t, s)
  }

  /** `buscarPorProfesor`: the teacher's active courses (the query filters on `activa`). */
  function BuscarPorProfesor(t: Tablas, profesorId: int): (r: seq<MateriaVista>)
    ensures forall v | v in r :: v.activa == Some(true) && v.profesorId in {None, Some(profesorId)}
    ensures forall m | m in t.materias && m.activa && m.profesorId == Some(profesorId) :: VistaMateria(t, m) in r
  {
    var s := MR.FindMateriasByProfesorId(t.materias, profesorId);
    EnVistas(t, s);
    Vistas(t, s)
  }

  /** In a consistent store the teacher's list holds exactly the views of that
      teacher's active courses. */
  lemma BuscarPorProfesorExacto(t: Tablas, profesorId: int)
    requires Consistentes(t)
    ensures forall m | m in t.materias ::
      VistaMateria(t, m) in BuscarPorProfesor(t, profesorId) <==> m.activa && m.profesorId == Some(profesorId)
  {
    var s := MR.FindMateriasByProfesorId(t.materias, profesorId);
    EnVistas(t, s);
    forall m | m in t.materias && VistaMateria(t, m) in BuscarPorProfesor(t, profesorId)
      ensures m.profesorId == Some(profesorId)
    {
      var m2 :| m2 in s && VistaMateria(t, m) == VistaMateria(t, m2);
      VistaMateriaResuelta(t, m);
      VistaMateriaResuelta(t, m2);
    }
  }

  /** `buscarPorNombre`: the active courses whose name contains the text, ignoring case. */
  function BuscarPorNombre(t: Tablas, q: string): (r: seq<MateriaVista>)
    ensures forall v | v in r :: v.activa == Some(true)
    ensures forall m | m in t.materias :: VistaMateria(t, m) in r <==> MR.NombreContiene(m, q)
  {
    var s := MR.FindByNombreContainingIgnoreCase(t.materias, q);
    EnVistas(t, s);
    Vistas(t, s)
  }

  /** `buscarPorCodigo`: the active courses whose code contains the text, ignoring case. */
  function BuscarPorCodigo(t: Tablas, q: string): (r: seq<MateriaVista>)
    ensures forall v | v in r :: v.activa == Some(true)
    ensures forall m | m in t.materias :: VistaMateria(t, m) in r <==> MR.CodigoContiene(m, q)
  {
    var s := MR.FindByCodigoContainingIgnoreCase(t.materias, q);
    EnVistas(t, s);
    Vistas(t, s)
  }

  // ------------------------------------------------------------------ access

  /** `puedeEditarMateria`: true for an admin, false for a student; for a teacher
      NotFound for a missing course, otherwise whether the course has a teacher whose
      email is the caller's. */
  function PuedeEditarMateria(t: Tablas, email: Option<string>, id: int, rol: Rol): (r: Result<bool>)
    ensures rol == ADMIN ==> r == Ok(true)
    ensures rol == ESTUDIANTE ==> r == Ok(false)
    ensures r.Err? <==> rol == PROFESOR && !ExisteMateria(t.materias, id)
    ensures r.Err? ==> r.error == ResourceNotFound
    ensures rol == PROFESOR && r.Ok? ==>
      var m := MR.FindById(t.materias, id).value;
      r.value == (m.profesorId.Some? && Igual(EmailDe(t.personas, m.profesorId.value), email))
  {
    if rol == ADMIN then Ok(true)
    else if rol == PROFESOR then
      match MR.FindById(t.materias, id)
      case None => Err(ResourceNotFound)
      case Some(m) => Ok(m.profesorId.Some? && Igual(EmailDe(t.personas, m.profesorId.value), email))
    else Ok(false)
  }

  /** In a consistent store a teacher may edit a course exactly when the stored teacher
      with the caller's email is the course's teacher. */
  lemma PuedeEditarMateriaSoloSuProfesor(t: Tablas, email: Option<string>, id: int)
    requires Consistentes(t)
    requires ExisteMateria(t.materias, id)
    ensures PuedeEditarMateria(t, email, id, PROFESOR) == Ok(true) <==>
      exists p | p in t.personas :: p.email == email && email.Some? && p.rol == PROFESOR
        && MR.FindById(t.materias, id).value.profesorId == Some(p.id)
  {
    var m := MR.FindById(t.materias, id).value;
    if m.profesorId.Some? {
      assert EsProfesor(t.personas, m.profesorId.value);
      forall p | p in t.personas && p.id == m.profesorId.value
        ensures ER.FindById(t.personas, p.id) == Some(p)
      {
        ER.FindByIdUnico(t.personas, p);
      }
    }
  }

  // ------------------------------------------------------------------ writes

  /** The teacher a create or update assigns: none for a null `profesorId`; NotFound
      for a missing person and IllegalArgument for a person who is not a PROFESOR. */
  function ProfesorAsignado(t: Tablas, profesorId: Option<int>): (r: Result<Option<int>>)
    ensures r.Err? ==> r.error in {ResourceNotFound, IllegalArgument}
    ensures r == Err(ResourceNotFound) <==> profesorId.Some? && !ExistePersona(t.personas, profesorId.value)
    ensures r.Ok? ==> r.value == profesorId
    ensures r.Ok? && profesorId.Some? ==> EsProfesor(t.personas, profesorId.value)
  {
    match profesorId
    case None => Ok(None)
    case Some(id) =>
      match ER.FindById(t.personas, id)
      case None => Err(ResourceNotFound)
      case Some(p) => if p.rol != PROFESOR then Err(IllegalArgument) else Ok(Some(id))
  }

  /** With distinct person keys, a teacher is accepted exactly when none is given or the
      given key is a stored PROFESOR's. */
  lemma ProfesorAsignadoExito(t: Tablas, profesorId: Option<int>)
    requires ER.IdsCrecientes(t.personas)
    ensures ProfesorAsignado(t, profesorId).Ok? <==>
      profesorId.None? || EsProfesor(t.personas, profesorId.value)
  {
    if profesorId.Some? && EsProfesor(t.personas, profesorId.value) {
      var p :| p in t.personas && p.id == profesorId.value && p.rol == PROFESOR;
      ER.FindByIdUnico(t.personas, p);
    }
  }

  /** `crearMateria`: Duplicate for a taken code, then the teacher check; the new course
      is active, has the request's fields and teacher, and is validated when inserted. */
  function CrearMateria(t: Tablas, d: MateriaRequestDTO, ahora: int): (r: Result<Cambio<Materia>>)
    ensures r.Err? ==> r.error in {DuplicateResource, ResourceNotFound, IllegalArgument, ConstraintViolation}
    ensures r.Ok? ==>
      var m := r.value.registro;
      && r.value.tablas == t.(materias := t.materias + [m], sigMateria := t.sigMateria + 1)
      && m.id == t.sigMateria && m.activa
      && m.nombre == d.nombre && m.codigo == d.codigo && m.descripcion == d.descripcion
      && m.creditos == d.creditos && m.semestre == d.semestre && m.carrera == d.carrera
      && m.profesorId == d.profesorId
      && m.fechaCreacion == ahora && m.fechaActualizacion.None?
      && MateriaValida(m)
  {
    match NuevaMateria(t, d, ahora)
    case Err(x) => Err(x)
    case Ok(m) => Ok(Cambio(t.(materias := t.materias + [m], sigMateria := t.sigMateria + 1), m))
  }

  /** The checks of `crearMateria` in their order, and the course it inserts under the
      key the store hands out next. */
  function NuevaMateria(t: Tablas, d: MateriaRequestDTO, ahora: int): Result<Materia> {
    if MR.ExistsByCodigo(t.materias, d.codigo) then Err(DuplicateResource)
    else
      match ProfesorAsignado(t, d.profesorId)
      case Err(x) => Err(x)
      case Ok(p) =>
        var m := Materia(t.sigMateria, d.nombre, d.codigo, d.descripcion, d.creditos, d.semestre,
          d.carrera, p, true, ahora, None);
        if !MateriaValida(m) then Err(ConstraintViolation) else Ok(m)
  }

  /** A taken code is Duplicate before the teacher is looked at; a free code with a
      missing teacher is NotFound; a created course's teacher is a stored PROFESOR. */
  lemma CrearMateriaOrden(t: Tablas, d: MateriaRequestDTO, ahora: int)
    ensures var r := CrearMateria(t, d, ahora);
      && (MR.ExistsByCodigo(t.materias, d.codigo) ==> r == Err(DuplicateResource))
      && ((!MR.ExistsByCodigo(t.materias, d.codigo) && d.profesorId.Some?
             && !ExistePersona(t.personas, d.profesorId.value)) ==> r == Err(ResourceNotFound))
      && (r.Ok? && d.profesorId.Some? ==> EsProfesor(t.personas, d.profesorId.value))
  {
  }

  /** A valid body with a free code and no teacher, or a stored PROFESOR as teacher,
      always creates the course. */
  lemma CrearMateriaValida(t: Tablas, d: MateriaRequestDTO, ahora: int)
    requires ER.IdsCrecientes(t.personas)
    requires MateriaRequestValida(d)
    ensures CrearMateria(t, d, ahora).Ok? <==>
      && !MR.ExistsByCodigo(t.materias, d.codigo)
      && (d.profesorId.None? || EsProfesor(t.personas, d.profesorId.value))
  {
    ProfesorAsignadoExito(t, d.profesorId);
  }

  /** A successful creation keeps every constraint of the store. */
  lemma CrearMateriaConserva(t: Tablas, d: MateriaRequestDTO, ahora: int)
    requires Consistentes(t)
    requires CrearMateria(t, d, ahora).Ok?
    ensures Consistentes(CrearMateria(t, d, ahora).value.tablas)
  {
    InsertarMateriaConserva(t, CrearMateria(t, d, ahora).value.registro);
  }

  /** Saving the course at row `i` after its setters ran: an unchanged entity is not
      flushed; a changed one is validated and stamped by `@PreUpdate`. */
  function GuardarMateria(t: Tablas, i: nat, nueva: Materia, ahora: int): (r: Result<Cambio<Materia>>)
    requires i < |t.materias|
    ensures r.Err? ==> r.error == ConstraintViolation
    ensures r.Err? <==> nueva != t.materias[i] && !MateriaValida(nueva)
    ensures r.Ok? ==>
      && r.value.registro == nueva
      && |r.value.tablas.materias| == |t.materias|
      && r.value.tablas == t.(materias := t.materias[i := r.value.tablas.materias[i]])
      && r.value.tablas.materias[i].(fechaActualizacion := nueva.fechaActualizacion) == nueva
  {
    if nueva == t.materias[i] then Ok(Cambio(t, nueva))
    else if !MateriaValida(nueva) then Err(ConstraintViolation)
    else Ok(Cambio(t.(materias := t.materias[i := MateriaPreUpdate(nueva, ahora)]), nueva))
  }

  /** The stored course after the update's setters: the request's fields and teacher. */
  function ConDatos(m: Materia, d: MateriaRequestDTO, profesorId: Option<int>): Materia {
    m.(nombre := d.nombre, codigo := d.codigo, descripcion := d.descripcion, creditos := d.creditos,
       semestre := d.semestre, carrera := d.carrera, profesorId := profesorId)
  }

  /** `actualizarMateria`: NotFound for a missing key (an inactive course is updated
      too), Duplicate for a code that changed and is taken, then the teacher check; a
      null `profesorId` clears the teacher. */
  function ActualizarMateria(t: Tablas, id: int, d: MateriaRequestDTO, ahora: int): (r: Result<Cambio<Materia>>)
    ensures r.Err? ==> r.error in {ResourceNotFound, DuplicateResource, IllegalArgument, ConstraintViolation}
    ensures r.Ok? ==>
      && r.value.tablas.personas == t.personas && r.value.tablas.calificaciones == t.calificaciones
      && |r.value.tablas.materias| == |t.materias|
      && var m := r.value.registro;
      && m.id == id
      && m.nombre == d.nombre && m.codigo == d.codigo && m.descripcion == d.descripcion
      && m.creditos == d.creditos && m.semestre == d.semestre && m.carrera == d.carrera
      && m.profesorId == d.profesorId
    ensures r.Ok? ==>
      && MR.Posicion(t.materias, id).Some?
      && var i := MR.Posicion(t.materias, id).value;
      && r.value.tablas == t.(materias := t.materias[i := r.value.tablas.materias[i]])
      && (r.value.registro == t.materias[i] ==> r.value.tablas == t)
      && (r.value.registro != t.materias[i] ==>
            r.value.tablas.materias[i] == MateriaPreUpdate(r.value.registro, ahora))
  {
    match MR.Posicion(t.materias, id)
    case None => Err(ResourceNotFound)
    case Some(i) =>
      if !Igual(t.materias[i].codigo, d.codigo) && MR.ExistsByCodigo(t.materias, d.codigo) then
        Err(DuplicateResource)
      else
        match ProfesorAsignado(t, d.profesorId)
        case Err(x) => Err(x)
        case Ok(p) => GuardarMateria(t, i, ConDatos(t.materias[i], d, p), ahora)
  }

  /** The update finds the course by key whether it is active or not, keeps its
      activity and creation time, and re-sending the stored code is never a duplicate. */
  lemma ActualizarMateriaConservaIdentidad(t: Tablas, id: int, d: MateriaRequestDTO, ahora: int)
    ensures var r := ActualizarMateria(t, id, d, ahora);
      && (r == Err(ResourceNotFound) <==>
            !ExisteMateria(t.materias, id)
            || (d.profesorId.Some? && !ExistePersona(t.personas, d.profesorId.value)
                && r != Err(DuplicateResource)))
      && (r.Ok? ==>
            var antes := MR.FindById(t.materias, id).value;
            && r.value.registro.activa == antes.activa
            && r.value.registro.fechaCreacion == antes.fechaCreacion)
      && (ExisteMateria(t.materias, id) && d.codigo.Some?
            && d.codigo == MR.FindById(t.materias, id).value.codigo ==>
          r != Err(DuplicateResource))
  {
  }

  /** A successful update keeps every constraint of the store. */
  lemma ActualizarMateriaConserva(t: Tablas, id: int, d: MateriaRequestDTO, ahora: int)
    requires Consistentes(t)
    requires ActualizarMateria(t, id, d, ahora).Ok?
    ensures Consistentes(ActualizarMateria(t, id, d, ahora).value.tablas)
  {
    var i := MR.Posicion(t.materias, id).value;
    var nueva := ConDatos(t.materias[i], d, d.profesorId);
    if nueva != t.materias[i] {
      ReemplazarMateriaConserva(t, i, MateriaPreUpdate(nueva, ahora));
    }
  }

  /** `eliminarMateria`: NotFound for a missing key; otherwise the course is marked
      inactive and saved. */
  function EliminarMateria(t: Tablas, id: int, ahora: int): (r: Result<Tablas>)
    ensures r.Err? ==> r.error in {ResourceNotFound, ConstraintViolation}
    ensures r == Err(ResourceNotFound) <==> !ExisteMateria(t.materias, id)
    ensures r.Ok? ==>
      && r.value.personas == t.personas && r.value.calificaciones == t.calificaciones
      && |r.value.materias| == |t.materias|
  {
    match MR.Posicion(t.materias, id)
    case None => Err(ResourceNotFound)
    case Some(i) =>
      match GuardarMateria(t, i, t.materias[i].(activa := false), ahora)
      case Err(x) => Err(x)
      case Ok(c) => Ok(c.tablas)
  }

  /** With distinct keys, deletion marks that course inactive and leaves every other
      field of every row as it was, but for the modification time. */
  lemma EliminarMateriaSoloDesactiva(t: Tablas, id: int, ahora: int)
    requires MR.IdsCrecientes(t.materias)
    requires EliminarMateria(t, id, ahora).Ok?
    ensures var s := EliminarMateria(t, id, ahora).value.materias;
      forall k | 0 <= k < |s| ::
        && (t.materias[k].id != id ==> s[k] == t.materias[k])
        && (t.materias[k].id == id ==>
              !s[k].activa
              && s[k].(activa := true, fechaActualizacion := None)
                 == t.materias[k].(activa := true, fechaActualizacion := None))
  {
    var i := MR.Posicion(t.materias, id).value;
    forall k | 0 <= k < |t.materias| && k != i
      ensures t.materias[k].id != id
    {
      if k < i { assert t.materias[k].id < t.materias[i].id; }
      if k > i { assert t.materias[i].id < t.materias[k].id; }
    }
  }

  /** Deleting twice is deleting once. */
  lemma EliminarMateriaIdempotente(t: Tablas, id: int, ahora: int)
    requires EliminarMateria(t, id, ahora).Ok?
    ensures var t2 := EliminarMateria(t, id, ahora).value;
      EliminarMateria(t2, id, ahora) == Ok(t2)
  {
    var t2 := EliminarMateria(t, id, ahora).value;
    MR.PosicionMismasClaves(t.materias, t2.materias, id);
  }

  /** A successful deletion keeps every constraint of the store. */
  lemma EliminarMateriaConserva(t: Tablas, id: int, ahora: int)
    requires Consistentes(t)
    requires EliminarMateria(t, id, ahora).Ok?
    ensures Consistentes(EliminarMateria(t, id, ahora).value)
  {
    var i := MR.Posicion(t.materias, id).value;
    var nueva := t.materias[i].(activa := false);
    if nueva != t.materias[i] {
      ReemplazarMateriaConserva(t, i, MateriaPreUpdate(nueva, ahora));
    }
  }
}
