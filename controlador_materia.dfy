/** `MateriaController`: each handler as the checks it runs before delegating to
    `MateriaService`, in the order Spring runs them: the `@Valid` body
    (MethodArgumentNotValid), `@PreAuthorize` (AccessDenied), the handler's own guard
    (NotFound), then the service. */
module MateriaControlador {
  import opened Comun
  import opened Entidades
  import opened DtoSolicitud
  import opened DtoRespuesta
  import opened BaseDatos
  import opened Seguridad
  import ER = EstudianteRepositorio
  import MR = MateriaRepositorio
  import R = MateriaReglas

  /** `GET /api/materias`: admins and teachers. */
  function ObtenerTodasLasMaterias(t: Tablas, u: UserDetails): (r: Result<seq<MateriaVista>>)
    ensures r.Err? <==> !HasAnyRole(u, {ADMIN, PROFESOR})
    ensures r.Err? ==> r.error == AccessDenied
    ensures r.Ok? ==> r.value == R.ObtenerTodasLasMaterias(t)
  {
    if !HasAnyRole(u, {ADMIN, PROFESOR}) then Err(AccessDenied) else Ok(R.ObtenerTodasLasMaterias(t))
  }

  /** `POST /api/materias/crear`: admins only. */
  function CrearMateria(t: Tablas, u: UserDetails, d: MateriaRequestDTO, ahora: int): (r: Result<Cambio<Materia>>)
    ensures !MateriaRequestValida(d) ==> r == Err(MethodArgumentNotValid)
    ensures MateriaRequestValida(d) && !HasRole(u, ADMIN) ==> r == Err(AccessDenied)
    ensures MateriaRequestValida(d) && HasRole(u, ADMIN) ==> r == R.CrearMateria(t, d, ahora)
  {
    if !MateriaRequestValida(d) then Err(MethodArgumentNotValid)
    else if !HasRole(u, ADMIN) then Err(AccessDenied)
    else R.CrearMateria(t, d, ahora)
  }

  /** `GET /api/materias/{id}`: any role; only a teacher goes through
      `puedeEditarMateria`, admins and students are not filtered. */
  function ObtenerMateriaPorId(t: Tablas, u: UserDetails, id: int): (r: Result<MateriaVista>)
    ensures u.rol != PROFESOR ==> r == R.ObtenerMateriaPorId(t, id)
    ensures u.rol == PROFESOR ==>
      var p := R.PuedeEditarMateria(t, u.email, id, PROFESOR);
      && (p == Ok(false) ==> r == Err(ResourceNotFound))
      && (p.Err? ==> r == Err(p.error))
      && (p == Ok(true) ==> r == R.ObtenerMateriaPorId(t, id))
  {
    if u.rol == PROFESOR then
      match Permiso(R.PuedeEditarMateria(t, u.email, id, u.rol))
      case Fail(x) => Err(x)
      case Pass => R.ObtenerMateriaPorId(t, id)
    else R.ObtenerMateriaPorId(t, id)
  }

  /** `PUT /api/materias/{id}`: any role, NotFound unless `puedeEditarMateria` says yes;
      only then does the service run. */
  function ActualizarMateria(t: Tablas, u: UserDetails, id: int, d: MateriaRequestDTO, ahora: int): (r: Result<Cambio<Materia>>)
    ensures !MateriaRequestValida(d) ==> r == Err(MethodArgumentNotValid)
    ensures MateriaRequestValida(d) ==>
      var p := R.PuedeEditarMateria(t, u.email, id, u.rol);
      && (p == Ok(false) ==> r == Err(ResourceNotFound))
      && (p.Err? ==> r == Err(p.error))
      && (p == Ok(true) ==> r == R.ActualizarMateria(t, id, d, ahora))
    ensures r.Ok? ==> R.PuedeEditarMateria(t, u.email, id, u.rol) == Ok(true)
  {
    if !MateriaRequestValida(d) then Err(MethodArgumentNotValid)
    else
      match Permiso(R.PuedeEditarMateria(t, u.email, id, u.rol))
      case Fail(x) => Err(x)
      case Pass => R.ActualizarMateria(t, id, d, ahora)
  }

  /** `DELETE /api/materias/{id}`: admins only. */
  function EliminarMateria(t: Tablas, u: UserDetails, id: int, ahora: int): (r: Result<Tablas>)
    ensures !HasRole(u, ADMIN) ==> r == Err(AccessDenied)
    ensures HasRole(u, ADMIN) ==> r == R.EliminarMateria(t, id, ahora)
  {
    if !HasRole(u, ADMIN) then Err(AccessDenied) else R.EliminarMateria(t, id, ahora)
  }

  /** `GET /api/materias/buscar/carrera/{carrera}`: admins and teachers. */
  function BuscarPorCarrera(t: Tablas, u: UserDetails, carrera: string): (r: Result<seq<MateriaVista>>)
    ensures r.Err? <==> !HasAnyRole(u, {ADMIN, PROFESOR})
    ensures r.Err? ==> r.error == AccessDenied
    ensures r.Ok? ==> r.value == R.BuscarPorCarrera(t, carrera)
  {
    if !HasAnyRole(u, {ADMIN, PROFESOR}) then Err(AccessDenied) else Ok(R.BuscarPorCarrera(t, carrera))
  }

  /** `GET /api/materias/buscar/semestre/{semestre}`: admins and teachers. */
  function BuscarPorSemestre(t: Tablas, u: UserDetails, semestre: int): (r: Result<seq<MateriaVista>>)
    ensures r.Err? <==> !HasAnyRole(u, {ADMIN, PROFESOR})
    ensures r.Err? ==> r.error == AccessDenied
    ensures r.Ok? ==> r.value == R.BuscarPorSemestre(t, semestre)
  {
    if !HasAnyRole(u, {ADMIN, PROFESOR}) then Err(AccessDenied) else Ok(R.BuscarPorSemestre(t, semestre))
  }

  /** `GET /api/materias/buscar/profesor/{profesorId}`: admins and teachers, for any
      teacher's id. */
  function BuscarPorProfesor(t: Tablas, u: UserDetails, profesorId: int): (r: Result<seq<MateriaVista>>)
    ensures r.Err? <==> !HasAnyRole(u, {ADMIN, PROFESOR})
    ensures r.Err? ==> r.error == AccessDenied
    ensures r.Ok? ==> r.value == R.BuscarPorProfesor(t, profesorId)
  {
    if !HasAnyRole(u, {ADMIN, PROFESOR}) then Err(AccessDenied) else Ok(R.BuscarPorProfesor(t, profesorId))
  }

  /** `GET /api/materias/buscar/nombre`: admins and teachers. */
  function BuscarPorNombre(t: Tablas, u: UserDetails, nombre: string): (r: Result<seq<MateriaVista>>)
    ensures r.Err? <==> !HasAnyRole(u, {ADMIN, PROFESOR})
    ensures r.Err? ==> r.error == AccessDenied
    ensures r.Ok? ==> r.value == R.BuscarPorNombre(t, nombre)
  {
    if !HasAnyRole(u, {ADMIN, PROFESOR}) then Err(AccessDenied) else Ok(R.BuscarPorNombre(t, nombre))
  }

  /** `GET /api/materias/buscar/codigo`: admins and teachers. */
  function BuscarPorCodigo(t: Tablas, u: UserDetails, codigo: string): (r: Result<seq<MateriaVista>>)
    ensures r.Err? <==> !HasAnyRole(u, {ADMIN, PROFESOR})
    ensures r.Err? ==> r.error == AccessDenied
    ensures r.Ok? ==> r.value == R.BuscarPorCodigo(t, codigo)
  {
    if !HasAnyRole(u, {ADMIN, PROFESOR}) then Err(AccessDenied) else Ok(R.BuscarPorCodigo(t, codigo))
  }

  /** `GET /api/materias/mis-materias`: teachers only, the courses under their own id. */
  function ObtenerMisMaterias(t: Tablas, u: UserDetails): (r: Result<seq<MateriaVista>>)
    requires u.id.Some?
    ensures r.Err? <==> !HasRole(u, PROFESOR)
    ensures r.Err? ==> r.error == AccessDenied
    ensures r.Ok? ==> r.value == R.BuscarPorProfesor(t, u.id.value)
  {
    if !HasRole(u, PROFESOR) then Err(AccessDenied) else Ok(R.BuscarPorProfesor(t, u.id.value))
  }

  // ------------------------------------------------------------------ properties

  /** For a principal built from a stored person, create and delete refuse exactly the
      non-admins, and the list and the searches exactly the students. */
  lemma CompuertasDeRol(t: Tablas, e: Estudiante, d: MateriaRequestDTO, id: int, q: string, ahora: int)
    requires MateriaRequestValida(d)
    ensures var u := Build(e);
      && (CrearMateria(t, u, d, ahora) == Err(AccessDenied) <==> e.rol != ADMIN)
      && (EliminarMateria(t, u, id, ahora) == Err(AccessDenied) <==> e.rol != ADMIN)
      && (ObtenerTodasLasMaterias(t, u).Err? <==> e.rol == ESTUDIANTE)
      && (BuscarPorCarrera(t, u, q).Err? <==> e.rol == ESTUDIANTE)
      && (BuscarPorSemestre(t, u, id).Err? <==> e.rol == ESTUDIANTE)
      && (BuscarPorProfesor(t, u, id).Err? <==> e.rol == ESTUDIANTE)
      && (BuscarPorNombre(t, u, q).Err? <==> e.rol == ESTUDIANTE)
      && (BuscarPorCodigo(t, u, q).Err? <==> e.rol == ESTUDIANTE)
      && (ObtenerMisMaterias(t, u).Err? <==> e.rol != PROFESOR)
  {
    BuildHasRole(e, ADMIN);
    BuildHasRole(e, PROFESOR);
    BuildHasAnyRole(e, {ADMIN, PROFESOR});
  }

  /** A student can never update a course: `puedeEditarMateria` answers false and the
      controller turns that into NotFound. */
  lemma EstudianteNoEditaMaterias(t: Tablas, u: UserDetails, id: int, d: MateriaRequestDTO, ahora: int)
    requires u.rol == ESTUDIANTE && MateriaRequestValida(d)
    ensures ActualizarMateria(t, u, id, d, ahora) == Err(ResourceNotFound)
  {
  }

  /** In a consistent store a signed-in teacher reads by key or updates only courses
      that teacher teaches. */
  lemma ProfesorSoloSusMaterias(t: Tablas, e: Estudiante, id: int, d: MateriaRequestDTO, ahora: int)
    requires Consistentes(t) && e in t.personas && e.rol == PROFESOR
    requires ObtenerMateriaPorId(t, Build(e), id).Ok? || ActualizarMateria(t, Build(e), id, d, ahora).Ok?
    ensures ExisteMateria(t.materias, id)
    ensures MR.FindById(t.materias, id).value.profesorId == Some(e.id)
  {
    R.PuedeEditarMateriaSoloSuProfesor(t, e.email, id);
    var p :| p in t.personas && p.email == e.email && e.email.Some? && p.rol == PROFESOR
      && MR.FindById(t.materias, id).value.profesorId == Some(p.id);
    var i :| 0 <= i < |t.personas| && t.personas[i] == p;
    var j :| 0 <= j < |t.personas| && t.personas[j] == e;
    assert i == j;
  }

  /** `mis-materias` answers what the by-teacher search answers for the caller's own
      id. */
  lemma MisMateriasSonLasPropias(t: Tablas, e: Estudiante)
    requires e.rol == PROFESOR
    ensures ObtenerMisMaterias(t, Build(e)) == BuscarPorProfesor(t, Build(e), e.id)
  {
    BuildHasRole(e, PROFESOR);
    BuildHasAnyRole(e, {ADMIN, PROFESOR});
  }
}
