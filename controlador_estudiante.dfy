/** `EstudianteController`: each handler as the checks it runs before delegating to
    `EstudianteService`, in the order Spring runs them: the `@Valid` body
    (MethodArgumentNotValid), `@PreAuthorize` (AccessDenied), the handler's own guard
    (NotFound), then the service. */
module EstudianteControlador {
  import opened Comun
  import opened Entidades
  import opened DtoSolicitud
  import opened DtoRespuesta
  import opened BaseDatos
  import opened Seguridad
  import ER = EstudianteRepositorio
  import MR = MateriaRepositorio
  import R = EstudianteReglas

  /** `GET /api/estudiantes`: admins only. */
  function ObtenerTodosLosEstudiantes(t: Tablas, u: UserDetails): (r: Result<seq<EstudianteVista>>)
    ensures r.Err? <==> !HasRole(u, ADMIN)
    ensures r.Err? ==> r.error == AccessDenied
    ensures r.Ok? ==> r.value == R.ObtenerTodosLosEstudiantes(t)
  {
    if !HasRole(u, ADMIN) then Err(AccessDenied) else Ok(R.ObtenerTodosLosEstudiantes(t))
  }

  /** `POST /api/estudiantes/crear`: admins only. */
  function CrearEstudiante(t: Tablas, u: UserDetails, d: EstudianteRequestDTO, codificar: string -> string, hoy: int, ahora: int): (r: Result<Cambio<Estudiante>>)
    ensures !EstudianteRequestValida(d, hoy) ==> r == Err(MethodArgumentNotValid)
    ensures EstudianteRequestValida(d, hoy) && !HasRole(u, ADMIN) ==> r == Err(AccessDenied)
    ensures EstudianteRequestValida(d, hoy) && HasRole(u, ADMIN) ==> r == R.CrearEstudiante(t, d, codificar, hoy, ahora)
  {
    if !EstudianteRequestValida(d, hoy) then Err(MethodArgumentNotValid)
    else if !HasRole(u, ADMIN) then Err(AccessDenied)
    else R.CrearEstudiante(t, d, codificar, hoy, ahora)
  }

  /** `GET /api/estudiantes/{id}`: any role, but a student only their own profile;
      admins and teachers are not filtered here. */
  function ObtenerEstudiantePorId(t: Tablas, u: UserDetails, id: int): (r: Result<EstudianteVista>)
    ensures AjenoParaEstudiante(u, id) ==> r == Err(ResourceNotFound)
    ensures !AjenoParaEstudiante(u, id) ==> r == R.ObtenerEstudiantePorId(t, id)
  {
    if AjenoParaEstudiante(u, id) then Err(ResourceNotFound) else R.ObtenerEstudiantePorId(t, id)
  }

  /** `PUT /api/estudiantes/{id}`: any role, NotFound unless `puedeEditarEstudiante`
      says yes; only then does the service run. */
  function ActualizarEstudiante(t: Tablas, u: UserDetails, id: int, d: EstudianteRequestDTO, codificar: string -> string, hoy: int, ahora: int): (r: Result<Cambio<Estudiante>>)
    ensures !EstudianteRequestValida(d, hoy) ==> r == Err(MethodArgumentNotValid)
    ensures EstudianteRequestValida(d, hoy) ==>
      var p := R.PuedeEditarEstudiante(t, u.email, id, u.rol);
      && (p == Ok(false) ==> r == Err(ResourceNotFound))
      && (p.Err? ==> r == Err(p.error))
      && (p == Ok(true) ==> r == R.ActualizarEstudiante(t, id, d, codificar, hoy, ahora))
    ensures r.Ok? ==> R.PuedeEditarEstudiante(t, u.email, id, u.rol) == Ok(true)
  {
    if !EstudianteRequestValida(d, hoy) then Err(MethodArgumentNotValid)
    else
      match Permiso(R.PuedeEditarEstudiante(t, u.email, id, u.rol))
      case Fail(x) => Err(x)
      case Pass => R.ActualizarEstudiante(t, id, d, codificar, hoy, ahora)
  }

  /** `DELETE /api/estudiantes/{id}`: admins only. */
  function EliminarEstudiante(t: Tablas, u: UserDetails, id: int, hoy: int, ahora: int): (r: Result<Tablas>)
    ensures !HasRole(u, ADMIN) ==> r == Err(AccessDenied)
    ensures HasRole(u, ADMIN) ==> r == R.EliminarEstudiante(t, id, hoy, ahora)
  {
    if !HasRole(u, ADMIN) then Err(AccessDenied) else R.EliminarEstudiante(t, id, hoy, ahora)
  }

  /** `GET /api/estudiantes/buscar/carrera/{carrera}`: admins only. */
  function BuscarPorCarrera(t: Tablas, u: UserDetails, carrera: string): (r: Result<seq<EstudianteVista>>)
    ensures r.Err? <==> !HasRole(u, ADMIN)
    ensures r.Err? ==> r.error == AccessDenied
    ensures r.Ok? ==> r.value == R.BuscarPorCarrera(t, carrera)
  {
    if !HasRole(u, ADMIN) then Err(AccessDenied) else Ok(R.BuscarPorCarrera(t, carrera))
  }

  /** `GET /api/estudiantes/buscar/semestre/{semestre}`: admins only. */
  function BuscarPorSemestre(t: Tablas, u: UserDetails, semestre: int): (r: Result<seq<EstudianteVista>>)
    ensures r.Err? <==> !HasRole(u, ADMIN)
    ensures r.Err? ==> r.error == AccessDenied
    ensures r.Ok? ==> r.value == R.BuscarPorSemestre(t, semestre)
  {
    if !HasRole(u, ADMIN) then Err(AccessDenied) else Ok(R.BuscarPorSemestre(t, semestre))
  }

  /** `GET /api/estudiantes/buscar/nombre`: admins only. */
  function BuscarPorNombre(t: Tablas, u: UserDetails, nombre: string): (r: Result<seq<EstudianteVista>>)
    ensures r.Err? <==> !HasRole(u, ADMIN)
    ensures r.Err? ==> r.error == AccessDenied
    ensures r.Ok? ==> r.value == R.BuscarPorNombreCompleto(t, nombre)
  {
    if !HasRole(u, ADMIN) then Err(AccessDenied) else Ok(R.BuscarPorNombreCompleto(t, nombre))
  }

  /** `GET /api/estudiantes/perfil`: any role, the person with the caller's own email. */
  function ObtenerPerfil(t: Tablas, u: UserDetails): (r: Result<EstudianteVista>)
    ensures r == R.ObtenerEstudiantePorEmail(t, u.email)
    ensures r.Ok? ==> r.value.email == u.email
  {
    R.ObtenerEstudiantePorEmail(t, u.email)
  }

  /** `GET /api/estudiantes/profesores`: admins only. */
  function ObtenerTodosLosProfesores(t: Tablas, u: UserDetails): (r: Result<seq<EstudianteVista>>)
    ensures r.Err? <==> !HasRole(u, ADMIN)
    ensures r.Err? ==> r.error == AccessDenied
    ensures r.Ok? ==> r.value == R.ObtenerProfesores(t)
  {
    if !HasRole(u, ADMIN) then Err(AccessDenied) else Ok(R.ObtenerProfesores(t))
  }

  /** `GET /api/estudiantes/materia/{materiaId}`: teachers and admins; the caller's own
      id is passed as the teacher's. */
  function ObtenerEstudiantesDeMateria(t: Tablas, u: UserDetails, materiaId: int): (r: Result<seq<EstudianteVista>>)
    requires u.id.Some?
    requires MR.FindById(t.materias, materiaId).Some? ==> MR.FindById(t.materias, materiaId).value.profesorId.Some?
    ensures !HasAnyRole(u, {ADMIN, PROFESOR}) ==> r == Err(AccessDenied)
    ensures HasAnyRole(u, {ADMIN, PROFESOR}) ==> r == R.ObtenerEstudiantesDeMateria(t, materiaId, u.id.value)
  {
    if !HasAnyRole(u, {ADMIN, PROFESOR}) then Err(AccessDenied)
    else R.ObtenerEstudiantesDeMateria(t, materiaId, u.id.value)
  }

  // ------------------------------------------------------------------ properties

  /** For a principal built from a stored person, the admin-only handlers refuse exactly
      the non-admins, and the students-of-course handler exactly the students. */
  lemma CompuertasDeRol(t: Tablas, e: Estudiante, d: EstudianteRequestDTO, codificar: string -> string, id: int, hoy: int, ahora: int)
    requires EstudianteRequestValida(d, hoy)
    requires MR.FindById(t.materias, id).Some? ==> MR.FindById(t.materias, id).value.profesorId.Some?
    ensures var u := Build(e);
      && (ObtenerTodosLosEstudiantes(t, u).Err? <==> e.rol != ADMIN)
      && (CrearEstudiante(t, u, d, codificar, hoy, ahora) == Err(AccessDenied) <==> e.rol != ADMIN)
      && (EliminarEstudiante(t, u, id, hoy, ahora) == Err(AccessDenied) <==> e.rol != ADMIN)
      && (ObtenerTodosLosProfesores(t, u).Err? <==> e.rol != ADMIN)
      && (ObtenerEstudiantesDeMateria(t, u, id) == Err(AccessDenied) <==> e.rol == ESTUDIANTE)
  {
    BuildHasRole(e, ADMIN);
    BuildHasAnyRole(e, {ADMIN, PROFESOR});
  }

  /** A signed-in student sees only their own profile by id; admins and teachers get
      whatever the service answers. */
  lemma GuardaDelPerfil(t: Tablas, e: Estudiante, id: int)
    requires ER.IdsCrecientes(t.personas)
    ensures e.rol == ESTUDIANTE && id != e.id ==> ObtenerEstudiantePorId(t, Build(e), id) == Err(ResourceNotFound)
    ensures e.rol != ESTUDIANTE || id == e.id ==>
      (ObtenerEstudiantePorId(t, Build(e), id).Ok? <==> exists p | p in t.personas :: p.id == id && p.activo)
  {
    R.ObtenerEstudiantePorIdActivo(t, id);
  }

  /** Through the controller a teacher or a student can update only their own record. */
  lemma SoloSeEditaASiMismo(t: Tablas, e: Estudiante, id: int, d: EstudianteRequestDTO, codificar: string -> string, hoy: int, ahora: int)
    requires Consistentes(t) && e in t.personas && e.rol != ADMIN
    requires ActualizarEstudiante(t, Build(e), id, d, codificar, hoy, ahora).Ok?
    ensures id == e.id
  {
    R.PuedeEditarSoloASiMismo(t, e.email, id, e.rol);
    var p :| p in t.personas && p.id == id && p.email == e.email && e.email.Some?;
    var i :| 0 <= i < |t.personas| && t.personas[i] == p;
    var j :| 0 <= j < |t.personas| && t.personas[j] == e;
    assert i == j;
  }

  /** `perfil` answers the caller's own record whenever it is stored and active. */
  lemma PerfilPropio(t: Tablas, e: Estudiante)
    requires Consistentes(t) && e in t.personas && e.activo
    ensures ObtenerPerfil(t, Build(e)) == Ok(R.VistaEstudiante(e))
  {
    R.ObtenerEstudiantePorEmailActivo(t, e.email);
  }

  // ------------------------------------------------------------------ the admin's course list

  /** As written, an administrator passes the role gate of
      `GET /api/estudiantes/materia/{materiaId}` and is still always refused: the
      administrator's own id is compared with the course's teacher, who is a different
      stored person. */
  lemma AdminNoVeEstudiantesDeMateria(t: Tablas, e: Estudiante, materiaId: int)
    requires Consistentes(t) && e in t.personas && e.rol == ADMIN
    requires MR.FindById(t.materias, materiaId).Some? ==> MR.FindById(t.materias, materiaId).value.profesorId.Some?
    ensures HasAnyRole(Build(e), {ADMIN, PROFESOR})
    ensures ObtenerEstudiantesDeMateria(t, Build(e), materiaId) == Err(ResourceNotFound)
  {
    BuildHasAnyRole(e, {ADMIN, PROFESOR});
    var m := MR.FindById(t.materias, materiaId);
    if m.Some? {
      assert m.value in t.materias;
      var p :| p in t.personas && p.id == m.value.profesorId.value && p.rol == PROFESOR;
      if p.id == e.id {
        ER.FindByIdUnico(t.personas, p);
        ER.FindByIdUnico(t.personas, e);
      }
    }
  }

  /** `GET /api/estudiantes/materia/{materiaId}` with the ownership check applied to
      teachers only, as the role gate intends: an administrator gets the students of
      any stored course. The requires on a course's teacher is kept from the as-written
      handler; the administrator branch never reads that teacher. */
  function ObtenerEstudiantesDeMateriaCorregido(t: Tablas, u: UserDetails, materiaId: int): (r: Result<seq<EstudianteVista>>)
    requires u.id.Some?
    requires MR.FindById(t.materias, materiaId).Some? ==> MR.FindById(t.materias, materiaId).value.profesorId.Some?
    ensures u.rol != ADMIN ==> r == ObtenerEstudiantesDeMateria(t, u, materiaId)
  {
    if !HasAnyRole(u, {ADMIN, PROFESOR}) then Err(AccessDenied)
    else if u.rol == ADMIN then
      if MR.FindById(t.materias, materiaId).None? then Err(ResourceNotFound)
      else Ok(R.Vistas(R.AlumnosDeMateria(t, materiaId)))
    else R.ObtenerEstudiantesDeMateria(t, materiaId, u.id.value)
  }

  /** With the correction, an administrator gets, for every stored course, exactly the
      active persons with a grade in it, none twice. */
  lemma AdminVeEstudiantesDeMateria(t: Tablas, e: Estudiante, materiaId: int)
    requires Consistentes(t) && e.rol == ADMIN
    requires MR.FindById(t.materias, materiaId).Some? ==> MR.FindById(t.materias, materiaId).value.profesorId.Some?
    ensures var r := ObtenerEstudiantesDeMateriaCorregido(t, Build(e), materiaId);
      && (r.Ok? <==> ExisteMateria(t.materias, materiaId))
      && (r.Err? ==> r == Err(ResourceNotFound))
      && (r.Ok? ==>
            && (forall i, j | 0 <= i < j < |r.value| :: r.value[i] != r.value[j])
            && (forall p | p in t.personas ::
                  R.VistaEstudiante(p) in r.value <==>
                    p.activo && exists c | c in t.calificaciones :: c.materiaId == materiaId && c.estudianteId == p.id))
  {
    BuildHasAnyRole(e, {ADMIN, PROFESOR});
    R.AlumnosDeMateriaExactos(t, materiaId);
  }
}
