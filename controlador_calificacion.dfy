/** `CalificacionController`: each handler as the checks it runs before delegating to
    `CalificacionService`. A `@Valid` body is checked first (MethodArgumentNotValid),
    then `@PreAuthorize` (AccessDenied), then the handler's own guard, which answers
    NotFound, and only then the service. */
module CalificacionControlador {
  import opened Comun
  import opened Entidades
  import opened DtoSolicitud
  import opened DtoRespuesta
  import opened BaseDatos
  import opened Seguridad
  import CR = CalificacionRepositorio
  import R = CalificacionReglas

  /** `GET /api/calificaciones`: admins only. */
  function ObtenerTodasLasCalificaciones(t: Tablas, u: UserDetails): (r: Result<seq<CalificacionVista>>)
    requires Consistentes(t)
    ensures r.Err? <==> !HasRole(u, ADMIN)
    ensures r.Err? ==> r.error == AccessDenied
    ensures r.Ok? ==> r.value == R.ObtenerTodasLasCalificaciones(t)
  {
    if !HasRole(u, ADMIN) then Err(AccessDenied) else Ok(R.ObtenerTodasLasCalificaciones(t))
  }

  /** `POST /api/calificaciones/crear`: teachers only; the caller's email is the
      grading teacher's. */
  function CrearCalificacion(t: Tablas, u: UserDetails, d: CalificacionRequestDTO, ahora: int): (r: Result<Cambio<Calificacion>>)
    ensures !CalificacionRequestValida(d) ==> r == Err(MethodArgumentNotValid)
    ensures CalificacionRequestValida(d) && !HasRole(u, PROFESOR) ==> r == Err(AccessDenied)
    ensures CalificacionRequestValida(d) && HasRole(u, PROFESOR) ==> r == R.CrearCalificacion(t, d, u.email, ahora)
  {
    if !CalificacionRequestValida(d) then Err(MethodArgumentNotValid)
    else if !HasRole(u, PROFESOR) then Err(AccessDenied)
    else R.CrearCalificacion(t, d, u.email, ahora)
  }

  /** `PUT /api/calificaciones/{id}`: teachers only, and NotFound unless
      `puedeModificarCalificacion` says yes; only then does the service run. */
  function ActualizarCalificacion(t: Tablas, u: UserDetails, id: int, d: CalificacionRequestDTO, ahora: int): (r: Result<Cambio<Calificacion>>)
    ensures !CalificacionRequestValida(d) ==> r == Err(MethodArgumentNotValid)
    ensures CalificacionRequestValida(d) && !HasRole(u, PROFESOR) ==> r == Err(AccessDenied)
    ensures CalificacionRequestValida(d) && HasRole(u, PROFESOR) ==>
      var p := R.PuedeModificarCalificacion(t, u.email, id, u.rol);
      && (p == Ok(false) ==> r == Err(ResourceNotFound))
      && (p.Err? ==> r == Err(p.error))
      && (p == Ok(true) ==> r == R.ActualizarCalificacion(t, id, d, u.email, ahora))
    ensures r.Ok? ==> R.PuedeModificarCalificacion(t, u.email, id, u.rol) == Ok(true)
  {
    if !CalificacionRequestValida(d) then Err(MethodArgumentNotValid)
    else if !HasRole(u, PROFESOR) then Err(AccessDenied)
    else
      match Permiso(R.PuedeModificarCalificacion(t, u.email, id, u.rol))
      case Fail(x) => Err(x)
      case Pass => R.ActualizarCalificacion(t, id, d, u.email, ahora)
  }

  /** `DELETE /api/calificaciones/{id}`: teachers and admins, and NotFound unless
      `puedeModificarCalificacion` says yes; only then does the service run. */
  function EliminarCalificacion(t: Tablas, u: UserDetails, id: int): (r: Result<Tablas>)
    ensures !HasAnyRole(u, {ADMIN, PROFESOR}) ==> r == Err(AccessDenied)
    ensures HasAnyRole(u, {ADMIN, PROFESOR}) ==>
      var p := R.PuedeModificarCalificacion(t, u.email, id, u.rol);
      && (p == Ok(false) ==> r == Err(ResourceNotFound))
      && (p.Err? ==> r == Err(p.error))
      && (p == Ok(true) ==> r == R.EliminarCalificacion(t, id, u.email))
    ensures r.Ok? ==> R.PuedeModificarCalificacion(t, u.email, id, u.rol) == Ok(true)
  {
    if !HasAnyRole(u, {ADMIN, PROFESOR}) then Err(AccessDenied)
    else
      match Permiso(R.PuedeModificarCalificacion(t, u.email, id, u.rol))
      case Fail(x) => Err(x)
      case Pass => R.EliminarCalificacion(t, id, u.email)
  }

  /** `GET /api/calificaciones/estudiante/{estudianteId}`: any role, but a student only
      for their own id. */
  function ObtenerCalificacionesPorEstudiante(t: Tablas, u: UserDetails, estudianteId: int): (r: Result<seq<CalificacionVista>>)
    requires Consistentes(t)
    ensures r.Err? <==> AjenoParaEstudiante(u, estudianteId)
    ensures r.Err? ==> r.error == ResourceNotFound
    ensures r.Ok? ==> r.value == R.ObtenerCalificacionesPorEstudiante(t, estudianteId)
  {
    if AjenoParaEstudiante(u, estudianteId) then Err(ResourceNotFound)
    else Ok(R.ObtenerCalificacionesPorEstudiante(t, estudianteId))
  }

  /** `GET /api/calificaciones/materia/{materiaId}`: admins and teachers, without any
      check that the teacher teaches that course. */
  function ObtenerCalificacionesPorMateria(t: Tablas, u: UserDetails, materiaId: int): (r: Result<seq<CalificacionVista>>)
    requires Consistentes(t)
    ensures r.Err? <==> !HasAnyRole(u, {ADMIN, PROFESOR})
    ensures r.Err? ==> r.error == AccessDenied
    ensures r.Ok? ==> r.value == R.ObtenerCalificacionesPorMateria(t, materiaId)
  {
    if !HasAnyRole(u, {ADMIN, PROFESOR}) then Err(AccessDenied)
    else Ok(R.ObtenerCalificacionesPorMateria(t, materiaId))
  }

  /** `GET /api/calificaciones/profesor/{profesorId}`: admins and teachers, a teacher
      only for their own id. */
  function ObtenerCalificacionesPorProfesor(t: Tablas, u: UserDetails, profesorId: int): (r: Result<seq<CalificacionVista>>)
    requires Consistentes(t)
    ensures !HasAnyRole(u, {ADMIN, PROFESOR}) ==> r == Err(AccessDenied)
    ensures HasAnyRole(u, {ADMIN, PROFESOR}) && u.rol == PROFESOR && u.id != Some(profesorId) ==>
      r == Err(ResourceNotFound)
    ensures r.Ok? <==> HasAnyRole(u, {ADMIN, PROFESOR}) && (u.rol != PROFESOR || u.id == Some(profesorId))
    ensures r.Ok? ==> r.value == R.ObtenerCalificacionesPorProfesor(t, profesorId)
  {
    if !HasAnyRole(u, {ADMIN, PROFESOR}) then Err(AccessDenied)
    else if u.rol == PROFESOR && u.id != Some(profesorId) then Err(ResourceNotFound)
    else Ok(R.ObtenerCalificacionesPorProfesor(t, profesorId))
  }

  /** `GET /api/calificaciones/estudiante/{estudianteId}/materia/{materiaId}`. */
  function ObtenerCalificacionesEstudianteEnMateria(t: Tablas, u: UserDetails, estudianteId: int, materiaId: int): (r: Result<seq<CalificacionVista>>)
    requires Consistentes(t)
    ensures r.Err? <==> AjenoParaEstudiante(u, estudianteId)
    ensures r.Err? ==> r.error == ResourceNotFound
    ensures r.Ok? ==> r.value == R.ObtenerCalificacionesEstudianteEnMateria(t, estudianteId, materiaId)
  {
    if AjenoParaEstudiante(u, estudianteId) then Err(ResourceNotFound)
    else Ok(R.ObtenerCalificacionesEstudianteEnMateria(t, estudianteId, materiaId))
  }

  /** `GET /api/calificaciones/promedio/estudiante/{estudianteId}`. */
  function CalcularPromedioGeneralEstudiante(t: Tablas, u: UserDetails, estudianteId: int): (r: Result<real>)
    ensures r.Err? <==> AjenoParaEstudiante(u, estudianteId)
    ensures r.Err? ==> r.error == ResourceNotFound
    ensures r.Ok? ==> r.value == R.CalcularPromedioGeneralEstudiante(t, estudianteId)
  {
    if AjenoParaEstudiante(u, estudianteId) then Err(ResourceNotFound)
    else Ok(R.CalcularPromedioGeneralEstudiante(t, estudianteId))
  }

  /** `GET /api/calificaciones/promedio/estudiante/{estudianteId}/materia/{materiaId}`. */
  function CalcularPromedioEstudianteEnMateria(t: Tablas, u: UserDetails, estudianteId: int, materiaId: int): (r: Result<real>)
    ensures r.Err? <==> AjenoParaEstudiante(u, estudianteId)
    ensures r.Err? ==> r.error == ResourceNotFound
    ensures r.Ok? ==> r.value == R.CalcularPromedioEstudianteEnMateria(t, estudianteId, materiaId)
  {
    if AjenoParaEstudiante(u, estudianteId) then Err(ResourceNotFound)
    else Ok(R.CalcularPromedioEstudianteEnMateria(t, estudianteId, materiaId))
  }

  /** `GET /api/calificaciones/promedio/materia/{materiaId}`: admins and teachers. */
  function CalcularPromedioMateria(t: Tablas, u: UserDetails, materiaId: int): (r: Result<real>)
    ensures r.Err? <==> !HasAnyRole(u, {ADMIN, PROFESOR})
    ensures r.Err? ==> r.error == AccessDenied
    ensures r.Ok? ==> r.value == R.CalcularPromedioMateria(t, materiaId)
  {
    if !HasAnyRole(u, {ADMIN, PROFESOR}) then Err(AccessDenied)
    else Ok(R.CalcularPromedioMateria(t, materiaId))
  }

  /** `GET /api/calificaciones/mis-calificaciones`: students only, about their own id. */
  function ObtenerMisCalificaciones(t: Tablas, u: UserDetails): (r: Result<seq<CalificacionVista>>)
    requires Consistentes(t) && u.id.Some?
    ensures r.Err? <==> !HasRole(u, ESTUDIANTE)
    ensures r.Err? ==> r.error == AccessDenied
    ensures r.Ok? ==> r.value == R.ObtenerCalificacionesPorEstudiante(t, u.id.value)
  {
    if !HasRole(u, ESTUDIANTE) then Err(AccessDenied)
    else Ok(R.ObtenerCalificacionesPorEstudiante(t, u.id.value))
  }

  /** `GET /api/calificaciones/calificaciones-asignadas`: teachers only, about their own
      id. */
  function ObtenerCalificacionesAsignadas(t: Tablas, u: UserDetails): (r: Result<seq<CalificacionVista>>)
    requires Consistentes(t) && u.id.Some?
    ensures r.Err? <==> !HasRole(u, PROFESOR)
    ensures r.Err? ==> r.error == AccessDenied
    ensures r.Ok? ==> r.value == R.ObtenerCalificacionesPorProfesor(t, u.id.value)
  {
    if !HasRole(u, PROFESOR) then Err(AccessDenied)
    else Ok(R.ObtenerCalificacionesPorProfesor(t, u.id.value))
  }

  /** `GET /api/calificaciones/{id}`: any role, NotFound unless `puedeVerCalificacion`
      says yes. */
  function ObtenerCalificacionPorId(t: Tablas, u: UserDetails, id: int): (r: Result<CalificacionVista>)
    requires Consistentes(t)
    ensures r.Err? ==> r.error == ResourceNotFound
    ensures r.Ok? <==> R.PuedeVerCalificacion(t, u.email, id, u.rol) == Ok(true)
    ensures r.Ok? ==> r == R.ObtenerCalificacionPorId(t, id)
  {
    match Permiso(R.PuedeVerCalificacion(t, u.email, id, u.rol))
    case Fail(x) => Err(x)
    case Pass =>
      var c := CR.FindById(t.calificaciones, id).value;
      assert c in t.calificaciones && c.id == id;
      R.ObtenerCalificacionPorId(t, id)
  }

  // ------------------------------------------------------------------ properties

  /** For a principal built from a stored person, each read gate lets through exactly
      the roles its annotation names. */
  lemma CompuertasDeLectura(t: Tablas, e: Estudiante, id: int)
    requires Consistentes(t) && e.id == id
    ensures var u := Build(e);
      && (ObtenerTodasLasCalificaciones(t, u).Err? <==> e.rol != ADMIN)
      && (ObtenerCalificacionesPorMateria(t, u, id).Err? <==> e.rol == ESTUDIANTE)
      && (CalcularPromedioMateria(t, u, id).Err? <==> e.rol == ESTUDIANTE)
      && (ObtenerCalificacionesPorProfesor(t, u, id).Err? <==> e.rol == ESTUDIANTE)
      && (ObtenerMisCalificaciones(t, u).Err? <==> e.rol != ESTUDIANTE)
      && (ObtenerCalificacionesAsignadas(t, u).Err? <==> e.rol != PROFESOR)
  {
    BuildHasRole(e, ADMIN);
    BuildHasRole(e, PROFESOR);
    BuildHasRole(e, ESTUDIANTE);
    BuildHasAnyRole(e, {ADMIN, PROFESOR});
  }

  /** For a principal built from a stored person with a well-formed body, each write
      is AccessDenied exactly for the roles its annotation leaves out: create and
      update for everyone but teachers, delete for students. */
  lemma CompuertasDeEscritura(t: Tablas, e: Estudiante, d: CalificacionRequestDTO, id: int, ahora: int)
    requires CalificacionRequestValida(d)
    ensures var u := Build(e);
      && (CrearCalificacion(t, u, d, ahora) == Err(AccessDenied) <==> e.rol != PROFESOR)
      && (ActualizarCalificacion(t, u, id, d, ahora) == Err(AccessDenied) <==> e.rol != PROFESOR)
      && (EliminarCalificacion(t, u, id) == Err(AccessDenied) <==> e.rol == ESTUDIANTE)
  {
    BuildHasRole(e, PROFESOR);
    BuildHasAnyRole(e, {ADMIN, PROFESOR});
  }

  /** A student's own-id guard: for a signed-in student, the four by-student handlers
      answer NotFound for any other id and pass for their own; other roles always pass. */
  lemma GuardaDelEstudiante(t: Tablas, e: Estudiante, estudianteId: int, materiaId: int)
    requires Consistentes(t)
    ensures var u := Build(e);
      && (e.rol == ESTUDIANTE && e.id != estudianteId ==>
            && ObtenerCalificacionesPorEstudiante(t, u, estudianteId) == Err(ResourceNotFound)
            && ObtenerCalificacionesEstudianteEnMateria(t, u, estudianteId, materiaId) == Err(ResourceNotFound)
            && CalcularPromedioGeneralEstudiante(t, u, estudianteId) == Err(ResourceNotFound)
            && CalcularPromedioEstudianteEnMateria(t, u, estudianteId, materiaId) == Err(ResourceNotFound))
      && (e.rol != ESTUDIANTE || e.id == estudianteId ==>
            && ObtenerCalificacionesPorEstudiante(t, u, estudianteId).Ok?
            && ObtenerCalificacionesEstudianteEnMateria(t, u, estudianteId, materiaId).Ok?
            && CalcularPromedioGeneralEstudiante(t, u, estudianteId).Ok?
            && CalcularPromedioEstudianteEnMateria(t, u, estudianteId, materiaId).Ok?)
  {
  }

  /** `mis-calificaciones` answers what the by-student list answers for the caller's
      own id, and `calificaciones-asignadas` what the by-teacher list answers for it. */
  lemma MisListasSonLasPropias(t: Tablas, e: Estudiante)
    requires Consistentes(t)
    ensures var u := Build(e);
      && (e.rol == ESTUDIANTE ==>
            ObtenerMisCalificaciones(t, u) == ObtenerCalificacionesPorEstudiante(t, u, e.id))
      && (e.rol == PROFESOR ==>
            ObtenerCalificacionesAsignadas(t, u) == ObtenerCalificacionesPorProfesor(t, u, e.id))
  {
    BuildHasRole(e, ESTUDIANTE);
    BuildHasRole(e, PROFESOR);
    if e.rol == PROFESOR {
      assert HasRole(Build(e), PROFESOR);
    }
  }

  /** Whoever may update or delete a grade through the controller may also read it
      through `GET /api/calificaciones/{id}`. */
  lemma ModificarImplicaLeer(t: Tablas, u: UserDetails, id: int, d: CalificacionRequestDTO, ahora: int)
    requires Consistentes(t) && CR.FindById(t.calificaciones, id).Some?
    requires ActualizarCalificacion(t, u, id, d, ahora).Ok? || EliminarCalificacion(t, u, id).Ok?
    ensures ObtenerCalificacionPorId(t, u, id).Ok?
  {
    R.ModificarImplicaVer(t, u.email, id, u.rol);
  }
  // ------------------------------------------------------------------ the admin's delete

  /** As written, an administrator passes the role gate and `puedeModificarCalificacion`
      on `DELETE /api/calificaciones/{id}`, and is still always refused: the service
      re-checks that the caller is the grade's teacher, so a stored grade answers
      IllegalArgument. */
  lemma AdminNoEliminaCalificaciones(t: Tablas, e: Estudiante, id: int)
    requires Consistentes(t) && e in t.personas && e.rol == ADMIN
    ensures R.PuedeModificarCalificacion(t, Build(e).email, id, ADMIN) == Ok(true)
    ensures HasAnyRole(Build(e), {ADMIN, PROFESOR})
    ensures EliminarCalificacion(t, Build(e), id).Err?
    ensures CR.FindById(t.calificaciones, id).Some? ==> EliminarCalificacion(t, Build(e), id) == Err(IllegalArgument)
  {
    BuildHasAnyRole(e, {ADMIN, PROFESOR});
    var k :| 0 <= k < |t.personas| && t.personas[k] == e;
    R.AdminNoModificaCalificaciones(t, k, id, CalificacionRequestDTO(None, None, None, None, None), 0);
    R.EliminarCalificacionQuien(t, id, e.email);
  }

  /** The delete the gates promise an administrator: the grade with that key is removed
      (NotFound if there is none), with no ownership check. */
  function EliminarPorClave(t: Tablas, id: int): (r: Result<Tablas>)
    ensures r.Err? <==> CR.FindById(t.calificaciones, id).None?
    ensures r.Err? ==> r.error == ResourceNotFound
  {
    match CR.Posicion(t.calificaciones, id)
    case None => Err(ResourceNotFound)
    case Some(i) => Ok(t.(calificaciones := t.calificaciones[..i] + t.calificaciones[i + 1..]))
  }

  /** `DELETE /api/calificaciones/{id}` with the ownership re-check applied to teachers
      only, as the role gate and `puedeModificarCalificacion` intend. */
  function EliminarCalificacionCorregida(t: Tablas, u: UserDetails, id: int): (r: Result<Tablas>)
    ensures u.rol != ADMIN ==> r == EliminarCalificacion(t, u, id)
  {
    if !HasAnyRole(u, {ADMIN, PROFESOR}) then Err(AccessDenied)
    else
      match Permiso(R.PuedeModificarCalificacion(t, u.email, id, u.rol))
      case Fail(x) => Err(x)
      case Pass =>
        if u.rol == ADMIN then EliminarPorClave(t, id) else R.EliminarCalificacion(t, id, u.email)
  }

  /** With the correction, an administrator deletes exactly the grade with that key,
      every other grade stays, and the store keeps its constraints. */
  lemma EliminarCalificacionCorregidaAdmin(t: Tablas, e: Estudiante, id: int)
    requires Consistentes(t) && e.rol == ADMIN
    ensures var r := EliminarCalificacionCorregida(t, Build(e), id);
      && (r.Ok? <==> CR.FindById(t.calificaciones, id).Some?)
      && (r.Err? ==> r == Err(ResourceNotFound))
      && (r.Ok? ==>
            && Consistentes(r.value)
            && forall c | c in t.calificaciones :: c in r.value.calificaciones <==> c.id != id)
  {
    BuildHasAnyRole(e, {ADMIN, PROFESOR});
    assert EliminarCalificacionCorregida(t, Build(e), id) == EliminarPorClave(t, id);
    match CR.Posicion(t.calificaciones, id)
    case None =>
    case Some(i) =>
      CR.QuitarFila(t.calificaciones, i);
      BorrarCalificacionConserva(t, i);
  }
}
