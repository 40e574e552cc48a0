/** `EstudianteService`'s writes, step by step on the store, each proved to end in the
    state and the response that `EstudianteReglas` specifies. An error leaves the store
    as it was. The password encoder is the function `codificar`; `hoy` is the day bean
    validation checks `@Past` against and `ahora` the clock. */
module EstudianteServicio {
  import opened Comun
  import opened Entidades
  import opened DtoSolicitud
  import opened DtoRespuesta
  import opened BaseDatos
  import ER = EstudianteRepositorio
  import R = EstudianteReglas

  class EstudianteService {
    const bd: BaseDeDatos

    constructor (bd: BaseDeDatos)
      ensures this.bd == bd
    {
      this.bd := bd;
    }

    /** `convertirAResponseDTO`: the full constructor with the entity's fields. */
    static method ConvertirAResponseDTO(e: Estudiante) returns (dto: EstudianteResponseDTO)
      ensures fresh(dto)
      ensures dto.Vista() == R.VistaEstudiante(e)
    {
      dto := new EstudianteResponseDTO(Some(e.id), e.nombre, e.apellido, e.email, e.cedula,
        e.carrera, e.semestre, e.fechaNacimiento, e.telefono, e.direccion, Some(e.rol),
        Some(e.activo), Some(e.fechaCreacion), e.fechaActualizacion);
    }

    /** `crearEstudiante`. */
    method CrearEstudiante(d: EstudianteRequestDTO, codificar: string -> string, hoy: int, ahora: int)
      returns (r: Result<EstudianteResponseDTO>)
      requires bd.Valid()
      modifies bd
      ensures bd.Valid()
      ensures var spec := R.CrearEstudiante(old(bd.Estado()), d, codificar, hoy, ahora);
        && (spec.Err? ==> r == Err(spec.error) && bd.Estado() == old(bd.Estado()))
        && (spec.Ok? ==>
              && bd.Estado() == spec.value.tablas
              && r.Ok? && fresh(r.value)
              && r.value.Vista() == R.VistaEstudiante(spec.value.registro))
    {
      if ER.ExistsByEmail(bd.personas, d.email) {
        return Err(DuplicateResource);
      }
      if ER.ExistsByCedula(bd.personas, d.cedula) {
        return Err(DuplicateResource);
      }
      if d.password.None? {
        return Err(IllegalArgument);
      }
      var estudiante := NuevoEstudiante(bd.sigPersona, d.nombre, d.apellido, d.email, d.cedula,
        d.carrera, d.semestre, d.fechaNacimiento, d.telefono, d.direccion,
        Some(codificar(d.password.value)), ahora);
      if !EstudianteValido(estudiante, hoy) {
        return Err(ConstraintViolation);
      }
      ghost var antes := bd.Estado();
      ghost var cambio := R.CrearEstudiante(antes, d, codificar, hoy, ahora).value;
      R.CrearEstudianteConserva(antes, d, codificar, hoy, ahora);
      var guardado := bd.InsertarPersona(estudiante);
      assert bd.Estado() == cambio.tablas && guardado == cambio.registro;
      var dto := ConvertirAResponseDTO(guardado);
      r := Ok(dto);
    }

    /** `actualizarEstudiante`. */
    method ActualizarEstudiante(id: int, d: EstudianteRequestDTO, codificar: string -> string, hoy: int, ahora: int)
      returns (r: Result<EstudianteResponseDTO>)
      requires bd.Valid()
      modifies bd
      ensures bd.Valid()
      ensures var spec := R.ActualizarEstudiante(old(bd.Estado()), id, d, codificar, hoy, ahora);
        && (spec.Err? ==> r == Err(spec.error) && bd.Estado() == old(bd.Estado()))
        && (spec.Ok? ==>
              && bd.Estado() == spec.value.tablas
              && r.Ok? && fresh(r.value)
              && r.value.Vista() == R.VistaEstudiante(spec.value.registro))
    {
      ghost var antes := bd.Estado();
      var i := R.PersonaActiva(bd.Estado(), id);
      if i.Err? {
        return Err(i.error);
      }
      var estudiante := bd.personas[i.value];
      if !Igual(estudiante.email, d.email) && ER.ExistsByEmail(bd.personas, d.email) {
        return Err(DuplicateResource);
      }
      if !Igual(estudiante.cedula, d.cedula) && ER.ExistsByCedula(bd.personas, d.cedula) {
        return Err(DuplicateResource);
      }
      var nueva := estudiante.(nombre := d.nombre, apellido := d.apellido, email := d.email,
        cedula := d.cedula, carrera := d.carrera, semestre := d.semestre,
        fechaNacimiento := d.fechaNacimiento, telefono := d.telefono, direccion := d.direccion);
      if d.password.Some? && !Blank(d.password.value) {
        nueva := nueva.(password := Some(codificar(d.password.value)));
      }
      assert nueva == R.ConDatos(estudiante, d, codificar);
      var guardado := Guardar(i.value, nueva, hoy, ahora);
      if guardado.Err? {
        return Err(guardado.error);
      }
      R.ActualizarEstudianteConserva(antes, id, d, codificar, hoy, ahora);
      var dto := ConvertirAResponseDTO(guardado.value);
      r := Ok(dto);
    }

    /** `eliminarEstudiante`: the soft delete. */
    method EliminarEstudiante(id: int, hoy: int, ahora: int) returns (r: Outcome)
      requires bd.Valid()
      modifies bd
      ensures bd.Valid()
      ensures var spec := R.EliminarEstudiante(old(bd.Estado()), id, hoy, ahora);
        && (spec.Err? ==> r == Fail(spec.error) && bd.Estado() == old(bd.Estado()))
        && (spec.Ok? ==> r == Pass && bd.Estado() == spec.value)
    {
      ghost var antes := bd.Estado();
      var i := ER.Posicion(bd.personas, id);
      if i.None? {
        return Fail(ResourceNotFound);
      }
      var estudiante := bd.personas[i.value];
      var guardado := Guardar(i.value, estudiante.(activo := false), hoy, ahora);
      if guardado.Err? {
        return Fail(guardado.error);
      }
      R.EliminarEstudianteConserva(antes, id, hoy, ahora);
      r := Pass;
    }

    /** `save` of the person at row `i` once its setters ran, flushed as
        `R.GuardarPersona` says. */
    method Guardar(i: nat, nueva: Estudiante, hoy: int, ahora: int) returns (r: Result<Estudiante>)
      requires i < |bd.personas|
      modifies bd
      ensures var spec := R.GuardarPersona(old(bd.Estado()), i, nueva, hoy, ahora);
        && (spec.Err? ==> r == Err(spec.error) && bd.Estado() == old(bd.Estado()))
        && (spec.Ok? ==> r == Ok(spec.value.registro) && bd.Estado() == spec.value.tablas)
    {
      if nueva == bd.personas[i] {
        return Ok(nueva);
      }
      if !EstudianteValido(nueva, hoy) {
        return Err(ConstraintViolation);
      }
      bd.ActualizarPersona(i, EstudiantePreUpdate(nueva, ahora));
      r := Ok(nueva);
    }
  }
}
