/** `MateriaService`'s writes, step by step on the store, each proved to end in the state
    and the response that `MateriaReglas` specifies. An error leaves the store as it was
    (the service is transactional); `ahora` is the clock. */
module MateriaServicio {
  import opened Comun
  import opened Entidades
  import opened DtoSolicitud
  import opened DtoRespuesta
  import opened BaseDatos
  import ER = EstudianteRepositorio
  import MR = MateriaRepositorio
  import R = MateriaReglas

  class MateriaService {
    const bd: BaseDeDatos

    constructor (bd: BaseDeDatos)
      ensures this.bd == bd
    {
      this.bd := bd;
    }

    /** `convertirAResponseDTO`: looks up the course's teacher, then fills an empty DTO
        through its setters. */
    method ConvertirAResponseDTO(m: Materia) returns (dto: MateriaResponseDTO)
      ensures fresh(dto)
      ensures dto.Vista() == R.VistaMateria(bd.Estado(), m)
    {
      var profesor := None;
      if m.profesorId.Some? {
        profesor := ER.FindById(bd.personas, m.profesorId.value);
      }
      dto := Rellenar(m, profesor);
    }

    /** The setters in their order: `setCodigo` and `setNombre` each rewrite the full
        name, and the final `setNombreCompleto` overwrites it with the entity's. */
    static method Rellenar(m: Materia, profesor: Option<Estudiante>) returns (dto: MateriaResponseDTO)
      ensures fresh(dto)
      ensures dto.Vista() == R.VistaDe(m, profesor)
    {
      dto := new MateriaResponseDTO.Vacio();
      dto.SetId(Some(m.id));
      dto.SetNombre(m.nombre);
      dto.SetCodigo(m.codigo);
      dto.SetDescripcion(m.descripcion);
      dto.SetCreditos(m.creditos);
      dto.SetSemestre(m.semestre);
      dto.SetCarrera(m.carrera);
      dto.SetActiva(Some(m.activa));
      dto.SetFechaCreacion(Some(m.fechaCreacion));
      dto.SetFechaActualizacion(m.fechaActualizacion);
      dto.SetNombreCompleto(Some(MateriaNombreCompleto(m)));
      if profesor.Some? {
        dto.SetProfesorId(Some(profesor.value.id));
        dto.SetNombreProfesor(Some(NombreCompleto(profesor.value)));
      }
    }

    /** The teacher check shared by `crearMateria` and `actualizarMateria`. */
    method ProfesorAsignado(profesorId: Option<int>) returns (r: Result<Option<int>>)
      ensures r == R.ProfesorAsignado(bd.Estado(), profesorId)
    {
      if profesorId.None? {
        return Ok(None);
      }
      var profesor := ER.FindById(bd.personas, profesorId.value);
      if profesor.None? {
        return Err(ResourceNotFound);
      }
      if profesor.value.rol != PROFESOR {
        return Err(IllegalArgument);
      }
      r := Ok(profesorId);
    }

    /** `crearMateria`. */
    method CrearMateria(d: MateriaRequestDTO, ahora: int) returns (r: Result<MateriaResponseDTO>)
      requires bd.Valid()
      modifies bd
      ensures bd.Valid()
      ensures var spec := R.CrearMateria(old(bd.Estado()), d, ahora);
        && (spec.Err? ==> r == Err(spec.error) && bd.Estado() == old(bd.Estado()))
        && (spec.Ok? ==>
              && bd.Estado() == spec.value.tablas
              && r.Ok? && fresh(r.value)
              && r.value.Vista() == R.VistaMateria(spec.value.tablas, spec.value.registro))
    {
      if MR.ExistsByCodigo(bd.materias, d.codigo) {
        return Err(DuplicateResource);
      }
      var profesor := ProfesorAsignado(d.profesorId);
      if profesor.Err? {
        return Err(profesor.error);
      }
      var materia := Materia(bd.sigMateria, d.nombre, d.codigo, d.descripcion, d.creditos,
        d.semestre, d.carrera, profesor.value, true, ahora, None);
      if !MateriaValida(materia) {
        return Err(ConstraintViolation);
      }
      ghost var antes := bd.Estado();
      ghost var cambio := R.CrearMateria(antes, d, ahora).value;
      R.CrearMateriaConserva(antes, d, ahora);
      var guardada := bd.InsertarMateria(materia);
      assert bd.Estado() == cambio.tablas && guardada == cambio.registro;
      var dto := ConvertirAResponseDTO(guardada);
      r := Ok(dto);
    }

    /** `actualizarMateria`. */
    method ActualizarMateria(id: int, d: MateriaRequestDTO, ahora: int) returns (r: Result<MateriaResponseDTO>)
      requires bd.Valid()
      modifies bd
      ensures bd.Valid()
      ensures var spec := R.ActualizarMateria(old(bd.Estado()), id, d, ahora);
        && (spec.Err? ==> r == Err(spec.error) && bd.Estado() == old(bd.Estado()))
        && (spec.Ok? ==>
              && bd.Estado() == spec.value.tablas
              && r.Ok? && fresh(r.value)
              && r.value.Vista() == R.VistaMateria(spec.value.tablas, spec.value.registro))
    {
      ghost var antes := bd.Estado();
      var i := MR.Posicion(bd.materias, id);
      if i.None? {
        return Err(ResourceNotFound);
      }
      var materia := bd.materias[i.value];
      if !Igual(materia.codigo, d.codigo) && MR.ExistsByCodigo(bd.materias, d.codigo) {
        return Err(DuplicateResource);
      }
      var profesor := ProfesorAsignado(d.profesorId);
      if profesor.Err? {
        return Err(profesor.error);
      }
      var nueva := materia.(nombre := d.nombre, codigo := d.codigo, descripcion := d.descripcion,
        creditos := d.creditos, semestre := d.semestre, carrera := d.carrera,
        profesorId := profesor.value);
      assert nueva == R.ConDatos(materia, d, profesor.value);
      var guardada := Guardar(i.value, nueva, ahora);
      if guardada.Err? {
        return Err(guardada.error);
      }
      R.ActualizarMateriaConserva(antes, id, d, ahora);
      var dto := ConvertirAResponseDTO(guardada.value);
      r := Ok(dto);
    }

    /** `eliminarMateria`: the soft delete. */
    method EliminarMateria(id: int, ahora: int) returns (r: Outcome)
      requires bd.Valid()
      modifies bd
      ensures bd.Valid()
      ensures var spec := R.EliminarMateria(old(bd.Estado()), id, ahora);
        && (spec.Err? ==> r == Fail(spec.error) && bd.Estado() == old(bd.Estado()))
        && (spec.Ok? ==> r == Pass && bd.Estado() == spec.value)
    {
      ghost var antes := bd.Estado();
      var i := MR.Posicion(bd.materias, id);
      if i.None? {
        return Fail(ResourceNotFound);
      }
      var materia := bd.materias[i.value];
      var guardada := Guardar(i.value, materia.(activa := false), ahora);
      if guardada.Err? {
        return Fail(guardada.error);
      }
      R.EliminarMateriaConserva(antes, id, ahora);
      r := Pass;
    }

    /** `save` of the course at row `i` once its setters ran, flushed as
        `R.GuardarMateria` says. */
    method Guardar(i: nat, nueva: Materia, ahora: int) returns (r: Result<Materia>)
      requires i < |bd.materias|
      modifies bd
      ensures var spec := R.GuardarMateria(old(bd.Estado()), i, nueva, ahora);
        && (spec.Err? ==> r == Err(spec.error) && bd.Estado() == old(bd.Estado()))
        && (spec.Ok? ==> r == Ok(spec.value.registro) && bd.Estado() == spec.value.tablas)
    {
      if nueva == bd.materias[i] {
        return Ok(nueva);
      }
      if !MateriaValida(nueva) {
        return Err(ConstraintViolation);
      }
      bd.ActualizarMateria(i, MateriaPreUpdate(nueva, ahora));
      r := Ok(nueva);
    }
  }
}
