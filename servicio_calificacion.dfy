/** `CalificacionService`'s writes, step by step on the store, each proved to end in the
    state and the response that `CalificacionReglas` specifies. An error leaves the store
    as it was (the service is transactional). */
module CalificacionServicio {
  import opened Comun
  import opened Entidades
  import opened DtoSolicitud
  import opened DtoRespuesta
  import opened BaseDatos
  import ER = EstudianteRepositorio
  import MR = MateriaRepositorio
  import R = CalificacionReglas

  class CalificacionService {
    const bd: BaseDeDatos

    constructor (bd: BaseDeDatos)
      ensures this.bd == bd
    {
      this.bd := bd;
    }

    /** `convertirAResponseDTO`: looks up the grade's three relations, then fills an empty
        DTO through its setters. */
    method ConvertirAResponseDTO(c: Calificacion) returns (dto: CalificacionResponseDTO)
      requires c.nota.Some?
      ensures fresh(dto)
      ensures dto.Vista() == R.VistaCalificacion(bd.Estado(), c)
    {
      var estudiante := ER.FindById(bd.personas, c.estudianteId);
      var materia := MR.FindById(bd.materias, c.materiaId);
      var profesor := ER.FindById(bd.personas, c.profesorId);
      dto := Rellenar(c, estudiante, materia, profesor);
    }

    static method Rellenar(c: Calificacion, estudiante: Option<Estudiante>, materia: Option<Materia>,
                           profesor: Option<Estudiante>) returns (dto: CalificacionResponseDTO)
      requires c.nota.Some?
      ensures fresh(dto)
      ensures dto.Vista() == R.VistaDe(c, estudiante, materia, profesor)
    {
      dto := new CalificacionResponseDTO.Vacio();
      dto.SetId(Some(c.id));
      PonerEstudiante(dto, estudiante);
      PonerMateria(dto, materia);
      PonerProfesor(dto, profesor);
      dto.SetNota(c.nota.value);
      dto.SetTipoEvaluacion(c.tipoEvaluacion);
      dto.SetObservaciones(c.observaciones);
      dto.SetFechaCreacion(Some(c.fechaCreacion));
      dto.SetFechaActualizacion(c.fechaActualizacion);
      dto.SetNotaConFormato(Some(NotaConFormato(c.nota.value)));
      dto.SetEsAprobatoria(Some(EsAprobatoria(c.nota.value)));
    }

    static method PonerEstudiante(dto: CalificacionResponseDTO, estudiante: Option<Estudiante>)
      requires dto.estudianteId.None? && dto.cedulaEstudiante.None?
      modifies dto`estudianteId, dto`nombreEstudiante, dto`cedulaEstudiante
      ensures dto.Vista() == old(dto.Vista()).(
        estudianteId := if estudiante.Some? then Some(estudiante.value.id) else None,
        nombreEstudiante := if estudiante.Some? then Some(NombreCompleto(estudiante.value)) else Some("N/A"),
        cedulaEstudiante := if estudiante.Some? then estudiante.value.cedula else None)
    {
      if estudiante.Some? {
        dto.SetEstudianteId(Some(estudiante.value.id));
        dto.SetNombreEstudiante(Some(NombreCompleto(estudiante.value)));
        dto.SetCedulaEstudiante(estudiante.value.cedula);
      } else {
        dto.SetNombreEstudiante(Some("N/A"));
      }
    }

    static method PonerMateria(dto: CalificacionResponseDTO, materia: Option<Materia>)
      requires dto.materiaId.None?
      modifies dto`materiaId, dto`nombreMateria, dto`codigoMateria
      ensures dto.Vista() == old(dto.Vista()).(
        materiaId := if materia.Some? then Some(materia.value.id) else None,
        nombreMateria := if materia.Some? then materia.value.nombre else Some("N/A"),
        codigoMateria := if materia.Some? then materia.value.codigo else Some("N/A"))
    {
      if materia.Some? {
        dto.SetMateriaId(Some(materia.value.id));
        dto.SetNombreMateria(materia.value.nombre);
        dto.SetCodigoMateria(materia.value.codigo);
      } else {
        dto.SetNombreMateria(Some("N/A"));
        dto.SetCodigoMateria(Some("N/A"));
      }
    }

    static method PonerProfesor(dto: CalificacionResponseDTO, profesor: Option<Estudiante>)
      requires dto.profesorId.None?
      modifies dto`profesorId, dto`nombreProfesor
      ensures dto.Vista() == old(dto.Vista()).(
        profesorId := if profesor.Some? then Some(profesor.value.id) else None,
        nombreProfesor := if profesor.Some? then Some(NombreCompleto(profesor.value)) else Some("N/A"))
    {
      if profesor.Some? {
        dto.SetProfesorId(Some(profesor.value.id));
        dto.SetNombreProfesor(Some(NombreCompleto(profesor.value)));
      } else {
        dto.SetNombreProfesor(Some("N/A"));
      }
    }

    /** `crearCalificacion`. */
    method CrearCalificacion(d: CalificacionRequestDTO, emailProfesor: Option<string>, ahora: int)
      returns (r: Result<CalificacionResponseDTO>)
      requires bd.Valid()
      modifies bd
      ensures bd.Valid()
      ensures var spec := R.CrearCalificacion(old(bd.Estado()), d, emailProfesor, ahora);
        && (spec.Err? ==> r == Err(spec.error) && bd.Estado() == old(bd.Estado()))
        && (spec.Ok? ==>
              && bd.Estado() == spec.value.tablas
              && r.Ok? && fresh(r.value) && spec.value.registro.nota.Some?
              && r.value.Vista() == R.VistaCalificacion(spec.value.tablas, spec.value.registro))
    {
      var nueva := R.NuevaCalificacion(bd.Estado(), d, emailProfesor, ahora);
      if nueva.Err? {
        return Err(nueva.error);
      }
      ghost var antes := bd.Estado();
      ghost var cambio := R.CrearCalificacion(antes, d, emailProfesor, ahora).value;
      R.CrearCalificacionConserva(antes, d, emailProfesor, ahora);
      var guardada := bd.InsertarCalificacion(nueva.value);
      assert bd.Estado() == cambio.tablas && guardada == cambio.registro;
      var dto := ConvertirAResponseDTO(guardada);
      r := Ok(dto);
    }

    /** `actualizarCalificacion`. */
    method ActualizarCalificacion(id: int, d: CalificacionRequestDTO, emailProfesor: Option<string>, ahora: int)
      returns (r: Result<CalificacionResponseDTO>)
      requires bd.Valid()
      modifies bd
      ensures bd.Valid()
      ensures var spec := R.ActualizarCalificacion(old(bd.Estado()), id, d, emailProfesor, ahora);
        && (spec.Err? ==> r == Err(spec.error) && bd.Estado() == old(bd.Estado()))
        && (spec.Ok? ==>
              && bd.Estado() == spec.value.tablas
              && r.Ok? && fresh(r.value) && spec.value.registro.nota.Some?
              && r.value.Vista() == R.VistaCalificacion(spec.value.tablas, spec.value.registro))
    {
      var i := R.CalificacionPropia(bd.Estado(), id, emailProfesor);
      if i.Err? {
        return Err(i.error);
      }
      r := Modificar(i.value, d, ahora);
    }

    /** The write step of `actualizarCalificacion` once the grade sits at row `i`: the
        three fields are overwritten and the row is flushed only when that changed it. */
    method Modificar(i: nat, d: CalificacionRequestDTO, ahora: int) returns (r: Result<CalificacionResponseDTO>)
      requires bd.Valid() && i < |bd.calificaciones|
      modifies bd
      ensures bd.Valid()
      ensures var spec := R.ModificarEn(old(bd.Estado()), i, d, ahora);
        && (spec.Err? ==> r == Err(spec.error) && bd.Estado() == old(bd.Estado()))
        && (spec.Ok? ==>
              && bd.Estado() == spec.value.tablas
              && r.Ok? && fresh(r.value) && spec.value.registro.nota.Some?
              && r.value.Vista() == R.VistaCalificacion(spec.value.tablas, spec.value.registro))
    {
      ghost var antes := bd.Estado();
      var calificacion := bd.calificaciones[i];
      var nueva := calificacion.(nota := d.nota, tipoEvaluacion := d.tipoEvaluacion,
        observaciones := d.observaciones);
      if nueva != calificacion && !CalificacionValida(nueva) {
        return Err(ConstraintViolation);
      }
      R.ModificarEnConserva(antes, i, d, ahora);
      if nueva != calificacion {
        bd.ActualizarCalificacion(i, CalificacionPreUpdate(nueva, ahora));
      }
      assert bd.Estado() == R.ModificarEn(antes, i, d, ahora).value.tablas;
      var dto := ConvertirAResponseDTO(nueva);
      r := Ok(dto);
    }

    /** `eliminarCalificacion`. */
    method EliminarCalificacion(id: int, emailProfesor: Option<string>) returns (r: Outcome)
      requires bd.Valid()
      modifies bd
      ensures bd.Valid()
      ensures var spec := R.EliminarCalificacion(old(bd.Estado()), id, emailProfesor);
        && (spec.Err? ==> r == Fail(spec.error) && bd.Estado() == old(bd.Estado()))
        && (spec.Ok? ==> r == Pass && bd.Estado() == spec.value)
    {
      var i := R.CalificacionPropia(bd.Estado(), id, emailProfesor);
      if i.Err? {
        return Fail(i.error);
      }
      ghost var antes := bd.Estado();
      R.EliminarCalificacionQuitaSoloEsa(antes, id, emailProfesor);
      ghost var despues := R.EliminarCalificacion(antes, id, emailProfesor).value;
      bd.BorrarCalificacion(i.value);
      assert bd.Estado() == despues;
      r := Pass;
    }
  }
}
