/** The three request bodies and the `@Valid` constraints each one declares. A body
    that breaks one of them is refused before the handler runs. */
module DtoSolicitud {
  import opened Comun
  import opened Entidades

  /** Body of a grade create or update; `nota` in tenths. */
  datatype CalificacionRequestDTO = CalificacionRequestDTO(
    estudianteId: Option<int>,
    materiaId: Option<int>,
    nota: Option<int>,
    tipoEvaluacion: Option<string>,
    observaciones: Option<string>)

  /** `@NotNull` ids, `@NotNull` nota in [0.0, 5.0], optional texts of at most 20 and
      500 characters. */
  predicate CalificacionRequestValida(d: CalificacionRequestDTO) {
    && d.estudianteId.Some?
    && d.materiaId.Some?
    && d.nota.Some? && NotaEnRango(d.nota.value)
    && AtMost(d.tipoEvaluacion, 20)
    && AtMost(d.observaciones, 500)
  }

  /** A valid grade request fills every constraint of the grade entity it becomes. */
  lemma CalificacionRequestCumpleEntidad(d: CalificacionRequestDTO, c: Calificacion)
    requires CalificacionRequestValida(d)
    requires c.nota == d.nota && c.tipoEvaluacion == d.tipoEvaluacion && c.observaciones == d.observaciones
    ensures CalificacionValida(c)
  {
  }

  /** Body of a person create or update; `fechaNacimiento` is a day number. */
  datatype EstudianteRequestDTO = EstudianteRequestDTO(
    nombre: Option<string>,
    apellido: Option<string>,
    email: Option<string>,
    cedula: Option<string>,
    carrera: Option<string>,
    semestre: Option<int>,
    fechaNacimiento: Option<int>,
    telefono: Option<string>,
    direccion: Option<string>,
    password: Option<string>)

  /** The person body's constraints, checked on day `hoy` for `@Past`. */
  predicate EstudianteRequestValida(d: EstudianteRequestDTO, hoy: int) {
    && TextoEntre(d.nombre, 2, 50)
    && TextoEntre(d.apellido, 2, 50)
    && NotBlank(d.email) && EmailBienFormado(d.email.value)
    && TextoEntre(d.cedula, 8, 20)
    && TextoEntre(d.carrera, 3, 100)
    && EnteroEntre(d.semestre, 1, 12)
    && d.fechaNacimiento.Some? && d.fechaNacimiento.value < hoy
    && AtMost(d.telefono, 15)
    && AtMost(d.direccion, 200)
    && NotBlank(d.password) && |d.password.value| >= 6
  }

  /** A valid body always carries a non-blank password, so the update service's
      "keep the old password" branch is never taken for a request that passed `@Valid`. */
  lemma PasswordSiemprePresente(d: EstudianteRequestDTO, hoy: int)
    requires EstudianteRequestValida(d, hoy)
    ensures d.password.Some? && !Blank(d.password.value)
  {
  }

  /** Body of a course create or update. */
  datatype MateriaRequestDTO = MateriaRequestDTO(
    nombre: Option<string>,
    codigo: Option<string>,
    descripcion: Option<string>,
    creditos: Option<int>,
    semestre: Option<int>,
    carrera: Option<string>,
    profesorId: Option<int>)

  /** The course body's constraints; `profesorId` is optional. */
  predicate MateriaRequestValida(d: MateriaRequestDTO) {
    && NotBlank(d.nombre) && |d.nombre.value| <= 100
    && NotBlank(d.codigo) && |d.codigo.value| <= 10
    && AtMost(d.descripcion, 500)
    && EnteroEntre(d.creditos, 1, 10)
    && EnteroEntre(d.semestre, 1, 12)
    && AtMost(d.carrera, 100)
  }
}
