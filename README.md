# Academic records back end (students, courses, grades) in Dafny

This project models the core of a Spring Boot back end that keeps academic records.
One `Estudiante` table holds every person: students, teachers and administrators,
told apart by the role `RolEstudiante`. A `Materia` is a course, optionally taught by a
teacher. A `Calificacion` is a grade in tenths (0.0 to 5.0, stored as 0..50): one
student, in one course, given by one teacher.

The model is layered the way the program is:

- **Entities and repositories** (`entidades.dfy`, `repo_*.dfy`): each entity is a
  datatype. A table is a sequence in key order. Each derived query
  (`findByCarrera`, `findByNombreCompletoContainingIgnoreCase`, the `AVG`/`COUNT`
  queries) is a function that is exact about which rows it returns.
- **The store** (`base_datos.dfy`): `BaseDeDatos` is a class whose fields are the
  three tables and the key counters. Each write keeps the invariant `Consistentes`:
  - keys increase
  - entity bean validation holds
  - email, cédula and course code are unique
  - foreign keys resolve
  - linked teachers are teachers
- **Services**:
  - The rules files (`reglas_*.dfy`) hold one pure function per service operation.
    Each returns either an error (`ResourceNotFound`, `DuplicateResource`,
    `IllegalArgument`, `ConstraintViolation`) or the new tables and the saved row.
  - The service classes (`servicio_*.dfy`) carry out the writes step by step on the
    store. Each service method is proved to end in exactly the state and the
    response that its rules function gives, and to leave the store unchanged on
    error.
  - Flushing follows Hibernate: an entity the setters left unchanged is not flushed.
    A changed one is validated (which may raise `ConstraintViolation`), and its
    `@PreUpdate` stamps `fechaActualizacion`.
- **Response DTOs** (`dto_respuesta.dfy`): classes with setters. `Vista()` is their
  value, and some setters keep the derived fields (`nombreCompleto`,
  `notaConFormato`, `esAprobatoria`) in step. Request DTOs
  (`dto_solicitud.dfy`) are datatypes with their `@Valid` predicates.
- **Security** (`seguridad.dfy`): `UserDetailsImpl` as a datatype. It provides
  `build`, the `ROLE_` authority, `hasRole`/`hasAnyRole`, and `equals`/`hashCode`
  with Java's 32-bit arithmetic.
- **Controllers** (`controlador_*.dfy`): each handler is a function that runs the
  checks in Spring's order, then calls the service's rules function:
  1. the `@Valid` body (`MethodArgumentNotValid`)
  2. `@PreAuthorize` (`AccessDenied`)
  3. the handler's own ownership guard (`ResourceNotFound`)

Time is a parameter: `hoy` is today's date for `@Past`, and `ahora` is the timestamp
for creation and `@PreUpdate`. The password encoder is a parameter too: `codificar`.

## Model

Source paths are relative to the repository root.

| member | source | states |
|---|---|---|
| Entidades.RolDesdeNombre | src/main/java/com/estudiantes/controlEstudiantes/entity/RolEstudiante.java:3-6 | a role read back from its stored name has exactly that name |
| Entidades.RolNombreIda | src/main/java/com/estudiantes/controlEstudiantes/entity/RolEstudiante.java:3-17 | reading back a role's stored name (`@Enumerated(STRING)`) gives the same role, and the three descriptions are distinct |
| Entidades.NombreCompletoPartes | src/main/java/com/estudiantes/controlEstudiantes/entity/Estudiante.java:235-237 | a person's full name splits back into nombre and apellido around a single space |
| Entidades.NuevoEstudiante | src/main/java/com/estudiantes/controlEstudiantes/entity/Estudiante.java:80-106 | a new person gets the defaults: role ESTUDIANTE, active, created now, never updated; the key fields are the given ones |
| Entidades.EstudiantePreUpdate | src/main/java/com/estudiantes/controlEstudiantes/entity/Estudiante.java:108-112 | `@PreUpdate` stamps `fechaActualizacion` and changes nothing else |
| Entidades.MateriaNombreCompletoPartes | src/main/java/com/estudiantes/controlEstudiantes/entity/Materia.java:180-182 | a valid course's full name is its code, " - ", then its name |
| Entidades.MateriaPreUpdate | src/main/java/com/estudiantes/controlEstudiantes/entity/Materia.java:86-90 | `@PreUpdate` stamps `fechaActualizacion` and changes nothing else |
| Entidades.CalificacionPreUpdate | src/main/java/com/estudiantes/controlEstudiantes/entity/Calificacion.java:79-83 | `@PreUpdate` stamps `fechaActualizacion` and changes nothing else |
| Entidades.Cifras | src/main/java/com/estudiantes/controlEstudiantes/entity/Calificacion.java:158-160 | the decimal digits used by `BigDecimal.toString` are non-empty and all digits |
| Entidades.ValorDeCifras | src/main/java/com/estudiantes/controlEstudiantes/entity/Calificacion.java:158-160 | the digit string denotes the number it was made from |
| Entidades.NotaTexto | src/main/java/com/estudiantes/controlEstudiantes/entity/Calificacion.java:158-160 | a scale-1 grade always prints with at least "d.d" |
| Entidades.LeerNotaTexto | src/main/java/com/estudiantes/controlEstudiantes/entity/Calificacion.java:158-160 | the printed grade parses back to the same number of tenths, for every integer |
| Entidades.NotaConFormatoEnRango | src/main/java/com/estudiantes/controlEstudiantes/entity/Calificacion.java:158-164 | a grade in 0.0..5.0 formats as "d.d/5.0", and it passes (`esAprobatoria`, >= 3.0) exactly when its first digit is at least 3 |
| Comun.Str | src/main/java/com/estudiantes/controlEstudiantes/entity/Estudiante.java:235-237 | Java string concatenation of a possibly-null part: the text itself, or "null" |
| Comun.ContainsIgnoreCaseInConcat | src/main/java/com/estudiantes/controlEstudiantes/repository/EstudianteRepository.java:45-46 | a literal substring match with ASCII letters folded, on either part of a concatenation, matches the whole |
| DtoSolicitud.CalificacionRequestCumpleEntidad | src/main/java/com/estudiantes/controlEstudiantes/dto/CalificacionRequestDTO.java:12-27 | a grade request that passes `@Valid` satisfies every bean constraint of the grade entity it fills |
| DtoSolicitud.PasswordSiemprePresente | src/main/java/com/estudiantes/controlEstudiantes/dto/EstudianteRequestDTO.java:50-52 | a valid person request always carries a non-blank password |
| EstudianteRepositorio.FindById | src/main/java/com/estudiantes/controlEstudiantes/repository/EstudianteRepository.java:15 | the person with that key, present exactly when some row has the key |
| EstudianteRepositorio.Posicion | src/main/java/com/estudiantes/controlEstudiantes/repository/EstudianteRepository.java:15 | the row index of that key, agreeing with `FindById`, absent exactly when no row has the key |
| EstudianteRepositorio.PosicionMismasClaves | src/main/java/com/estudiantes/controlEstudiantes/repository/EstudianteRepository.java:15 | rewriting rows without changing their keys does not move any key |
| EstudianteRepositorio.FindByIdUnico | src/main/java/com/estudiantes/controlEstudiantes/repository/EstudianteRepository.java:15 | with increasing keys, looking up a stored person's key finds that very person |
| EstudianteRepositorio.AgregarConservaClaves | src/main/java/com/estudiantes/controlEstudiantes/entity/Estudiante.java:41-48 | appending a person with a key above every stored key and a free email and cédula keeps keys increasing and both unique columns unique |
| EstudianteRepositorio.ReemplazarConservaClaves | src/main/java/com/estudiantes/controlEstudiantes/entity/Estudiante.java:41-48 | rewriting one row with its own key and a free email and cédula keeps keys increasing and both unique columns unique |
| EstudianteRepositorio.FindByEmail | src/main/java/com/estudiantes/controlEstudiantes/repository/EstudianteRepository.java:17-18 | a person with that email, present exactly when `existsByEmail` holds |
| EstudianteRepositorio.FindByCedula | src/main/java/com/estudiantes/controlEstudiantes/repository/EstudianteRepository.java:20-21 | a person with that cédula, present exactly when `existsByCedula` holds |
| EstudianteRepositorio.FindByEmailUnico | src/main/java/com/estudiantes/controlEstudiantes/entity/Estudiante.java:41-44 | with unique emails, the lookup by email finds the one row holding it |
| EstudianteRepositorio.FindByRol | src/main/java/com/estudiantes/controlEstudiantes/repository/EstudianteRepository.java:29-30 | exactly the stored persons with that role |
| EstudianteRepositorio.FindByActivoTrue | src/main/java/com/estudiantes/controlEstudiantes/repository/EstudianteRepository.java:32-33 | exactly the active persons |
| EstudianteRepositorio.FindByCarrera | src/main/java/com/estudiantes/controlEstudiantes/repository/EstudianteRepository.java:35-36 | exactly the persons of that program |
| EstudianteRepositorio.FindBySemestre | src/main/java/com/estudiantes/controlEstudiantes/repository/EstudianteRepository.java:38-39 | exactly the persons in that semester |
| EstudianteRepositorio.FindByCarreraAndSemestre | src/main/java/com/estudiantes/controlEstudiantes/repository/EstudianteRepository.java:41-42 | the conjunction of the two filters, composed |
| EstudianteRepositorio.FindByNombreCompletoContainingIgnoreCase | src/main/java/com/estudiantes/controlEstudiantes/repository/EstudianteRepository.java:44-46 | exactly the persons (active or not) whose "nombre apellido", with ASCII letters folded to lower case, contains the query folded the same way as a literal substring |
| EstudianteRepositorio.BusquedaPorParteDelNombre | src/main/java/com/estudiantes/controlEstudiantes/repository/EstudianteRepository.java:44-46 | a query found in the first name alone or in the last name alone finds the person |
| EstudianteRepositorio.FindByRolAndActivoTrue | src/main/java/com/estudiantes/controlEstudiantes/repository/EstudianteRepository.java:48-49 | the active persons among those with the role |
| EstudianteRepositorio.CountByCarreraAndActivoTrue | src/main/java/com/estudiantes/controlEstudiantes/repository/EstudianteRepository.java:51-53 | the number of active persons of the program, never more than the program's persons |
| EstudianteRepositorio.CountBySemestreAndActivoTrue | src/main/java/com/estudiantes/controlEstudiantes/repository/EstudianteRepository.java:55-57 | the number of active persons of the semester, never more than the semester's persons |
| MateriaRepositorio.FindById | src/main/java/com/estudiantes/controlEstudiantes/repository/MateriaRepository.java:15 | the course with that key, active or not, present exactly when a row has it |
| MateriaRepositorio.Posicion | src/main/java/com/estudiantes/controlEstudiantes/repository/MateriaRepository.java:15 | the row index of the key, agreeing with `FindById` |
| MateriaRepositorio.PosicionMismasClaves | src/main/java/com/estudiantes/controlEstudiantes/repository/MateriaRepository.java:15 | rewriting rows without changing keys does not move any key |
| MateriaRepositorio.FindByIdUnico | src/main/java/com/estudiantes/controlEstudiantes/repository/MateriaRepository.java:15 | with increasing keys, a stored course is found by its own key |
| MateriaRepositorio.FindByCodigo | src/main/java/com/estudiantes/controlEstudiantes/repository/MateriaRepository.java:17-21 | a course with that code, present exactly when `existsByCodigo` holds |
| MateriaRepositorio.FindByActivaTrue | src/main/java/com/estudiantes/controlEstudiantes/repository/MateriaRepository.java:23-24 | exactly the active courses |
| MateriaRepositorio.FindByCarrera | src/main/java/com/estudiantes/controlEstudiantes/repository/MateriaRepository.java:26-27 | exactly the courses of that program, active or not |
| MateriaRepositorio.FindBySemestre | src/main/java/com/estudiantes/controlEstudiantes/repository/MateriaRepository.java:29-30 | exactly the courses of that semester, active or not |
| MateriaRepositorio.FindByCarreraAndSemestre | src/main/java/com/estudiantes/controlEstudiantes/repository/MateriaRepository.java:32-33 | the two filters composed |
| MateriaRepositorio.FindByProfesor | src/main/java/com/estudiantes/controlEstudiantes/repository/MateriaRepository.java:35-36 | exactly the courses taught by that teacher, active or not |
| MateriaRepositorio.FindMateriasByProfesorId | src/main/java/com/estudiantes/controlEstudiantes/repository/MateriaRepository.java:38-40 | the active courses among that teacher's |
| MateriaRepositorio.FindByNombreContainingIgnoreCase | src/main/java/com/estudiantes/controlEstudiantes/repository/MateriaRepository.java:42-44 | exactly the active courses whose name, with ASCII letters folded, contains the folded query as a literal substring |
| MateriaRepositorio.FindByCodigoContainingIgnoreCase | src/main/java/com/estudiantes/controlEstudiantes/repository/MateriaRepository.java:46-48 | exactly the active courses whose code, with ASCII letters folded, contains the folded query as a literal substring |
| MateriaRepositorio.CountByCarrera | src/main/java/com/estudiantes/controlEstudiantes/repository/MateriaRepository.java:50-52 | the number of active courses of the program, at most all of the program's courses |
| MateriaRepositorio.CountByProfesorId | src/main/java/com/estudiantes/controlEstudiantes/repository/MateriaRepository.java:54-56 | the number of the teacher's active courses, at most all of the teacher's courses |
| CalificacionRepositorio.FindById | src/main/java/com/estudiantes/controlEstudiantes/repository/CalificacionRepository.java:49-55 | the grade with that key (null when absent), present exactly when a row has it |
| CalificacionRepositorio.Posicion | src/main/java/com/estudiantes/controlEstudiantes/repository/CalificacionRepository.java:16 | the row index of the key, agreeing with `FindById` |
| CalificacionRepositorio.FindByIdUnico | src/main/java/com/estudiantes/controlEstudiantes/repository/CalificacionRepository.java:16 | with increasing keys, a stored grade is found by its own key |
| CalificacionRepositorio.QuitarFila | src/main/java/com/estudiantes/controlEstudiantes/repository/CalificacionRepository.java:16 | `delete` of a row removes exactly the grade with that key and keeps every other |
| CalificacionRepositorio.FindByEstudianteId | src/main/java/com/estudiantes/controlEstudiantes/repository/CalificacionRepository.java:60-62 | exactly the student's grades |
| CalificacionRepositorio.FindByMateriaId | src/main/java/com/estudiantes/controlEstudiantes/repository/CalificacionRepository.java:67-69 | exactly the course's grades |
| CalificacionRepositorio.FindByProfesorId | src/main/java/com/estudiantes/controlEstudiantes/repository/CalificacionRepository.java:74-76 | exactly the grades the teacher gave |
| CalificacionRepositorio.FindByEstudianteIdAndMateriaId | src/main/java/com/estudiantes/controlEstudiantes/repository/CalificacionRepository.java:78-81 | exactly the student's grades in that course |
| CalificacionRepositorio.EstudianteYMateriaCompuesta | src/main/java/com/estudiantes/controlEstudiantes/repository/CalificacionRepository.java:78-81 | the two-key query equals filtering the student's grades by course, in the same order |
| CalificacionRepositorio.FindByTipoEvaluacion | src/main/java/com/estudiantes/controlEstudiantes/repository/CalificacionRepository.java:83-84 | exactly the grades of that evaluation type |
| CalificacionRepositorio.FindCalificacionesAprobatorias | src/main/java/com/estudiantes/controlEstudiantes/repository/CalificacionRepository.java:86-88 | exactly the grades of at least 3.0 |
| CalificacionRepositorio.FindCalificacionesReprobatorias | src/main/java/com/estudiantes/controlEstudiantes/repository/CalificacionRepository.java:90-92 | exactly the grades below 3.0 |
| CalificacionRepositorio.AprobatoriasReprobatoriasParticion | src/main/java/com/estudiantes/controlEstudiantes/repository/CalificacionRepository.java:86-92 | every grade is in exactly one of the two lists, and their sizes add up to the table's |
| CalificacionRepositorio.CuentaNotas | src/main/java/com/estudiantes/controlEstudiantes/repository/CalificacionRepository.java:94-105 | the number of non-null grades that `AVG` divides by is at most the rows |
| CalificacionRepositorio.Promedio | src/main/java/com/estudiantes/controlEstudiantes/repository/CalificacionRepository.java:94-105 | `AVG` is null exactly when there is nothing to average, and otherwise times the count gives the sum |
| CalificacionRepositorio.SumaAcotada | src/main/java/com/estudiantes/controlEstudiantes/repository/CalificacionRepository.java:94-105 | a sum of grades each within [lo, hi] lies within count×lo and count×hi |
| CalificacionRepositorio.PromedioEnRango | src/main/java/com/estudiantes/controlEstudiantes/repository/CalificacionRepository.java:94-105 | the average of grades in 0.0..5.0 is itself in 0.0..5.0 |
| CalificacionRepositorio.ContarAprobatoriasEstudiante | src/main/java/com/estudiantes/controlEstudiantes/repository/CalificacionRepository.java:107-109 | the count of the student's passing grades is the size of that filtered list |
| CalificacionRepositorio.ContarReprobatoriasEstudiante | src/main/java/com/estudiantes/controlEstudiantes/repository/CalificacionRepository.java:111-113 | the count of the student's failing grades is the size of that filtered list |
| CalificacionRepositorio.ConteosEstudianteSuman | src/main/java/com/estudiantes/controlEstudiantes/repository/CalificacionRepository.java:107-113 | passing plus failing counts equal the student's number of grades |
| CalificacionRepositorio.FindByNotaBetween | src/main/java/com/estudiantes/controlEstudiantes/repository/CalificacionRepository.java:119-122 | exactly the grades within the inclusive `BETWEEN` bounds |
| CalificacionRepositorio.InsertarDesc | src/main/java/com/estudiantes/controlEstudiantes/repository/CalificacionRepository.java:115-117 | inserting into a descending list keeps it descending and adds exactly that grade |
| CalificacionRepositorio.CabezaPrimero | src/main/java/com/estudiantes/controlEstudiantes/repository/CalificacionRepository.java:115-117 | a head no smaller than the rest, before a sorted rest, gives a sorted permutation |
| CalificacionRepositorio.FindTop10ByOrderByNotaDesc | src/main/java/com/estudiantes/controlEstudiantes/repository/CalificacionRepository.java:115-117 | the grades ordered by descending nota, a permutation of the table (the query has no limit) |
| BaseDatos.EmailDeProfesorNoEsDeOtroRol | src/main/java/com/estudiantes/controlEstudiantes/service/CalificacionService.java:187-200 | in a consistent store a teacher's email is never an admin's or a student's email |
| BaseDatos.InsertarCalificacionConserva | src/main/java/com/estudiantes/controlEstudiantes/entity/Calificacion.java:28-58 | saving a new valid grade with resolvable student, course and teacher keeps the store consistent |
| BaseDatos.ReemplazarCalificacionConserva | src/main/java/com/estudiantes/controlEstudiantes/entity/Calificacion.java:28-58 | rewriting a grade with the same key and links, still valid, keeps the store consistent |
| BaseDatos.BorrarCalificacionConserva | src/main/java/com/estudiantes/controlEstudiantes/repository/CalificacionRepository.java:16 | deleting a grade keeps the store consistent (no entity points at a grade) |
| BaseDatos.InsertarPersonaConserva | src/main/java/com/estudiantes/controlEstudiantes/entity/Estudiante.java:31-85 | saving a new valid person with a free email and cédula keeps the store consistent |
| BaseDatos.ReemplazarPersonaConserva | src/main/java/com/estudiantes/controlEstudiantes/entity/Estudiante.java:31-85 | rewriting a person with the same key and role, still valid and unique, keeps the store consistent |
| BaseDatos.PersonasReemplazadas | src/main/java/com/estudiantes/controlEstudiantes/entity/Estudiante.java:80-82 | such a rewrite keeps every existing key present and every teacher a teacher |
| BaseDatos.InsertarMateriaConserva | src/main/java/com/estudiantes/controlEstudiantes/entity/Materia.java:29-65 | saving a new valid course with a free code and a teacher (or none) keeps the store consistent |
| BaseDatos.ReemplazarMateriaConserva | src/main/java/com/estudiantes/controlEstudiantes/entity/Materia.java:29-65 | rewriting a course with the same key, a free code and a teacher (or none) keeps the store consistent |
| BaseDatos.BaseDeDatos.constructor | src/main/java/com/estudiantes/controlEstudiantes/repository/EstudianteRepository.java:15 | the store starts from consistent tables |
| BaseDatos.BaseDeDatos.InsertarPersona | src/main/java/com/estudiantes/controlEstudiantes/repository/EstudianteRepository.java:15 | `save` of a new person appends it under the next key |
| BaseDatos.BaseDeDatos.ActualizarPersona | src/main/java/com/estudiantes/controlEstudiantes/repository/EstudianteRepository.java:15 | the flush of a person rewrites exactly that row |
| BaseDatos.BaseDeDatos.InsertarMateria | src/main/java/com/estudiantes/controlEstudiantes/repository/MateriaRepository.java:15 | `save` of a new course appends it under the next key |
| BaseDatos.BaseDeDatos.ActualizarMateria | src/main/java/com/estudiantes/controlEstudiantes/repository/MateriaRepository.java:15 | the flush of a course rewrites exactly that row |
| BaseDatos.BaseDeDatos.InsertarCalificacion | src/main/java/com/estudiantes/controlEstudiantes/repository/CalificacionRepository.java:16 | `save` of a new grade appends it under the next key |
| BaseDatos.BaseDeDatos.ActualizarCalificacion | src/main/java/com/estudiantes/controlEstudiantes/repository/CalificacionRepository.java:16 | the flush of a grade rewrites exactly that row |
| BaseDatos.BaseDeDatos.BorrarCalificacion | src/main/java/com/estudiantes/controlEstudiantes/repository/CalificacionRepository.java:16 | `delete` removes exactly that row and keeps the order of the others |
| DtoRespuesta.CalificacionResponseDTO.Vacio | src/main/java/com/estudiantes/controlEstudiantes/dto/CalificacionResponseDTO.java:26 | the no-argument constructor leaves every field null |
| DtoRespuesta.EstudianteResponseDTO.Vacio | src/main/java/com/estudiantes/controlEstudiantes/dto/EstudianteResponseDTO.java:26 | the no-argument constructor leaves every field null |
| DtoRespuesta.CalificacionResponseDTO.constructor | src/main/java/com/estudiantes/controlEstudiantes/dto/CalificacionResponseDTO.java:28-49 | the full constructor stores the fields and derives the formatted grade and the pass flag from the grade |
| DtoRespuesta.CalificacionResponseDTO.SetId | src/main/java/com/estudiantes/controlEstudiantes/dto/CalificacionResponseDTO.java:56-58 | changes only `id` |
| DtoRespuesta.CalificacionResponseDTO.SetEstudianteId | src/main/java/com/estudiantes/controlEstudiantes/dto/CalificacionResponseDTO.java:64-66 | changes only `estudianteId` |
| DtoRespuesta.CalificacionResponseDTO.SetNombreEstudiante | src/main/java/com/estudiantes/controlEstudiantes/dto/CalificacionResponseDTO.java:72-74 | changes only `nombreEstudiante` |
| DtoRespuesta.CalificacionResponseDTO.SetCedulaEstudiante | src/main/java/com/estudiantes/controlEstudiantes/dto/CalificacionResponseDTO.java:80-82 | changes only `cedulaEstudiante` |
| DtoRespuesta.CalificacionResponseDTO.SetMateriaId | src/main/java/com/estudiantes/controlEstudiantes/dto/CalificacionResponseDTO.java:88-90 | changes only `materiaId` |
| DtoRespuesta.CalificacionResponseDTO.SetNombreMateria | src/main/java/com/estudiantes/controlEstudiantes/dto/CalificacionResponseDTO.java:96-98 | changes only `nombreMateria` |
| DtoRespuesta.CalificacionResponseDTO.SetCodigoMateria | src/main/java/com/estudiantes/controlEstudiantes/dto/CalificacionResponseDTO.java:104-106 | changes only `codigoMateria` |
| DtoRespuesta.CalificacionResponseDTO.SetProfesorId | src/main/java/com/estudiantes/controlEstudiantes/dto/CalificacionResponseDTO.java:112-114 | changes only `profesorId` |
| DtoRespuesta.CalificacionResponseDTO.SetNombreProfesor | src/main/java/com/estudiantes/controlEstudiantes/dto/CalificacionResponseDTO.java:120-122 | changes only `nombreProfesor` |
| DtoRespuesta.CalificacionResponseDTO.SetNota | src/main/java/com/estudiantes/controlEstudiantes/dto/CalificacionResponseDTO.java:128-132 | setting the grade also sets its "x.y/5.0" text and its pass flag, so the three agree afterwards |
| DtoRespuesta.CalificacionResponseDTO.SetTipoEvaluacion | src/main/java/com/estudiantes/controlEstudiantes/dto/CalificacionResponseDTO.java:138-140 | changes only `tipoEvaluacion` |
| DtoRespuesta.CalificacionResponseDTO.SetObservaciones | src/main/java/com/estudiantes/controlEstudiantes/dto/CalificacionResponseDTO.java:146-148 | changes only `observaciones` |
| DtoRespuesta.CalificacionResponseDTO.SetFechaCreacion | src/main/java/com/estudiantes/controlEstudiantes/dto/CalificacionResponseDTO.java:154-156 | changes only `fechaCreacion` |
| DtoRespuesta.CalificacionResponseDTO.SetFechaActualizacion | src/main/java/com/estudiantes/controlEstudiantes/dto/CalificacionResponseDTO.java:162-164 | changes only `fechaActualizacion` |
| DtoRespuesta.CalificacionResponseDTO.SetNotaConFormato | src/main/java/com/estudiantes/controlEstudiantes/dto/CalificacionResponseDTO.java:170-172 | changes only the formatted text, which may then disagree with the grade |
| DtoRespuesta.CalificacionResponseDTO.SetEsAprobatoria | src/main/java/com/estudiantes/controlEstudiantes/dto/CalificacionResponseDTO.java:178-180 | changes only the pass flag |
| DtoRespuesta.EstudianteResponseDTO.constructor | src/main/java/com/estudiantes/controlEstudiantes/dto/EstudianteResponseDTO.java:29-48 | stores the fields and derives the full name as nombre, space, apellido |
| DtoRespuesta.EstudianteResponseDTO.SetId | src/main/java/com/estudiantes/controlEstudiantes/dto/EstudianteResponseDTO.java:55-57 | changes only `id` |
| DtoRespuesta.EstudianteResponseDTO.SetNombre | src/main/java/com/estudiantes/controlEstudiantes/dto/EstudianteResponseDTO.java:63-66 | sets the first name and rewrites the full name with the current last name (a null one reads empty) |
| DtoRespuesta.EstudianteResponseDTO.SetApellido | src/main/java/com/estudiantes/controlEstudiantes/dto/EstudianteResponseDTO.java:72-75 | sets the last name and rewrites the full name with the current first name (a null one reads empty) |
| DtoRespuesta.EstudianteResponseDTO.SetEmail | src/main/java/com/estudiantes/controlEstudiantes/dto/EstudianteResponseDTO.java:81-83 | changes only `email` |
| DtoRespuesta.EstudianteResponseDTO.SetCedula | src/main/java/com/estudiantes/controlEstudiantes/dto/EstudianteResponseDTO.java:89-91 | changes only `cedula` |
| DtoRespuesta.EstudianteResponseDTO.SetCarrera | src/main/java/com/estudiantes/controlEstudiantes/dto/EstudianteResponseDTO.java:97-99 | changes only `carrera` |
| DtoRespuesta.EstudianteResponseDTO.SetSemestre | src/main/java/com/estudiantes/controlEstudiantes/dto/EstudianteResponseDTO.java:105-107 | changes only `semestre` |
| DtoRespuesta.EstudianteResponseDTO.SetFechaNacimiento | src/main/java/com/estudiantes/controlEstudiantes/dto/EstudianteResponseDTO.java:113-115 | changes only `fechaNacimiento` |
| DtoRespuesta.EstudianteResponseDTO.SetTelefono | src/main/java/com/estudiantes/controlEstudiantes/dto/EstudianteResponseDTO.java:121-123 | changes only `telefono` |
| DtoRespuesta.EstudianteResponseDTO.SetDireccion | src/main/java/com/estudiantes/controlEstudiantes/dto/EstudianteResponseDTO.java:129-131 | changes only `direccion` |
| DtoRespuesta.EstudianteResponseDTO.SetRol | src/main/java/com/estudiantes/controlEstudiantes/dto/EstudianteResponseDTO.java:137-139 | changes only `rol` |
| DtoRespuesta.EstudianteResponseDTO.SetActivo | src/main/java/com/estudiantes/controlEstudiantes/dto/EstudianteResponseDTO.java:145-147 | changes only `activo` |
| DtoRespuesta.EstudianteResponseDTO.SetFechaCreacion | src/main/java/com/estudiantes/controlEstudiantes/dto/EstudianteResponseDTO.java:153-155 | changes only `fechaCreacion` |
| DtoRespuesta.EstudianteResponseDTO.SetFechaActualizacion | src/main/java/com/estudiantes/controlEstudiantes/dto/EstudianteResponseDTO.java:161-163 | changes only `fechaActualizacion` |
| DtoRespuesta.EstudianteResponseDTO.SetNombreCompleto | src/main/java/com/estudiantes/controlEstudiantes/dto/EstudianteResponseDTO.java:169-171 | changes only the full name |
| DtoRespuesta.MateriaResponseDTO.Vacio | src/main/java/com/estudiantes/controlEstudiantes/dto/MateriaResponseDTO.java:22 | the no-argument constructor leaves every field null |
| DtoRespuesta.MateriaResponseDTO.constructor | src/main/java/com/estudiantes/controlEstudiantes/dto/MateriaResponseDTO.java:24-41 | stores the fields and derives the full name as code, " - ", name |
| DtoRespuesta.MateriaResponseDTO.SetId | src/main/java/com/estudiantes/controlEstudiantes/dto/MateriaResponseDTO.java:48-50 | changes only `id` |
| DtoRespuesta.MateriaResponseDTO.SetNombre | src/main/java/com/estudiantes/controlEstudiantes/dto/MateriaResponseDTO.java:56-59 | sets the name and rewrites the full name, with the " - " prefix only when a code is present |
| DtoRespuesta.MateriaResponseDTO.SetCodigo | src/main/java/com/estudiantes/controlEstudiantes/dto/MateriaResponseDTO.java:65-68 | sets the code and rewrites the full name, a null name reading empty |
| DtoRespuesta.MateriaResponseDTO.SetDescripcion | src/main/java/com/estudiantes/controlEstudiantes/dto/MateriaResponseDTO.java:74-76 | changes only `descripcion` |
| DtoRespuesta.MateriaResponseDTO.SetCreditos | src/main/java/com/estudiantes/controlEstudiantes/dto/MateriaResponseDTO.java:82-84 | changes only `creditos` |
| DtoRespuesta.MateriaResponseDTO.SetSemestre | src/main/java/com/estudiantes/controlEstudiantes/dto/MateriaResponseDTO.java:90-92 | changes only `semestre` |
| DtoRespuesta.MateriaResponseDTO.SetCarrera | src/main/java/com/estudiantes/controlEstudiantes/dto/MateriaResponseDTO.java:98-100 | changes only `carrera` |
| DtoRespuesta.MateriaResponseDTO.SetNombreProfesor | src/main/java/com/estudiantes/controlEstudiantes/dto/MateriaResponseDTO.java:106-108 | changes only `nombreProfesor` |
| DtoRespuesta.MateriaResponseDTO.SetProfesorId | src/main/java/com/estudiantes/controlEstudiantes/dto/MateriaResponseDTO.java:114-116 | changes only `profesorId` |
| DtoRespuesta.MateriaResponseDTO.SetActiva | src/main/java/com/estudiantes/controlEstudiantes/dto/MateriaResponseDTO.java:122-124 | changes only `activa` |
| DtoRespuesta.MateriaResponseDTO.SetFechaCreacion | src/main/java/com/estudiantes/controlEstudiantes/dto/MateriaResponseDTO.java:130-132 | changes only `fechaCreacion` |
| DtoRespuesta.MateriaResponseDTO.SetFechaActualizacion | src/main/java/com/estudiantes/controlEstudiantes/dto/MateriaResponseDTO.java:138-140 | changes only `fechaActualizacion` |
| DtoRespuesta.MateriaResponseDTO.SetNombreCompleto | src/main/java/com/estudiantes/controlEstudiantes/dto/MateriaResponseDTO.java:146-148 | changes only the full name |
| Seguridad.Build | src/main/java/com/estudiantes/controlEstudiantes/security/UserDetailsImpl.java:33-47 | the principal carries the person's key, email, password, role and active flag, exactly one authority `ROLE_<rol>`, and is enabled and unlocked exactly when the person is active |
| Seguridad.AutoridadInyectiva | src/main/java/com/estudiantes/controlEstudiantes/security/UserDetailsImpl.java:34-36 | different roles give different `ROLE_` authorities |
| Seguridad.BuildHasRole | src/main/java/com/estudiantes/controlEstudiantes/security/UserDetailsImpl.java:33-47 | `hasRole(r)` holds for a built principal exactly when the person's role is r |
| Seguridad.BuildHasAnyRole | src/main/java/com/estudiantes/controlEstudiantes/security/UserDetailsImpl.java:33-47 | `hasRole(a) or hasRole(b)` holds exactly when the person's role is among them |
| Seguridad.Envolver32 | src/main/java/com/estudiantes/controlEstudiantes/security/UserDetailsImpl.java:104-106 | Java `int` wrap-around always lands in the 32-bit signed range |
| Seguridad.HashCodeCoherente | src/main/java/com/estudiantes/controlEstudiantes/security/UserDetailsImpl.java:95-106 | principals equal by `equals` (same id) have the same `hashCode` |
| Seguridad.HashCodeIdPequeno | src/main/java/com/estudiantes/controlEstudiantes/security/UserDetailsImpl.java:104-106 | `Objects.hash(id)` of a small non-negative id is 31 + id |
| EstudianteReglas.VistaEstudiante | src/main/java/com/estudiantes/controlEstudiantes/service/EstudianteService.java:200-217 | the response copies key, email, cédula, role and active flag, and its full name is the entity's |
| EstudianteReglas.Vistas | src/main/java/com/estudiantes/controlEstudiantes/service/EstudianteService.java:37-42 | mapping the conversion keeps length and order |
| EstudianteReglas.EnVistas | src/main/java/com/estudiantes/controlEstudiantes/service/EstudianteService.java:37-42 | a converted list holds exactly the conversions of the source list |
| EstudianteReglas.ObtenerTodosLosEstudiantes | src/main/java/com/estudiantes/controlEstudiantes/service/EstudianteService.java:37-42 | a person is listed exactly when active |
| EstudianteReglas.ObtenerProfesores | src/main/java/com/estudiantes/controlEstudiantes/service/EstudianteService.java:44-50 | a person is listed exactly when an active teacher |
| EstudianteReglas.BuscarPorCarrera | src/main/java/com/estudiantes/controlEstudiantes/service/EstudianteService.java:142-148 | listed exactly when active and of that program |
| EstudianteReglas.BuscarPorSemestre | src/main/java/com/estudiantes/controlEstudiantes/service/EstudianteService.java:150-156 | listed exactly when active and in that semester |
| EstudianteReglas.BuscarPorNombreCompleto | src/main/java/com/estudiantes/controlEstudiantes/service/EstudianteService.java:158-164 | listed exactly when active and the full name, with ASCII letters folded, contains the folded query as a literal substring |
| EstudianteReglas.ObtenerEstudiantePorId | src/main/java/com/estudiantes/controlEstudiantes/service/EstudianteService.java:52-61 | NotFound or an active person with that key |
| EstudianteReglas.ObtenerEstudiantePorIdActivo | src/main/java/com/estudiantes/controlEstudiantes/service/EstudianteService.java:52-61 | found exactly when an active person has the key, and then it is that person's view (an inactive one is NotFound) |
| EstudianteReglas.ObtenerEstudiantePorEmail | src/main/java/com/estudiantes/controlEstudiantes/service/EstudianteService.java:63-72 | NotFound or an active person with that email |
| EstudianteReglas.ObtenerEstudiantePorEmailActivo | src/main/java/com/estudiantes/controlEstudiantes/service/EstudianteService.java:63-72 | found exactly when an active person has the email, and then it is that person |
| EstudianteReglas.PuedeEditarEstudiante | src/main/java/com/estudiantes/controlEstudiantes/service/EstudianteService.java:166-177 | admins always may; anyone else NotFound for a missing key, otherwise may exactly when the stored email is the caller's |
| EstudianteReglas.PuedeEditarSoloASiMismo | src/main/java/com/estudiantes/controlEstudiantes/service/EstudianteService.java:166-177 | a non-admin may edit exactly the person holding the caller's own email |
| EstudianteReglas.EstudiantesDe | src/main/java/com/estudiantes/controlEstudiantes/service/EstudianteService.java:190-192 | mapping grades to their students yields exactly the students of those grades |
| EstudianteReglas.AlumnosDeMateria | src/main/java/com/estudiantes/controlEstudiantes/service/EstudianteService.java:190-195 | `distinct` then `filter(activo)`: no repeats, only active stored persons with a grade in the course |
| EstudianteReglas.AlumnosDeMateriaExactos | src/main/java/com/estudiantes/controlEstudiantes/service/EstudianteService.java:190-195 | in a consistent store: no repeats, and a person is listed exactly when active with a grade in the course |
| EstudianteReglas.ObtenerEstudiantesDeMateria | src/main/java/com/estudiantes/controlEstudiantes/service/EstudianteService.java:179-197 | NotFound unless the course exists and the given id is its teacher; the list is of active persons |
| EstudianteReglas.EstudiantesDeMateriaExactos | src/main/java/com/estudiantes/controlEstudiantes/service/EstudianteService.java:179-197 | when allowed, the list is exactly the course's active graded students, without repeats |
| EstudianteReglas.GuardarPersona | src/main/java/com/estudiantes/controlEstudiantes/entity/Estudiante.java:108-112 | the flush of a changed person fails exactly when it breaks bean validation; otherwise only its row changes, stamped by `@PreUpdate` |
| EstudianteReglas.CrearEstudiante | src/main/java/com/estudiantes/controlEstudiantes/service/EstudianteService.java:74-91 | on success exactly one person is appended: the next key, role ESTUDIANTE, active, the request's fields, the encoded password |
| EstudianteReglas.CrearEstudianteDuplicado | src/main/java/com/estudiantes/controlEstudiantes/service/EstudianteService.java:75-81 | a taken email or cédula is Duplicate, and a created person's email and cédula were free |
| EstudianteReglas.CrearEstudianteValido | src/main/java/com/estudiantes/controlEstudiantes/service/EstudianteService.java:74-91 | a valid body with a sane encoder succeeds exactly when email and cédula are free |
| EstudianteReglas.CrearEstudianteConserva | src/main/java/com/estudiantes/controlEstudiantes/service/EstudianteService.java:74-91 | creation keeps the store consistent |
| EstudianteReglas.PersonaActiva | src/main/java/com/estudiantes/controlEstudiantes/service/EstudianteService.java:94-98 | the row of an active person with the key, NotFound exactly when missing or inactive |
| EstudianteReglas.ActualizarEstudiante | src/main/java/com/estudiantes/controlEstudiantes/service/EstudianteService.java:93-131 | on success the person keeps key, stays active and takes the request's fields; only that person's row changes, and it is the saved person stamped by `@PreUpdate`, or nothing changes when no field did |
| EstudianteReglas.ActualizarEstudianteConservaIdentidad | src/main/java/com/estudiantes/controlEstudiantes/service/EstudianteService.java:93-131 | NotFound exactly for a missing or inactive key; role and creation date are kept; a blank password keeps the old hash |
| EstudianteReglas.ActualizarEstudianteConserva | src/main/java/com/estudiantes/controlEstudiantes/service/EstudianteService.java:93-131 | an update keeps the store consistent |
| EstudianteReglas.EliminarEstudiante | src/main/java/com/estudiantes/controlEstudiantes/service/EstudianteService.java:133-140 | NotFound exactly for a missing key (inactive persons are found); success changes only the person table |
| EstudianteReglas.EliminarEstudianteSoloDesactiva | src/main/java/com/estudiantes/controlEstudiantes/service/EstudianteService.java:133-140 | the delete is soft: only that person changes, and only its active flag and update stamp |
| EstudianteReglas.EliminarEstudianteIdempotente | src/main/java/com/estudiantes/controlEstudiantes/service/EstudianteService.java:133-140 | deleting again succeeds and changes nothing |
| EstudianteReglas.EliminarEstudianteConserva | src/main/java/com/estudiantes/controlEstudiantes/service/EstudianteService.java:133-140 | the soft delete keeps the store consistent |
| EstudianteServicio.EstudianteService.constructor | src/main/java/com/estudiantes/controlEstudiantes/service/EstudianteService.java:23-35 | the service works on the given store |
| EstudianteServicio.EstudianteService.ConvertirAResponseDTO | src/main/java/com/estudiantes/controlEstudiantes/service/EstudianteService.java:200-217 | filling a fresh DTO through the setters gives the person's view, full name included |
| EstudianteServicio.EstudianteService.CrearEstudiante | src/main/java/com/estudiantes/controlEstudiantes/service/EstudianteService.java:74-91 | the store ends as the creation rule says, unchanged on error, the response is the saved person's view, and consistency is kept |
| EstudianteServicio.EstudianteService.ActualizarEstudiante | src/main/java/com/estudiantes/controlEstudiantes/service/EstudianteService.java:93-131 | the store ends as the update rule says, unchanged on error, and consistency is kept |
| EstudianteServicio.EstudianteService.EliminarEstudiante | src/main/java/com/estudiantes/controlEstudiantes/service/EstudianteService.java:133-140 | the store ends as the soft-delete rule says, unchanged on error |
| EstudianteServicio.EstudianteService.Guardar | src/main/java/com/estudiantes/controlEstudiantes/service/EstudianteService.java:129-130 | `save` of a loaded person flushes as `GuardarPersona` says |
| MateriaReglas.VistaMateria | src/main/java/com/estudiantes/controlEstudiantes/service/MateriaService.java:182-202 | the response copies key, code, name, active flag and the entity's full name; a teacher shows only with a name |
| MateriaReglas.VistaMateriaResuelta | src/main/java/com/estudiantes/controlEstudiantes/service/MateriaService.java:182-202 | in a consistent store every course's teacher appears in its response |
| MateriaReglas.Vistas | src/main/java/com/estudiantes/controlEstudiantes/service/MateriaService.java:30-35 | mapping the conversion keeps length and order |
| MateriaReglas.EnVistas | src/main/java/com/estudiantes/controlEstudiantes/service/MateriaService.java:30-35 | a converted list holds exactly the conversions of the source list |
| MateriaReglas.ObtenerTodasLasMaterias | src/main/java/com/estudiantes/controlEstudiantes/service/MateriaService.java:30-35 | a course is listed exactly when active |
| MateriaReglas.ObtenerMateriaPorId | src/main/java/com/estudiantes/controlEstudiantes/service/MateriaService.java:37-41 | NotFound exactly when no course has the key; inactive courses are returned |
| MateriaReglas.ObtenerMateriaPorCodigo | src/main/java/com/estudiantes/controlEstudiantes/service/MateriaService.java:43-47 | NotFound exactly when no course has the code |
| MateriaReglas.BuscarPorCarrera | src/main/java/com/estudiantes/controlEstudiantes/service/MateriaService.java:119-125 | listed exactly when active and of that program |
| MateriaReglas.BuscarPorSemestre | src/main/java/com/estudiantes/controlEstudiantes/service/MateriaService.java:127-133 | listed exactly when active and of that semester |
| MateriaReglas.BuscarPorCarreraYSemestre | src/main/java/com/estudiantes/controlEstudiantes/service/MateriaService.java:135-141 | listed exactly when active, of that program and of that semester |
| MateriaReglas.BuscarPorProfesor | src/main/java/com/estudiantes/controlEstudiantes/service/MateriaService.java:143-148 | every active course of the teacher is listed, and only active ones |
| MateriaReglas.BuscarPorProfesorExacto | src/main/java/com/estudiantes/controlEstudiantes/service/MateriaService.java:143-148 | in a consistent store a course is listed exactly when active and taught by that teacher |
| MateriaReglas.BuscarPorNombre | src/main/java/com/estudiantes/controlEstudiantes/service/MateriaService.java:150-155 | listed exactly when active and the name, with ASCII letters folded, contains the folded query as a literal substring |
| MateriaReglas.BuscarPorCodigo | src/main/java/com/estudiantes/controlEstudiantes/service/MateriaService.java:157-162 | listed exactly when active and the code, with ASCII letters folded, contains the folded query as a literal substring |
| MateriaReglas.PuedeEditarMateria | src/main/java/com/estudiantes/controlEstudiantes/service/MateriaService.java:164-179 | admins always may, students never; a teacher gets NotFound for a missing course, else may exactly when the course's teacher has the caller's email |
| MateriaReglas.PuedeEditarMateriaSoloSuProfesor | src/main/java/com/estudiantes/controlEstudiantes/service/MateriaService.java:164-179 | in a consistent store a teacher may edit exactly the courses whose teacher is a stored teacher with the caller's email |
| MateriaReglas.ProfesorAsignado | src/main/java/com/estudiantes/controlEstudiantes/service/MateriaService.java:56-64 | no teacher is fine; a missing one is NotFound; a non-teacher is IllegalArgument; success keeps the id |
| MateriaReglas.ProfesorAsignadoExito | src/main/java/com/estudiantes/controlEstudiantes/service/MateriaService.java:56-64 | the check passes exactly when there is no teacher or it is a stored teacher |
| MateriaReglas.CrearMateria | src/main/java/com/estudiantes/controlEstudiantes/service/MateriaService.java:49-72 | on success exactly one course is appended: the next key, active, the request's fields and teacher |
| MateriaReglas.CrearMateriaOrden | src/main/java/com/estudiantes/controlEstudiantes/service/MateriaService.java:50-64 | a taken code is Duplicate before the teacher is looked at; a free code with a missing teacher is NotFound |
| MateriaReglas.CrearMateriaValida | src/main/java/com/estudiantes/controlEstudiantes/service/MateriaService.java:49-72 | a valid body succeeds exactly when the code is free and the teacher is absent or a teacher |
| MateriaReglas.CrearMateriaConserva | src/main/java/com/estudiantes/controlEstudiantes/service/MateriaService.java:49-72 | creation keeps the store consistent |
| MateriaReglas.GuardarMateria | src/main/java/com/estudiantes/controlEstudiantes/entity/Materia.java:86-90 | the flush of a changed course fails exactly when it breaks bean validation; otherwise only its row changes, stamped |
| MateriaReglas.ActualizarMateria | src/main/java/com/estudiantes/controlEstudiantes/service/MateriaService.java:74-108 | NotFound, Duplicate, teacher errors and validation as the service orders them; on success only that course's row changes, and it is the saved course stamped by `@PreUpdate`, or nothing changes when no field did |
| MateriaReglas.ActualizarMateriaConservaIdentidad | src/main/java/com/estudiantes/controlEstudiantes/service/MateriaService.java:74-108 | active flag and creation date are kept, and re-sending the stored code is never Duplicate |
| MateriaReglas.ActualizarMateriaConserva | src/main/java/com/estudiantes/controlEstudiantes/service/MateriaService.java:74-108 | an update keeps the store consistent |
| MateriaReglas.EliminarMateria | src/main/java/com/estudiantes/controlEstudiantes/service/MateriaService.java:110-117 | NotFound exactly for a missing key; success changes only the course table |
| MateriaReglas.EliminarMateriaSoloDesactiva | src/main/java/com/estudiantes/controlEstudiantes/service/MateriaService.java:110-117 | the delete is soft: only that course changes, and only its active flag and stamp |
| MateriaReglas.EliminarMateriaIdempotente | src/main/java/com/estudiantes/controlEstudiantes/service/MateriaService.java:110-117 | deleting again succeeds and changes nothing |
| MateriaReglas.EliminarMateriaConserva | src/main/java/com/estudiantes/controlEstudiantes/service/MateriaService.java:110-117 | the soft delete keeps the store consistent |
| MateriaServicio.MateriaService.constructor | src/main/java/com/estudiantes/controlEstudiantes/service/MateriaService.java:22-28 | the service works on the given store |
| MateriaServicio.MateriaService.ConvertirAResponseDTO | src/main/java/com/estudiantes/controlEstudiantes/service/MateriaService.java:182-202 | looking up the teacher and filling a fresh DTO gives the course's view |
| MateriaServicio.MateriaService.Rellenar | src/main/java/com/estudiantes/controlEstudiantes/service/MateriaService.java:183-201 | the setter sequence gives the course's view with that teacher, ending with the entity's own full name whatever the intermediate setters wrote |
| MateriaServicio.MateriaService.ProfesorAsignado | src/main/java/com/estudiantes/controlEstudiantes/service/MateriaService.java:56-64 | the lookup answers what the teacher rule says on the current store |
| MateriaServicio.MateriaService.CrearMateria | src/main/java/com/estudiantes/controlEstudiantes/service/MateriaService.java:49-72 | the store ends as the creation rule says, unchanged on error, the response is the saved course's view, consistency kept |
| MateriaServicio.MateriaService.ActualizarMateria | src/main/java/com/estudiantes/controlEstudiantes/service/MateriaService.java:74-108 | the store ends as the update rule says, unchanged on error, consistency kept |
| MateriaServicio.MateriaService.EliminarMateria | src/main/java/com/estudiantes/controlEstudiantes/service/MateriaService.java:110-117 | the store ends as the soft-delete rule says, unchanged on error |
| MateriaServicio.MateriaService.Guardar | src/main/java/com/estudiantes/controlEstudiantes/service/MateriaService.java:106-107 | `save` of a loaded course flushes as `GuardarMateria` says |
| CalificacionReglas.VistaCalificacion | src/main/java/com/estudiantes/controlEstudiantes/service/CalificacionService.java:203-244 | the response copies the grade's own fields, shows each linked entity's id exactly when it exists, and its text and pass flag agree with the grade |
| CalificacionReglas.Vistas | src/main/java/com/estudiantes/controlEstudiantes/service/CalificacionService.java:35-40 | mapping the conversion keeps length and order |
| CalificacionReglas.VistaResuelta | src/main/java/com/estudiantes/controlEstudiantes/service/CalificacionService.java:203-244 | in a consistent store student, course and teacher ids are all shown |
| CalificacionReglas.ObtenerTodasLasCalificaciones | src/main/java/com/estudiantes/controlEstudiantes/service/CalificacionService.java:35-40 | one response per stored grade, in table order: the response at each position is the view of the grade at that position |
| CalificacionReglas.ObtenerCalificacionPorId | src/main/java/com/estudiantes/controlEstudiantes/service/CalificacionService.java:42-48 | found exactly when a grade has the key, else NotFound; the result is the response view of that grade |
| CalificacionReglas.EnVistas | src/main/java/com/estudiantes/controlEstudiantes/service/CalificacionService.java:35-40 | a converted list holds exactly the response views of the grades it was made from |
| CalificacionReglas.ObtenerCalificacionesPorEstudiante | src/main/java/com/estudiantes/controlEstudiantes/service/CalificacionService.java:112-117 | one response per grade of the student, each showing that student; a response is listed exactly when it is the view of a grade of that student |
| CalificacionReglas.ObtenerCalificacionesPorMateria | src/main/java/com/estudiantes/controlEstudiantes/service/CalificacionService.java:119-124 | one response per grade of the course, each showing that course; a response is listed exactly when it is the view of a grade of that course |
| CalificacionReglas.ObtenerCalificacionesPorProfesor | src/main/java/com/estudiantes/controlEstudiantes/service/CalificacionService.java:126-131 | one response per grade of the teacher, each showing that teacher; a response is listed exactly when it is the view of a grade of that teacher |
| CalificacionReglas.ObtenerCalificacionesEstudianteEnMateria | src/main/java/com/estudiantes/controlEstudiantes/service/CalificacionService.java:133-138 | one response per grade of the student in the course; a response is listed exactly when it is the view of a grade with both ids |
| CalificacionReglas.ObtenerCalificacionesAprobatorias | src/main/java/com/estudiantes/controlEstudiantes/service/CalificacionService.java:155-160 | one response per passing grade, each flagged as passing; a response is listed exactly when it is the view of a grade of at least 3.0 |
| CalificacionReglas.ObtenerCalificacionesReprobatorias | src/main/java/com/estudiantes/controlEstudiantes/service/CalificacionService.java:162-167 | one response per failing grade, each flagged as failing; a response is listed exactly when it is the view of a grade below 3.0 |
| CalificacionReglas.CalcularPromedioGeneralEstudiante | src/main/java/com/estudiantes/controlEstudiantes/service/CalificacionService.java:140-143 | the student's average, or exactly 0 when there is nothing to average |
| CalificacionReglas.CalcularPromedioEstudianteEnMateria | src/main/java/com/estudiantes/controlEstudiantes/service/CalificacionService.java:145-148 | the student's average in the course, or 0 when none |
| CalificacionReglas.CalcularPromedioMateria | src/main/java/com/estudiantes/controlEstudiantes/service/CalificacionService.java:150-153 | the course's average, or 0 when none |
| CalificacionReglas.PromediosEnRango | src/main/java/com/estudiantes/controlEstudiantes/service/CalificacionService.java:140-153 | in a consistent store all three averages lie in 0.0..5.0 |
| CalificacionReglas.PuedeVerCalificacion | src/main/java/com/estudiantes/controlEstudiantes/service/CalificacionService.java:169-185 | NotFound for a missing grade; otherwise admins see it, a teacher exactly when it is theirs, a student exactly when it is about them |
| CalificacionReglas.PuedeModificarCalificacion | src/main/java/com/estudiantes/controlEstudiantes/service/CalificacionService.java:187-200 | admins yes, students no without a lookup; a teacher NotFound for a missing grade, else exactly when the grade is theirs |
| CalificacionReglas.ModificarImplicaVer | src/main/java/com/estudiantes/controlEstudiantes/service/CalificacionService.java:169-200 | whoever may modify an existing grade may see it |
| CalificacionReglas.CrearCalificacion | src/main/java/com/estudiantes/controlEstudiantes/service/CalificacionService.java:50-80 | on success exactly one grade is appended with the next key, the request's student, course and fields; errors are NotFound, IllegalArgument or ConstraintViolation only |
| CalificacionReglas.CrearCalificacionExito | src/main/java/com/estudiantes/controlEstudiantes/service/CalificacionService.java:50-80 | creation succeeds exactly when teacher, student and course resolve, the caller is a teacher and the grade is valid |
| CalificacionReglas.CrearCalificacionQuien | src/main/java/com/estudiantes/controlEstudiantes/service/CalificacionService.java:51-62 | an unknown email is NotFound, a non-teacher IllegalArgument; the saved grade's teacher is the caller and its student exists |
| CalificacionReglas.CrearCalificacionConserva | src/main/java/com/estudiantes/controlEstudiantes/service/CalificacionService.java:50-80 | creation keeps the store consistent |
| CalificacionReglas.ActualizarCalificacion | src/main/java/com/estudiantes/controlEstudiantes/service/CalificacionService.java:82-98 | on success the grade takes the request's nota, type and remarks; only that grade's row changes, and it is the saved grade stamped by `@PreUpdate`, or nothing changes when no field did |
| CalificacionReglas.CalificacionPropia | src/main/java/com/estudiantes/controlEstudiantes/service/CalificacionService.java:83-89 | the row found is the grade with that key |
| CalificacionReglas.ActualizarCalificacionQuien | src/main/java/com/estudiantes/controlEstudiantes/service/CalificacionService.java:82-98 | NotFound exactly for a missing key; the new grade is the old one with the three fields replaced, and it was the caller's |
| CalificacionReglas.ActualizarCalificacionConserva | src/main/java/com/estudiantes/controlEstudiantes/service/CalificacionService.java:82-98 | an update keeps the store consistent and the saved grade valid |
| CalificacionReglas.ModificarEnConserva | src/main/java/com/estudiantes/controlEstudiantes/service/CalificacionService.java:91-97 | rewriting a grade's nota, type and remarks keeps the store consistent |
| CalificacionReglas.ModificarEn | src/main/java/com/estudiantes/controlEstudiantes/service/CalificacionService.java:91-97 | the saved grade is the old one with nota, type and remarks replaced; only its row changes, stamped by `@PreUpdate`, or nothing changes; an invalid nota is ConstraintViolation |
| CalificacionReglas.EliminarCalificacion | src/main/java/com/estudiantes/controlEstudiantes/service/CalificacionService.java:100-110 | errors are NotFound or IllegalArgument; success removes exactly one grade and nothing else |
| CalificacionReglas.EliminarCalificacionQuien | src/main/java/com/estudiantes/controlEstudiantes/service/CalificacionService.java:100-110 | NotFound exactly for a missing key; only the grade's own teacher deletes it |
| CalificacionReglas.EliminarCalificacionQuitaSoloEsa | src/main/java/com/estudiantes/controlEstudiantes/service/CalificacionService.java:100-110 | the delete removes exactly the grade with that key and keeps the store consistent |
| CalificacionReglas.AdminNoModificaCalificaciones | src/main/java/com/estudiantes/controlEstudiantes/service/CalificacionService.java:82-110 | called with an admin's email, the update and delete services always fail |
| CalificacionServicio.CalificacionService.constructor | src/main/java/com/estudiantes/controlEstudiantes/service/CalificacionService.java:24-33 | the service works on the given store |
| CalificacionServicio.CalificacionService.ConvertirAResponseDTO | src/main/java/com/estudiantes/controlEstudiantes/service/CalificacionService.java:203-244 | looking up student, course and teacher and filling a fresh DTO gives the grade's view |
| CalificacionServicio.CalificacionService.Rellenar | src/main/java/com/estudiantes/controlEstudiantes/service/CalificacionService.java:203-244 | the setter sequence gives the view of the grade with the given related entities |
| CalificacionServicio.CalificacionService.PonerEstudiante | src/main/java/com/estudiantes/controlEstudiantes/service/CalificacionService.java:216-224 | a present student fills id, full name and cédula; a missing one gets the name "N/A" and leaves id and cédula null |
| CalificacionServicio.CalificacionService.PonerMateria | src/main/java/com/estudiantes/controlEstudiantes/service/CalificacionService.java:226-233 | a present course fills id, name and code; a missing one gets "N/A" as name and code and leaves the id null |
| CalificacionServicio.CalificacionService.PonerProfesor | src/main/java/com/estudiantes/controlEstudiantes/service/CalificacionService.java:235-241 | a present teacher fills id and full name; a missing one gets the name "N/A" and leaves the id null |
| CalificacionServicio.CalificacionService.CrearCalificacion | src/main/java/com/estudiantes/controlEstudiantes/service/CalificacionService.java:50-80 | the store ends as the creation rule says, unchanged on error, the response is the saved grade's view, consistency kept |
| CalificacionServicio.CalificacionService.ActualizarCalificacion | src/main/java/com/estudiantes/controlEstudiantes/service/CalificacionService.java:82-98 | the store ends as the update rule says, unchanged on error, consistency kept |
| CalificacionServicio.CalificacionService.Modificar | src/main/java/com/estudiantes/controlEstudiantes/service/CalificacionService.java:91-97 | the setters and `save` on a loaded grade end as the rewrite rule says |
| CalificacionServicio.CalificacionService.EliminarCalificacion | src/main/java/com/estudiantes/controlEstudiantes/service/CalificacionService.java:100-110 | the store ends as the delete rule says, unchanged on error |
| CalificacionControlador.ObtenerTodasLasCalificaciones | src/main/java/com/estudiantes/controlEstudiantes/controller/CalificacionController.java:47-57 | AccessDenied exactly for non-admins, else the service's list |
| CalificacionControlador.CrearCalificacion | src/main/java/com/estudiantes/controlEstudiantes/controller/CalificacionController.java:59-74 | an invalid body first, then non-teachers refused, then the service with the caller's email |
| CalificacionControlador.ActualizarCalificacion | src/main/java/com/estudiantes/controlEstudiantes/controller/CalificacionController.java:76-101 | invalid body, then non-teachers, then NotFound unless `puedeModificar` says yes; success implies it said yes |
| CalificacionControlador.EliminarCalificacion | src/main/java/com/estudiantes/controlEstudiantes/controller/CalificacionController.java:103-125 | students refused, then NotFound unless `puedeModificar` says yes, then the service |
| CalificacionControlador.ObtenerCalificacionesPorEstudiante | src/main/java/com/estudiantes/controlEstudiantes/controller/CalificacionController.java:127-147 | NotFound exactly when a student asks for another student's grades |
| CalificacionControlador.ObtenerCalificacionesPorMateria | src/main/java/com/estudiantes/controlEstudiantes/controller/CalificacionController.java:149-161 | AccessDenied exactly for students |
| CalificacionControlador.ObtenerCalificacionesPorProfesor | src/main/java/com/estudiantes/controlEstudiantes/controller/CalificacionController.java:163-184 | students refused; a teacher asking for another teacher's id gets NotFound; otherwise the list |
| CalificacionControlador.ObtenerCalificacionesEstudianteEnMateria | src/main/java/com/estudiantes/controlEstudiantes/controller/CalificacionController.java:186-206 | NotFound exactly when a student asks about another student |
| CalificacionControlador.CalcularPromedioGeneralEstudiante | src/main/java/com/estudiantes/controlEstudiantes/controller/CalificacionController.java:208-227 | NotFound exactly when a student asks about another student |
| CalificacionControlador.CalcularPromedioEstudianteEnMateria | src/main/java/com/estudiantes/controlEstudiantes/controller/CalificacionController.java:229-249 | NotFound exactly when a student asks about another student |
| CalificacionControlador.CalcularPromedioMateria | src/main/java/com/estudiantes/controlEstudiantes/controller/CalificacionController.java:251-263 | AccessDenied exactly for students |
| CalificacionControlador.ObtenerMisCalificaciones | src/main/java/com/estudiantes/controlEstudiantes/controller/CalificacionController.java:265-277 | students only, and the list under the caller's own id |
| CalificacionControlador.ObtenerCalificacionesAsignadas | src/main/java/com/estudiantes/controlEstudiantes/controller/CalificacionController.java:279-291 | teachers only, and the grades under the caller's own id |
| CalificacionControlador.ObtenerCalificacionPorId | src/main/java/com/estudiantes/controlEstudiantes/controller/CalificacionController.java:318-339 | returned exactly when `puedeVer` says yes; every refusal is NotFound |
| CalificacionControlador.CompuertasDeLectura | src/main/java/com/estudiantes/controlEstudiantes/controller/CalificacionController.java:47-291 | for a principal built from a stored person, which roles each read endpoint refuses |
| CalificacionControlador.CompuertasDeEscritura | src/main/java/com/estudiantes/controlEstudiantes/controller/CalificacionController.java:59-125 | for a built principal: create and update refuse exactly non-teachers, delete exactly students |
| CalificacionControlador.GuardaDelEstudiante | src/main/java/com/estudiantes/controlEstudiantes/controller/CalificacionController.java:127-249 | a student never reads another student's grades or averages, and always reads their own |
| CalificacionControlador.MisListasSonLasPropias | src/main/java/com/estudiantes/controlEstudiantes/controller/CalificacionController.java:265-291 | "mine" answers what the by-student or by-teacher endpoint answers for the caller's own id |
| CalificacionControlador.ModificarImplicaLeer | src/main/java/com/estudiantes/controlEstudiantes/controller/CalificacionController.java:76-125 | whoever can update or delete an existing grade can also read it |
| CalificacionControlador.AdminNoEliminaCalificaciones | src/main/java/com/estudiantes/controlEstudiantes/service/CalificacionService.java:100-110 | an admin passes both guards but the delete always fails, with IllegalArgument for an existing grade |
| CalificacionControlador.EliminarPorClave | src/main/java/com/estudiantes/controlEstudiantes/service/CalificacionService.java:100-110 | the delete without the teacher check fails exactly for a missing key |
| CalificacionControlador.EliminarCalificacionCorregida | src/main/java/com/estudiantes/controlEstudiantes/controller/CalificacionController.java:103-125 | for non-admins, the same as the handler as written |
| CalificacionControlador.EliminarCalificacionCorregidaAdmin | src/main/java/com/estudiantes/controlEstudiantes/controller/CalificacionController.java:103-125 | with the fix, an admin deletes exactly the existing grades, removes only that grade and keeps consistency |
| EstudianteControlador.ObtenerTodosLosEstudiantes | src/main/java/com/estudiantes/controlEstudiantes/controller/EstudianteController.java:46-56 | AccessDenied exactly for non-admins, else the active persons |
| EstudianteControlador.CrearEstudiante | src/main/java/com/estudiantes/controlEstudiantes/controller/EstudianteController.java:58-71 | invalid body first, then non-admins refused, then the service |
| EstudianteControlador.ObtenerEstudiantePorId | src/main/java/com/estudiantes/controlEstudiantes/controller/EstudianteController.java:73-94 | NotFound when a student asks for someone else, else the service |
| EstudianteControlador.ActualizarEstudiante | src/main/java/com/estudiantes/controlEstudiantes/controller/EstudianteController.java:96-120 | invalid body, then NotFound unless `puedeEditarEstudiante` says yes, then the service |
| EstudianteControlador.EliminarEstudiante | src/main/java/com/estudiantes/controlEstudiantes/controller/EstudianteController.java:122-134 | non-admins refused, else the soft delete |
| EstudianteControlador.BuscarPorCarrera | src/main/java/com/estudiantes/controlEstudiantes/controller/EstudianteController.java:136-147 | AccessDenied exactly for non-admins |
| EstudianteControlador.BuscarPorSemestre | src/main/java/com/estudiantes/controlEstudiantes/controller/EstudianteController.java:149-160 | AccessDenied exactly for non-admins |
| EstudianteControlador.BuscarPorNombre | src/main/java/com/estudiantes/controlEstudiantes/controller/EstudianteController.java:162-173 | AccessDenied exactly for non-admins |
| EstudianteControlador.ObtenerPerfil | src/main/java/com/estudiantes/controlEstudiantes/controller/EstudianteController.java:175-186 | the profile is looked up by the caller's email and, when found, carries it |
| EstudianteControlador.ObtenerTodosLosProfesores | src/main/java/com/estudiantes/controlEstudiantes/controller/EstudianteController.java:188-198 | AccessDenied exactly for non-admins, else the active teachers |
| EstudianteControlador.ObtenerEstudiantesDeMateria | src/main/java/com/estudiantes/controlEstudiantes/controller/EstudianteController.java:200-218 | students refused; otherwise the service with the caller's own id as the teacher |
| EstudianteControlador.CompuertasDeRol | src/main/java/com/estudiantes/controlEstudiantes/controller/EstudianteController.java:46-218 | for a principal built from a stored person, which roles each endpoint refuses |
| EstudianteControlador.GuardaDelPerfil | src/main/java/com/estudiantes/controlEstudiantes/controller/EstudianteController.java:73-94 | a student reading another key gets NotFound; otherwise found exactly when an active person has the key |
| EstudianteControlador.SoloSeEditaASiMismo | src/main/java/com/estudiantes/controlEstudiantes/controller/EstudianteController.java:96-120 | in a consistent store a non-admin's successful update is of their own record |
| EstudianteControlador.PerfilPropio | src/main/java/com/estudiantes/controlEstudiantes/controller/EstudianteController.java:175-186 | an active stored person's profile is their own view |
| EstudianteControlador.AdminNoVeEstudiantesDeMateria | src/main/java/com/estudiantes/controlEstudiantes/controller/EstudianteController.java:200-218 | an admin passes `@PreAuthorize` yet always gets NotFound |
| EstudianteControlador.ObtenerEstudiantesDeMateriaCorregido | src/main/java/com/estudiantes/controlEstudiantes/controller/EstudianteController.java:200-218 | for non-admins, the same as the handler as written |
| EstudianteControlador.AdminVeEstudiantesDeMateria | src/main/java/com/estudiantes/controlEstudiantes/service/EstudianteService.java:179-197 | with the fix, an admin gets the list exactly when the course exists, and it is exactly the course's active graded students |
| MateriaControlador.ObtenerTodasLasMaterias | src/main/java/com/estudiantes/controlEstudiantes/controller/MateriaController.java:46-56 | AccessDenied exactly for students |
| MateriaControlador.CrearMateria | src/main/java/com/estudiantes/controlEstudiantes/controller/MateriaController.java:58-71 | invalid body first, then non-admins refused, then the service |
| MateriaControlador.ObtenerMateriaPorId | src/main/java/com/estudiantes/controlEstudiantes/controller/MateriaController.java:73-96 | only teachers are filtered by `puedeEditarMateria` (NotFound), admins and students read any course |
| MateriaControlador.ActualizarMateria | src/main/java/com/estudiantes/controlEstudiantes/controller/MateriaController.java:98-122 | invalid body, then NotFound unless `puedeEditarMateria` says yes; success implies it said yes |
| MateriaControlador.EliminarMateria | src/main/java/com/estudiantes/controlEstudiantes/controller/MateriaController.java:124-136 | non-admins refused, else the soft delete |
| MateriaControlador.BuscarPorCarrera | src/main/java/com/estudiantes/controlEstudiantes/controller/MateriaController.java:138-149 | AccessDenied exactly for students |
| MateriaControlador.BuscarPorSemestre | src/main/java/com/estudiantes/controlEstudiantes/controller/MateriaController.java:151-162 | AccessDenied exactly for students |
| MateriaControlador.BuscarPorProfesor | src/main/java/com/estudiantes/controlEstudiantes/controller/MateriaController.java:164-175 | AccessDenied exactly for students; any teacher's id may be asked for |
| MateriaControlador.BuscarPorNombre | src/main/java/com/estudiantes/controlEstudiantes/controller/MateriaController.java:177-188 | AccessDenied exactly for students |
| MateriaControlador.BuscarPorCodigo | src/main/java/com/estudiantes/controlEstudiantes/controller/MateriaController.java:190-201 | AccessDenied exactly for students |
| MateriaControlador.ObtenerMisMaterias | src/main/java/com/estudiantes/controlEstudiantes/controller/MateriaController.java:203-215 | teachers only, the courses under the caller's own id |
| MateriaControlador.CompuertasDeRol | src/main/java/com/estudiantes/controlEstudiantes/controller/MateriaController.java:46-215 | for a built principal: create and delete refuse exactly non-admins, the reads exactly students |
| MateriaControlador.EstudianteNoEditaMaterias | src/main/java/com/estudiantes/controlEstudiantes/controller/MateriaController.java:98-122 | a student's update of a course is always NotFound |
| MateriaControlador.ProfesorSoloSusMaterias | src/main/java/com/estudiantes/controlEstudiantes/controller/MateriaController.java:73-122 | in a consistent store a teacher reads by key or updates only courses they teach |
| MateriaControlador.MisMateriasSonLasPropias | src/main/java/com/estudiantes/controlEstudiantes/controller/MateriaController.java:203-215 | `mis-materias` answers what the by-teacher search answers for the caller's own id |

## Left out

- HTTP, JSON, JWT filters, `AuthController`, `AuthService`, `UserDetailsServiceImpl` and `TestController` are not part of this model; a principal is given as a `UserDetails` value.
- The `debug-auth` endpoint of the grade controller only echoes the principal; it is left out.
- `LoginResponseDTO`, `ErrorResponse` and `DataLoader` (seed data) are left out; the store starts from any consistent tables.
- `GlobalExceptionHandler` is left out: errors stay as the exception kind that was thrown, and no HTTP status is modelled.
- The password encoder is the parameter `codificar`, and the clock is the parameters `hoy` (dates) and `ahora` (timestamps).
- The `@Email` check is `Entidades.EmailBienFormado`: exactly one `@` with a non-empty part on each side. It is more permissive than Hibernate Validator's local-part and domain rules (it accepts, for example, `"a b@c"` and `"a..b@c"`), so on such a body the model's creation and update succeed where the source answers MethodArgumentNotValid.
- `BigDecimal` grades are integer tenths; `AVG` is an exact `real`, without the database's rounding.
- Entidades.TextoEntre and Comun.AtMost: a length is the number of Unicode scalar values, while `@Size` counts UTF-16 code units, so a text holding characters outside the Basic Multilingual Plane (an emoji counts as two units in the source) can pass a bound in the model that the source rejects with MethodArgumentNotValid, or with ConstraintViolation at flush; every `@Size` bound of the requests and entities is affected.
- Entidades.EstudianteCamposValidos: puts no bound on `email`. The source gives the column a length of 100 but no `@Size`, so that limit is enforced only by the database on insert or update, which is not modelled; the model's creation and update of a person with a longer email succeed where the source's statement is rejected.
- Request grades with a number of decimals other than one (such as `3.75` or `4`) are outside the model: the request and entity constraints bound only the value, not its scale, and the source echoes such a grade unrounded in the create and update response (`"3.75/5.0"`, `"4/5.0"`) while the `DECIMAL(3,1)` column stores it rounded.
- Transactions, lazy loading, `JOIN FETCH` and the persistence context are not modelled. A service call either ends in the new state or leaves the store as it was, and an entity's setters are modelled on a value.
- The `NullPointerException`s that a null stored column would raise are not modelled, because the store invariant excludes them.
- `ObtenerMisCalificaciones`, `ObtenerCalificacionesAsignadas`, `ObtenerMisMaterias` and `ObtenerEstudiantesDeMateria` require a principal with an id, because a signed-in principal always has one.
- EstudianteReglas.ObtenerEstudiantesDeMateria: requires a found course to have a teacher; the source dereferences `materia.getProfesor()` and would throw a NullPointerException for a course without one.
- MateriaReglas.BuscarPorProfesor: its own contract states only one direction of membership, because a view hides a teacher whose row is missing; the full if-and-only-if is `MateriaReglas.BuscarPorProfesorExacto`, under the store invariant.
- EstudianteRepositorio.FindByNombreCompletoContainingIgnoreCase: folds only the ASCII letters 'A' to 'Z' to lower case, while SQL `LOWER` also folds other letters; and it matches the query as a literal substring, while the unescaped `%` and `_` in the query are wildcards in `LIKE`, whose escape rules depend on the database dialect.
- MateriaRepositorio.FindByNombreContainingIgnoreCase: folds only ASCII letters and matches `%` and `_` in the query literally, where `LIKE` treats them as wildcards; the same reasons as above.
- MateriaRepositorio.FindByCodigoContainingIgnoreCase: folds only ASCII letters and matches `%` and `_` in the query literally, where `LIKE` treats them as wildcards; the same reasons as above.
- EstudianteReglas.BuscarPorNombreCompleto: inherits the ASCII-only folding and the literal treatment of `%` and `_` from the repository query it calls.
- MateriaReglas.BuscarPorNombre: inherits the ASCII-only folding and the literal treatment of `%` and `_` from the repository query it calls.
- MateriaReglas.BuscarPorCodigo: inherits the ASCII-only folding and the literal treatment of `%` and `_` from the repository query it calls.
- Aliasing between a loaded entity and other references to it is not modelled: setters on an entity are value updates.
- `convertirAEntity` in the three services is folded into the creation rules.
- Repository methods the services never call (`findByEstudiante`, `findByMateria`, `findByProfesor` on grades, and the `...WithRelations` variants apart from lookup by key) are covered by the query functions by id.

## Findings

| source | as written | input that shows it | evidently intended | confidence | as-written member | corrected member |
|---|---|---|---|---|---|---|
| src/main/java/com/estudiantes/controlEstudiantes/service/CalificacionService.java:105 | `DELETE /api/calificaciones/{id}` admits ADMIN and `puedeModificarCalificacion` answers true for ADMIN, but the service then demands that the grade's teacher have the caller's email | any stored grade, deleted by a signed-in ADMIN: always IllegalArgument, never deleted | an admin may delete any grade; the teacher check is for teachers only | medium, not executed | CalificacionControlador.AdminNoEliminaCalificaciones | CalificacionControlador.EliminarCalificacionCorregidaAdmin |
| src/main/java/com/estudiantes/controlEstudiantes/controller/EstudianteController.java:216 | `GET /api/estudiantes/materia/{id}` admits ADMIN, but passes the caller's own id as the teacher id, and the service refuses unless the course's teacher has that id | any course with a teacher, asked for by a signed-in ADMIN: always NotFound | an admin may list the students of any course | medium, not executed | EstudianteControlador.AdminNoVeEstudiantesDeMateria | EstudianteControlador.AdminVeEstudiantesDeMateria |
