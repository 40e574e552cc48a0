/** The three response DTOs. Each is a mutable object whose setters assign one field,
    except the setters that also recompute a derived field (`notaConFormato`,
    `esAprobatoria`, `nombreCompleto`). A null Java field is `None`. `Vista()` reads
    the object's fields as one value, which the services' pure queries return. */
module DtoRespuesta {
  import opened Comun
  import opened Entidades

  // ---------------------------------------------------------- CalificacionResponseDTO

  datatype CalificacionVista = CalificacionVista(
    id: Option<int>,
    estudianteId: Option<int>,
    nombreEstudiante: Option<string>,
    cedulaEstudiante: Option<string>,
    materiaId: Option<int>,
    nombreMateria: Option<string>,
    codigoMateria: Option<string>,
    profesorId: Option<int>,
    nombreProfesor: Option<string>,
    nota: Option<int>,
    tipoEvaluacion: Option<string>,
    observaciones: Option<string>,
    fechaCreacion: Option<int>,
    fechaActualizacion: Option<int>,
    notaConFormato: Option<string>,
    esAprobatoria: Option<bool>)

  /** The derived fields agree with the nota they were computed from. */
  predicate VistaCoherente(v: CalificacionVista) {
    v.nota.Some? ==>
      v.notaConFormato == Some(NotaConFormato(v.nota.value))
      && v.esAprobatoria == Some(EsAprobatoria(v.nota.value))
  }

  class CalificacionResponseDTO {
    var id: Option<int>
    var estudianteId: Option<int>
    var nombreEstudiante: Option<string>
    var cedulaEstudiante: Option<string>
    var materiaId: Option<int>
    var nombreMateria: Option<string>
    var codigoMateria: Option<string>
    var profesorId: Option<int>
    var nombreProfesor: Option<string>
    var nota: Option<int>
    var tipoEvaluacion: Option<string>
    var observaciones: Option<string>
    var fechaCreacion: Option<int>
    var fechaActualizacion: Option<int>
    var notaConFormato: Option<string>
    var esAprobatoria: Option<bool>

    function Vista(): CalificacionVista
      reads this
    {
      CalificacionVista(id, estudianteId, nombreEstudiante, cedulaEstudiante, materiaId,
        nombreMateria, codigoMateria, profesorId, nombreProfesor, nota, tipoEvaluacion,
        observaciones, fechaCreacion, fechaActualizacion, notaConFormato, esAprobatoria)
    }

    /** The no-argument constructor: every field null. */
    constructor Vacio()
      ensures Vista() == CalificacionVista(None, None, None, None, None, None, None, None,
        None, None, None, None, None, None, None, None)
      ensures VistaCoherente(Vista())
    {
      id, estudianteId, nombreEstudiante, cedulaEstudiante := None, None, None, None;
      materiaId, nombreMateria, codigoMateria, profesorId := None, None, None, None;
      nombreProfesor, nota, tipoEvaluacion, observaciones := None, None, None, None;
      fechaCreacion, fechaActualizacion, notaConFormato, esAprobatoria := None, None, None, None;
    }

    /** The full constructor, which also derives notaConFormato and esAprobatoria. */
    constructor (id: Option<int>, estudianteId: Option<int>, nombreEstudiante: Option<string>,
                 cedulaEstudiante: Option<string>, materiaId: Option<int>, nombreMateria: Option<string>,
                 codigoMateria: Option<string>, profesorId: Option<int>, nombreProfesor: Option<string>,
                 nota: int, tipoEvaluacion: Option<string>, observaciones: Option<string>,
                 fechaCreacion: Option<int>, fechaActualizacion: Option<int>)
      ensures Vista() == CalificacionVista(id, estudianteId, nombreEstudiante, cedulaEstudiante,
        materiaId, nombreMateria, codigoMateria, profesorId, nombreProfesor, Some(nota),
        tipoEvaluacion, observaciones, fechaCreacion, fechaActualizacion,
        Some(NotaConFormato(nota)), Some(EsAprobatoria(nota)))
      ensures VistaCoherente(Vista())
    {
      this.id := id;
      this.estudianteId := estudianteId;
      this.nombreEstudiante := nombreEstudiante;
      this.cedulaEstudiante := cedulaEstudiante;
      this.materiaId := materiaId;
      this.nombreMateria := nombreMateria;
      this.codigoMateria := codigoMateria;
      this.profesorId := profesorId;
      this.nombreProfesor := nombreProfesor;
      this.nota := Some(nota);
      this.tipoEvaluacion := tipoEvaluacion;
      this.observaciones := observaciones;
      this.fechaCreacion := fechaCreacion;
      this.fechaActualizacion := fechaActualizacion;
      this.notaConFormato := Some(NotaConFormato(nota));
      this.esAprobatoria := Some(EsAprobatoria(nota));
    }

    method SetId(v: Option<int>)
      modifies this`id
      ensures id == v
      ensures Vista() == old(Vista()).(id := v)
    {
      id := v;
    }

    method SetEstudianteId(v: Option<int>)
      modifies this`estudianteId
      ensures estudianteId == v
      ensures Vista() == old(Vista()).(estudianteId := v)
    {
      estudianteId := v;
    }

    method SetNombreEstudiante(v: Option<string>)
      modifies this`nombreEstudiante
      ensures nombreEstudiante == v
      ensures Vista() == old(Vista()).(nombreEstudiante := v)
    {
      nombreEstudiante := v;
    }

    method SetCedulaEstudiante(v: Option<string>)
      modifies this`cedulaEstudiante
      ensures cedulaEstudiante == v
      ensures Vista() == old(Vista()).(cedulaEstudiante := v)
    {
      cedulaEstudiante := v;
    }

    method SetMateriaId(v: Option<int>)
      modifies this`materiaId
      ensures materiaId == v
      ensures Vista() == old(Vista()).(materiaId := v)
    {
      materiaId := v;
    }

    method SetNombreMateria(v: Option<string>)
      modifies this`nombreMateria
      ensures nombreMateria == v
      ensures Vista() == old(Vista()).(nombreMateria := v)
    {
      nombreMateria := v;
    }

    method SetCodigoMateria(v: Option<string>)
      modifies this`codigoMateria
      ensures codigoMateria == v
      ensures Vista() == old(Vista()).(codigoMateria := v)
    {
      codigoMateria := v;
    }

    method SetProfesorId(v: Option<int>)
      modifies this`profesorId
      ensures profesorId == v
      ensures Vista() == old(Vista()).(profesorId := v)
    {
      profesorId := v;
    }

    method SetNombreProfesor(v: Option<string>)
      modifies this`nombreProfesor
      ensures nombreProfesor == v
      ensures Vista() == old(Vista()).(nombreProfesor := v)
    {
      nombreProfesor := v;
    }

    /** `setNota`: stores the nota and recomputes both derived fields from it. */
    method SetNota(n: int)
      modifies this`nota, this`notaConFormato, this`esAprobatoria
      ensures nota == Some(n)
      ensures notaConFormato == Some(NotaConFormato(n))
      ensures esAprobatoria == Some(EsAprobatoria(n))
      ensures Vista() == old(Vista()).(nota := Some(n), notaConFormato := Some(NotaConFormato(n)),
        esAprobatoria := Some(EsAprobatoria(n)))
      ensures VistaCoherente(Vista())
    {
      nota := Some(n);
      notaConFormato := Some(NotaConFormato(n));
      esAprobatoria := Some(EsAprobatoria(n));
    }

    method SetTipoEvaluacion(v: Option<string>)
      modifies this`tipoEvaluacion
      ensures tipoEvaluacion == v
      ensures Vista() == old(Vista()).(tipoEvaluacion := v)
    {
      tipoEvaluacion := v;
    }

    method SetObservaciones(v: Option<string>)
      modifies this`observaciones
      ensures observaciones == v
      ensures Vista() == old(Vista()).(observaciones := v)
    {
      observaciones := v;
    }

    method SetFechaCreacion(v: Option<int>)
      modifies this`fechaCreacion
      ensures fechaCreacion == v
      ensures Vista() == old(Vista()).(fechaCreacion := v)
    {
      fechaCreacion := v;
    }

    method SetFechaActualizacion(v: Option<int>)
      modifies this`fechaActualizacion
      ensures fechaActualizacion == v
      ensures Vista() == old(Vista()).(fechaActualizacion := v)
    {
      fechaActualizacion := v;
    }

    /** Overwrites the text alone; nothing ties it to the nota any more. */
    method SetNotaConFormato(v: Option<string>)
      modifies this`notaConFormato
      ensures notaConFormato == v
      ensures Vista() == old(Vista()).(notaConFormato := v)
    {
      notaConFormato := v;
    }

    /** Overwrites the flag alone. */
    method SetEsAprobatoria(v: Option<bool>)
      modifies this`esAprobatoria
      ensures esAprobatoria == v
      ensures Vista() == old(Vista()).(esAprobatoria := v)
    {
      esAprobatoria := v;
    }
  }

  // ---------------------------------------------------------- EstudianteResponseDTO

  datatype EstudianteVista = EstudianteVista(
    id: Option<int>,
    nombre: Option<string>,
    apellido: Option<string>,
    email: Option<string>,
    cedula: Option<string>,
    carrera: Option<string>,
    semestre: Option<int>,
    fechaNacimiento: Option<int>,
    telefono: Option<string>,
    direccion: Option<string>,
    rol: Option<Rol>,
    activo: Option<bool>,
    fechaCreacion: Option<int>,
    fechaActualizacion: Option<int>,
    nombreCompleto: Option<string>)

  /** Java's `s != null ? s : ""`. */
  function OVacio(s: Option<string>): string {
    if s.Some? then s.value else ""
  }

  class EstudianteResponseDTO {
    var id: Option<int>
    var nombre: Option<string>
    var apellido: Option<string>
    var email: Option<string>
    var cedula: Option<string>
    var carrera: Option<string>
    var semestre: Option<int>
    var fechaNacimiento: Option<int>
    var telefono: Option<string>
    var direccion: Option<string>
    var rol: Option<Rol>
    var activo: Option<bool>
    var fechaCreacion: Option<int>
    var fechaActualizacion: Option<int>
    var nombreCompleto: Option<string>

    function Vista(): EstudianteVista
      reads this
    {
      EstudianteVista(id, nombre, apellido, email, cedula, carrera, semestre, fechaNacimiento,
        telefono, direccion, rol, activo, fechaCreacion, fechaActualizacion, nombreCompleto)
    }

    /** The no-argument constructor: every field null. */
    constructor Vacio()
      ensures Vista() == EstudianteVista(None, None, None, None, None, None, None, None, None,
        None, None, None, None, None, None)
    {
      id, nombre, apellido, email, cedula := None, None, None, None, None;
      carrera, semestre, fechaNacimiento, telefono, direccion := None, None, None, None, None;
      rol, activo, fechaCreacion, fechaActualizacion, nombreCompleto := None, None, None, None, None;
    }

    /** The full constructor: nombreCompleto is nombre, a space, apellido, with a null
        part written "null". */
    constructor (id: Option<int>, nombre: Option<string>, apellido: Option<string>,
                 email: Option<string>, cedula: Option<string>, carrera: Option<string>,
                 semestre: Option<int>, fechaNacimiento: Option<int>, telefono: Option<string>,
                 direccion: Option<string>, rol: Option<Rol>, activo: Option<bool>,
                 fechaCreacion: Option<int>, fechaActualizacion: Option<int>)
      ensures Vista() == EstudianteVista(id, nombre, apellido, email, cedula, carrera, semestre,
        fechaNacimiento, telefono, direccion, rol, activo, fechaCreacion, fechaActualizacion,
        Some(Str(nombre) + " " + Str(apellido)))
    {
      this.id := id;
      this.nombre := nombre;
      this.apellido := apellido;
      this.email := email;
      this.cedula := cedula;
      this.carrera := carrera;
      this.semestre := semestre;
      this.fechaNacimiento := fechaNacimiento;
      this.telefono := telefono;
      this.direccion := direccion;
      this.rol := rol;
      this.activo := activo;
      this.fechaCreacion := fechaCreacion;
      this.fechaActualizacion := fechaActualizacion;
      this.nombreCompleto := Some(Str(nombre) + " " + Str(apellido));
    }

    method SetId(v: Option<int>)
      modifies this`id
      ensures id == v
      ensures Vista() == old(Vista()).(id := v)
    {
      id := v;
    }

    /** `setNombre`: recomputes nombreCompleto with the apellido, or "" if it is null. */
    method SetNombre(v: Option<string>)
      modifies this`nombre, this`nombreCompleto
      ensures nombre == v
      ensures nombreCompleto == Some(Str(v) + " " + OVacio(apellido))
      ensures Vista() == old(Vista()).(nombre := v, nombreCompleto := nombreCompleto)
    {
      nombre := v;
      nombreCompleto := Some(Str(v) + " " + OVacio(apellido));
    }

    /** `setApellido`: recomputes nombreCompleto with the nombre, or "" if it is null. */
    method SetApellido(v: Option<string>)
      modifies this`apellido, this`nombreCompleto
      ensures apellido == v
      ensures nombreCompleto == Some(OVacio(nombre) + " " + Str(v))
      ensures Vista() == old(Vista()).(apellido := v, nombreCompleto := nombreCompleto)
    {
      apellido := v;
      nombreCompleto := Some(OVacio(nombre) + " " + Str(v));
    }

    method SetEmail(v: Option<string>)
      modifies this`email
      ensures email == v
      ensures Vista() == old(Vista()).(email := v)
    {
      email := v;
    }

    method SetCedula(v: Option<string>)
      modifies this`cedula
      ensures cedula == v
      ensures Vista() == old(Vista()).(cedula := v)
    {
      cedula := v;
    }

    method SetCarrera(v: Option<string>)
      modifies this`carrera
      ensures carrera == v
      ensures Vista() == old(Vista()).(carrera := v)
    {
      carrera := v;
    }

    method SetSemestre(v: Option<int>)
      modifies this`semestre
      ensures semestre == v
      ensures Vista() == old(Vista()).(semestre := v)
    {
      semestre := v;
    }

    method SetFechaNacimiento(v: Option<int>)
      modifies this`fechaNacimiento
      ensures fechaNacimiento == v
      ensures Vista() == old(Vista()).(fechaNacimiento := v)
    {
      fechaNacimiento := v;
    }

    method SetTelefono(v: Option<string>)
      modifies this`telefono
      ensures telefono == v
      ensures Vista() == old(Vista()).(telefono := v)
    {
      telefono := v;
    }

    method SetDireccion(v: Option<string>)
      modifies this`direccion
      ensures direccion == v
      ensures Vista() == old(Vista()).(direccion := v)
    {
      direccion := v;
    }

    method SetRol(v: Option<Rol>)
      modifies this`rol
      ensures rol == v
      ensures Vista() == old(Vista()).(rol := v)
    {
      rol := v;
    }

    method SetActivo(v: Option<bool>)
      modifies this`activo
      ensures activo == v
      ensures Vista() == old(Vista()).(activo := v)
    {
      activo := v;
    }

    method SetFechaCreacion(v: Option<int>)
      modifies this`fechaCreacion
      ensures fechaCreacion == v
      ensures Vista() == old(Vista()).(fechaCreacion := v)
    {
      fechaCreacion := v;
    }

    method SetFechaActualizacion(v: Option<int>)
      modifies this`fechaActualizacion
      ensures fechaActualizacion == v
      ensures Vista() == old(Vista()).(fechaActualizacion := v)
    {
      fechaActualizacion := v;
    }

    method SetNombreCompleto(v: Option<string>)
      modifies this`nombreCompleto
      ensures nombreCompleto == v
      ensures Vista() == old(Vista()).(nombreCompleto := v)
    {
      nombreCompleto := v;
    }
  }

  // ---------------------------------------------------------- MateriaResponseDTO

  datatype MateriaVista = MateriaVista(
    id: Option<int>,
    nombre: Option<string>,
    codigo: Option<string>,
    descripcion: Option<string>,
    creditos: Option<int>,
    semestre: Option<int>,
    carrera: Option<string>,
    nombreProfesor: Option<string>,
    profesorId: Option<int>,
    activa: Option<bool>,
    fechaCreacion: Option<int>,
    fechaActualizacion: Option<int>,
    nombreCompleto: Option<string>)

  class MateriaResponseDTO {
    var id: Option<int>
    var nombre: Option<string>
    var codigo: Option<string>
    var descripcion: Option<string>
    var creditos: Option<int>
    var semestre: Option<int>
    var carrera: Option<string>
    var nombreProfesor: Option<string>
    var profesorId: Option<int>
    var activa: Option<bool>
    var fechaCreacion: Option<int>
    var fechaActualizacion: Option<int>
    var nombreCompleto: Option<string>

    function Vista(): MateriaVista
      reads this
    {
      MateriaVista(id, nombre, codigo, descripcion, creditos, semestre, carrera, nombreProfesor,
        profesorId, activa, fechaCreacion, fechaActualizacion, nombreCompleto)
    }

    /** The no-argument constructor: every field null. */
    constructor Vacio()
      ensures Vista() == MateriaVista(None, None, None, None, None, None, None, None, None,
        None, None, None, None)
    {
      id, nombre, codigo, descripcion, creditos := None, None, None, None, None;
      semestre, carrera, nombreProfesor, profesorId := None, None, None, None;
      activa, fechaCreacion, fechaActualizacion, nombreCompleto := None, None, None, None;
    }

    /** The full constructor: nombreCompleto is codigo, " - ", nombre. */
    constructor (id: Option<int>, nombre: Option<string>, codigo: Option<string>,
                 descripcion: Option<string>, creditos: Option<int>, semestre: Option<int>,
                 carrera: Option<string>, nombreProfesor: Option<string>, profesorId: Option<int>,
                 activa: Option<bool>, fechaCreacion: Option<int>, fechaActualizacion: Option<int>)
      ensures Vista() == MateriaVista(id, nombre, codigo, descripcion, creditos, semestre, carrera,
        nombreProfesor, profesorId, activa, fechaCreacion, fechaActualizacion,
        Some(Str(codigo) + " - " + Str(nombre)))
    {
      this.id := id;
      this.nombre := nombre;
      this.codigo := codigo;
      this.descripcion := descripcion;
      this.creditos := creditos;
      this.semestre := semestre;
      this.carrera := carrera;
      this.nombreProfesor := nombreProfesor;
      this.profesorId := profesorId;
      this.activa := activa;
      this.fechaCreacion := fechaCreacion;
      this.fechaActualizacion := fechaActualizacion;
      this.nombreCompleto := Some(Str(codigo) + " - " + Str(nombre));
    }

    method SetId(v: Option<int>)
      modifies this`id
      ensures id == v
      ensures Vista() == old(Vista()).(id := v)
    {
      id := v;
    }

    /** `setNombre`: just the nombre when the codigo is null, otherwise codigo, " - ",
        nombre. */
    method SetNombre(v: Option<string>)
      modifies this`nombre, this`nombreCompleto
      ensures nombre == v
      ensures codigo.None? ==> nombreCompleto == Some(Str(v))
      ensures codigo.Some? ==> nombreCompleto == Some(codigo.value + " - " + Str(v))
      ensures Vista() == old(Vista()).(nombre := v, nombreCompleto := nombreCompleto)
    {
      nombre := v;
      if codigo.Some? {
        nombreCompleto := Some(codigo.value + " - " + Str(v));
      } else {
        nombreCompleto := Some(Str(v));
      }
    }

    /** `setCodigo`: codigo, " - ", and the nombre or "" if it is null. */
    method SetCodigo(v: Option<string>)
      modifies this`codigo, this`nombreCompleto
      ensures codigo == v
      ensures nombreCompleto == Some(Str(v) + " - " + OVacio(nombre))
      ensures Vista() == old(Vista()).(codigo := v, nombreCompleto := nombreCompleto)
    {
      codigo := v;
      nombreCompleto := Some(Str(v) + " - " + OVacio(nombre));
    }

    method SetDescripcion(v: Option<string>)
      modifies this`descripcion
      ensures descripcion == v
      ensures Vista() == old(Vista()).(descripcion := v)
    {
      descripcion := v;
    }

    method SetCreditos(v: Option<int>)
      modifies this`creditos
      ensures creditos == v
      ensures Vista() == old(Vista()).(creditos := v)
    {
      creditos := v;
    }

    method SetSemestre(v: Option<int>)
      modifies this`semestre
      ensures semestre == v
      ensures Vista() == old(Vista()).(semestre := v)
    {
      semestre := v;
    }

    method SetCarrera(v: Option<string>)
      modifies this`carrera
      ensures carrera == v
      ensures Vista() == old(Vista()).(carrera := v)
    {
      carrera := v;
    }

    method SetNombreProfesor(v: Option<string>)
      modifies this`nombreProfesor
      ensures nombreProfesor == v
      ensures Vista() == old(Vista()).(nombreProfesor := v)
    {
      nombreProfesor := v;
    }

    method SetProfesorId(v: Option<int>)
      modifies this`profesorId
      ensures profesorId == v
      ensures Vista() == old(Vista()).(profesorId := v)
    {
      profesorId := v;
    }

    method SetActiva(v: Option<bool>)
      modifies this`activa
      ensures activa == v
      ensures Vista() == old(Vista()).(activa := v)
    {
      activa := v;
    }

    method SetFechaCreacion(v: Option<int>)
      modifies this`fechaCreacion
      ensures fechaCreacion == v
      ensures Vista() == old(Vista()).(fechaCreacion := v)
    {
      fechaCreacion := v;
    }

    method SetFechaActualizacion(v: Option<int>)
      modifies this`fechaActualizacion
      ensures fechaActualizacion == v
      ensures Vista() == old(Vista()).(fechaActualizacion := v)
    {
      fechaActualizacion := v;
    }

    method SetNombreCompleto(v: Option<string>)
      modifies this`nombreCompleto
      ensures nombreCompleto == v
      ensures Vista() == old(Vista()).(nombreCompleto := v)
    {
      nombreCompleto := v;
    }
  }
}
