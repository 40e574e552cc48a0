/** The three JPA entities and the role enum. Each entity is a value: the services
    read a record from its table, build the changed record and store it back.
    Fields that Java lets be null before validation are `Option`s; the bean-validation
    predicates say which of them a stored record must have. Timestamps and dates are
    opaque integers supplied by the caller (`ahora`, `hoy`). */
module Entidades {
  import opened Comun

  // ---------------------------------------------------------------- RolEstudiante

  datatype Rol = ADMIN | ESTUDIANTE | PROFESOR {
    /** `getDescripcion()`: the text given to each constant. */
    function Descripcion(): (r: string)
      ensures |r| > 0
    {
      match this
      case ADMIN => "Administrador"
      case ESTUDIANTE => "Estudiante"
      case PROFESOR => "Profesor"
    }

    /** `name()`: the constant's identifier, as stored by `@Enumerated(STRING)`. */
    function Nombre(): (r: string)
      ensures |r| > 0
    {
      match this
      case ADMIN => "ADMIN"
      case ESTUDIANTE => "ESTUDIANTE"
      case PROFESOR => "PROFESOR"
    }
  }

  /** `RolEstudiante.valueOf`: the constant with the given name, if any. */
  function RolDesdeNombre(s: string): (r: Option<Rol>)
    ensures r.Some? ==> r.value.Nombre() == s
  {
    if s == "ADMIN" then Some(ADMIN)
    else if s == "ESTUDIANTE" then Some(ESTUDIANTE)
    else if s == "PROFESOR" then Some(PROFESOR)
    else None
  }

  /** Reading back a stored role name gives the role, and the three descriptions differ. */
  lemma RolNombreIda(r: Rol)
    ensures RolDesdeNombre(r.Nombre()) == Some(r)
    ensures forall q: Rol :: q.Descripcion() == r.Descripcion() ==> q == r
  {
  }

  // ---------------------------------------------------------------- Estudiante

  /** A person: student, teacher or administrator, told apart by `rol`. */
  datatype Estudiante = Estudiante(
    id: int,
    nombre: Option<string>,
    apellido: Option<string>,
    email: Option<string>,
    cedula: Option<string>,
    carrera: Option<string>,
    semestre: Option<int>,
    fechaNacimiento: Option<int>,
    telefono: Option<string>,
    direccion: Option<string>,
    password: Option<string>,
    rol: Rol,
    activo: bool,
    fechaCreacion: int,
    fechaActualizacion: Option<int>)

  /** The `@Email` format: one `@` with a non-empty part on each side. */
  predicate EmailBienFormado(s: string) {
    exists i | 0 < i < |s| - 1 :: s[i] == '@' && '@' !in s[..i] && '@' !in s[i + 1..]
  }

  /** `@NotBlank @Size(min, max)` on a text field. */
  predicate TextoEntre(s: Option<string>, min: nat, max: nat) {
    NotBlank(s) && min <= |s.value| <= max
  }

  /** `@NotNull @Min(min) @Max(max)` on an Integer field. */
  predicate EnteroEntre(n: Option<int>, min: int, max: int) {
    n.Some? && min <= n.value <= max
  }

  /** Every constraint of the person entity except `@Past`, which depends on the day. */
  predicate EstudianteCamposValidos(e: Estudiante) {
    && TextoEntre(e.nombre, 2, 50)
    && TextoEntre(e.apellido, 2, 50)
    && NotBlank(e.email) && EmailBienFormado(e.email.value)
    && TextoEntre(e.cedula, 8, 20)
    && TextoEntre(e.carrera, 3, 100)
    && EnteroEntre(e.semestre, 1, 12)
    && e.fechaNacimiento.Some?
    && AtMost(e.telefono, 15)
    && AtMost(e.direccion, 200)
    && NotBlank(e.password) && |e.password.value| >= 6
  }

  /** Bean validation of a person when it is inserted or updated on day `hoy`. */
  predicate EstudianteValido(e: Estudiante, hoy: int) {
    EstudianteCamposValidos(e) && e.fechaNacimiento.value < hoy
  }

  /** `getNombreCompleto()`: nombre, a space, apellido (a null part reads "null"). */
  function NombreCompleto(e: Estudiante): string {
    Str(e.nombre) + " " + Str(e.apellido)
  }

  /** The full name splits back into its two parts around the separating space. */
  lemma NombreCompletoPartes(e: Estudiante)
    requires e.nombre.Some? && e.apellido.Some?
    ensures var n := NombreCompleto(e);
      && |n| == |e.nombre.value| + 1 + |e.apellido.value|
      && n[..|e.nombre.value|] == e.nombre.value
      && n[|e.nombre.value|] == ' '
      && n[|e.nombre.value| + 1..] == e.apellido.value
  {
  }

  /** A person built from a request: the defaults rol ESTUDIANTE and activo true. */
  function NuevoEstudiante(
    id: int, nombre: Option<string>, apellido: Option<string>, email: Option<string>,
    cedula: Option<string>, carrera: Option<string>, semestre: Option<int>,
    fechaNacimiento: Option<int>, telefono: Option<string>, direccion: Option<string>,
    password: Option<string>, ahora: int): (e: Estudiante)
    ensures e.rol == ESTUDIANTE && e.activo
    ensures e.fechaCreacion == ahora && e.fechaActualizacion.None?
    ensures e.id == id && e.email == email && e.cedula == cedula && e.password == password
  {
    Estudiante(id, nombre, apellido, email, cedula, carrera, semestre, fechaNacimiento,
      telefono, direccion, password, ESTUDIANTE, true, ahora, None)
  }

  /** `@PreUpdate`: stamps the modification time and touches nothing else. */
  function EstudiantePreUpdate(e: Estudiante, ahora: int): (r: Estudiante)
    ensures r.fechaActualizacion == Some(ahora)
    ensures r.(fechaActualizacion := e.fechaActualizacion) == e
  {
    e.(fechaActualizacion := Some(ahora))
  }

  // ---------------------------------------------------------------- Materia

  /** A course; `profesorId` is the id of its teacher, if one is assigned. */
  datatype Materia = Materia(
    id: int,
    nombre: Option<string>,
    codigo: Option<string>,
    descripcion: Option<string>,
    creditos: Option<int>,
    semestre: Option<int>,
    carrera: Option<string>,
    profesorId: Option<int>,
    activa: bool,
    fechaCreacion: int,
    fechaActualizacion: Option<int>)

  /** Bean validation of a course. */
  predicate MateriaValida(m: Materia) {
    && NotBlank(m.nombre) && |m.nombre.value| <= 100
    && NotBlank(m.codigo) && |m.codigo.value| <= 10
    && AtMost(m.descripcion, 500)
    && EnteroEntre(m.creditos, 1, 10)
    && EnteroEntre(m.semestre, 1, 12)
    && AtMost(m.carrera, 100)
  }

  /** `getNombreCompleto()`: codigo, " - ", nombre. */
  function MateriaNombreCompleto(m: Materia): string {
    Str(m.codigo) + " - " + Str(m.nombre)
  }

  /** For a valid course the full name starts with the code and ends with the name. */
  lemma MateriaNombreCompletoPartes(m: Materia)
    requires MateriaValida(m)
    ensures var n := MateriaNombreCompleto(m);
      && |n| == |m.codigo.value| + 3 + |m.nombre.value|
      && n[..|m.codigo.value|] == m.codigo.value
      && n[|m.codigo.value|..|m.codigo.value| + 3] == " - "
      && n[|m.codigo.value| + 3..] == m.nombre.value
  {
  }

  /** `@PreUpdate` of a course. */
  function MateriaPreUpdate(m: Materia, ahora: int): (r: Materia)
    ensures r.fechaActualizacion == Some(ahora)
    ensures r.(fechaActualizacion := m.fechaActualizacion) == m
  {
    m.(fechaActualizacion := Some(ahora))
  }

  // ---------------------------------------------------------------- Calificacion

  /** A grade. `nota` counts tenths: the column has scale 1, so 4.5 is 45. */
  datatype Calificacion = Calificacion(
    id: int,
    estudianteId: int,
    materiaId: int,
    profesorId: int,
    nota: Option<int>,
    tipoEvaluacion: Option<string>,
    observaciones: Option<string>,
    fechaCreacion: int,
    fechaActualizacion: Option<int>)

  /** `@DecimalMin("0.0") @DecimalMax("5.0")` in tenths. */
  predicate NotaEnRango(n: int) {
    0 <= n <= 50
  }

  /** Bean validation of a grade; the three relations are never null in this model. */
  predicate CalificacionValida(c: Calificacion) {
    && c.nota.Some? && NotaEnRango(c.nota.value)
    && AtMost(c.tipoEvaluacion, 20)
    && AtMost(c.observaciones, 500)
  }

  /** `esAprobatoria()`: nota >= 3.0. */
  predicate EsAprobatoria(n: int) {
    n >= 30
  }

  /** `@PreUpdate` of a grade. */
  function CalificacionPreUpdate(c: Calificacion, ahora: int): (r: Calificacion)
    ensures r.fechaActualizacion == Some(ahora)
    ensures r.(fechaActualizacion := c.fechaActualizacion) == c
  {
    c.(fechaActualizacion := Some(ahora))
  }

  // ------------------------------------------------- BigDecimal text of a nota

  function CharDeCifra(d: nat): (c: char)
    requires d < 10
    ensures '0' <= c <= '9'
  {
    ('0' as int + d) as char
  }

  function CifraDeChar(c: char): (d: nat)
    requires '0' <= c <= '9'
    ensures d < 10
  {
    c as int - '0' as int
  }

  predicate SoloCifras(s: string) {
    forall i | 0 <= i < |s| :: '0' <= s[i] <= '9'
  }

  /** Decimal digits of `n` without leading zeros ("0" for zero). */
  function Cifras(n: nat): (r: string)
    ensures |r| > 0 && SoloCifras(r)
  {
    if n < 10 then [CharDeCifra(n)] else Cifras(n / 10) + [CharDeCifra(n % 10)]
  }

  /** The number a string of digits denotes. */
  function ValorCifras(s: string): nat
    requires SoloCifras(s)
  {
    if s == [] then 0 else ValorCifras(s[..|s| - 1]) * 10 + CifraDeChar(s[|s| - 1])
  }

  lemma {:induction false} ValorDeCifras(n: nat)
    ensures ValorCifras(Cifras(n)) == n
  {
    if n >= 10 {
      var s := Cifras(n);
      assert s[..|s| - 1] == Cifras(n / 10);
      ValorDeCifras(n / 10);
    }
  }

  /** `BigDecimal.toString()` of a value with scale 1 and `n` tenths: an optional
      minus sign, the integer digits, a point and the tenths digit. */
  function NotaTexto(n: int): (r: string)
    ensures |r| >= 3
  {
    var a := if n < 0 then -n else n;
    (if n < 0 then "-" else "") + Cifras(a / 10) + "." + [CharDeCifra(a % 10)]
  }

  /** Reads the text of a scale-1 decimal back into tenths. */
  function LeerNota(s: string): Option<int> {
    if |s| > 0 && s[0] == '-' then
      match LeerSinSigno(s[1..])
      case Some(v) => Some(-v)
      case None => None
    else LeerSinSigno(s)
  }

  function LeerSinSigno(s: string): Option<int> {
    if |s| >= 3 && s[|s| - 2] == '.' && '0' <= s[|s| - 1] <= '9' && SoloCifras(s[..|s| - 2])
    then Some(ValorCifras(s[..|s| - 2]) * 10 + CifraDeChar(s[|s| - 1]))
    else None
  }

  /** The nota text denotes the nota: reading it back gives the same number of tenths. */
  lemma {:induction false} LeerNotaTexto(n: int)
    ensures LeerNota(NotaTexto(n)) == Some(n)
  {
    var a := if n < 0 then -n else n;
    var u := Cifras(a / 10) + "." + [CharDeCifra(a % 10)];
    assert u[..|u| - 2] == Cifras(a / 10);
    ValorDeCifras(a / 10);
    assert LeerSinSigno(u) == Some(a);
    if n < 0 {
      assert NotaTexto(n) == "-" + u;
      assert NotaTexto(n)[1..] == u;
    } else {
      assert NotaTexto(n) == u;
      assert u[0] != '-';
    }
  }

  /** `getNotaConFormato()`: the nota text followed by "/5.0". */
  function NotaConFormato(n: int): string {
    NotaTexto(n) + "/5.0"
  }

  /** For a nota in range the formatted text is "d.d/5.0", and its first digit decides
      whether it passes. */
  lemma {:induction false} NotaConFormatoEnRango(n: int)
    requires NotaEnRango(n)
    ensures var t := NotaConFormato(n);
      && |t| == 7
      && t[0] == CharDeCifra(n / 10) && t[1] == '.' && t[2] == CharDeCifra(n % 10)
      && t[3..] == "/5.0"
      && (EsAprobatoria(n) <==> t[0] >= '3')
  {
    assert Cifras(n / 10) == [CharDeCifra(n / 10)];
  }
}
