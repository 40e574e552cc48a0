/** The person repository: every query is a lookup, an existence test, a filter or a
    count over the `estudiantes` table, held as a sequence of records in primary-key
    order. */
module EstudianteRepositorio {
  import opened Comun
  import opened Entidades

  /** Primary keys are increasing along the table, hence distinct. */
  predicate IdsCrecientes(t: seq<Estudiante>) {
    forall i, j | 0 <= i < j < |t| :: t[i].id < t[j].id
  }

  /** The unique constraint on the email column. */
  predicate EmailsUnicos(t: seq<Estudiante>) {
    forall i, j | 0 <= i < |t| && 0 <= j < |t| && t[i].email == t[j].email :: i == j
  }

  /** The unique constraint on the cédula column. */
  predicate CedulasUnicas(t: seq<Estudiante>) {
    forall i, j | 0 <= i < |t| && 0 <= j < |t| && t[i].cedula == t[j].cedula :: i == j
  }

  /** Appending a row with a key above every stored key, and an email and a cédula no
      row has, keeps keys increasing and both columns unique. */
  lemma AgregarConservaClaves(t: seq<Estudiante>, e: Estudiante)
    requires IdsCrecientes(t) && EmailsUnicos(t) && CedulasUnicas(t)
    requires forall i | 0 <= i < |t| :: t[i].id < e.id
    requires forall i | 0 <= i < |t| :: t[i].email != e.email && t[i].cedula != e.cedula
    ensures var t2 := t + [e]; IdsCrecientes(t2) && EmailsUnicos(t2) && CedulasUnicas(t2)
  {
    var t2 := t + [e];
    assert forall i | 0 <= i < |t| :: t2[i] == t[i];
  }

  /** Rewriting row `i` with the same key, and an email and a cédula no other row has,
      keeps keys increasing and both columns unique. */
  lemma ReemplazarConservaClaves(t: seq<Estudiante>, i: nat, e: Estudiante)
    requires IdsCrecientes(t) && EmailsUnicos(t) && CedulasUnicas(t)
    requires i < |t| && e.id == t[i].id
    requires forall j | 0 <= j < |t| && j != i :: t[j].email != e.email
    requires forall j | 0 <= j < |t| && j != i :: t[j].cedula != e.cedula
    ensures var t2 := t[i := e]; IdsCrecientes(t2) && EmailsUnicos(t2) && CedulasUnicas(t2)
  {
  }

  /** `findById`: the row with that key, active or not. */
  function FindById(t: seq<Estudiante>, id: int): (r: Option<Estudiante>)
    ensures r.Some? ==> r.value in t && r.value.id == id
    ensures r.None? <==> forall i | 0 <= i < |t| :: t[i].id != id
  {
    if t == [] then None else if t[0].id == id then Some(t[0]) else FindById(t[1..], id)
  }

  /** The row of the person with that key, for the operations that rewrite it. */
  function Posicion(t: seq<Estudiante>, id: int): (r: Option<nat>)
    ensures r.Some? ==> r.value < |t| && t[r.value].id == id && FindById(t, id) == Some(t[r.value])
    ensures r.None? <==> forall i | 0 <= i < |t| :: t[i].id != id
  {
    if t == [] then None
    else if t[0].id == id then Some(0)
    else match Posicion(t[1..], id)
      case None => None
      case Some(k) => Some(k + 1)
  }

  /** The row found for a key depends only on the keys along the table. */
  lemma {:induction false} PosicionMismasClaves(a: seq<Estudiante>, b: seq<Estudiante>, id: int)
    requires |a| == |b| && forall k | 0 <= k < |a| :: a[k].id == b[k].id
    ensures Posicion(a, id) == Posicion(b, id)
  {
    if a != [] {
      PosicionMismasClaves(a[1..], b[1..], id);
    }
  }

  /** With increasing keys, the lookup by a stored row's key finds that very row. */
  lemma FindByIdUnico(t: seq<Estudiante>, x: Estudiante)
    requires IdsCrecientes(t) && x in t
    ensures FindById(t, x.id) == Some(x)
  {
    var k :| 0 <= k < |t| && t[k] == x;
    var j :| 0 <= j < |t| && t[j] == FindById(t, x.id).value;
    if j < k { assert t[j].id < t[k].id; }
    if k < j { assert t[k].id < t[j].id; }
  }

  /** `existsByEmail`: some stored person, active or not, has that email. */
  predicate ExistsByEmail(t: seq<Estudiante>, email: Option<string>) {
    exists i | 0 <= i < |t| :: t[i].email == email
  }

  /** `existsByCedula`: some stored person, active or not, has that cédula. */
  predicate ExistsByCedula(t: seq<Estudiante>, cedula: Option<string>) {
    exists i | 0 <= i < |t| :: t[i].cedula == cedula
  }

  /** `findByEmail`: the person with that email, present exactly when one exists. */
  function FindByEmail(t: seq<Estudiante>, email: Option<string>): (r: Option<Estudiante>)
    ensures r.Some? ==> r.value in t && r.value.email == email
    ensures r.Some? <==> ExistsByEmail(t, email)
  {
    if t == [] then None else if t[0].email == email then Some(t[0]) else FindByEmail(t[1..], email)
  }

  /** `findByCedula`: the person with that cédula, present exactly when one exists. */
  function FindByCedula(t: seq<Estudiante>, cedula: Option<string>): (r: Option<Estudiante>)
    ensures r.Some? ==> r.value in t && r.value.cedula == cedula
    ensures r.Some? <==> ExistsByCedula(t, cedula)
  {
    if t == [] then None else if t[0].cedula == cedula then Some(t[0]) else FindByCedula(t[1..], cedula)
  }

  /** With the unique column, the person found by email is the only one with it. */
  lemma FindByEmailUnico(t: seq<Estudiante>, email: Option<string>, k: nat)
    requires EmailsUnicos(t)
    requires k < |t| && t[k].email == email
    ensures FindByEmail(t, email) == Some(t[k])
  {
    var r := FindByEmail(t, email);
    var i :| 0 <= i < |t| && t[i] == r.value;
  }

  /** `findByRol`. */
  function FindByRol(t: seq<Estudiante>, rol: Rol): (r: seq<Estudiante>)
    ensures forall e | e in r :: e in t && e.rol == rol
    ensures forall e | e in t && e.rol == rol :: e in r
  {
    Filter(t, (e: Estudiante) => e.rol == rol)
  }

  /** `findByActivoTrue`. */
  function FindByActivoTrue(t: seq<Estudiante>): (r: seq<Estudiante>)
    ensures forall e | e in r :: e in t && e.activo
    ensures forall e | e in t && e.activo :: e in r
  {
    Filter(t, (e: Estudiante) => e.activo)
  }

  /** `findByCarrera`, active or not. */
  function FindByCarrera(t: seq<Estudiante>, carrera: string): (r: seq<Estudiante>)
    ensures forall e | e in r :: e in t && e.carrera == Some(carrera)
    ensures forall e | e in t && e.carrera == Some(carrera) :: e in r
  {
    Filter(t, (e: Estudiante) => e.carrera == Some(carrera))
  }

  /** `findBySemestre`, active or not. */
  function FindBySemestre(t: seq<Estudiante>, semestre: int): (r: seq<Estudiante>)
    ensures forall e | e in r :: e in t && e.semestre == Some(semestre)
    ensures forall e | e in t && e.semestre == Some(semestre) :: e in r
  {
    Filter(t, (e: Estudiante) => e.semestre == Some(semestre))
  }

  /** `findByCarreraAndSemestre`: both filters at once. */
  function FindByCarreraAndSemestre(t: seq<Estudiante>, carrera: string, semestre: int): (r: seq<Estudiante>)
    ensures r == FindBySemestre(FindByCarrera(t, carrera), semestre)
  {
    var ambos := (e: Estudiante) => e.carrera == Some(carrera) && e.semestre == Some(semestre);
    FilterFilter(t, (e: Estudiante) => e.carrera == Some(carrera),
      (e: Estudiante) => e.semestre == Some(semestre), ambos);
    Filter(t, ambos)
  }

  /** The text the name search looks in: `CONCAT(nombre, ' ', apellido)`, which is null
      (and matches nothing) when either part is null. */
  predicate NombreCompletoContiene(e: Estudiante, q: string) {
    e.nombre.Some? && e.apellido.Some? && ContainsIgnoreCase(NombreCompleto(e), q)
  }

  /** `findByNombreCompletoContainingIgnoreCase`: no filter on `activo`. */
  function FindByNombreCompletoContainingIgnoreCase(t: seq<Estudiante>, q: string): (r: seq<Estudiante>)
    ensures forall e | e in r :: e in t && NombreCompletoContiene(e, q)
    ensures forall e | e in t && NombreCompletoContiene(e, q) :: e in r
  {
    Filter(t, (e: Estudiante) => NombreCompletoContiene(e, q))
  }

  /** A text found in the first or the last name is found by the full-name search. */
  lemma BusquedaPorParteDelNombre(t: seq<Estudiante>, e: Estudiante, q: string)
    requires e in t && e.nombre.Some? && e.apellido.Some?
    requires ContainsIgnoreCase(e.nombre.value, q) || ContainsIgnoreCase(e.apellido.value, q)
    ensures e in FindByNombreCompletoContainingIgnoreCase(t, q)
  {
    if ContainsIgnoreCase(e.nombre.value, q) {
      ContainsIgnoreCaseInConcat(e.nombre.value, " ", q);
      ContainsIgnoreCaseInConcat(e.nombre.value + " ", e.apellido.value, q);
    } else {
      ContainsIgnoreCaseInConcat(e.nombre.value + " ", e.apellido.value, q);
    }
  }

  /** `findByRolAndActivoTrue`. */
  function FindByRolAndActivoTrue(t: seq<Estudiante>, rol: Rol): (r: seq<Estudiante>)
    ensures r == FindByActivoTrue(FindByRol(t, rol))
  {
    var ambos := (e: Estudiante) => e.rol == rol && e.activo;
    FilterFilter(t, (e: Estudiante) => e.rol == rol, (e: Estudiante) => e.activo, ambos);
    Filter(t, ambos)
  }

  /** `countByCarreraAndActivoTrue`: active persons of that career. */
  function CountByCarreraAndActivoTrue(t: seq<Estudiante>, carrera: string): (r: nat)
    ensures r == |FindByActivoTrue(FindByCarrera(t, carrera))|
    ensures r <= |FindByCarrera(t, carrera)|
  {
    var ambos := (e: Estudiante) => e.carrera == Some(carrera) && e.activo;
    FilterFilter(t, (e: Estudiante) => e.carrera == Some(carrera), (e: Estudiante) => e.activo, ambos);
    |Filter(t, ambos)|
  }

  /** `countBySemestreAndActivoTrue`: active persons of that semester. */
  function CountBySemestreAndActivoTrue(t: seq<Estudiante>, semestre: int): (r: nat)
    ensures r == |FindByActivoTrue(FindBySemestre(t, semestre))|
    ensures r <= |FindBySemestre(t, semestre)|
  {
    var ambos := (e: Estudiante) => e.semestre == Some(semestre) && e.activo;
    FilterFilter(t, (e: Estudiante) => e.semestre == Some(semestre), (e: Estudiante) => e.activo, ambos);
    |Filter(t, ambos)|
  }
}
