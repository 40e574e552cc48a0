/** The course repository over the `materias` table, in primary-key order. The custom
    JPQL queries add `activa = true`; the derived ones do not. */
module MateriaRepositorio {
  import opened Comun
  import opened Entidades

  predicate IdsCrecientes(t: seq<Materia>) {
    forall i, j | 0 <= i < j < |t| :: t[i].id < t[j].id
  }

  /** The unique constraint on the codigo column. */
  predicate CodigosUnicos(t: seq<Materia>) {
    forall i, j | 0 <= i < |t| && 0 <= j < |t| && t[i].codigo == t[j].codigo :: i == j
  }

  /** `findById`: the row with that key, active or not. */
  function FindById(t: seq<Materia>, id: int): (r: Option<Materia>)
    ensures r.Some? ==> r.value in t && r.value.id == id
    ensures r.None? <==> forall i | 0 <= i < |t| :: t[i].id != id
  {
    if t == [] then None else if t[0].id == id then Some(t[0]) else FindById(t[1..], id)
  }

  /** The row of the course with that key, for the operations that rewrite it. */
  function Posicion(t: seq<Materia>, id: int): (r: Option<nat>)
    ensures r.Some? ==> r.value < |t| && t[r.value].id == id && FindById(t, id) == Some(t[r.value])
    ensures r.None? <==> forall i | 0 <= i < |t| :: t[i].id != id
  {
    if t == [] then None
    else if t[0].id == id then Some(0)
    else match Posicion(t[1..], id)
      case None => None
      case Some(k) => Some(k + 1)
  }

  /** The row found for a key depends only on the keys along the table. */
  lemma {:induction false} PosicionMismasClaves(a: seq<Materia>, b: seq<Materia>, id: int)
    requires |a| == |b| && forall k | 0 <= k < |a| :: a[k].id == b[k].id
    ensures Posicion(a, id) == Posicion(b, id)
  {
    if a != [] {
      PosicionMismasClaves(a[1..], b[1..], id);
    }
  }

  /** With increasing keys, the lookup by a stored row's key finds that very row. */
  lemma FindByIdUnico(t: seq<Materia>, x: Materia)
    requires IdsCrecientes(t) && x in t
    ensures FindById(t, x.id) == Some(x)
  {
    var k :| 0 <= k < |t| && t[k] == x;
    var j :| 0 <= j < |t| && t[j] == FindById(t, x.id).value;
    if j < k { assert t[j].id < t[k].id; }
    if k < j { assert t[k].id < t[j].id; }
  }

  /** `existsByCodigo`: some stored course, active or not, has that code. */
  predicate ExistsByCodigo(t: seq<Materia>, codigo: Option<string>) {
    exists i | 0 <= i < |t| :: t[i].codigo == codigo
  }

  /** `findByCodigo`, active or not. */
  function FindByCodigo(t: seq<Materia>, codigo: Option<string>): (r: Option<Materia>)
    ensures r.Some? ==> r.value in t && r.value.codigo == codigo
    ensures r.Some? <==> ExistsByCodigo(t, codigo)
  {
    if t == [] then None else if t[0].codigo == codigo then Some(t[0]) else FindByCodigo(t[1..], codigo)
  }

  /** `findByActivaTrue`. */
  function FindByActivaTrue(t: seq<Materia>): (r: seq<Materia>)
    ensures forall m | m in r :: m in t && m.activa
    ensures forall m | m in t && m.activa :: m in r
  {
    Filter(t, (m: Materia) => m.activa)
  }

  /** `findByCarrera`, active or not. */
  function FindByCarrera(t: seq<Materia>, carrera: string): (r: seq<Materia>)
    ensures forall m | m in r :: m in t && m.carrera == Some(carrera)
    ensures forall m | m in t && m.carrera == Some(carrera) :: m in r
  {
    Filter(t, (m: Materia) => m.carrera == Some(carrera))
  }

  /** `findBySemestre`, active or not. */
  function FindBySemestre(t: seq<Materia>, semestre: int): (r: seq<Materia>)
    ensures forall m | m in r :: m in t && m.semestre == Some(semestre)
    ensures forall m | m in t && m.semestre == Some(semestre) :: m in r
  {
    Filter(t, (m: Materia) => m.semestre == Some(semestre))
  }

  /** `findByCarreraAndSemestre`: both filters, no active filter. */
  function FindByCarreraAndSemestre(t: seq<Materia>, carrera: string, semestre: int): (r: seq<Materia>)
    ensures r == FindBySemestre(FindByCarrera(t, carrera), semestre)
  {
    var ambos := (m: Materia) => m.carrera == Some(carrera) && m.semestre == Some(semestre);
    FilterFilter(t, (m: Materia) => m.carrera == Some(carrera),
      (m: Materia) => m.semestre == Some(semestre), ambos);
    Filter(t, ambos)
  }

  /** `findByProfesor`: the courses of that teacher, active or not. */
  function FindByProfesor(t: seq<Materia>, profesorId: int): (r: seq<Materia>)
    ensures forall m | m in r :: m in t && m.profesorId == Some(profesorId)
    ensures forall m | m in t && m.profesorId == Some(profesorId) :: m in r
  {
    Filter(t, (m: Materia) => m.profesorId == Some(profesorId))
  }

  /** `findMateriasByProfesorId`: the active courses of that teacher. */
  function FindMateriasByProfesorId(t: seq<Materia>, profesorId: int): (r: seq<Materia>)
    ensures r == FindByActivaTrue(FindByProfesor(t, profesorId))
  {
    var ambos := (m: Materia) => m.profesorId == Some(profesorId) && m.activa;
    FilterFilter(t, (m: Materia) => m.profesorId == Some(profesorId), (m: Materia) => m.activa, ambos);
    Filter(t, ambos)
  }

  /** `LOWER(m.nombre) LIKE LOWER(CONCAT('%', :nombre, '%')) AND m.activa = true`. */
  predicate NombreContiene(m: Materia, q: string) {
    m.nombre.Some? && ContainsIgnoreCase(m.nombre.value, q) && m.activa
  }

  /** `findByNombreContainingIgnoreCase`: active courses only. */
  function FindByNombreContainingIgnoreCase(t: seq<Materia>, q: string): (r: seq<Materia>)
    ensures forall m | m in r :: m in t && m.activa && m.nombre.Some? && ContainsIgnoreCase(m.nombre.value, q)
    ensures forall m | m in t && NombreContiene(m, q) :: m in r
  {
    Filter(t, (m: Materia) => NombreContiene(m, q))
  }

  predicate CodigoContiene(m: Materia, q: string) {
    m.codigo.Some? && ContainsIgnoreCase(m.codigo.value, q) && m.activa
  }

  /** `findByCodigoContainingIgnoreCase`: active courses only. */
  function FindByCodigoContainingIgnoreCase(t: seq<Materia>, q: string): (r: seq<Materia>)
    ensures forall m | m in r :: m in t && m.activa && m.codigo.Some? && ContainsIgnoreCase(m.codigo.value, q)
    ensures forall m | m in t && CodigoContiene(m, q) :: m in r
  {
    Filter(t, (m: Materia) => CodigoContiene(m, q))
  }

  /** `countByCarrera`: active courses of that career. */
  function CountByCarrera(t: seq<Materia>, carrera: string): (r: nat)
    ensures r == |FindByActivaTrue(FindByCarrera(t, carrera))|
    ensures r <= |FindByCarrera(t, carrera)|
  {
    var ambos := (m: Materia) => m.carrera == Some(carrera) && m.activa;
    FilterFilter(t, (m: Materia) => m.carrera == Some(carrera), (m: Materia) => m.activa, ambos);
    |Filter(t, ambos)|
  }

  /** `countByProfesorId`: the teacher's active courses. */
  function CountByProfesorId(t: seq<Materia>, profesorId: int): (r: nat)
    ensures r == |FindMateriasByProfesorId(t, profesorId)|
    ensures r <= |FindByProfesor(t, profesorId)|
  {
    var ambos := (m: Materia) => m.profesorId == Some(profesorId) && m.activa;
    FilterFilter(t, (m: Materia) => m.profesorId == Some(profesorId), (m: Materia) => m.activa, ambos);
    |Filter(t, ambos)|
  }
}
