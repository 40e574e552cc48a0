/** The grade repository over the `calificaciones` table, in primary-key order: the
    filters, the AVG and COUNT aggregates, the nota range and the ordering query.
    SQL comparisons and aggregates skip a null nota, as the database does. */
module CalificacionRepositorio {
  import opened Comun
  import opened Entidades

  predicate IdsCrecientes(t: seq<Calificacion>) {
    forall i, j | 0 <= i < j < |t| :: t[i].id < t[j].id
  }

  /** Every stored grade has a nota (the column is NOT NULL). */
  predicate NotasPresentes(t: seq<Calificacion>) {
    forall i | 0 <= i < |t| :: t[i].nota.Some?
  }

  /** `findById` and `findByIdWithRelations` (the latter returns null when absent). */
  function FindById(t: seq<Calificacion>, id: int): (r: Option<Calificacion>)
    ensures r.Some? ==> r.value in t && r.value.id == id
    ensures r.None? <==> forall i | 0 <= i < |t| :: t[i].id != id
  {
    if t == [] then None else if t[0].id == id then Some(t[0]) else FindById(t[1..], id)
  }

  /** The row of the grade with that key, for the operations that rewrite or delete it. */
  function Posicion(t: seq<Calificacion>, id: int): (r: Option<nat>)
    ensures r.Some? ==> r.value < |t| && t[r.value].id == id && FindById(t, id) == Some(t[r.value])
    ensures r.None? <==> forall i | 0 <= i < |t| :: t[i].id != id
  {
    if t == [] then None
    else if t[0].id == id then Some(0)
    else match Posicion(t[1..], id)
      case None => None
      case Some(k) => Some(k + 1)
  }

  /** With increasing keys, the lookup by a stored row's key finds that very row. */
  lemma FindByIdUnico(t: seq<Calificacion>, x: Calificacion)
    requires IdsCrecientes(t) && x in t
    ensures FindById(t, x.id) == Some(x)
  {
    var k :| 0 <= k < |t| && t[k] == x;
    var j :| 0 <= j < |t| && t[j] == FindById(t, x.id).value;
    if j < k { assert t[j].id < t[k].id; }
    if k < j { assert t[k].id < t[j].id; }
  }

  /** With increasing keys, removing row `i` removes exactly the grade with its key. */
  lemma QuitarFila(t: seq<Calificacion>, i: nat)
    requires IdsCrecientes(t) && i < |t|
    ensures forall c | c in t :: c in t[..i] + t[i + 1..] <==> c.id != t[i].id
  {
    var s := t[..i] + t[i + 1..];
    forall c | c in t
      ensures c in s <==> c.id != t[i].id
    {
      var k :| 0 <= k < |t| && t[k] == c;
      if c.id != t[i].id {
        if k < i { assert s[k] == c; } else { assert s[k - 1] == c; }
      } else {
        forall j | 0 <= j < |s|
          ensures s[j] != c
        {
          if j < i { assert t[j].id < t[i].id; }
          else { assert s[j] == t[j + 1]; assert t[i].id < t[j + 1].id; }
        }
      }
    }
  }

  /** `findByEstudianteId` and `findByEstudianteIdWithRelations`. */
  function FindByEstudianteId(t: seq<Calificacion>, estudianteId: int): (r: seq<Calificacion>)
    ensures forall c | c in r :: c in t && c.estudianteId == estudianteId
    ensures forall c | c in t && c.estudianteId == estudianteId :: c in r
  {
    Filter(t, (c: Calificacion) => c.estudianteId == estudianteId)
  }

  /** `findByMateriaId` and `findByMateriaIdWithRelations`. */
  function FindByMateriaId(t: seq<Calificacion>, materiaId: int): (r: seq<Calificacion>)
    ensures forall c | c in r :: c in t && c.materiaId == materiaId
    ensures forall c | c in t && c.materiaId == materiaId :: c in r
  {
    Filter(t, (c: Calificacion) => c.materiaId == materiaId)
  }

  /** `findByProfesorId` and `findByProfesorIdWithRelations`. */
  function FindByProfesorId(t: seq<Calificacion>, profesorId: int): (r: seq<Calificacion>)
    ensures forall c | c in r :: c in t && c.profesorId == profesorId
    ensures forall c | c in t && c.profesorId == profesorId :: c in r
  {
    Filter(t, (c: Calificacion) => c.profesorId == profesorId)
  }

  /** `findByEstudianteIdAndMateriaId`: the grades matching both ids. */
  function FindByEstudianteIdAndMateriaId(t: seq<Calificacion>, estudianteId: int, materiaId: int): (r: seq<Calificacion>)
    ensures forall c | c in r :: c in t && c.estudianteId == estudianteId && c.materiaId == materiaId
    ensures forall c | c in t && c.estudianteId == estudianteId && c.materiaId == materiaId :: c in r
  {
    Filter(t, (c: Calificacion) => c.estudianteId == estudianteId && c.materiaId == materiaId)
  }

  /** The combined query is the by-course filter applied to the student's grades. */
  lemma EstudianteYMateriaCompuesta(t: seq<Calificacion>, estudianteId: int, materiaId: int)
    ensures FindByEstudianteIdAndMateriaId(t, estudianteId, materiaId)
            == FindByMateriaId(FindByEstudianteId(t, estudianteId), materiaId)
  {
    FilterFilter(t, (c: Calificacion) => c.estudianteId == estudianteId,
      (c: Calificacion) => c.materiaId == materiaId,
      (c: Calificacion) => c.estudianteId == estudianteId && c.materiaId == materiaId);
  }

  /** `findByTipoEvaluacion` (a null argument matches a null column). */
  function FindByTipoEvaluacion(t: seq<Calificacion>, tipo: Option<string>): (r: seq<Calificacion>)
    ensures forall c | c in r :: c in t && c.tipoEvaluacion == tipo
    ensures forall c | c in t && c.tipoEvaluacion == tipo :: c in r
  {
    Filter(t, (c: Calificacion) => c.tipoEvaluacion == tipo)
  }

  /** `c.nota >= 3.0`. */
  predicate Aprobada(c: Calificacion) {
    c.nota.Some? && EsAprobatoria(c.nota.value)
  }

  /** `c.nota < 3.0`. */
  predicate Reprobada(c: Calificacion) {
    c.nota.Some? && !EsAprobatoria(c.nota.value)
  }

  /** `findCalificacionesAprobatorias`. */
  function FindCalificacionesAprobatorias(t: seq<Calificacion>): (r: seq<Calificacion>)
    ensures forall c | c in r :: c in t && c.nota.Some? && c.nota.value >= 30
    ensures forall c | c in t && c.nota.Some? && c.nota.value >= 30 :: c in r
  {
    Filter(t, Aprobada)
  }

  /** `findCalificacionesReprobatorias`. */
  function FindCalificacionesReprobatorias(t: seq<Calificacion>): (r: seq<Calificacion>)
    ensures forall c | c in r :: c in t && c.nota.Some? && c.nota.value < 30
    ensures forall c | c in t && c.nota.Some? && c.nota.value < 30 :: c in r
  {
    Filter(t, Reprobada)
  }

  /** With every nota present the passing and failing queries partition the table:
      no grade is in both, and together they have as many grades as the table. */
  lemma AprobatoriasReprobatoriasParticion(t: seq<Calificacion>)
    requires NotasPresentes(t)
    ensures forall c | c in t :: (c in FindCalificacionesAprobatorias(t)) != (c in FindCalificacionesReprobatorias(t))
    ensures |FindCalificacionesAprobatorias(t)| + |FindCalificacionesReprobatorias(t)| == |t|
  {
    var presentes := (c: Calificacion) => c.nota.Some?;
    FilterAll(t, presentes);
    FilterSplit(t, Aprobada, (c: Calificacion) => !Aprobada(c));
    FilterFilter(t, presentes, (c: Calificacion) => !Aprobada(c), Reprobada);
  }

  // ------------------------------------------------------------------ aggregates

  /** Sum of the non-null notas, in tenths. */
  function SumaNotas(t: seq<Calificacion>): int {
    if t == [] then 0
    else (if t[0].nota.Some? then t[0].nota.value else 0) + SumaNotas(t[1..])
  }

  /** Number of non-null notas. */
  function CuentaNotas(t: seq<Calificacion>): (r: nat)
    ensures r <= |t|
  {
    if t == [] then 0 else (if t[0].nota.Some? then 1 else 0) + CuentaNotas(t[1..])
  }

  /** SQL `AVG(c.nota)`: null over no values, otherwise the unweighted mean in tenths. */
  function Promedio(t: seq<Calificacion>): (r: Option<real>)
    ensures r.None? <==> CuentaNotas(t) == 0
    ensures r.Some? ==> r.value * CuentaNotas(t) as real == SumaNotas(t) as real
  {
    if CuentaNotas(t) == 0 then None else Some(SumaNotas(t) as real / CuentaNotas(t) as real)
  }

  /** Over grades whose notas all lie in [lo, hi], the sum lies between count * lo and
      count * hi. */
  lemma {:induction false} SumaAcotada(t: seq<Calificacion>, lo: int, hi: int)
    requires forall i | 0 <= i < |t| :: t[i].nota.Some? ==> lo <= t[i].nota.value <= hi
    ensures CuentaNotas(t) * lo <= SumaNotas(t) <= CuentaNotas(t) * hi
  {
    if t != [] {
      var resto := t[1..];
      assert forall i | 0 <= i < |resto| :: resto[i] == t[i + 1];
      SumaAcotada(resto, lo, hi);
      if t[0].nota.Some? {
        assert CuentaNotas(t) == CuentaNotas(resto) + 1;
        assert SumaNotas(t) == t[0].nota.value + SumaNotas(resto);
        UnaNotaMas(CuentaNotas(resto), SumaNotas(resto), t[0].nota.value, lo, hi);
      } else {
        assert CuentaNotas(t) == CuentaNotas(resto) && SumaNotas(t) == SumaNotas(resto);
      }
    }
  }

  /** Adding one value within [lo, hi] to a sum of `c` such values keeps the bounds. */
  lemma UnaNotaMas(c: int, s: int, v: int, lo: int, hi: int)
    requires c * lo <= s <= c * hi && lo <= v <= hi
    ensures (c + 1) * lo <= s + v <= (c + 1) * hi
  {
    assert (c + 1) * lo == c * lo + lo;
    assert (c + 1) * hi == c * hi + hi;
  }

  /** A mean of valid notas is itself between 0.0 and 5.0. */
  lemma PromedioEnRango(t: seq<Calificacion>)
    requires forall i | 0 <= i < |t| :: t[i].nota.Some? ==> NotaEnRango(t[i].nota.value)
    requires Promedio(t).Some?
    ensures 0.0 <= Promedio(t).value <= 50.0
  {
    SumaAcotada(t, 0, 50);
    var c := CuentaNotas(t);
    assert 0 <= SumaNotas(t) <= c * 50;
    assert (c * 50) as real == c as real * 50.0;
    CocienteAcotado(Promedio(t).value, c as real, SumaNotas(t) as real, 50.0);
  }

  /** A quotient `p = s / n` with `0 <= s <= n * hi` and `n > 0` lies in [0, hi]. */
  lemma CocienteAcotado(p: real, n: real, s: real, hi: real)
    requires n > 0.0 && p * n == s && 0.0 <= s <= n * hi
    ensures 0.0 <= p <= hi
  {
    assert (p - hi) * n == s - n * hi;
  }

  /** `calcularPromedioGeneralEstudiante`. */
  function CalcularPromedioGeneralEstudiante(t: seq<Calificacion>, estudianteId: int): Option<real> {
    Promedio(FindByEstudianteId(t, estudianteId))
  }

  /** `calcularPromedioEstudianteEnMateria`. */
  function CalcularPromedioEstudianteEnMateria(t: seq<Calificacion>, estudianteId: int, materiaId: int): Option<real> {
    Promedio(FindByEstudianteIdAndMateriaId(t, estudianteId, materiaId))
  }

  /** `calcularPromedioMateria`. */
  function CalcularPromedioMateria(t: seq<Calificacion>, materiaId: int): Option<real> {
    Promedio(FindByMateriaId(t, materiaId))
  }

  /** `contarCalificacionesAprobatoriasEstudiante`. */
  function ContarAprobatoriasEstudiante(t: seq<Calificacion>, estudianteId: int): (r: nat)
    ensures r == |FindCalificacionesAprobatorias(FindByEstudianteId(t, estudianteId))|
  {
    var ambos := (c: Calificacion) => c.estudianteId == estudianteId && Aprobada(c);
    FilterFilter(t, (c: Calificacion) => c.estudianteId == estudianteId, Aprobada, ambos);
    |Filter(t, ambos)|
  }

  /** `contarCalificacionesReprobatoriasEstudiante`. */
  function ContarReprobatoriasEstudiante(t: seq<Calificacion>, estudianteId: int): (r: nat)
    ensures r == |FindCalificacionesReprobatorias(FindByEstudianteId(t, estudianteId))|
  {
    var ambos := (c: Calificacion) => c.estudianteId == estudianteId && Reprobada(c);
    FilterFilter(t, (c: Calificacion) => c.estudianteId == estudianteId, Reprobada, ambos);
    |Filter(t, ambos)|
  }

  /** A student's passing and failing counts add up to the number of their grades. */
  lemma ConteosEstudianteSuman(t: seq<Calificacion>, estudianteId: int)
    requires NotasPresentes(t)
    ensures ContarAprobatoriasEstudiante(t, estudianteId) + ContarReprobatoriasEstudiante(t, estudianteId)
            == |FindByEstudianteId(t, estudianteId)|
  {
    var s := FindByEstudianteId(t, estudianteId);
    assert forall i | 0 <= i < |s| :: s[i] in s;
    AprobatoriasReprobatoriasParticion(s);
  }

  // ------------------------------------------------------------------ nota range

  /** `findByNotaBetween`: SQL BETWEEN, inclusive at both ends. */
  function FindByNotaBetween(t: seq<Calificacion>, notaMin: int, notaMax: int): (r: seq<Calificacion>)
    ensures forall c | c in r :: c in t && c.nota.Some? && notaMin <= c.nota.value <= notaMax
    ensures forall c | c in t && c.nota.Some? && notaMin <= c.nota.value <= notaMax :: c in r
  {
    Filter(t, (c: Calificacion) => c.nota.Some? && notaMin <= c.nota.value <= notaMax)
  }

  // ------------------------------------------------------------------ ordering

  /** The sort key; a null nota is placed below every real one. */
  function Clave(c: Calificacion): int {
    if c.nota.Some? then c.nota.value else -1
  }

  predicate OrdenDescendente(s: seq<Calificacion>) {
    forall i, j | 0 <= i < j < |s| :: Clave(s[i]) >= Clave(s[j])
  }

  /** Places `c` after every grade of `s` whose key is at least its own. */
  function InsertarDesc(c: Calificacion, s: seq<Calificacion>): (r: seq<Calificacion>)
    requires OrdenDescendente(s)
    ensures OrdenDescendente(r)
    ensures multiset(r) == multiset(s) + multiset{c}
    ensures |r| == |s| + 1
  {
    if s == [] then [c]
    else if Clave(s[0]) >= Clave(c) then
      var resto := InsertarDesc(c, s[1..]);
      CabezaPrimero(c, s, resto);
      [s[0]] + resto
    else
      [c] + s
  }

  /** The head of a descending list still leads once `c`, which it dominates, has been
      inserted into the tail. */
  lemma CabezaPrimero(c: Calificacion, s: seq<Calificacion>, resto: seq<Calificacion>)
    requires s != [] && OrdenDescendente(s) && Clave(s[0]) >= Clave(c)
    requires OrdenDescendente(resto) && multiset(resto) == multiset(s[1..]) + multiset{c}
    ensures OrdenDescendente([s[0]] + resto)
    ensures multiset([s[0]] + resto) == multiset(s) + multiset{c}
  {
    assert s == [s[0]] + s[1..];
    forall x | x in resto
      ensures Clave(s[0]) >= Clave(x)
    {
      assert x in multiset(resto);
      if x != c {
        assert x in multiset(s[1..]);
        var k :| 0 <= k < |s[1..]| && s[1..][k] == x;
        assert s[k + 1] == x;
      }
    }
    var r := [s[0]] + resto;
    forall i, j | 0 <= i < j < |r|
      ensures Clave(r[i]) >= Clave(r[j])
    {
      if i == 0 {
        assert r[j] == resto[j - 1];
      } else {
        assert r[i] == resto[i - 1] && r[j] == resto[j - 1];
      }
    }
  }

  /** `findTop10ByOrderByNotaDesc`: its JPQL has no limit, so it returns every grade,
      ordered by nota from highest to lowest. */
  function FindTop10ByOrderByNotaDesc(t: seq<Calificacion>): (r: seq<Calificacion>)
    ensures OrdenDescendente(r)
    ensures multiset(r) == multiset(t)
    ensures |r| == |t|
  {
    if t == [] then []
    else
      assert t == [t[0]] + t[1..];
      InsertarDesc(t[0], FindTop10ByOrderByNotaDesc(t[1..]))
  }
}
