/** The database behind the three JPA repositories: one table per entity, each a
    sequence of rows in primary-key order, and the next key of each table's identity
    column. `Consistentes` collects the constraints the schema and bean validation keep
    on every stored row; the services preserve it. */
module BaseDatos {
  import opened Comun
  import opened Entidades
  import ER = EstudianteRepositorio
  import MR = MateriaRepositorio
  import CR = CalificacionRepositorio

  datatype Tablas = Tablas(
    personas: seq<Estudiante>,
    materias: seq<Materia>,
    calificaciones: seq<Calificacion>,
    sigPersona: int,
    sigMateria: int,
    sigCalificacion: int)

  /** A write that went through: the tables after it and the row it saved. */
  datatype Cambio<T> = Cambio(tablas: Tablas, registro: T)

  predicate ExistePersona(p: seq<Estudiante>, id: int) {
    exists e | e in p :: e.id == id
  }

  /** The key of a stored person whose role is PROFESOR. */
  predicate EsProfesor(p: seq<Estudiante>, id: int) {
    exists e | e in p :: e.id == id && e.rol == PROFESOR
  }

  predicate ExisteMateria(m: seq<Materia>, id: int) {
    exists x | x in m :: x.id == id
  }

  /** Keys increase along each table and stay below the next key to hand out. */
  predicate ClavesOrdenadas(t: Tablas) {
    && ER.IdsCrecientes(t.personas)
    && (forall i | 0 <= i < |t.personas| :: t.personas[i].id < t.sigPersona)
    && MR.IdsCrecientes(t.materias)
    && (forall i | 0 <= i < |t.materias| :: t.materias[i].id < t.sigMateria)
    && CR.IdsCrecientes(t.calificaciones)
    && (forall i | 0 <= i < |t.calificaciones| :: t.calificaciones[i].id < t.sigCalificacion)
  }

  /** Every stored row passed bean validation when it was last written. */
  predicate FilasValidas(t: Tablas) {
    && (forall e | e in t.personas :: EstudianteCamposValidos(e))
    && (forall m | m in t.materias :: MateriaValida(m))
    && (forall c | c in t.calificaciones :: CalificacionValida(c))
  }

  /** The unique columns: email and cédula of a person, codigo of a course. */
  predicate ClavesUnicas(t: Tablas) {
    ER.EmailsUnicos(t.personas) && ER.CedulasUnicas(t.personas) && MR.CodigosUnicos(t.materias)
  }

  /** Foreign keys, and the role the services demand of a teacher when they link one. */
  predicate Referencias(t: Tablas) {
    && (forall m | m in t.materias && m.profesorId.Some? :: EsProfesor(t.personas, m.profesorId.value))
    && (forall c | c in t.calificaciones ::
          && ExistePersona(t.personas, c.estudianteId)
          && ExisteMateria(t.materias, c.materiaId)
          && EsProfesor(t.personas, c.profesorId))
  }

  predicate Consistentes(t: Tablas) {
    ClavesOrdenadas(t) && FilasValidas(t) && ClavesUnicas(t) && Referencias(t)
  }

  /** The email of the person with that key; null when there is none. */
  function EmailDe(p: seq<Estudiante>, id: int): (r: Option<string>)
    ensures r.Some? ==> exists e | e in p :: e.id == id && e.email == r
  {
    match ER.FindById(p, id)
    case None => None
    case Some(e) => e.email
  }

  /** In a consistent store a teacher's email is never an administrator's: the two rows
      differ in role, so the unique email column tells them apart. */
  lemma EmailDeProfesorNoEsDeOtroRol(t: Tablas, profesorId: int, k: nat)
    requires Consistentes(t)
    requires EsProfesor(t.personas, profesorId)
    requires k < |t.personas| && t.personas[k].rol != PROFESOR
    ensures !Igual(EmailDe(t.personas, profesorId), t.personas[k].email)
  {
  }

  // -------------------------------------------- writes that keep the constraints

  /** Inserting a valid grade under the next key, whose three relations are stored and
      whose teacher is a PROFESOR. */
  lemma InsertarCalificacionConserva(t: Tablas, c: Calificacion)
    requires Consistentes(t)
    requires c.id == t.sigCalificacion && CalificacionValida(c)
    requires ExistePersona(t.personas, c.estudianteId) && ExisteMateria(t.materias, c.materiaId)
    requires EsProfesor(t.personas, c.profesorId)
    ensures Consistentes(t.(calificaciones := t.calificaciones + [c], sigCalificacion := t.sigCalificacion + 1))
  {
    var t2 := t.(calificaciones := t.calificaciones + [c], sigCalificacion := t.sigCalificacion + 1);
    assert forall x | x in t2.calificaciones :: x in t.calificaciones || x == c;
    assert forall i | 0 <= i < |t.calificaciones| :: t2.calificaciones[i] == t.calificaciones[i];
  }

  /** Rewriting the grade at row `i` with the same key and relations and valid fields. */
  lemma ReemplazarCalificacionConserva(t: Tablas, i: nat, c: Calificacion)
    requires Consistentes(t) && i < |t.calificaciones|
    requires c.id == t.calificaciones[i].id && CalificacionValida(c)
    requires c.estudianteId == t.calificaciones[i].estudianteId
    requires c.materiaId == t.calificaciones[i].materiaId
    requires c.profesorId == t.calificaciones[i].profesorId
    ensures Consistentes(t.(calificaciones := t.calificaciones[i := c]))
  {
    var t2 := t.(calificaciones := t.calificaciones[i := c]);
    forall x | x in t2.calificaciones
      ensures && CalificacionValida(x)
              && ExistePersona(t.personas, x.estudianteId)
              && ExisteMateria(t.materias, x.materiaId)
              && EsProfesor(t.personas, x.profesorId)
    {
      var k :| 0 <= k < |t2.calificaciones| && t2.calificaciones[k] == x;
      assert t.calificaciones[i] in t.calificaciones;
      if k != i { assert t.calificaciones[k] == x; }
    }
  }

  /** Deleting the grade at row `i`: the other rows keep their order. */
  lemma BorrarCalificacionConserva(t: Tablas, i: nat)
    requires Consistentes(t) && i < |t.calificaciones|
    ensures Consistentes(t.(calificaciones := t.calificaciones[..i] + t.calificaciones[i + 1..]))
  {
    var s := t.calificaciones;
    var s2 := s[..i] + s[i + 1..];
    forall a | 0 <= a < |s2|
      ensures s2[a] == s[if a < i then a else a + 1]
    {
    }
    forall x | x in s2
      ensures x in s
    {
      var k :| 0 <= k < |s2| && s2[k] == x;
      assert s[if k < i then k else k + 1] == x;
    }
  }

  /** Inserting a valid person under the next key, with an email and a cédula no stored
      person has. */
  lemma InsertarPersonaConserva(t: Tablas, e: Estudiante)
    requires Consistentes(t)
    requires e.id == t.sigPersona && EstudianteCamposValidos(e)
    requires !ER.ExistsByEmail(t.personas, e.email) && !ER.ExistsByCedula(t.personas, e.cedula)
    ensures Consistentes(t.(personas := t.personas + [e], sigPersona := t.sigPersona + 1))
  {
    var p2 := t.personas + [e];
    ER.AgregarConservaClaves(t.personas, e);
    PersonasAgregadas(t.personas, e);
    assert forall x | x in p2 :: x in t.personas || x == e;
  }

  /** Appending a person keeps every key that resolved to a person, or to a teacher,
      resolving. */
  lemma PersonasAgregadas(p: seq<Estudiante>, e: Estudiante)
    ensures forall id | ExistePersona(p, id) :: ExistePersona(p + [e], id)
    ensures forall id | EsProfesor(p, id) :: EsProfesor(p + [e], id)
  {
    assert forall x | x in p :: x in p + [e];
  }

  /** Rewriting the person at row `i` with the same key and role, valid fields and an
      email and a cédula no other row has. */
  lemma ReemplazarPersonaConserva(t: Tablas, i: nat, e: Estudiante)
    requires Consistentes(t) && i < |t.personas|
    requires e.id == t.personas[i].id && e.rol == t.personas[i].rol && EstudianteCamposValidos(e)
    requires forall j | 0 <= j < |t.personas| && j != i :: t.personas[j].email != e.email
    requires forall j | 0 <= j < |t.personas| && j != i :: t.personas[j].cedula != e.cedula
    ensures Consistentes(t.(personas := t.personas[i := e]))
  {
    var p := t.personas;
    var p2 := p[i := e];
    ER.ReemplazarConservaClaves(p, i, e);
    PersonasReemplazadas(p, i, e);
    forall x | x in p2
      ensures EstudianteCamposValidos(x)
    {
      var k :| 0 <= k < |p2| && p2[k] == x;
      if k != i { assert p[k] == x; }
    }
  }

  /** Rewriting a person with the same key and role keeps every key that resolved to a
      person, or to a teacher, resolving. */
  lemma PersonasReemplazadas(p: seq<Estudiante>, i: nat, e: Estudiante)
    requires i < |p| && e.id == p[i].id && e.rol == p[i].rol
    ensures forall id | ExistePersona(p, id) :: ExistePersona(p[i := e], id)
    ensures forall id | EsProfesor(p, id) :: EsProfesor(p[i := e], id)
  {
    var p2 := p[i := e];
    forall id | ExistePersona(p, id)
      ensures ExistePersona(p2, id)
    {
      var x :| x in p && x.id == id;
      var k :| 0 <= k < |p| && p[k] == x;
      assert p2[k].id == id;
    }
    forall id | EsProfesor(p, id)
      ensures EsProfesor(p2, id)
    {
      var x :| x in p && x.id == id && x.rol == PROFESOR;
      var k :| 0 <= k < |p| && p[k] == x;
      assert p2[k].id == id && p2[k].rol == PROFESOR;
    }
  }

  /** Inserting a valid course under the next key, with a code no stored course has and
      a teacher, if any, who is a stored PROFESOR. */
  lemma InsertarMateriaConserva(t: Tablas, m: Materia)
    requires Consistentes(t)
    requires m.id == t.sigMateria && MateriaValida(m) && !MR.ExistsByCodigo(t.materias, m.codigo)
    requires m.profesorId.Some? ==> EsProfesor(t.personas, m.profesorId.value)
    ensures Consistentes(t.(materias := t.materias + [m], sigMateria := t.sigMateria + 1))
  {
    var m2 := t.materias + [m];
    assert forall x | x in m2 :: x in t.materias || x == m;
    assert forall i | 0 <= i < |t.materias| :: m2[i] == t.materias[i];
    assert forall x | x in t.materias :: x in m2;
  }

  /** Rewriting the course at row `i` with the same key, valid fields, a code no other
      row has and a teacher, if any, who is a stored PROFESOR. */
  lemma ReemplazarMateriaConserva(t: Tablas, i: nat, m: Materia)
    requires Consistentes(t) && i < |t.materias|
    requires m.id == t.materias[i].id && MateriaValida(m)
    requires forall j | 0 <= j < |t.materias| && j != i :: t.materias[j].codigo != m.codigo
    requires m.profesorId.Some? ==> EsProfesor(t.personas, m.profesorId.value)
    ensures Consistentes(t.(materias := t.materias[i := m]))
  {
    var s := t.materias;
    var s2 := s[i := m];
    forall x | x in s2
      ensures MateriaValida(x) && (x.profesorId.Some? ==> EsProfesor(t.personas, x.profesorId.value))
    {
      var k :| 0 <= k < |s2| && s2[k] == x;
      if k != i { assert s[k] == x; }
    }
    forall id | ExisteMateria(s, id)
      ensures ExisteMateria(s2, id)
    {
      var x :| x in s && x.id == id;
      var k :| 0 <= k < |s| && s[k] == x;
      assert s2[k].id == id;
    }
  }

  /** The store: the three tables and their identity counters, written in place by the
      repositories' `save` and `delete`. */
  class BaseDeDatos {
    var personas: seq<Estudiante>
    var materias: seq<Materia>
    var calificaciones: seq<Calificacion>
    var sigPersona: int
    var sigMateria: int
    var sigCalificacion: int

    function Estado(): Tablas
      reads this
    {
      Tablas(personas, materias, calificaciones, sigPersona, sigMateria, sigCalificacion)
    }

    predicate Valid()
      reads this
    {
      Consistentes(Estado())
    }

    /** A store opened on tables that already satisfy the schema. */
    constructor (inicial: Tablas)
      requires Consistentes(inicial)
      ensures Estado() == inicial
      ensures Valid()
    {
      personas := inicial.personas;
      materias := inicial.materias;
      calificaciones := inicial.calificaciones;
      sigPersona := inicial.sigPersona;
      sigMateria := inicial.sigMateria;
      sigCalificacion := inicial.sigCalificacion;
    }

    /** `save` of a new person: the identity column assigns the next key. */
    method InsertarPersona(e: Estudiante) returns (guardado: Estudiante)
      modifies this`personas, this`sigPersona
      ensures guardado == e.(id := old(sigPersona))
      ensures personas == old(personas) + [guardado]
      ensures sigPersona == old(sigPersona) + 1
    {
      guardado := e.(id := sigPersona);
      personas := personas + [guardado];
      sigPersona := sigPersona + 1;
    }

    /** `save` of a person already stored at row `i`. */
    method ActualizarPersona(i: nat, e: Estudiante)
      requires i < |personas|
      modifies this`personas
      ensures personas == old(personas)[i := e]
    {
      personas := personas[i := e];
    }

    /** `save` of a new course. */
    method InsertarMateria(m: Materia) returns (guardada: Materia)
      modifies this`materias, this`sigMateria
      ensures guardada == m.(id := old(sigMateria))
      ensures materias == old(materias) + [guardada]
      ensures sigMateria == old(sigMateria) + 1
    {
      guardada := m.(id := sigMateria);
      materias := materias + [guardada];
      sigMateria := sigMateria + 1;
    }

    /** `save` of a course already stored at row `i`. */
    method ActualizarMateria(i: nat, m: Materia)
      requires i < |materias|
      modifies this`materias
      ensures materias == old(materias)[i := m]
    {
      materias := materias[i := m];
    }

    /** `save` of a new grade. */
    method InsertarCalificacion(c: Calificacion) returns (guardada: Calificacion)
      modifies this`calificaciones, this`sigCalificacion
      ensures guardada == c.(id := old(sigCalificacion))
      ensures calificaciones == old(calificaciones) + [guardada]
      ensures sigCalificacion == old(sigCalificacion) + 1
    {
      guardada := c.(id := sigCalificacion);
      calificaciones := calificaciones + [guardada];
      sigCalificacion := sigCalificacion + 1;
    }

    /** `save` of a grade already stored at row `i`. */
    method ActualizarCalificacion(i: nat, c: Calificacion)
      requires i < |calificaciones|
      modifies this`calificaciones
      ensures calificaciones == old(calificaciones)[i := c]
    {
      calificaciones := calificaciones[i := c];
    }

    /** `delete` of the grade at row `i`. */
    method BorrarCalificacion(i: nat)
      requires i < |calificaciones|
      modifies this`calificaciones
      ensures calificaciones == old(calificaciones)[..i] + old(calificaciones)[i + 1..]
    {
      calificaciones := calificaciones[..i] + calificaciones[i + 1..];
    }
  }
}
