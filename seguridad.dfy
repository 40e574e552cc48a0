/** The authenticated principal that Spring Security builds from a stored person, and
    the role checks that `@PreAuthorize("hasRole(...)")` performs on its authorities. */
module Seguridad {
  import opened Comun
  import opened Entidades

  /** `UserDetailsImpl`. */
  datatype UserDetails = UserDetails(
    id: Option<int>,
    email: Option<string>,
    password: Option<string>,
    rol: Rol,
    activo: bool,
    authorities: seq<string>)
  {
    /** `getUsername()`: the login name is the email. */
    function Username(): Option<string> {
      email
    }

    function IsAccountNonExpired(): bool {
      true
    }

    function IsAccountNonLocked(): bool {
      activo
    }

    function IsCredentialsNonExpired(): bool {
      true
    }

    function IsEnabled(): bool {
      activo
    }
  }

  /** The authority granted for a role. */
  function Autoridad(r: Rol): string {
    "ROLE_" + r.Nombre()
  }

  /** `UserDetailsImpl.build`: copies the person's identity and grants exactly one
      authority, "ROLE_" followed by the role's name. */
  function Build(e: Estudiante): (u: UserDetails)
    ensures u.id == Some(e.id) && u.email == e.email && u.password == e.password
    ensures u.rol == e.rol && u.activo == e.activo
    ensures u.authorities == [Autoridad(e.rol)]
    ensures u.Username() == e.email
    ensures u.IsEnabled() == e.activo && u.IsAccountNonLocked() == e.activo
    ensures u.IsAccountNonExpired() && u.IsCredentialsNonExpired()
  {
    UserDetails(Some(e.id), e.email, e.password, e.rol, e.activo, [Autoridad(e.rol)])
  }

  /** `hasRole('X')`: the authority "ROLE_X" is among the principal's authorities. */
  predicate HasRole(u: UserDetails, r: Rol) {
    Autoridad(r) in u.authorities
  }

  /** `hasRole('X') or hasRole('Y')`. */
  predicate HasAnyRole(u: UserDetails, rs: set<Rol>) {
    exists r | r in rs :: HasRole(u, r)
  }

  /** Distinct roles grant distinct authorities. */
  lemma {:induction false} AutoridadInyectiva(a: Rol, b: Rol)
    requires Autoridad(a) == Autoridad(b)
    ensures a == b
  {
    assert Autoridad(a)[5..] == a.Nombre();
    assert Autoridad(b)[5..] == b.Nombre();
    RolNombreIda(a);
    RolNombreIda(b);
  }

  /** A principal built from a person has exactly the person's role: the role gate
      and the role field a controller reads never disagree. */
  lemma BuildHasRole(e: Estudiante, r: Rol)
    ensures HasRole(Build(e), r) <==> e.rol == r
  {
    if HasRole(Build(e), r) {
      AutoridadInyectiva(r, e.rol);
    }
  }

  /** A principal built from a person passes `hasRole('X') or hasRole('Y') ...`
      exactly when the person's role is one of those named. */
  lemma BuildHasAnyRole(e: Estudiante, rs: set<Rol>)
    ensures HasAnyRole(Build(e), rs) <==> e.rol in rs
  {
    BuildHasRole(e, e.rol);
    forall r | r in rs && HasRole(Build(e), r)
      ensures r == e.rol
    {
      BuildHasRole(e, r);
    }
  }

  /** The guard a `puede*` answer puts in front of a handler: its error as is, and
      NotFound for a refusal. */
  function Permiso(p: Result<bool>): Outcome {
    match p
    case Err(x) => Fail(x)
    case Ok(b) => if b then Pass else Fail(ResourceNotFound)
  }

  /** The guard of the own-id guards: a student may only ask about their own id. */
  predicate AjenoParaEstudiante(u: UserDetails, estudianteId: int) {
    u.rol == ESTUDIANTE && u.id != Some(estudianteId)
  }

  /** `equals`: two principals are equal when their ids are. */
  predicate Equals(a: UserDetails, b: UserDetails) {
    a.id == b.id
  }

  /** A 64-bit Java long. */
  predicate EsLong(n: int) {
    -0x8000_0000_0000_0000 <= n < 0x8000_0000_0000_0000
  }

  /** Bitwise exclusive or of two naturals, bit by bit from the lowest. */
  function Xor(a: nat, b: nat): nat
    decreases a + b
  {
    if a == 0 && b == 0 then 0
    else Xor(a / 2, b / 2) * 2 + (if a % 2 != b % 2 then 1 else 0)
  }

  lemma {:induction false} XorCero(a: nat)
    ensures Xor(a, 0) == a
  {
    if a != 0 {
      XorCero(a / 2);
    }
  }

  /** The xor of two numbers below 2^k is below 2^k. */
  lemma {:induction false} XorAcotado(a: nat, b: nat, k: nat)
    requires a < Pow2(k) && b < Pow2(k)
    ensures Xor(a, b) < Pow2(k)
  {
    if !(a == 0 && b == 0) {
      assert k > 0;
      XorAcotado(a / 2, b / 2, k - 1);
    }
  }

  function Pow2(k: nat): (r: nat)
    ensures r > 0
  {
    if k == 0 then 1 else 2 * Pow2(k - 1)
  }

  /** Two's-complement reading of 32 bits as a Java int. */
  function ComoInt(b: nat): (r: int)
    requires b < 0x1_0000_0000
    ensures -0x8000_0000 <= r < 0x8000_0000
  {
    if b < 0x8000_0000 then b else b - 0x1_0000_0000
  }

  /** Wrap-around of Java int arithmetic. */
  function Envolver32(n: int): (r: int)
    ensures -0x8000_0000 <= r < 0x8000_0000
  {
    var m := n % 0x1_0000_0000;
    if m < 0x8000_0000 then m else m - 0x1_0000_0000
  }

  lemma Pow2_32()
    ensures Pow2(32) == 0x1_0000_0000
  {
    assert Pow2(8) == 256;
    assert Pow2(16) == 256 * 256 by {
      assert Pow2(16) == Pow2(8) * Pow2(8) by { Pow2Suma(8, 8); }
    }
    Pow2Suma(16, 16);
  }

  lemma {:induction false} Pow2Suma(a: nat, b: nat)
    ensures Pow2(a + b) == Pow2(a) * Pow2(b)
  {
    if a > 0 {
      Pow2Suma(a - 1, b);
    }
  }

  /** `Long.hashCode`: the low 32 bits of `value ^ (value >>> 32)`, read as an int;
      the value's 64 bits are split into the low and the high half. */
  function LongHashCode(n: int): int
    requires EsLong(n)
  {
    var u := if n >= 0 then n else n + 0x1_0000_0000_0000_0000;
    var bajo := u % 0x1_0000_0000;
    var alto := u / 0x1_0000_0000;
    Pow2_32();
    XorAcotado(bajo, alto, 32);
    ComoInt(Xor(bajo, alto))
  }

  /** `hashCode()` = `Objects.hash(id)` = 31 + the id's hash (0 for null). */
  function HashCode(u: UserDetails): int
    requires u.id.Some? ==> EsLong(u.id.value)
  {
    Envolver32(31 + (if u.id.Some? then LongHashCode(u.id.value) else 0))
  }

  /** equals and hashCode agree: equal principals hash alike. */
  lemma HashCodeCoherente(a: UserDetails, b: UserDetails)
    requires a.id.Some? ==> EsLong(a.id.value)
    requires Equals(a, b)
    ensures HashCode(a) == HashCode(b)
  {
  }

  /** For a small non-negative id the hash is just 31 + id. */
  lemma HashCodeIdPequeno(u: UserDetails)
    requires u.id.Some? && 0 <= u.id.value < 0x8000_0000 - 31
    ensures HashCode(u) == 31 + u.id.value
  {
    XorCero(u.id.value);
  }
}
