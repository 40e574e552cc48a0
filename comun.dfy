/** Values shared by every layer: optional values, the exceptions the core raises,
    results, Java's string conversions, the text tests that bean validation and the
    LIKE searches perform, and filters over tables. */
module Comun {

  datatype Option<+T> = None | Some(value: T)

  /** The exception classes of the core, each turned into an HTTP status by the global
      handler: ResourceNotFound 404, DuplicateResource 409, MethodArgumentNotValid 400
      (a request body failing `@Valid`), AccessDenied 403 (a failed `@PreAuthorize`),
      and IllegalArgument and ConstraintViolation (bean validation when an entity is
      saved) both fall through to the generic 500 handler. */
  datatype Error =
    | ResourceNotFound
    | DuplicateResource
    | MethodArgumentNotValid
    | IllegalArgument
    | ConstraintViolation
    | AccessDenied

  datatype Result<+T> = Ok(value: T) | Err(error: Error)

  /** A check that either lets the request through or fails with an error. */
  datatype Outcome = Pass | Fail(error: Error)

  /** How Java renders a possibly-null String inside a concatenation. */
  function Str(s: Option<string>): (r: string)
    ensures s.Some? ==> r == s.value
    ensures s.None? ==> r == "null"
  {
    match s
    case None => "null"
    case Some(v) => v
  }

  /** `s.trim().isEmpty()`: trim drops every character up to U+0020. */
  predicate Blank(s: string) {
    forall i | 0 <= i < |s| :: s[i] <= ' '
  }

  /** @NotBlank: present and not blank. */
  predicate NotBlank(s: Option<string>) {
    s.Some? && !Blank(s.value)
  }

  /** @Size(max = n) on an optional field: null is accepted. */
  predicate AtMost(s: Option<string>, n: nat) {
    s.None? || |s.value| <= n
  }

  /** `a.equals(b)` with a non-null receiver: a null `a` is never equal. */
  predicate Igual<T(==)>(a: Option<T>, b: Option<T>) {
    a.Some? && a == b
  }

  /** Lower-casing of one character (ASCII letters). */
  function LowerChar(c: char): char {
    if 'A' <= c <= 'Z' then (c as int + 32) as char else c
  }

  /** SQL LOWER / String.toLowerCase restricted to ASCII letters. */
  function Lower(s: string): (r: string)
    ensures |r| == |s|
    ensures forall i | 0 <= i < |s| :: r[i] == LowerChar(s[i])
  {
    seq(|s|, i requires 0 <= i < |s| => LowerChar(s[i]))
  }

  lemma LowerConcat(a: string, b: string)
    ensures Lower(a + b) == Lower(a) + Lower(b)
  {
    assert forall i | 0 <= i < |a + b| :: Lower(a + b)[i] == (Lower(a) + Lower(b))[i];
  }

  /** `sub` occurs in `s` starting at position `i`. */
  predicate OccursAt(s: string, sub: string, i: int) {
    0 <= i <= |s| - |sub| && s[i..i + |sub|] == sub
  }

  /** `s LIKE '%sub%'` with the pattern taken literally. */
  predicate Contains(s: string, sub: string) {
    exists i | 0 <= i <= |s| :: OccursAt(s, sub, i)
  }

  /** `LOWER(s) LIKE LOWER(CONCAT('%', sub, '%'))`. */
  predicate ContainsIgnoreCase(s: string, sub: string) {
    Contains(Lower(s), Lower(sub))
  }

  /** A text found in a part of a concatenation is found in the whole. */
  lemma ContainsInConcat(a: string, b: string, sub: string)
    requires Contains(a, sub) || Contains(b, sub)
    ensures Contains(a + b, sub)
  {
    if Contains(a, sub) {
      var i :| 0 <= i <= |a| && OccursAt(a, sub, i);
      assert (a + b)[i..i + |sub|] == sub;
      assert OccursAt(a + b, sub, i);
    } else {
      var i :| 0 <= i <= |b| && OccursAt(b, sub, i);
      assert (a + b)[|a| + i..|a| + i + |sub|] == sub;
      assert OccursAt(a + b, sub, |a| + i);
    }
  }

  /** The same for the case-insensitive search. */
  lemma ContainsIgnoreCaseInConcat(a: string, b: string, sub: string)
    requires ContainsIgnoreCase(a, sub) || ContainsIgnoreCase(b, sub)
    ensures ContainsIgnoreCase(a + b, sub)
  {
    LowerConcat(a, b);
    ContainsInConcat(Lower(a), Lower(b), Lower(sub));
  }

  /** A stream filter: the elements of `s` satisfying `p`, in their order. */
  function Filter<T>(s: seq<T>, p: T -> bool): (r: seq<T>)
    ensures |r| <= |s|
    ensures forall x | x in r :: x in s && p(x)
    ensures forall x | x in s && p(x) :: x in r
    ensures multiset(r) <= multiset(s)
  {
    if s == [] then []
    else
      assert s == [s[0]] + s[1..];
      (if p(s[0]) then [s[0]] else []) + Filter(s[1..], p)
  }

  lemma {:induction false} FilterConcat<T>(a: seq<T>, b: seq<T>, p: T -> bool)
    ensures Filter(a + b, p) == Filter(a, p) + Filter(b, p)
  {
    if a == [] {
      assert a + b == b;
    } else {
      assert (a + b)[0] == a[0];
      assert (a + b)[1..] == a[1..] + b;
      FilterConcat(a[1..], b, p);
    }
  }

  /** A filter and its complement split a sequence: their sizes add up to its size. */
  lemma {:induction false} FilterSplit<T>(s: seq<T>, p: T -> bool, q: T -> bool)
    requires forall x :: q(x) == !p(x)
    ensures |Filter(s, p)| + |Filter(s, q)| == |s|
  {
    if s != [] {
      FilterSplit(s[1..], p, q);
    }
  }

  /** Filtering twice is filtering once by the conjunction. */
  lemma {:induction false} FilterFilter<T>(s: seq<T>, p: T -> bool, q: T -> bool, pq: T -> bool)
    requires forall x :: pq(x) == (p(x) && q(x))
    ensures Filter(Filter(s, p), q) == Filter(s, pq)
  {
    if s != [] {
      FilterFilter(s[1..], p, q, pq);
      if p(s[0]) {
        assert Filter(s, p) == [s[0]] + Filter(s[1..], p);
        assert Filter(s, p)[0] == s[0];
        assert Filter(s, p)[1..] == Filter(s[1..], p);
      } else {
        assert Filter(s, p) == Filter(s[1..], p);
      }
    }
  }

  /** A filter leaves out the elements that fail the predicate and keeps the rest. */
  lemma {:induction false} FilterAll<T>(s: seq<T>, p: T -> bool)
    requires forall i | 0 <= i < |s| :: p(s[i])
    ensures Filter(s, p) == s
  {
    if s != [] {
      FilterAll(s[1..], p);
    }
  }

  /** A filter keeps a sequence free of repeated elements. */
  lemma {:induction false} FilterSinRepetidos<T>(s: seq<T>, p: T -> bool)
    requires forall i, j | 0 <= i < j < |s| :: s[i] != s[j]
    ensures forall i, j | 0 <= i < j < |Filter(s, p)| :: Filter(s, p)[i] != Filter(s, p)[j]
  {
    if s != [] {
      FilterSinRepetidos(s[1..], p);
      var resto := Filter(s[1..], p);
      assert s[0] !in s[1..];
      var r := Filter(s, p);
      if p(s[0]) {
        assert r == [s[0]] + resto;
        forall i, j | 0 <= i < j < |r|
          ensures r[i] != r[j]
        {
          assert r[j] == resto[j - 1] && r[j] in resto;
          if i > 0 {
            assert r[i] == resto[i - 1];
          }
        }
      } else {
        assert r == resto;
      }
    }
  }

  /** `Stream.distinct()`: the first occurrence of each element, in order. */
  function Distinct<T(==)>(s: seq<T>): (r: seq<T>)
    ensures forall x | x in r :: x in s
    ensures forall x | x in s :: x in r
    ensures forall i, j | 0 <= i < j < |r| :: r[i] != r[j]
  {
    if s == [] then []
    else
      var r := Distinct(s[..|s| - 1]);
      assert s == s[..|s| - 1] + [s[|s| - 1]];
      if s[|s| - 1] in r then r else r + [s[|s| - 1]]
  }

  /** The position of the first element satisfying `p`, if any. */
  function FirstIndex<T>(s: seq<T>, p: T -> bool): (r: Option<nat>)
    ensures r.Some? ==> r.value < |s| && p(s[r.value])
    ensures r.Some? ==> forall j | 0 <= j < r.value :: !p(s[j])
    ensures r.None? ==> forall j | 0 <= j < |s| :: !p(s[j])
  {
    if s == [] then None
    else if p(s[0]) then Some(0)
    else match FirstIndex(s[1..], p)
      case None => None
      case Some(k) => Some(k + 1)
  }

  /** The first element satisfying `p`, if any: a single-row repository lookup. */
  function First<T>(s: seq<T>, p: T -> bool): (r: Option<T>)
    ensures r.Some? ==> r.value in s && p(r.value)
    ensures r.None? <==> forall j | 0 <= j < |s| :: !p(s[j])
  {
    match FirstIndex(s, p)
    case None => None
    case Some(k) => Some(s[k])
  }
}
