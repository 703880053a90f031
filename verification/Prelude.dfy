/** Types that several parts of the model share, and the machine integers of Go. */
module Prelude {

  datatype Option<+T> = None | Some(value: T)

  // What a call can report instead of a result. ENotFound is the only error
  // code the callers distinguish.
  datatype Error = ENotFound | EOther

  // pkg/errors: wrapping a nil error yields nil, wrapping anything else keeps it an error.
  function Wrap<E>(err: Option<E>): Option<E> {
    err
  }

  const TWO_31: int := 0x8000_0000
  const TWO_63: int := 0x8000_0000_0000_0000
  const TWO_64: int := 0x1_0000_0000_0000_0000

  type int32 = x: int | -TWO_31 <= x < TWO_31
  type int64 = x: int | -TWO_63 <= x < TWO_63
  type uint64 = x: int | 0 <= x < TWO_64

  // Two's complement: the int64 that is congruent to x modulo 2^64.
  function WrapInt64(x: int): int64 {
    (x + TWO_63) % TWO_64 - TWO_63
  }

  // Go's conversion uint64(x).
  function ToUint64(x: int64): uint64 {
    if x < 0 then x + TWO_64 else x
  }

  // Go's int64 multiplication.
  function MulInt64(a: int64, b: int64): int64 {
    WrapInt64(a * b)
  }

  lemma WrapInt64Exact(x: int)
    requires -TWO_63 <= x < TWO_63
    ensures WrapInt64(x) == x
  {
  }

  // Machines and Nodes name their VM by its id behind this prefix.
  const PROVIDER_ID_PREFIX := "ovirt://"

  // Go's strings.Contains.
  predicate Contains(s: string, sub: string) {
    sub <= s || (s != [] && Contains(s[1..], sub))
  }

  lemma {:induction false} ContainsExactly(s: string, sub: string)
    ensures Contains(s, sub) <==> exists i :: 0 <= i <= |s| && sub <= s[i..]
    decreases |s|
  {
    assert s[0..] == s;
    if s != [] {
      var rest := s[1..];
      ContainsExactly(rest, sub);
      assert forall i :: 0 <= i <= |rest| ==> rest[i..] == s[i + 1..];
      if i :| 0 <= i <= |s| && sub <= s[i..] {
        assert i > 0 ==> sub <= rest[i - 1..];
      }
      if i :| 0 <= i <= |rest| && sub <= rest[i..] {
        assert sub <= s[i + 1..];
      }
    }
  }
}
