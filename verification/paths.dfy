/** Unix path joining as `std::path::Path::join` does it, and the decimal
    rendering of indices (`usize::to_string`). */
module Paths {

  /** A path is absolute when it starts at the root. */
  predicate IsAbsolute(p: string) {
    |p| > 0 && p[0] == '/'
  }

  /** `Path::new(base).join(part)`: an absolute `part` replaces `base`; a
      separator is inserted only when `base` is non-empty and does not
      already end with one. */
  function Join(base: string, part: string): (r: string)
    ensures IsAbsolute(part) ==> r == part
    ensures !IsAbsolute(part) && base != [] && base[|base| - 1] != '/' ==> r == base + "/" + part
    ensures !IsAbsolute(part) && (base == [] || base[|base| - 1] == '/') ==> r == base + part
  {
    if IsAbsolute(part) then part
    else if base != [] && base[|base| - 1] != '/' then base + "/" + part
    else base + part
  }

  /** `rand::distributions::Alphanumeric`: ASCII letters and digits. */
  predicate IsAlphanumeric(c: char) {
    '0' <= c <= '9' || 'a' <= c <= 'z' || 'A' <= c <= 'Z'
  }

  /** What `tmp_filename(len)` returns: `len` alphanumeric characters. */
  predicate IsTmpName(s: string, len: nat) {
    |s| == len && forall i :: 0 <= i < |s| ==> IsAlphanumeric(s[i])
  }

  predicate IsDigit(c: char) {
    '0' <= c <= '9'
  }

  function Digit(d: nat): (c: char)
    requires d < 10
    ensures IsDigit(c)
  {
    ['0', '1', '2', '3', '4', '5', '6', '7', '8', '9'][d]
  }

  /** The decimal representation of `n`, without leading zeros. */
  function NatToString(n: nat): (s: string)
    ensures s != []
    ensures forall i :: 0 <= i < |s| ==> IsDigit(s[i])
    ensures (|s| == 1) == (n < 10)
    ensures s[|s| - 1] == Digit(n % 10)
  {
    if n < 10 then [Digit(n)] else NatToString(n / 10) + [Digit(n % 10)]
  }

  lemma DigitInjective(a: nat, b: nat)
    requires a < 10 && b < 10 && Digit(a) == Digit(b)
    ensures a == b
  {
  }

  /** Distinct indices render as distinct strings, so distinct steps get
      distinct log directories. */
  lemma {:induction false} NatToStringInjective(n: nat, m: nat)
    requires NatToString(n) == NatToString(m)
    ensures n == m
  {
    var s, t := NatToString(n), NatToString(m);
    DigitInjective(n % 10, m % 10);
    if n >= 10 && m >= 10 {
      assert s[..|s| - 1] == NatToString(n / 10);
      assert t[..|t| - 1] == NatToString(m / 10);
      NatToStringInjective(n / 10, m / 10);
    }
  }

  /** Strings that are equal after the same prefix and suffix are
      removed were equal in the middle. */
  lemma MiddleEqual(p: string, a: string, b: string, q: string)
    requires p + a + q == p + b + q
    ensures a == b
  {
    assert |a| == |b|;
    assert a == (p + a + q)[|p|..|p| + |a|];
    assert b == (p + b + q)[|p|..|p| + |b|];
  }
}
