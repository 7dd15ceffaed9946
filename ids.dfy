/**
 * Identifier minting. The source's `generateId(prefix)` produces
 * `prefix + "-" + <timestamp and random suffix>`; here the suffix is the
 * decimal rendering of a stamp drawn from a monotonically increasing clock,
 * which makes every minted identifier unique per prefix.
 */
module Ids {

  function DigitChar(d: nat): (c: char)
    requires d < 10
    ensures '0' <= c <= '9'
  {
    (('0' as int) + d) as char
  }

  /** Decimal rendering of `n`, most significant digit first. */
  function Digits(n: nat): (r: string)
    ensures |r| >= 1
    ensures forall i :: 0 <= i < |r| ==> '0' <= r[i] <= '9'
    ensures n >= 10 ==> |r| >= 2
  {
    if n < 10 then [DigitChar(n)] else Digits(n / 10) + [DigitChar(n % 10)]
  }

  lemma {:induction false} DigitsInjective(a: nat, b: nat)
    requires Digits(a) == Digits(b)
    ensures a == b
  {
    var da, db := Digits(a), Digits(b);
    if a < 10 && b < 10 {
      assert da[0] == DigitChar(a) && db[0] == DigitChar(b);
    } else if a < 10 || b < 10 {
      assert false;
    } else {
      assert da[|da| - 1] == DigitChar(a % 10);
      assert db[|db| - 1] == DigitChar(b % 10);
      assert a % 10 == b % 10;
      assert da[..|da| - 1] == Digits(a / 10);
      assert db[..|db| - 1] == Digits(b / 10);
      DigitsInjective(a / 10, b / 10);
    }
  }

  /** The identifier `generateId(prefix)` yields when the clock reads `stamp`. */
  function Mint(prefix: string, stamp: nat): (r: string)
    ensures |r| > |prefix| + 1
    ensures r[..|prefix|] == prefix && r[|prefix|] == '-'
    ensures r != ""
  {
    prefix + "-" + Digits(stamp)
  }

  /** Two identifiers minted under the same prefix are equal only if their stamps are. */
  lemma MintInjective(prefix: string, a: nat, b: nat)
    requires Mint(prefix, a) == Mint(prefix, b)
    ensures a == b
  {
    var n := |prefix| + 1;
    assert Mint(prefix, a)[n..] == Digits(a);
    assert Mint(prefix, b)[n..] == Digits(b);
    DigitsInjective(a, b);
  }

  /** `s.split('-')[0]`: the characters before the first dash, or all of `s`. */
  function FirstSegment(s: string): (r: string)
    ensures |r| <= |s| && r == s[..|r|]
    ensures '-' !in r
    ensures |r| < |s| ==> s[|r|] == '-'
  {
    if s == [] || s[0] == '-' then [] else [s[0]] + FirstSegment(s[1..])
  }

  /** Re-splitting a minted identifier recovers a dash-free prefix. */
  lemma {:induction false} FirstSegmentOfMint(prefix: string, stamp: nat)
    requires '-' !in prefix
    ensures FirstSegment(Mint(prefix, stamp)) == prefix
  {
    FirstSegmentOfPrefixed(prefix, Digits(stamp));
  }

  lemma {:induction false} FirstSegmentOfPrefixed(prefix: string, rest: string)
    requires '-' !in prefix
    ensures FirstSegment(prefix + "-" + rest) == prefix
  {
    if prefix != [] {
      assert (prefix + "-" + rest)[1..] == prefix[1..] + "-" + rest;
      FirstSegmentOfPrefixed(prefix[1..], rest);
    }
  }

  /** The id generator: a clock whose every reading is used once. */
  class IdClock {
    var stamp: nat

    constructor (start: nat)
      ensures stamp == start
    {
      stamp := start;
    }

    method GenerateId(prefix: string) returns (id: string)
      modifies this
      ensures id == Mint(prefix, old(stamp))
      ensures stamp == old(stamp) + 1
    {
      id := Mint(prefix, stamp);
      stamp := stamp + 1;
    }
  }
}
