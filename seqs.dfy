/** Facts about appending sequences and their prefixes, stated over plain sequences so that callers can use them without unfolding what the sequences are. */
module Seqs {
  lemma AppendAssoc<T>(before: seq<T>, head: seq<T>, after: seq<T>, tail: seq<T>)
    requires after == before + head
    ensures after + tail == before + (head + tail)
  {
  }

  lemma AppendEmpty<T>(empty: seq<T>, all: seq<T>, out: seq<T>)
    requires empty == [] && out == empty + all
    ensures out == all
  {
    assert empty + all == all;
  }

  lemma PrefixTrans<T>(a: seq<T>, b: seq<T>, c: seq<T>)
    requires |a| <= |b| <= |c| && b[..|a|] == a && c[..|b|] == b
    ensures c[..|a|] == a
  {
    assert c[..|a|] == c[..|b|][..|a|];
  }

  /** A non-empty sequence is its head followed by its tail, also inside a concatenation. */
  lemma ConsSplit<T>(a: seq<T>, b: seq<T>)
    requires a != []
    ensures (a + b)[0] == a[0] && (a + b)[1..] == a[1..] + b
  {
  }

  /** Position `i > 0` of a sequence is position `i - 1` of its tail, and its first `i` elements are the head and the tail's first `i - 1`. */
  lemma TailIndex<T>(s: seq<T>, i: nat)
    requires 0 < i < |s|
    ensures s[i] == s[1..][i - 1] && s[..i] == [s[0]] + s[1..][..i - 1]
  {
  }
}
