/** Flattening a sequence of chunks, the shape of a vector filled by nested push_back loops. */
module Seqs {
  /** The chunks of `s` one after another. */
  function Concat<T>(s: seq<seq<T>>): (r: seq<T>)
    decreases |s|
  {
    if |s| == 0 then [] else Concat(s[..|s| - 1]) + s[|s| - 1]
  }

  /** Appending a chunk appends its elements. */
  lemma ConcatSnoc<T>(s: seq<seq<T>>, t: seq<T>)
    ensures Concat(s + [t]) == Concat(s) + t
  {
    assert (s + [t])[..|s|] == s;
  }

  /** Chunks that all have length `len` flatten to `len * |s|` elements. */
  lemma {:induction false} ConcatUniformLength<T>(s: seq<seq<T>>, len: nat)
    requires forall j | 0 <= j < |s| :: |s[j]| == len
    ensures |Concat(s)| == len * |s|
    decreases |s|
  {
    if |s| > 0 {
      ConcatUniformLength(s[..|s| - 1], len);
      assert len * (|s| - 1) + len == len * |s|;
    }
  }

  /** In chunks of equal length `len`, element `c` of chunk `i` lands at `len * i + c`. */
  lemma {:induction false} ConcatUniformAt<T>(s: seq<seq<T>>, len: nat, i: nat, c: nat)
    requires forall j | 0 <= j < |s| :: |s[j]| == len
    requires i < |s| && c < len
    ensures len * i + c < |Concat(s)|
    ensures Concat(s)[len * i + c] == s[i][c]
    decreases |s|
  {
    var prefix := s[..|s| - 1];
    ConcatUniformLength(prefix, len);
    ConcatUniformLength(s, len);
    assert len * i + c < len * (i + 1) <= len * |s| by {
      MulMonotone(len, i + 1, |s|);
    }
    if i < |s| - 1 {
      ConcatUniformAt(prefix, len, i, c);
    } else {
      assert len * i == |Concat(prefix)|;
    }
  }

  /** Flattening one more chunk of `s` appends that chunk. */
  lemma ConcatTakeOneMore<T>(s: seq<seq<T>>, i: nat)
    requires i < |s|
    ensures Concat(s[..i + 1]) == Concat(s[..i]) + s[i]
  {
    assert s[..i + 1] == s[..i] + [s[i]];
    ConcatSnoc(s[..i], s[i]);
  }

  /** Taking one more element of `s` appends that element. */
  lemma TakeOneMore<T>(s: seq<T>, i: nat)
    requires i < |s|
    ensures s[..i + 1] == s[..i] + [s[i]]
  {
  }

  lemma MulMonotone(k: nat, a: nat, b: nat)
    requires a <= b
    ensures k * a <= k * b
  {
    assert k * b - k * a == k * (b - a);
  }
}
