/** Sequence helpers shared by the decoder, the account views and the risk
    reductions: counting set bits, first-match search, the sparse view of a
    dense sequence, and sums over rows. */
module Seqs {
  import opened Wrappers

  /** Number of `true` entries. */
  function CountTrue(bits: seq<bool>): (n: nat)
    ensures n <= |bits|
  {
    if bits == [] then 0
    else CountTrue(bits[..|bits| - 1]) + (if bits[|bits| - 1] then 1 else 0)
  }

  lemma CountTrueAppend(bits: seq<bool>, b: bool)
    ensures CountTrue(bits + [b]) == CountTrue(bits) + (if b then 1 else 0)
  {
    assert (bits + [b])[..|bits|] == bits;
  }

  /** Positions before a set bit count strictly fewer set bits than the
      position after it. */
  lemma {:induction false} CountTruePrefixMonotone(bits: seq<bool>, i: nat, j: nat)
    requires i < j <= |bits| && bits[i]
    ensures CountTrue(bits[..i]) < CountTrue(bits[..j])
  {
    if j == i + 1 {
      assert bits[..j] == bits[..i] + [bits[i]];
      CountTrueAppend(bits[..i], bits[i]);
    } else {
      CountTruePrefixMonotone(bits, i, j - 1);
      assert bits[..j] == bits[..j - 1] + [bits[j - 1]];
      CountTrueAppend(bits[..j - 1], bits[j - 1]);
    }
  }

  /** A prefix has no more set bits than the whole. */
  lemma {:induction false} CountTruePrefixLe(bits: seq<bool>, index: nat)
    requires index <= |bits|
    ensures CountTrue(bits[..index]) <= CountTrue(bits)
  {
    if index < |bits| {
      var n := |bits| - 1;
      assert bits == bits[..n] + [bits[n]];
      CountTrueAppend(bits[..n], bits[n]);
      assert bits[..n][..index] == bits[..index];
      CountTruePrefixLe(bits[..n], index);
    } else {
      assert bits[..index] == bits;
    }
  }

  /** Index of the first element satisfying `p`, if any. */
  function FirstIndex<T>(s: seq<T>, p: T -> bool): (r: Option<nat>)
    ensures r.None? <==> forall k :: 0 <= k < |s| ==> !p(s[k])
    ensures r.Some? ==> r.value < |s| && p(s[r.value])
    ensures r.Some? ==> forall k :: 0 <= k < r.value ==> !p(s[k])
  {
    if s == [] then None
    else if p(s[0]) then Some(0)
    else match FirstIndex(s[1..], p)
      case None => None
      case Some(k) => Some(k + 1)
  }

  /** The sparse view of `dense` under the bitmap `bits`: `None` at every
      clear bit, and the next dense element at every set bit. */
  function SparseView<T>(bits: seq<bool>, dense: seq<T>): (r: seq<Option<T>>)
    requires CountTrue(bits) == |dense|
    ensures |r| == |bits|
  {
    if bits == [] then []
    else if bits[|bits| - 1] then
      SparseView(bits[..|bits| - 1], dense[..|dense| - 1]) + [Some(dense[|dense| - 1])]
    else
      SparseView(bits[..|bits| - 1], dense) + [None]
  }

  /** The sparse view is `None` exactly at the clear bits, and its entry at a
      set bit `i` is the dense element whose position is the number of set
      bits before `i`. */
  lemma {:induction false} SparseViewAt<T>(bits: seq<bool>, dense: seq<T>, i: nat)
    requires CountTrue(bits) == |dense| && i < |bits|
    ensures CountTrue(bits[..i]) <= |dense|
    ensures SparseView(bits, dense)[i].None? <==> !bits[i]
    ensures bits[i] ==> CountTrue(bits[..i]) < |dense| &&
                        SparseView(bits, dense)[i] == Some(dense[CountTrue(bits[..i])])
  {
    var n := |bits| - 1;
    var front := bits[..n];
    if i == n {
      assert bits[..i] == front;
    } else {
      assert front[..i] == bits[..i];
      if bits[n] {
        SparseViewAt(front, dense[..|dense| - 1], i);
      } else {
        SparseViewAt(front, dense, i);
      }
    }
  }

  /** Appending one flag, and a dense element when it is set, appends that
      entry to the sparse view. */
  lemma SparseViewAppend<T>(bits: seq<bool>, dense: seq<T>, x: Option<T>)
    requires CountTrue(bits) == |dense|
    ensures CountTrue(bits + [x.Some?]) == |dense + (if x.Some? then [x.value] else [])|
    ensures SparseView(bits + [x.Some?], dense + (if x.Some? then [x.value] else [])) == SparseView(bits, dense) + [x]
  {
    CountTrueAppend(bits, x.Some?);
    var bits' := bits + [x.Some?];
    assert bits'[..|bits|] == bits;
    match x
    case None =>
      assert dense + [] == dense;
    case Some(v) =>
      var dense' := dense + [v];
      assert dense'[..|dense'| - 1] == dense;
      assert SparseView(bits', dense') == SparseView(bits, dense) + [Some(dense'[|dense'| - 1])];
  }

  /** `SparseViewAppend` read at one index. */
  lemma SparseViewAppendAt<T>(bits: seq<bool>, dense: seq<T>, x: Option<T>, i: nat)
    requires CountTrue(bits) == |dense| && i <= |bits|
    ensures CountTrue(bits + [x.Some?]) == |dense + (if x.Some? then [x.value] else [])|
    ensures SparseView(bits + [x.Some?], dense + (if x.Some? then [x.value] else []))[i] ==
              if i < |bits| then SparseView(bits, dense)[i] else x
  {
    SparseViewAppend(bits, dense, x);
  }

  /** `SparseViewAt` at every index. */
  lemma SparseViewEvery<T>(bits: seq<bool>, dense: seq<T>)
    requires CountTrue(bits) == |dense|
    ensures forall i :: 0 <= i < |bits| ==> (SparseView(bits, dense)[i].None? <==> !bits[i])
    ensures forall i :: 0 <= i < |bits| && bits[i] ==>
              CountTrue(bits[..i]) < |dense| && SparseView(bits, dense)[i] == Some(dense[CountTrue(bits[..i])])
  {
    forall i | 0 <= i < |bits|
      ensures SparseView(bits, dense)[i].None? <==> !bits[i]
      ensures bits[i] ==> CountTrue(bits[..i]) < |dense| && SparseView(bits, dense)[i] == Some(dense[CountTrue(bits[..i])])
    {
      SparseViewAt(bits, dense, i);
    }
  }

  /** Replacing the dense element behind set bit `j` replaces exactly the
      sparse entry at `j`. */
  lemma SparseViewUpdate<T>(bits: seq<bool>, dense: seq<T>, j: nat, x: T)
    requires CountTrue(bits) == |dense| && j < |bits| && bits[j]
    ensures CountTrue(bits[..j]) < |dense|
    ensures SparseView(bits, dense[CountTrue(bits[..j]) := x]) == SparseView(bits, dense)[j := Some(x)]
  {
    SparseViewAt(bits, dense, j);
    var lhs := SparseView(bits, dense[CountTrue(bits[..j]) := x]);
    var rhs := SparseView(bits, dense)[j := Some(x)];
    forall i | 0 <= i < |bits|
      ensures lhs[i] == rhs[i]
    {
      SparseViewUpdateAt(bits, dense, j, x, i);
    }
  }

  /** `SparseViewUpdate` at one index `i`. */
  lemma SparseViewUpdateAt<T>(bits: seq<bool>, dense: seq<T>, j: nat, x: T, i: nat)
    requires CountTrue(bits) == |dense| && j < |bits| && bits[j] && i < |bits|
    ensures CountTrue(bits[..j]) < |dense|
    ensures SparseView(bits, dense[CountTrue(bits[..j]) := x])[i] == SparseView(bits, dense)[j := Some(x)][i]
  {
    SparseViewAt(bits, dense, j);
    var k := CountTrue(bits[..j]);
    var updated := dense[k := x];
    SparseViewAt(bits, dense, i);
    SparseViewAt(bits, updated, i);
    if bits[i] && i < j {
      CountTruePrefixMonotone(bits, i, j);
    } else if bits[i] && j < i {
      CountTruePrefixMonotone(bits, j, i);
    }
  }

  /** The values of the present entries of `s`, in order. */
  function Present<T>(s: seq<Option<T>>): (r: seq<T>)
    ensures |r| <= |s|
    ensures forall k :: 0 <= k < |r| ==> Some(r[k]) in s
    ensures forall k :: 0 <= k < |s| && s[k].Some? ==> s[k].value in r
  {
    if s == [] then []
    else
      var rest := Present(s[..|s| - 1]);
      assert s == s[..|s| - 1] + [s[|s| - 1]];
      match s[|s| - 1]
      case None => rest
      case Some(x) => rest + [x]
  }

  /** Sum of `f` over `xs`. */
  function Sum<T>(xs: seq<T>, f: T -> real): real
  {
    if xs == [] then 0.0 else f(xs[0]) + Sum(xs[1..], f)
  }

  lemma {:induction false} SumNonNegative<T>(xs: seq<T>, f: T -> real)
    requires forall k :: 0 <= k < |xs| ==> f(xs[k]) >= 0.0
    ensures Sum(xs, f) >= 0.0
  {
    if xs != [] {
      SumNonNegative(xs[1..], f);
    }
  }

  lemma {:induction false} SumNonPositive<T>(xs: seq<T>, f: T -> real)
    requires forall k :: 0 <= k < |xs| ==> f(xs[k]) <= 0.0
    ensures Sum(xs, f) <= 0.0
  {
    if xs != [] {
      SumNonPositive(xs[1..], f);
    }
  }

  /** Summing two columns separately adds up to summing their sum. */
  lemma {:induction false} SumAdd<T>(xs: seq<T>, f: T -> real, g: T -> real, h: T -> real)
    requires forall k :: 0 <= k < |xs| ==> h(xs[k]) == f(xs[k]) + g(xs[k])
    ensures Sum(xs, h) == Sum(xs, f) + Sum(xs, g)
  {
    if xs != [] {
      SumAdd(xs[1..], f, g, h);
    }
  }

  /** A column pointwise below another sums below it. */
  lemma {:induction false} SumMonotone<T>(xs: seq<T>, f: T -> real, g: T -> real)
    requires forall k :: 0 <= k < |xs| ==> f(xs[k]) <= g(xs[k])
    ensures Sum(xs, f) <= Sum(xs, g)
  {
    if xs != [] {
      SumMonotone(xs[1..], f, g);
    }
  }

  /** `f` applied under every present entry; absent entries stay absent. */
  function MapPresent<T, U>(s: seq<Option<T>>, f: T -> Option<U>): (r: seq<Option<U>>)
    ensures |r| == |s|
    ensures forall i :: 0 <= i < |s| ==> r[i] == (if s[i].Some? then f(s[i].value) else None)
  {
    seq(|s|, i requires 0 <= i < |s| => if s[i].Some? then f(s[i].value) else None)
  }

  /** A list subscript with the convention that a negative index counts from
      the end: the position it denotes in a list of `length` entries, or
      None when it is out of range. */
  function ListIndex(i: int, length: nat): (r: Option<nat>)
    ensures r.None? <==> i >= length || i < -(length as int)
    ensures r.Some? ==> r.value < length && (if i >= 0 then r.value == i else r.value == i + length)
  {
    if 0 <= i < length then Some(i)
    else if -(length as int) <= i < 0 then Some(i + length)
    else None
  }
}
