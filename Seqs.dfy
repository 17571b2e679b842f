/** Sequence facts shared by the pipeline: Python sets listed in first-seen order, and order-preserving subsequences. */
module Seqs {

  predicate Distinct<T(==)>(xs: seq<T>) {
    forall i, j :: 0 <= i < j < |xs| ==> xs[i] != xs[j]
  }

  /** `set(xs)` listed in first-occurrence order: each element once. */
  function Dedup<T(==)>(xs: seq<T>): seq<T>
  {
    if xs == [] then []
    else
      var d := Dedup(xs[..|xs| - 1]);
      if xs[|xs| - 1] in d then d else d + [xs[|xs| - 1]]
  }

  lemma {:induction false} DedupSpec<T>(xs: seq<T>)
    ensures Distinct(Dedup(xs))
    ensures forall x :: x in Dedup(xs) ==> x in xs
    ensures forall x :: x in xs ==> x in Dedup(xs)
    ensures |Dedup(xs)| <= |xs|
  {
    if xs != [] {
      var init := xs[..|xs| - 1];
      DedupSpec(init);
      assert xs == init + [xs[|xs| - 1]];
    }
  }

  lemma {:induction false} DistinctCard<T>(xs: seq<T>)
    requires Distinct(xs)
    ensures |set x | x in xs| == |xs|
  {
    if xs != [] {
      var init := xs[..|xs| - 1];
      var last := xs[|xs| - 1];
      DistinctCard(init);
      assert xs == init + [last];
      assert last !in init;
      assert (set x | x in xs) == (set x | x in init) + {last};
    }
  }

  /** `|set(xs)|` equals the length of its first-seen listing. */
  lemma DedupCard<T>(xs: seq<T>)
    ensures |set x | x in xs| == |Dedup(xs)|
  {
    DedupSpec(xs);
    DistinctCard(Dedup(xs));
    var a := set x | x in xs;
    var b := set x | x in Dedup(xs);
    assert a == b;
  }

  /** `xs` is obtained from `ys` by deleting elements, order kept. */
  predicate IsSubsequence<T(==)>(xs: seq<T>, ys: seq<T>)
    decreases |ys|
  {
    if xs == [] then true
    else if ys == [] then false
    else (xs[|xs| - 1] == ys[|ys| - 1] && IsSubsequence(xs[..|xs| - 1], ys[..|ys| - 1]))
         || IsSubsequence(xs, ys[..|ys| - 1])
  }

  lemma SubsequenceSkip<T>(xs: seq<T>, ys: seq<T>, y: T)
    requires IsSubsequence(xs, ys)
    ensures IsSubsequence(xs, ys + [y])
  {
    assert (ys + [y])[..|ys|] == ys;
  }

  lemma SubsequenceTake<T>(xs: seq<T>, ys: seq<T>, y: T)
    requires IsSubsequence(xs, ys)
    ensures IsSubsequence(xs + [y], ys + [y])
  {
    assert (ys + [y])[..|ys|] == ys;
    assert (xs + [y])[..|xs|] == xs;
  }

  lemma {:induction false} SubsequenceMembers<T>(xs: seq<T>, ys: seq<T>)
    requires IsSubsequence(xs, ys)
    ensures forall x :: x in xs ==> x in ys
    ensures |xs| <= |ys|
    decreases |ys|
  {
    if xs != [] && ys != [] {
      var ys' := ys[..|ys| - 1];
      assert ys == ys' + [ys[|ys| - 1]];
      if xs[|xs| - 1] == ys[|ys| - 1] && IsSubsequence(xs[..|xs| - 1], ys') {
        SubsequenceMembers(xs[..|xs| - 1], ys');
        assert xs == xs[..|xs| - 1] + [xs[|xs| - 1]];
      } else {
        SubsequenceMembers(xs, ys');
      }
    }
  }

  lemma {:induction false} SubsequenceAppend<T>(xs: seq<T>, ys: seq<T>, us: seq<T>, vs: seq<T>)
    requires IsSubsequence(xs, ys) && IsSubsequence(us, vs)
    ensures IsSubsequence(xs + us, ys + vs)
    decreases |vs|
  {
    if us == [] {
      assert xs + us == xs;
      SubsequenceWiden(xs, ys, vs);
    } else {
      var vs' := vs[..|vs| - 1];
      assert vs == vs' + [vs[|vs| - 1]];
      assert ys + vs == (ys + vs') + [vs[|vs| - 1]];
      if us[|us| - 1] == vs[|vs| - 1] && IsSubsequence(us[..|us| - 1], vs') {
        var us' := us[..|us| - 1];
        SubsequenceAppend(xs, ys, us', vs');
        assert us == us' + [us[|us| - 1]];
        assert xs + us == (xs + us') + [us[|us| - 1]];
        SubsequenceTake(xs + us', ys + vs', vs[|vs| - 1]);
      } else {
        SubsequenceAppend(xs, ys, us, vs');
        SubsequenceSkip(xs + us, ys + vs', vs[|vs| - 1]);
      }
    }
  }

  lemma {:induction false} SubsequenceWiden<T>(xs: seq<T>, ys: seq<T>, vs: seq<T>)
    requires IsSubsequence(xs, ys)
    ensures IsSubsequence(xs, ys + vs)
    decreases |vs|
  {
    if vs == [] {
      assert ys + vs == ys;
    } else {
      var vs' := vs[..|vs| - 1];
      SubsequenceWiden(xs, ys, vs');
      assert ys + vs == (ys + vs') + [vs[|vs| - 1]];
      SubsequenceSkip(xs, ys + vs', vs[|vs| - 1]);
    }
  }

  lemma SubsequenceRefl<T>(xs: seq<T>)
    ensures IsSubsequence(xs, xs)
    decreases |xs|
  {
    if xs != [] {
      SubsequenceRefl(xs[..|xs| - 1]);
    }
  }
}
