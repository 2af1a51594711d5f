/** The paginated API seen as the list of result batches it returned, and
    the flattening the core applies to it (batch order, then order within a
    batch). */
module Batches {

  import opened Wrappers

  /** `[x for batch in bs for x in batch]`. */
  function Flatten<T>(bs: seq<seq<T>>): seq<T>
  {
    if bs == [] then [] else Flatten(bs[..|bs| - 1]) + bs[|bs| - 1]
  }

  /** One more batch appends its elements after all earlier ones. */
  lemma FlattenSnoc<T>(bs: seq<seq<T>>, b: seq<T>)
    ensures Flatten(bs + [b]) == Flatten(bs) + b
  {
    assert (bs + [b])[..|bs|] == bs;
  }

  /** Flattening a concatenation of batch lists concatenates their results. */
  lemma {:induction false} FlattenConcat<T>(a: seq<seq<T>>, b: seq<seq<T>>)
    ensures Flatten(a + b) == Flatten(a) + Flatten(b)
  {
    if b == [] {
      assert a + b == a;
    } else {
      var b' := b[..|b| - 1];
      assert a + b == (a + b') + [b[|b| - 1]];
      FlattenSnoc(a + b', b[|b| - 1]);
      FlattenConcat(a, b');
      FlattenSnoc(b', b[|b| - 1]);
      assert b == b' + [b[|b| - 1]];
    }
  }

  /** The number of elements in the batches before batch `k`. */
  function Offset<T>(bs: seq<seq<T>>, k: nat): nat
    requires k <= |bs|
  {
    |Flatten(bs[..k])|
  }

  /** Element `i` of batch `k` sits at position `Offset(bs, k) + i` of the
      flattened list: nothing is dropped, duplicated or reordered. */
  lemma FlattenAt<T>(bs: seq<seq<T>>, k: nat, i: nat)
    requires k < |bs| && i < |bs[k]|
    ensures Offset(bs, k) + i < |Flatten(bs)|
    ensures Flatten(bs)[Offset(bs, k) + i] == bs[k][i]
  {
    assert bs == bs[..k] + [bs[k]] + bs[k + 1..];
    FlattenConcat(bs[..k] + [bs[k]], bs[k + 1..]);
    FlattenSnoc(bs[..k], bs[k]);
  }

  /** The flattened list holds exactly the batches' elements, with their
      multiplicities. */
  function BagOf<T>(bs: seq<seq<T>>): multiset<T>
  {
    if bs == [] then multiset{} else BagOf(bs[..|bs| - 1]) + multiset(bs[|bs| - 1])
  }

  lemma {:induction false} FlattenBag<T>(bs: seq<seq<T>>)
    ensures multiset(Flatten(bs)) == BagOf(bs)
    ensures |Flatten(bs)| == |BagOf(bs)|
  {
    if bs != [] {
      FlattenBag(bs[..|bs| - 1]);
    }
  }

  /** `bs[b][..j]` is where a nested loop over the batches stands after `j`
      elements of batch `b`: everything before it, then the rest. */
  lemma FlattenSplit<T>(bs: seq<seq<T>>, b: nat, j: nat)
    requires b < |bs| && j <= |bs[b]|
    ensures Flatten(bs) == Flatten(bs[..b]) + bs[b][..j] + (bs[b][j..] + Flatten(bs[b + 1..]))
    ensures Flatten(bs[..b + 1]) == Flatten(bs[..b]) + bs[b]
  {
    assert bs == bs[..b + 1] + bs[b + 1..];
    assert bs[..b + 1] == bs[..b] + [bs[b]];
    FlattenConcat(bs[..b + 1], bs[b + 1..]);
    FlattenSnoc(bs[..b], bs[b]);
    assert bs[b] == bs[b][..j] + bs[b][j..];
  }

  /** A loop or comprehension that, element by element, adds `f`'s output
      to a list: the outputs in order, or the first exception raised. */
  function Gather<T, U>(f: T -> Result<seq<U>>, xs: seq<T>): Result<seq<U>>
  {
    if xs == [] then Ok([])
    else
      var before :- Gather(f, xs[..|xs| - 1]);
      var last :- f(xs[|xs| - 1]);
      Ok(before + last)
  }

  lemma GatherSnoc<T, U>(f: T -> Result<seq<U>>, xs: seq<T>, x: T)
    ensures Gather(f, xs + [x]) ==
      (var before :- Gather(f, xs); var last :- f(x); Ok(before + last))
  {
    assert (xs + [x])[..|xs|] == xs;
  }

  /** Gathering over a concatenation: the first part's outputs then the
      second's, or the first exception, looking at the first part first. */
  lemma {:induction false} GatherConcat<T, U>(f: T -> Result<seq<U>>, a: seq<T>, b: seq<T>)
    ensures Gather(f, a).Err? ==> Gather(f, a + b) == Gather(f, a)
    ensures Gather(f, a).Ok? && Gather(f, b).Err? ==> Gather(f, a + b) == Gather(f, b)
    ensures Gather(f, a).Ok? && Gather(f, b).Ok? ==> Gather(f, a + b) == Ok(Gather(f, a).value + Gather(f, b).value)
    decreases |b|
  {
    if b == [] {
      assert a + b == a;
      if Gather(f, a).Ok? {
        assert Gather(f, a).value + [] == Gather(f, a).value;
      }
    } else {
      var b' := b[..|b| - 1];
      var x := b[|b| - 1];
      assert a + b == (a + b') + [x];
      assert b == b' + [x];
      GatherConcat(f, a, b');
      GatherSnoc(f, a + b', x);
      GatherSnoc(f, b', x);
      if Gather(f, a).Ok? && Gather(f, b').Ok? && f(x).Ok? {
        assert Gather(f, a).value + (Gather(f, b').value + f(x).value)
            == Gather(f, a).value + Gather(f, b').value + f(x).value;
      }
    }
  }

  /** Once a prefix raises, the whole input raises the same exception. */
  lemma GatherErrPrefix<T, U>(f: T -> Result<seq<U>>, p: seq<T>, rest: seq<T>)
    requires Gather(f, p).Err?
    ensures Gather(f, p + rest) == Gather(f, p)
  {
    GatherConcat(f, p, rest);
  }

  /** Outputs of at most one element each give at most one per input. */
  lemma {:induction false} GatherLength<T, U>(f: T -> Result<seq<U>>, xs: seq<T>)
    requires forall x :: x in xs && f(x).Ok? ==> |f(x).value| <= 1
    requires Gather(f, xs).Ok?
    ensures |Gather(f, xs).value| <= |xs|
  {
    if xs != [] {
      GatherLength(f, xs[..|xs| - 1]);
    }
  }

  /** The flattened batches around element `j` of batch `b`: what the
      loop has seen up to and including it, then what is left. */
  lemma FlattenAround<T>(bs: seq<seq<T>>, b: nat, j: nat)
    requires b < |bs| && j < |bs[b]|
    ensures Flatten(bs[..b]) + bs[b][..j + 1] == Flatten(bs[..b]) + bs[b][..j] + [bs[b][j]]
    ensures Flatten(bs) == (Flatten(bs[..b]) + bs[b][..j + 1]) + (bs[b][j + 1..] + Flatten(bs[b + 1..]))
  {
    var x := bs[b][j];
    assert bs[b][..j + 1] == bs[b][..j] + [x];
    FlattenSplit(bs, b, j);
    assert bs[b][j..] == [x] + bs[b][j + 1..];
  }

  /** One step of a nested loop over the batches that gathers `f`'s output:
      element `j` of batch `b` either raises, and then so does the whole
      input, or appends its output. */
  lemma GatherStep<T, U>(f: T -> Result<seq<U>>, bs: seq<seq<T>>, b: nat, j: nat, acc: seq<U>)
    requires b < |bs| && j < |bs[b]|
    requires Gather(f, Flatten(bs[..b]) + bs[b][..j]) == Ok(acc)
    ensures f(bs[b][j]).Err? ==> Gather(f, Flatten(bs)) == Err(f(bs[b][j]).error)
    ensures f(bs[b][j]).Ok? ==> Gather(f, Flatten(bs[..b]) + bs[b][..j + 1]) == Ok(acc + f(bs[b][j]).value)
  {
    var p := Flatten(bs[..b]) + bs[b][..j];
    var x := bs[b][j];
    var seen := Flatten(bs[..b]) + bs[b][..j + 1];
    FlattenAround(bs, b, j);
    assert seen == p + [x];
    GatherSnoc(f, p, x);
    if f(x).Err? {
      assert Gather(f, seen) == Err(f(x).error);
      GatherErrPrefix(f, seen, bs[b][j + 1..] + Flatten(bs[b + 1..]));
    }
  }

  /** After the last element of batch `b` the loop stands at batch `b + 1`. */
  lemma BatchDone<T>(bs: seq<seq<T>>, b: nat)
    requires b < |bs|
    ensures Flatten(bs[..b]) + bs[b][..|bs[b]|] == Flatten(bs[..b + 1])
  {
    FlattenSplit(bs, b, 0);
    assert bs[b][..|bs[b]|] == bs[b];
  }

  /** When every input gives exactly one output, gathering succeeds exactly
      when every input does, and output `i` is input `i`'s. */
  lemma {:induction false} GatherEach<T, U>(f: T -> Result<seq<U>>, xs: seq<T>)
    requires forall x :: f(x).Ok? ==> |f(x).value| == 1
    ensures Gather(f, xs).Ok? <==> forall i :: 0 <= i < |xs| ==> f(xs[i]).Ok?
    ensures Gather(f, xs).Ok? ==>
              && |Gather(f, xs).value| == |xs|
              && forall i :: 0 <= i < |xs| ==> f(xs[i]) == Ok([Gather(f, xs).value[i]])
  {
    if xs != [] {
      var init := xs[..|xs| - 1];
      var last := xs[|xs| - 1];
      GatherEach(f, init);
      assert xs == init + [last];
      GatherSnoc(f, init, last);
      assert forall i :: 0 <= i < |init| ==> init[i] == xs[i];
      if Gather(f, xs).Ok? {
        var before := Gather(f, init).value;
        var v := Gather(f, xs).value;
        assert v == before + f(last).value;
        assert f(last).value == [v[|init|]];
        forall i | 0 <= i < |xs|
          ensures f(xs[i]) == Ok([v[i]])
        {
          if i < |init| {
            assert v[i] == before[i];
          }
        }
      }
    }
  }
}
