/** Generic sequence helpers shared by the batching code of every component. */
module Seqs {

  /** No element occurs twice. */
  ghost predicate Distinct<T>(xs: seq<T>) {
    forall i, j :: 0 <= i < j < |xs| ==> xs[i] != xs[j]
  }

  /** The set of elements of a sequence (Python's `set(xs)`). */
  function Elems<T>(xs: seq<T>): set<T> {
    set x | x in xs
  }

  /** Dropping the last element of a duplicate-free sequence leaves one without it. */
  lemma DistinctSnoc<T>(xs: seq<T>)
    requires Distinct(xs) && |xs| > 0
    ensures Distinct(xs[..|xs| - 1]) && xs[|xs| - 1] !in Elems(xs[..|xs| - 1])
  {
    var init := xs[..|xs| - 1];
    assert forall j :: 0 <= j < |init| ==> init[j] == xs[j];
  }

  /** A sequence has no repeated element exactly when it has as many distinct elements as positions. */
  lemma {:induction false} DistinctCard<T>(xs: seq<T>)
    ensures |Elems(xs)| <= |xs|
    ensures Distinct(xs) <==> |Elems(xs)| == |xs|
    decreases |xs|
  {
    if |xs| > 0 {
      var n := |xs| - 1;
      var init, x := xs[..n], xs[n];
      DistinctCard(init);
      InitLast(xs);
      assert Elems(xs) == Elems(init) + {x};
      if x in init {
        assert Elems(xs) == Elems(init);
        var j :| 0 <= j < n && init[j] == x;
        assert xs[j] == xs[n];
      } else {
        assert |Elems(xs)| == |Elems(init)| + 1;
        if Distinct(init) {
          forall i, j | 0 <= i < j < |xs| ensures xs[i] != xs[j] {
            if j < n {
              assert xs[i] == init[i] && xs[j] == init[j];
            } else {
              assert xs[i] == init[i];
            }
          }
        } else {
          var i, j :| 0 <= i < j < n && init[i] == init[j];
          assert xs[i] == xs[j];
        }
      }
    }
  }

  /** Concatenation of a sequence of sequences. */
  function Flatten<T>(xss: seq<seq<T>>): seq<T> {
    if |xss| == 0 then [] else xss[0] + Flatten(xss[1..])
  }

  /** Python's `xs[:n]` for a non-negative `n`. */
  function Take<T>(xs: seq<T>, n: nat): (r: seq<T>)
    ensures |r| == if n < |xs| then n else |xs|
    ensures r <= xs
  {
    if n < |xs| then xs[..n] else xs
  }

  lemma {:induction false} FlattenAppend<T>(xss: seq<seq<T>>, yss: seq<seq<T>>)
    ensures Flatten(xss + yss) == Flatten(xss) + Flatten(yss)
  {
    if |xss| == 0 {
      assert xss + yss == yss;
    } else {
      assert (xss + yss)[1..] == xss[1..] + yss;
      FlattenAppend(xss[1..], yss);
    }
  }

  /** A non-empty sequence is its head followed by its tail. */
  lemma ConsTail<T>(xs: seq<T>)
    requires |xs| > 0
    ensures [xs[0]] + xs[1..] == xs
  {
  }

  /** A non-empty sequence is its initial part followed by its last element. */
  lemma InitLast<T>(xs: seq<T>)
    requires |xs| > 0
    ensures xs == xs[..|xs| - 1] + [xs[|xs| - 1]]
  {
  }

  /** A prefix one element longer. */
  lemma TakeStep<T>(xs: seq<T>, i: nat)
    requires i < |xs|
    ensures xs[..i + 1] == xs[..i] + [xs[i]]
  {
  }

  /** A prefix one element longer, after a fixed start. */
  lemma PrefixStep<T>(start: seq<T>, xs: seq<T>, j: nat)
    requires j < |xs|
    ensures start + xs[..j + 1] == (start + xs[..j]) + [xs[j]]
  {
    assert xs[..j + 1] == xs[..j] + [xs[j]];
  }

  /** Flattening one more chunk appends that chunk. */
  lemma FlattenStep<T>(xss: seq<seq<T>>, c: nat)
    requires c < |xss|
    ensures Flatten(xss[..c + 1]) == Flatten(xss[..c]) + xss[c]
  {
    assert xss[..c + 1] == xss[..c] + [xss[c]];
    FlattenAppend(xss[..c], [xss[c]]);
    assert Flatten([xss[c]]) == xss[c] + Flatten([xss[c]][1..]);
  }

  /**
   * `[xs[i:i + size] for i in range(0, len(xs), size)]`: consecutive slices
   * of `size` elements, the last one possibly shorter.
   */
  function Chunks<T>(xs: seq<T>, size: nat): seq<seq<T>>
    requires size > 0
    decreases |xs|
  {
    if |xs| == 0 then []
    else if |xs| <= size then [xs]
    else [xs[..size]] + Chunks(xs[size..], size)
  }

  /** The chunks concatenate back to the input, in order. */
  lemma {:induction false} ChunksFlatten<T>(xs: seq<T>, size: nat)
    requires size > 0
    ensures Flatten(Chunks(xs, size)) == xs
    decreases |xs|
  {
    if |xs| == 0 {
    } else if |xs| <= size {
      assert Flatten([xs]) == xs + Flatten([xs][1..]);
    } else {
      var c := Chunks(xs, size);
      assert c == [xs[..size]] + Chunks(xs[size..], size);
      ChunksFlatten(xs[size..], size);
      assert c[1..] == Chunks(xs[size..], size);
      assert xs[..size] + xs[size..] == xs;
    }
  }

  /** Appending one more sequence. */
  lemma FlattenOne<T>(xss: seq<seq<T>>, xs: seq<T>)
    ensures Flatten(xss + [xs]) == Flatten(xss) + xs
    ensures (xss + [xs])[..|xss|] == xss
  {
    FlattenAppend(xss, [xs]);
    assert [xs][1..] == [];
    assert Flatten([xs]) == xs + [];
  }

  /**
   * Full chunks followed by a tail: chunking their concatenation gives the
   * full chunks back, then the chunks of the tail.
   */
  lemma {:induction false} ChunksAfterFull<T>(done: seq<seq<T>>, tail: seq<T>, size: nat)
    requires size > 0
    requires forall j :: 0 <= j < |done| ==> |done[j]| == size
    ensures Chunks(Flatten(done) + tail, size) == done + Chunks(tail, size)
    decreases |done|
  {
    if |done| == 0 {
      assert Flatten(done) + tail == tail;
    } else {
      var rest := done[1..];
      ChunksAfterFull(rest, tail, size);
      var xs := Flatten(done) + tail;
      assert xs == done[0] + (Flatten(rest) + tail);
      if |Flatten(rest) + tail| == 0 {
        assert tail == [];
        assert xs == done[0];
      } else {
        assert xs[..size] == done[0];
        assert xs[size..] == Flatten(rest) + tail;
      }
    }
  }

  /** Every chunk but the last has exactly `size` elements, the last one at most `size`, none is empty. */
  ghost predicate FixedSize<T>(c: seq<seq<T>>, size: nat) {
    && (forall i :: 0 <= i < |c| ==> 0 < |c[i]| <= size)
    && (forall i :: 0 <= i < |c| - 1 ==> |c[i]| == size)
  }

  lemma {:induction false} ChunksShape<T>(xs: seq<T>, size: nat)
    requires size > 0
    ensures FixedSize(Chunks(xs, size), size)
    decreases |xs|
  {
    if |xs| > size {
      ChunksShape(xs[size..], size);
      var c := Chunks(xs, size);
      var rest := Chunks(xs[size..], size);
      assert c == [xs[..size]] + rest;
      forall i | 0 <= i < |c|
        ensures 0 < |c[i]| <= size
        ensures i < |c| - 1 ==> |c[i]| == size
      {
        if i == 0 {
          assert c[0] == xs[..size];
        } else {
          assert c[i] == rest[i - 1];
        }
      }
    }
  }
}
