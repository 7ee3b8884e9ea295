/** Order-preserving de-duplication of a sequence: the keys of an ordered
    dictionary built from the sequence, in insertion order. Each element is
    kept at its first occurrence, later repetitions are dropped. */
module OrderedKeys {

  /** No element occurs twice in `s`. */
  predicate NoDuplicates<T(==)>(s: seq<T>) {
    forall i, j :: 0 <= i < j < |s| ==> s[i] != s[j]
  }

  /** The distinct elements of `xs`, each where it first occurs. */
  function Dedup<T(==)>(xs: seq<T>): (r: seq<T>)
    ensures NoDuplicates(r)
    ensures forall i :: 0 <= i < |r| ==> r[i] in xs
    ensures forall i :: 0 <= i < |xs| ==> xs[i] in r
    ensures |r| <= |xs|
  {
    if xs == [] then []
    else
      var front, last := xs[..|xs| - 1], xs[|xs| - 1];
      assert xs == front + [last];
      var kept := Dedup(front);
      if last in kept then kept else kept + [last]
  }

  /** The position of the first occurrence of `x` in `xs`. */
  function FirstIndex<T(==)>(xs: seq<T>, x: T): (i: nat)
    requires x in xs
    ensures i < |xs| && xs[i] == x && x !in xs[..i]
  {
    if xs[0] == x then 0
    else
      var i := 1 + FirstIndex(xs[1..], x);
      assert xs[..i] == [xs[0]] + xs[1..][..i - 1];
      i
  }

  /** An index holding `x` with no `x` before it is the first index of `x`. */
  lemma FirstIndexIs<T>(xs: seq<T>, x: T, k: nat)
    requires k < |xs| && xs[k] == x && x !in xs[..k]
    ensures FirstIndex(xs, x) == k
  {
  }

  /** Appending to a sequence does not move the first occurrence of an
      element that is already there. */
  lemma FirstIndexOfPrefix<T>(p: seq<T>, q: seq<T>, x: T)
    requires x in p
    ensures x in p + q && FirstIndex(p + q, x) == FirstIndex(p, x)
  {
    var k := FirstIndex(p, x);
    assert (p + q)[..k] == p[..k];
    FirstIndexIs(p + q, x, k);
  }

  /** Dedup keeps the elements in the order of their first occurrences in
      the input. */
  lemma {:induction false} DedupKeepsFirstOccurrenceOrder<T>(xs: seq<T>, i: int, j: int)
    requires 0 <= i < j < |Dedup(xs)|
    ensures FirstIndex(xs, Dedup(xs)[i]) < FirstIndex(xs, Dedup(xs)[j])
  {
    var front, last := xs[..|xs| - 1], xs[|xs| - 1];
    assert xs == front + [last];
    var kept := Dedup(front);
    var r := Dedup(xs);
    FirstIndexOfPrefix(front, [last], r[i]);
    if j < |kept| {
      assert r[i] == kept[i] && r[j] == kept[j];
      DedupKeepsFirstOccurrenceOrder(front, i, j);
      FirstIndexOfPrefix(front, [last], r[j]);
    } else {
      assert last !in kept && r == kept + [last] && r[j] == last;
      assert last !in front;
      FirstIndexIs(xs, last, |xs| - 1);
    }
  }

  /** The first element of the input is the first element of the result. */
  lemma DedupHead<T>(xs: seq<T>)
    requires |xs| > 0
    ensures |Dedup(xs)| > 0 && Dedup(xs)[0] == xs[0]
  {
    var r := Dedup(xs);
    assert xs[0] in r;
    var k :| 0 <= k < |r| && r[k] == xs[0];
    FirstIndexIs(xs, xs[0], 0);
    if k > 0 {
      DedupKeepsFirstOccurrenceOrder(xs, 0, k);
      assert false;
    }
  }

  /** A sequence without repetitions is left as it is. */
  lemma {:induction false} DedupOfDistinct<T>(xs: seq<T>)
    requires NoDuplicates(xs)
    ensures Dedup(xs) == xs
  {
    if xs != [] {
      var front, last := xs[..|xs| - 1], xs[|xs| - 1];
      assert xs == front + [last];
      assert NoDuplicates(front);
      DedupOfDistinct(front);
      assert last !in front;
    }
  }

  /** De-duplicating twice is de-duplicating once. */
  lemma DedupIdempotent<T>(xs: seq<T>)
    ensures Dedup(Dedup(xs)) == Dedup(xs)
  {
    DedupOfDistinct(Dedup(xs));
  }
}
