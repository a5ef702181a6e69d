/**
 * Quality buckets: an ordered table of (id, inclusive upper bound) entries
 * whose last entry is unbounded, and the early-return search that picks the
 * first entry whose bound is at least the loss. analysis.js and index.js each
 * walk their own table with the same search.
 */
module Buckets {

  datatype Bound = Finite(max: real) | Unbounded

  datatype Bucket = Bucket(id: string, bound: Bound)

  /** `loss <= bucket.max`; every real is `<= Infinity`. */
  predicate Fits(b: Bucket, loss: real)
  {
    match b.bound
    case Finite(m) => loss <= m
    case Unbounded => true
  }

  /** Non-empty, strictly ascending finite bounds, one final unbounded entry, distinct ids. */
  predicate WellFormed(t: seq<Bucket>)
  {
    && |t| > 0
    && t[|t| - 1].bound.Unbounded?
    && (forall i :: 0 <= i < |t| - 1 ==> t[i].bound.Finite?)
    && (forall i, j :: 0 <= i < j < |t| - 1 ==> t[i].bound.max < t[j].bound.max)
    && (forall i, j :: 0 <= i < j < |t| ==> t[i].id != t[j].id)
  }

  /** The loop `for (bucket of table) if (loss <= bucket.max) return bucket`, from index `i` on. */
  function FindFrom(t: seq<Bucket>, loss: real, i: nat): (r: nat)
    requires 0 < |t| && i <= |t|
    ensures r < |t|
    ensures forall j :: i <= j < r ==> !Fits(t[j], loss)
    ensures Fits(t[r], loss) || (r == |t| - 1 && forall j :: i <= j < |t| ==> !Fits(t[j], loss))
    decreases |t| - i
  {
    if i == |t| then |t| - 1
    else if Fits(t[i], loss) then i
    else FindFrom(t, loss, i + 1)
  }

  /** The index of the bucket `loss` falls into: the first that fits, else the last. */
  function Classify(t: seq<Bucket>, loss: real): (r: nat)
    requires 0 < |t|
    ensures r < |t|
    ensures forall j :: 0 <= j < r ==> !Fits(t[j], loss)
    ensures Fits(t[r], loss) || (r == |t| - 1 && forall j :: 0 <= j < |t| ==> !Fits(t[j], loss))
  {
    FindFrom(t, loss, 0)
  }

  /** Over a well-formed table the search is total: the chosen bucket always fits. */
  lemma ClassifyFits(t: seq<Bucket>, loss: real)
    requires WellFormed(t)
    ensures Fits(t[Classify(t, loss)], loss)
  {
  }

  /**
   * The buckets partition the reals: bucket `i` is chosen exactly when the loss
   * is above the previous bound and within its own.
   */
  lemma {:induction false} ClassifyIsInterval(t: seq<Bucket>, loss: real, i: nat)
    requires WellFormed(t) && i < |t|
    ensures Classify(t, loss) == i <==> (i == 0 || loss > t[i - 1].bound.max) && Fits(t[i], loss)
  {
    var r := Classify(t, loss);
    if (i == 0 || loss > t[i - 1].bound.max) && Fits(t[i], loss) {
      forall j | 0 <= j < i ensures !Fits(t[j], loss) {
        assert j == i - 1 || t[j].bound.max < t[i - 1].bound.max;
      }
      assert r == i;
    }
    if r == i && i > 0 {
      assert !Fits(t[i - 1], loss);
    }
  }

  /** A loss above every finite bound lands in the final, unbounded bucket. */
  lemma AboveAllBoundsIsLast(t: seq<Bucket>, loss: real)
    requires WellFormed(t)
    requires forall j :: 0 <= j < |t| - 1 ==> loss > t[j].bound.max
    ensures Classify(t, loss) == |t| - 1
  {
  }

  /** Classification is monotone: a larger loss never lands in an earlier bucket. */
  lemma {:induction false} ClassifyMonotone(t: seq<Bucket>, a: real, b: real)
    requires WellFormed(t) && a <= b
    ensures Classify(t, a) <= Classify(t, b)
  {
    var rb := Classify(t, b);
    ClassifyFits(t, b);
    if rb < |t| - 1 {
      assert Fits(t[rb], a);
    }
  }
}
