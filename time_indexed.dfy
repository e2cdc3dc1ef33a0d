/** Time-indexed values (the State, Measure and Input records an observer
    exchanges: a vector tagged with its time index) and the chronological
    buffers a zero-delay observer keeps them in. */
module TimeIndexed {

  datatype Option<+T> = None | Some(value: T)

  /** Time indices are `unsigned` in the observer's interface: 32 bits. */
  const IndexLimit: int := 0x1_0000_0000

  type Index = k: int | 0 <= k < IndexLimit

  /** A value tagged with its time index. */
  datatype Timed<V> = Timed(time: Index, value: V)

  /** The buffer discipline: indices are strictly increasing and contiguous,
      so the entry at position i carries the first index plus i. */
  ghost predicate Chronological<V>(s: seq<Timed<V>>)
  {
    forall i :: 0 <= i < |s| ==> s[i].time == s[0].time + i
  }

  /** Some entry of `s` carries time index k. */
  ghost predicate Has<V>(s: seq<Timed<V>>, k: int)
  {
    exists j :: 0 <= j < |s| && s[j].time == k
  }

  /** Every index of the window [lo, hi) is present in `s`. */
  ghost predicate Covers<V>(s: seq<Timed<V>>, lo: int, hi: int)
  {
    forall k :: lo <= k < hi ==> Has(s, k)
  }

  /** The window test `GetEstimateState` performs on a buffer: the window
      lies between the buffer's first and last index. */
  predicate Spans<V>(s: seq<Timed<V>>, lo: int, hi: int)
  {
    hi <= lo || (|s| > 0 && s[0].time <= lo && hi <= s[0].time + |s|)
  }

  /** On a chronological buffer, comparing the window with the end indices
      decides exactly whether every index of the window is present. */
  lemma {:induction false} SpansIffCovers<V>(s: seq<Timed<V>>, lo: int, hi: int)
    requires Chronological(s)
    ensures Spans(s, lo, hi) <==> Covers(s, lo, hi)
  {
    if Spans(s, lo, hi) {
      forall k | lo <= k < hi
        ensures Has(s, k)
      {
        var j := k - s[0].time;
        assert s[j].time == k;
      }
    }
    if Covers(s, lo, hi) && lo < hi {
      assert Has(s, lo);
      var j :| 0 <= j < |s| && s[j].time == lo;
      assert s[0].time <= lo;
      assert Has(s, hi - 1);
      var j' :| 0 <= j' < |s| && s[j'].time == hi - 1;
      assert hi <= s[0].time + |s|;
    }
  }

  /** The value the buffer holds for time index k, found by its position. */
  function At<V>(s: seq<Timed<V>>, k: int): (r: Option<V>)
    ensures Chronological(s) ==> (r.Some? <==> Has(s, k))
    ensures Chronological(s) && r.Some? ==> Timed(k, r.value) in s
  {
    if |s| > 0 && s[0].time <= k < s[0].time + |s| then
      Some(s[k - s[0].time].value)
    else
      None
  }

  /** The insertion rule for measurements and inputs: the first entry may
      carry any index, every later one exactly the last index plus one. */
  predicate Appendable<V>(s: seq<Timed<V>>, k: int)
  {
    |s| == 0 || k == s[|s| - 1].time + 1
  }

  /** The insertion rule is exactly what keeps a buffer chronological. */
  lemma {:induction false} AppendChronological<V>(s: seq<Timed<V>>, k: Index, v: V)
    requires Chronological(s)
    ensures Chronological(s + [Timed(k, v)]) <==> Appendable(s, k)
  {
    var t := s + [Timed(k, v)];
    if Appendable(s, k) {
      forall i | 0 <= i < |t|
        ensures t[i].time == t[0].time + i
      {
        if i < |s| {
          assert t[i] == s[i];
        } else if |s| > 0 {
          assert s[|s| - 1].time == s[0].time + |s| - 1;
        }
      }
    }
    if Chronological(t) && |s| > 0 {
      assert t[|s|].time == t[0].time + |s|;
      assert t[|s| - 1].time == t[0].time + |s| - 1;
    }
  }
}
