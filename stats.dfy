/**
 * The per-label statistics of one camera scan (`predictionStats` in
 * script.js) and the resolution of a scan into its final label.
 *
 * The source keeps a dictionary from label to `{sum, count}`; a `for ... in`
 * loop visits its (non-numeric) keys in insertion order, and that order breaks
 * ties. The dictionary is therefore an insertion-ordered sequence of entries
 * here, with distinct labels.
 */
module Stats {
  import opened Wrappers

  datatype Entry = Entry(sign: string, sum: real, count: nat)

  /** The average confidence recorded for one label. */
  function Avg(e: Entry): real
    requires e.count >= 1
  {
    e.sum / e.count as real
  }

  /** Every present entry has been sampled at least once. */
  predicate Counted(s: seq<Entry>) {
    forall i :: 0 <= i < |s| ==> s[i].count >= 1
  }

  /** A label occurs at most once, as a dictionary key does. */
  predicate DistinctLabels(s: seq<Entry>) {
    forall i, j :: 0 <= i < j < |s| ==> s[i].sign != s[j].sign
  }

  /** Each sum is a sum of `count` confidences in [0, 1]. */
  predicate Bounded(s: seq<Entry>) {
    forall i :: 0 <= i < |s| ==> 0.0 <= s[i].sum <= s[i].count as real
  }

  predicate WellFormed(s: seq<Entry>) {
    Counted(s) && DistinctLabels(s) && Bounded(s)
  }

  /** The keys in iteration order. */
  function Labels(s: seq<Entry>): (ls: seq<string>)
    ensures |ls| == |s|
    ensures forall i :: 0 <= i < |s| ==> ls[i] == s[i].sign
  {
    seq(|s|, i requires 0 <= i < |s| => s[i].sign)
  }

  /** The position of `sign`, or |s| when it is absent. */
  function IndexOf(s: seq<Entry>, sign: string): (i: nat)
    ensures i <= |s|
    ensures i < |s| ==> s[i].sign == sign
    ensures forall j :: 0 <= j < i ==> s[j].sign != sign
  {
    if s == [] then 0
    else if s[0].sign == sign then 0
    else 1 + IndexOf(s[1..], sign)
  }

  /** `predictionStats[label]`. */
  function Lookup(s: seq<Entry>, sign: string): (r: Option<Entry>)
    ensures r.Some? ==> r.value.sign == sign && r.value in s
  {
    var i := IndexOf(s, sign);
    if i < |s| then Some(s[i]) else None
  }

  /** The entry for `sign` once one more sample of confidence `conf` is added to `prev`. */
  function Bumped(prev: Option<Entry>, sign: string, conf: real): Entry {
    match prev
    case None => Entry(sign, conf, 1)
    case Some(e) => Entry(sign, e.sum + conf, e.count + 1)
  }

  /** The statistics after one tick recorded `(sign, conf)`. */
  function Recorded(s: seq<Entry>, sign: string, conf: real): seq<Entry> {
    var i := IndexOf(s, sign);
    if i == |s| then s + [Entry(sign, conf, 1)]
    else s[i := Entry(sign, s[i].sum + conf, s[i].count + 1)]
  }

  /** The number of samples recorded. */
  function SampleCount(s: seq<Entry>): nat {
    if s == [] then 0 else s[0].count + SampleCount(s[1..])
  }

  /** IndexOf is determined by its contract. */
  lemma IndexOfUnique(s: seq<Entry>, sign: string, k: nat)
    requires k <= |s|
    requires k < |s| ==> s[k].sign == sign
    requires forall j :: 0 <= j < k ==> s[j].sign != sign
    ensures IndexOf(s, sign) == k
  {
  }

  /** An entry is found exactly when its label is one of the keys. */
  lemma LookupPresent(s: seq<Entry>, sign: string)
    ensures Lookup(s, sign).Some? <==> sign in Labels(s)
  {
    var i := IndexOf(s, sign);
    if sign in Labels(s) {
      var j :| 0 <= j < |s| && Labels(s)[j] == sign;
      assert s[j].sign == sign;
    }
  }

  /** Recording keeps the statistics well formed: every count stays at least 1. */
  lemma RecordedWellFormed(s: seq<Entry>, sign: string, conf: real)
    requires WellFormed(s)
    requires 0.0 <= conf <= 1.0
    ensures WellFormed(Recorded(s, sign, conf))
  {
  }

  /** Recording changes the entry of the recorded label only, and in the way the tick does. */
  lemma RecordedLookup(s: seq<Entry>, sign: string, conf: real, other: string)
    ensures Lookup(Recorded(s, sign, conf), other)
      == if other == sign then Some(Bumped(Lookup(s, sign), sign, conf)) else Lookup(s, other)
  {
    var i := IndexOf(s, sign);
    var t := Recorded(s, sign, conf);
    var k := IndexOf(s, other);
    if other == sign {
      IndexOfUnique(t, sign, i);
      assert Lookup(t, sign) == Some(t[i]);
    } else if k < |s| {
      assert k != i && t[k] == s[k];
      IndexOfUnique(t, other, k);
      assert Lookup(t, other) == Some(s[k]);
    } else {
      IndexOfUnique(t, other, |t|);
      assert Lookup(t, other) == None;
    }
  }

  /** A new label is appended; an existing one keeps its place, so insertion order is kept. */
  lemma RecordedOrder(s: seq<Entry>, sign: string, conf: real)
    ensures Labels(Recorded(s, sign, conf))
      == if sign in Labels(s) then Labels(s) else Labels(s) + [sign]
  {
    var i := IndexOf(s, sign);
    if i < |s| {
      assert Labels(Recorded(s, sign, conf)) == Labels(s);
    } else {
      assert Labels(Recorded(s, sign, conf)) == Labels(s) + [sign];
    }
  }

  lemma {:induction false} SampleCountAppend(s: seq<Entry>, e: Entry)
    ensures SampleCount(s + [e]) == SampleCount(s) + e.count
    decreases |s|
  {
    if s != [] {
      assert (s + [e])[1..] == s[1..] + [e];
      SampleCountAppend(s[1..], e);
    }
  }

  lemma {:induction false} SampleCountUpdate(s: seq<Entry>, i: nat, e: Entry)
    requires i < |s|
    ensures SampleCount(s[i := e]) == SampleCount(s) - s[i].count + e.count
    decreases |s|
  {
    if i > 0 {
      assert s[i := e][1..] == s[1..][i - 1 := e];
      SampleCountUpdate(s[1..], i - 1, e);
    }
  }

  /** Each recorded tick adds exactly one sample. */
  lemma RecordedCount(s: seq<Entry>, sign: string, conf: real)
    ensures SampleCount(Recorded(s, sign, conf)) == SampleCount(s) + 1
  {
    var i := IndexOf(s, sign);
    if i == |s| {
      SampleCountAppend(s, Entry(sign, conf, 1));
    } else {
      SampleCountUpdate(s, i, Entry(sign, s[i].sum + conf, s[i].count + 1));
    }
  }

  /* ---------------- Resolution (stopTimedPrediction) ---------------- */

  /** A resolved label with its average confidence. */
  datatype Outcome = Outcome(sign: string, avg: real)

  /** Where resolution starts, and what it yields when nothing beats it. */
  const UNRESOLVED := Outcome("Unknown", 0.0)

  /**
   * The resolution loop after visiting the first n entries: a later entry
   * replaces the current best only when its average is strictly greater.
   */
  function ResolvePrefix(s: seq<Entry>, n: nat): Outcome
    requires Counted(s) && n <= |s|
    decreases n
  {
    if n == 0 then UNRESOLVED
    else
      var r := ResolvePrefix(s, n - 1);
      if Avg(s[n - 1]) > r.avg then Outcome(s[n - 1].sign, Avg(s[n - 1])) else r
  }

  function Resolve(s: seq<Entry>): Outcome
    requires Counted(s)
  {
    ResolvePrefix(s, |s|)
  }

  /**
   * Entry k has a positive average, strictly greater than every earlier
   * entry's and at least every later entry's among the first n.
   */
  predicate IsFirstBest(s: seq<Entry>, n: nat, k: nat)
    requires Counted(s) && k < n <= |s|
  {
    && Avg(s[k]) > 0.0
    && (forall j :: 0 <= j < k ==> Avg(s[j]) < Avg(s[k]))
    && (forall j :: k < j < n ==> Avg(s[j]) <= Avg(s[k]))
  }

  /**
   * After the first n entries the loop holds entry k, the first strictly
   * greatest positive average, or ("Unknown", 0) when there is none (k = -1).
   */
  lemma {:induction false} ResolvePrefixSpec(s: seq<Entry>, n: nat) returns (k: int)
    requires Counted(s) && n <= |s|
    ensures -1 <= k < n
    ensures k == -1 <==> forall j :: 0 <= j < n ==> Avg(s[j]) <= 0.0
    ensures k == -1 ==> ResolvePrefix(s, n) == UNRESOLVED
    ensures k >= 0 ==> IsFirstBest(s, n, k) && ResolvePrefix(s, n) == Outcome(s[k].sign, Avg(s[k]))
    decreases n
  {
    if n == 0 {
      return -1;
    }
    var k' := ResolvePrefixSpec(s, n - 1);
    var r := ResolvePrefix(s, n - 1);
    if Avg(s[n - 1]) > r.avg {
      k := n - 1;
      assert IsFirstBest(s, n, k);
    } else {
      k := k';
      if k >= 0 {
        assert IsFirstBest(s, n, k);
      }
    }
  }

  /**
   * The resolved label is the entry with the greatest average, the earliest
   * one on a tie, provided that average is positive; otherwise it is
   * ("Unknown", 0). No confidence threshold is applied.
   */
  lemma ResolveSpec(s: seq<Entry>) returns (k: int)
    requires Counted(s)
    ensures -1 <= k < |s|
    ensures k == -1 <==> forall j :: 0 <= j < |s| ==> Avg(s[j]) <= 0.0
    ensures k == -1 ==> Resolve(s) == UNRESOLVED
    ensures k >= 0 ==> IsFirstBest(s, |s|, k) && Resolve(s) == Outcome(s[k].sign, Avg(s[k]))
  {
    k := ResolvePrefixSpec(s, |s|);
  }

  /** At most one entry is the first best, so the resolved entry is determined. */
  lemma FirstBestUnique(s: seq<Entry>, k1: nat, k2: nat)
    requires Counted(s) && k1 < |s| && k2 < |s|
    requires IsFirstBest(s, |s|, k1) && IsFirstBest(s, |s|, k2)
    ensures k1 == k2
  {
  }

  lemma AvgBounds(e: Entry)
    requires e.count >= 1 && 0.0 <= e.sum <= e.count as real
    ensures 0.0 <= Avg(e) <= 1.0
  {
    var c := e.count as real;
    assert Avg(e) * c == e.sum;
  }

  /** The resolved average is a confidence in [0, 1]. */
  lemma {:induction false} ResolveRange(s: seq<Entry>, n: nat)
    requires WellFormed(s) && n <= |s|
    ensures 0.0 <= ResolvePrefix(s, n).avg <= 1.0
    decreases n
  {
    if n > 0 {
      ResolveRange(s, n - 1);
      AvgBounds(s[n - 1]);
    }
  }

  /**
   * The resolution loop of stopTimedPrediction: start from ("Unknown", 0) and
   * visit the entries in insertion order, keeping a strictly greater average.
   */
  method BestAverage(s: seq<Entry>) returns (finalLabel: string, bestAvgConfidence: real)
    requires Counted(s)
    ensures Outcome(finalLabel, bestAvgConfidence) == Resolve(s)
  {
    finalLabel, bestAvgConfidence := "Unknown", 0.0;
    for i := 0 to |s|
      invariant Outcome(finalLabel, bestAvgConfidence) == ResolvePrefix(s, i)
    {
      var avg := s[i].sum / s[i].count as real;
      if avg > bestAvgConfidence {
        bestAvgConfidence := avg;
        finalLabel := s[i].sign;
      }
    }
  }
}
