/**
 * The metrics collector (ecoagent/observability.py): counters, timers and
 * gauges keyed by a metric name together with its labels sorted into a
 * tuple, a summary keyed by name alone, and the tracing wrapper that times
 * every call of a wrapped function.
 *
 * Python dicts are insertion-ordered association lists here, because the
 * summary's dict comprehensions depend on that order. The clock reading a
 * traced call takes is the parameter `elapsed`; the logger is left out.
 */
module Metrics {
  import opened Prelude

  // ---------------------------------------------------------------------------
  // Python's ordering of strings and of (key, value) label pairs

  /** `a < b` on Python strings: lexicographic by code point. */
  predicate StrLess(a: string, b: string)
    decreases |a|
  {
    if a == [] then b != []
    else if b == [] then false
    else a[0] < b[0] || (a[0] == b[0] && StrLess(a[1..], b[1..]))
  }

  lemma {:induction false} StrLessIrreflexive(a: string)
    ensures !StrLess(a, a)
    decreases |a|
  {
    if a != [] {
      StrLessIrreflexive(a[1..]);
    }
  }

  lemma {:induction false} StrLessTransitive(a: string, b: string, c: string)
    requires StrLess(a, b) && StrLess(b, c)
    ensures StrLess(a, c)
    decreases |a|
  {
    if a != [] && a[0] == b[0] && b[0] == c[0] {
      StrLessTransitive(a[1..], b[1..], c[1..]);
    }
  }

  lemma {:induction false} StrLessTotal(a: string, b: string)
    requires a != b
    ensures StrLess(a, b) || StrLess(b, a)
    decreases |a|
  {
    if a != [] && b != [] && a[0] == b[0] {
      assert a == [a[0]] + a[1..] && b == [b[0]] + b[1..];
      StrLessTotal(a[1..], b[1..]);
    }
  }

  /** A label dict's items. */
  type Labels = seq<(string, string)>

  /** Tuple comparison on label items: by key, then by value. */
  predicate PairLess(p: (string, string), q: (string, string)) {
    StrLess(p.0, q.0) || (p.0 == q.0 && StrLess(p.1, q.1))
  }

  lemma PairLessIrreflexive(p: (string, string))
    ensures !PairLess(p, p)
  {
    StrLessIrreflexive(p.0);
    StrLessIrreflexive(p.1);
  }

  lemma PairLessTransitive(p: (string, string), q: (string, string), s: (string, string))
    requires PairLess(p, q) && PairLess(q, s)
    ensures PairLess(p, s)
  {
    if StrLess(p.0, q.0) && StrLess(q.0, s.0) {
      StrLessTransitive(p.0, q.0, s.0);
    } else if p.0 == q.0 && q.0 == s.0 {
      StrLessTransitive(p.1, q.1, s.1);
    }
  }

  lemma PairLessTotal(p: (string, string), q: (string, string))
    requires p != q
    ensures PairLess(p, q) || PairLess(q, p)
  {
    if p.0 != q.0 {
      StrLessTotal(p.0, q.0);
    } else {
      StrLessTotal(p.1, q.1);
    }
  }

  predicate StrictlySorted(s: Labels) {
    forall i, j :: 0 <= i < j < |s| ==> PairLess(s[i], s[j])
  }

  /** A dict's items: no key twice. */
  predicate LabelDict(l: Labels) {
    forall i, j :: 0 <= i < j < |l| ==> l[i].0 != l[j].0
  }

  /** One step of insertion sort: x goes before the first item it is not above. */
  function InsertLabel(x: (string, string), s: Labels): Labels {
    if s == [] then [x]
    else if PairLess(s[0], x) then [s[0]] + InsertLabel(x, s[1..])
    else [x] + s
  }

  /** `sorted(labels.items())` */
  function SortLabels(l: Labels): Labels {
    if l == [] then [] else InsertLabel(l[0], SortLabels(l[1..]))
  }

  lemma SortedTail(s: Labels)
    requires StrictlySorted(s) && s != []
    ensures StrictlySorted(s[1..])
  {
    forall i, j | 0 <= i < j < |s[1..]|
      ensures PairLess(s[1..][i], s[1..][j])
    {
      assert s[1..][i] == s[i + 1] && s[1..][j] == s[j + 1];
    }
  }

  /** An item below the head of a sorted list can go first. */
  lemma InsertAtHead(x: (string, string), s: Labels)
    requires StrictlySorted(s) && s != [] && x != s[0] && !PairLess(s[0], x)
    ensures StrictlySorted([x] + s)
  {
    var r := [x] + s;
    PairLessTotal(x, s[0]);
    forall j | 0 < j < |s|
      ensures PairLess(x, s[j])
    {
      PairLessTransitive(x, s[0], s[j]);
    }
    forall i, j | 0 <= i < j < |r|
      ensures PairLess(r[i], r[j])
    {
      assert r[j] == s[j - 1];
      if i > 0 {
        assert r[i] == s[i - 1];
      }
    }
  }

  /** The head of a sorted list stays first when an item above it is inserted into the rest. */
  lemma KeepHead(h: (string, string), tail: Labels, x: (string, string), rest: Labels)
    requires StrictlySorted([h] + tail) && PairLess(h, x)
    requires StrictlySorted(rest) && multiset(rest) == multiset(tail) + multiset{x}
    ensures StrictlySorted([h] + rest)
  {
    var r := [h] + rest;
    forall j | 0 < j < |r|
      ensures PairLess(h, r[j])
    {
      assert r[j] == rest[j - 1];
      assert r[j] in multiset(rest);
      if r[j] != x {
        assert r[j] in multiset(tail);
        var k :| 0 <= k < |tail| && tail[k] == r[j];
        var ht := [h] + tail;
        assert ht[0] == h && ht[k + 1] == r[j];
        assert PairLess(ht[0], ht[k + 1]);
      }
    }
    forall i, j | 0 < i < j < |r|
      ensures PairLess(r[i], r[j])
    {
      assert r[i] == rest[i - 1] && r[j] == rest[j - 1];
    }
  }

  lemma {:induction false} InsertLabelSorted(x: (string, string), s: Labels)
    requires StrictlySorted(s) && x !in s
    ensures multiset(InsertLabel(x, s)) == multiset(s) + multiset{x}
    ensures StrictlySorted(InsertLabel(x, s))
  {
    var r := InsertLabel(x, s);
    if s == [] {
    } else if PairLess(s[0], x) {
      SortedTail(s);
      InsertLabelSorted(x, s[1..]);
      assert s == [s[0]] + s[1..];
      KeepHead(s[0], s[1..], x, InsertLabel(x, s[1..]));
    } else {
      InsertAtHead(x, s);
    }
  }

  /** Sorting a dict's items gives a strictly increasing permutation of them. */
  lemma {:induction false} SortLabelsSorted(l: Labels)
    requires LabelDict(l)
    ensures multiset(SortLabels(l)) == multiset(l)
    ensures StrictlySorted(SortLabels(l))
  {
    if l != [] {
      assert LabelDict(l[1..]) by {
        forall i, j | 0 <= i < j < |l[1..]|
          ensures l[1..][i].0 != l[1..][j].0
        {
          assert l[1..][i] == l[i + 1] && l[1..][j] == l[j + 1];
        }
      }
      SortLabelsSorted(l[1..]);
      assert l[0] !in l[1..];
      assert l[0] !in multiset(SortLabels(l[1..]));
      InsertLabelSorted(l[0], SortLabels(l[1..]));
      assert l == [l[0]] + l[1..];
    }
  }

  /** Two strictly increasing sequences with the same items are equal. */
  lemma {:induction false} SortedUnique(s: Labels, t: Labels)
    requires StrictlySorted(s) && StrictlySorted(t)
    requires forall x :: x in s <==> x in t
    ensures s == t
    decreases |s|
  {
    assert s != [] ==> s[0] in t;
    assert t != [] ==> t[0] in s;
    if s != [] && t != [] {
      if s[0] != t[0] {
        assert s[0] in s && t[0] in t;
        var j :| 0 <= j < |t| && t[j] == s[0];
        var i :| 0 <= i < |s| && s[i] == t[0];
        assert PairLess(t[0], s[0]) by {
          assert j > 0;
        }
        assert PairLess(s[0], t[0]) by {
          assert i > 0;
        }
        PairLessTransitive(s[0], t[0], s[0]);
        PairLessIrreflexive(s[0]);
      }
      forall x
        ensures x in s[1..] <==> x in t[1..]
      {
        if x in s[1..] {
          var i :| 0 <= i < |s[1..]| && s[1..][i] == x;
          assert PairLess(s[0], s[i + 1]);
          PairLessIrreflexive(x);
          assert x in t;
        }
        if x in t[1..] {
          var i :| 0 <= i < |t[1..]| && t[1..][i] == x;
          assert PairLess(t[0], t[i + 1]);
          PairLessIrreflexive(x);
          assert x in s;
        }
      }
      SortedTail(s);
      SortedTail(t);
      SortedUnique(s[1..], t[1..]);
      assert s == [s[0]] + s[1..] && t == [t[0]] + t[1..];
    }
  }

  // ---------------------------------------------------------------------------
  // Metric keys and insertion-ordered dicts

  /** `(name, tuple(sorted((labels or {}).items())))` */
  datatype MetricKey = MetricKey(name: string, labels: Labels)

  function KeyOf(name: string, labels: Option<Labels>): MetricKey {
    MetricKey(name, SortLabels(if labels.Some? then labels.value else []))
  }

  /** The key does not depend on the order in which the labels were given. */
  lemma KeyIgnoresLabelOrder(name: string, l1: Labels, l2: Labels)
    requires LabelDict(l1) && LabelDict(l2)
    requires forall p :: p in l1 <==> p in l2
    ensures KeyOf(name, Some(l1)) == KeyOf(name, Some(l2))
  {
    SortLabelsSorted(l1);
    SortLabelsSorted(l2);
    var s1, s2 := SortLabels(l1), SortLabels(l2);
    forall p
      ensures p in s1 <==> p in s2
    {
      assert (p in s1) == (p in multiset(s1)) == (p in multiset(l1)) == (p in l1);
      assert (p in s2) == (p in multiset(s2)) == (p in multiset(l2)) == (p in l2);
    }
    SortedUnique(s1, s2);
  }

  predicate UniqueKeys<K(==,!new), V>(d: seq<(K, V)>) {
    forall i, j :: 0 <= i < j < |d| ==> d[i].0 != d[j].0
  }

  /** `d.get(k)` */
  function Lookup<K(==,!new), V>(d: seq<(K, V)>, k: K): (r: Option<V>)
    ensures r.None? <==> forall i :: 0 <= i < |d| ==> d[i].0 != k
  {
    if d == [] then None
    else if d[0].0 == k then Some(d[0].1)
    else
      var r := Lookup(d[1..], k);
      assert forall i :: 0 < i < |d| ==> d[i] == d[1..][i - 1];
      r
  }

  /** `d[k] = v`: an existing key keeps its position, a new key goes last. */
  function Store<K(==,!new), V>(d: seq<(K, V)>, k: K, v: V): (r: seq<(K, V)>)
    ensures Lookup(r, k) == Some(v)
    ensures forall j :: j != k ==> Lookup(r, j) == Lookup(d, j)
    ensures |r| == if Lookup(d, k).Some? then |d| else |d| + 1
    ensures UniqueKeys(d) ==> UniqueKeys(r)
  {
    if d == [] then [(k, v)]
    else if d[0].0 == k then
      var r := [(k, v)] + d[1..];
      assert forall i :: 0 < i < |r| ==> r[i] == d[i];
      r
    else
      var rest := Store(d[1..], k, v);
      var r := [d[0]] + rest;
      assert UniqueKeys(d) ==> UniqueKeys(d[1..]) && Lookup(d[1..], d[0].0).None? by {
        assert forall i :: 0 <= i < |d[1..]| ==> d[1..][i] == d[i + 1];
      }
      assert UniqueKeys(d) ==> UniqueKeys(r) by {
        if UniqueKeys(d) {
          forall i, j | 0 <= i < j < |r|
            ensures r[i].0 != r[j].0
          {
            assert r[j] == rest[j - 1];
            if i == 0 {
              assert Lookup(rest, d[0].0).None?;
            } else {
              assert r[i] == rest[i - 1];
            }
          }
        }
      }
      r
  }

  /** `d.get(k, 0)` on a counter dict. */
  function CountOf(d: seq<(MetricKey, nat)>, k: MetricKey): nat {
    var c := Lookup(d, k);
    if c.Some? then c.value else 0
  }

  /** `d.get(k, [])` on a timer dict. */
  function DurationsOf(d: seq<(MetricKey, seq<real>)>, k: MetricKey): seq<real> {
    var c := Lookup(d, k);
    if c.Some? then c.value else []
  }

  // ---------------------------------------------------------------------------
  // The summary

  /** Sum, minimum and maximum of a list of durations. */
  function SumOf(v: seq<real>): real {
    if v == [] then 0.0 else v[0] + SumOf(v[1..])
  }

  function MinOf(v: seq<real>): (m: real)
    requires v != []
    ensures m in v && forall x :: x in v ==> m <= x
  {
    if |v| == 1 then v[0]
    else
      var m := MinOf(v[1..]);
      assert forall x :: x in v ==> x == v[0] || x in v[1..];
      if v[0] <= m then v[0] else m
  }

  function MaxOf(v: seq<real>): (m: real)
    requires v != []
    ensures m in v && forall x :: x in v ==> x <= m
  {
    if |v| == 1 then v[0]
    else
      var m := MaxOf(v[1..]);
      assert forall x :: x in v ==> x == v[0] || x in v[1..];
      if v[0] >= m then v[0] else m
  }

  /** x added up n times. */
  function Times(n: nat, x: real): (r: real)
    ensures r == n as real * x
  {
    if n == 0 then 0.0 else
      var r := x + Times(n - 1, x);
      assert n as real * x == (n - 1) as real * x + x;
      r
  }

  /** The sum lies between |v| times the least and |v| times the greatest duration. */
  lemma {:induction false} SumBetween(v: seq<real>, lo: real, hi: real)
    requires forall x :: x in v ==> lo <= x <= hi
    ensures Times(|v|, lo) <= SumOf(v) <= Times(|v|, hi)
  {
    if v != [] {
      assert v[0] in v && forall x :: x in v[1..] ==> x in v;
      SumBetween(v[1..], lo, hi);
      assert Times(|v|, lo) == lo + Times(|v| - 1, lo);
      assert Times(|v|, hi) == hi + Times(|v| - 1, hi);
    }
  }

  /** A total of n values, each at least lo and at most hi, averages between lo and hi. */
  lemma AverageBetween(total: real, n: nat, lo: real, hi: real)
    requires n > 0 && Times(n, lo) <= total <= Times(n, hi)
    ensures lo <= total / n as real <= hi
  {
    QuotientAtLeast(total, n as real, lo);
    QuotientAtMost(total, n as real, hi);
  }

  lemma QuotientAtLeast(total: real, m: real, lo: real)
    requires m > 0.0 && m * lo <= total
    ensures lo <= total / m
  {
    var q := total / m;
    assert m * q == total;
    if q < lo {
      ScaleStrict(m, q, lo);
    }
  }

  lemma QuotientAtMost(total: real, m: real, hi: real)
    requires m > 0.0 && total <= m * hi
    ensures total / m <= hi
  {
    var q := total / m;
    assert m * q == total;
    if q > hi {
      ScaleStrict(m, hi, q);
    }
  }

  lemma ScaleStrict(p: real, x: real, y: real)
    requires p > 0.0 && x < y
    ensures p * x < p * y
  {
    assert p * y - p * x == p * (y - x);
  }

  /** The mean of the durations lies between their minimum and maximum. */
  lemma MeanBetween(v: seq<real>)
    requires v != []
    ensures MinOf(v) <= SumOf(v) / |v| as real <= MaxOf(v)
  {
    SumBetween(v, MinOf(v), MaxOf(v));
    AverageBetween(SumOf(v), |v|, MinOf(v), MaxOf(v));
  }

  /** The summary of one timer. */
  datatype TimerStats = TimerStats(count: nat, avg: real, min: real, max: real)

  /** `{"count": len(v), "avg": sum(v)/len(v) if v else 0, "min": ..., "max": ...}` */
  function TimerStatsOf(v: seq<real>): (r: TimerStats)
    ensures r.count == |v|
    ensures v == [] ==> r == TimerStats(0, 0.0, 0.0, 0.0)
    ensures v != [] ==> r.min in v && r.max in v && r.min <= r.avg <= r.max
    ensures v != [] ==> forall x :: x in v ==> r.min <= x <= r.max
  {
    if v == [] then TimerStats(0, 0.0, 0.0, 0.0)
    else
      MeanBetween(v);
      TimerStats(|v|, SumOf(v) / |v| as real, MinOf(v), MaxOf(v))
  }

  /** `{k[0]: v for k, v in d.items()}`: later keys with the same name overwrite earlier ones. */
  function ByName<V>(d: seq<(MetricKey, V)>): (r: seq<(string, V)>)
    ensures UniqueKeys(r)
  {
    if d == [] then [] else Store(ByName(d[..|d| - 1]), d[|d| - 1].0.name, d[|d| - 1].1)
  }

  /** The value of the last key in d with the given name. */
  function LastNamed<V>(d: seq<(MetricKey, V)>, name: string): Option<V> {
    if d == [] then None
    else if d[|d| - 1].0.name == name then Some(d[|d| - 1].1)
    else LastNamed(d[..|d| - 1], name)
  }

  /** Each name in the summary carries the value of the last key with that name. */
  lemma {:induction false} ByNameIsLastNamed<V>(d: seq<(MetricKey, V)>, name: string)
    ensures Lookup(ByName(d), name) == LastNamed(d, name)
  {
    if d != [] {
      ByNameIsLastNamed(d[..|d| - 1], name);
    }
  }

  /** `{k[0]: stats(v) for k, v in timers.items()}` before the names collapse. */
  function TimerStatsByKey(d: seq<(MetricKey, seq<real>)>): (r: seq<(MetricKey, TimerStats)>)
    ensures |r| == |d| && forall i :: 0 <= i < |d| ==> r[i] == (d[i].0, TimerStatsOf(d[i].1))
  {
    seq(|d|, i requires 0 <= i < |d| => (d[i].0, TimerStatsOf(d[i].1)))
  }

  datatype MetricsSummary = MetricsSummary(counters: seq<(string, nat)>, timers: seq<(string, TimerStats)>,
                                           gauges: seq<(string, real)>)

  /**
   * Two label variants of one counter are not added up: the summary shows
   * the count of the variant recorded last.
   */
  lemma LabelVariantsCollapse()
    ensures var a, b := KeyOf("calls", Some([("tool", "search")])), KeyOf("calls", Some([("tool", "convert")]));
      ByName<nat>([(a, 1), (b, 2)]) == [("calls", 2)]
  {
    var a, b := KeyOf("calls", Some([("tool", "search")])), KeyOf("calls", Some([("tool", "convert")]));
    var d: seq<(MetricKey, nat)> := [(a, 1), (b, 2)];
    assert d[..1] == [(a, 1)] && d[..1][..0] == [];
    assert ByName(d[..1]) == Store([], "calls", 1) == [("calls", 1)];
    assert ByName(d) == Store(ByName(d[..1]), "calls", 2);
  }

  // ---------------------------------------------------------------------------
  // MetricsCollector

  class MetricsCollector {
    var counters: seq<(MetricKey, nat)>
    var timers: seq<(MetricKey, seq<real>)>
    var gauges: seq<(MetricKey, real)>

    ghost predicate Valid()
      reads this
    {
      UniqueKeys(counters) && UniqueKeys(timers) && UniqueKeys(gauges)
    }

    constructor()
      ensures Valid() && counters == [] && timers == [] && gauges == []
    {
      counters := [];
      timers := [];
      gauges := [];
    }

    /** `increment_counter`: exactly the key's count goes up by one. */
    method IncrementCounter(name: string, labels: Option<Labels>)
      requires Valid()
      modifies this
      ensures Valid() && timers == old(timers) && gauges == old(gauges)
      ensures counters == Store<MetricKey, nat>(old(counters), KeyOf(name, labels), old(CountOf(counters, KeyOf(name, labels))) + 1)
      ensures CountOf(counters, KeyOf(name, labels)) == old(CountOf(counters, KeyOf(name, labels))) + 1
      ensures forall k :: k != KeyOf(name, labels) ==> Lookup(counters, k) == old(Lookup(counters, k))
    {
      var key := KeyOf(name, labels);
      counters := Store<MetricKey, nat>(counters, key, CountOf(counters, key) + 1);
    }

    /** `record_timer`: exactly one duration is appended to the key's list. */
    method RecordTimer(name: string, duration: real, labels: Option<Labels>)
      requires Valid()
      modifies this
      ensures Valid() && counters == old(counters) && gauges == old(gauges)
      ensures timers == Store(old(timers), KeyOf(name, labels), old(DurationsOf(timers, KeyOf(name, labels))) + [duration])
      ensures DurationsOf(timers, KeyOf(name, labels)) == old(DurationsOf(timers, KeyOf(name, labels))) + [duration]
      ensures forall k :: k != KeyOf(name, labels) ==> Lookup(timers, k) == old(Lookup(timers, k))
    {
      // A missing key first gets an empty list, at the end of the dict where the append then lands.
      var key := KeyOf(name, labels);
      timers := Store(timers, key, DurationsOf(timers, key) + [duration]);
    }

    /** `set_gauge`: the key's value is replaced. */
    method SetGauge(name: string, value: real, labels: Option<Labels>)
      requires Valid()
      modifies this
      ensures Valid() && counters == old(counters) && timers == old(timers)
      ensures gauges == Store(old(gauges), KeyOf(name, labels), value)
      ensures Lookup(gauges, KeyOf(name, labels)) == Some(value)
      ensures forall k :: k != KeyOf(name, labels) ==> Lookup(gauges, k) == old(Lookup(gauges, k))
    {
      gauges := Store(gauges, KeyOf(name, labels), value);
    }

    /**
     * `get_metrics_summary`: one entry per metric name, carrying the value of
     * the last key with that name; a timer's entry summarises its durations.
     */
    function GetMetricsSummary(): (r: MetricsSummary)
      reads this
      ensures UniqueKeys(r.counters) && UniqueKeys(r.timers) && UniqueKeys(r.gauges)
      ensures forall n :: Lookup(r.counters, n) == LastNamed(counters, n)
      ensures forall n :: Lookup(r.gauges, n) == LastNamed(gauges, n)
      ensures forall n :: Lookup(r.timers, n) == LastNamed(TimerStatsByKey(timers), n)
    {
      forall n
        ensures Lookup(ByName(counters), n) == LastNamed(counters, n)
        ensures Lookup(ByName(gauges), n) == LastNamed(gauges, n)
        ensures Lookup(ByName(TimerStatsByKey(timers)), n) == LastNamed(TimerStatsByKey(timers), n)
      {
        ByNameIsLastNamed(counters, n);
        ByNameIsLastNamed(gauges, n);
        ByNameIsLastNamed(TimerStatsByKey(timers), n);
      }
      MetricsSummary(ByName(counters), ByName(TimerStatsByKey(timers)), ByName(gauges))
    }
  }

  /** A summarised timer counts exactly the durations recorded under the last key with its name. */
  lemma {:induction false} SummaryTimerCounts(d: seq<(MetricKey, seq<real>)>, name: string)
    ensures LastNamed(TimerStatsByKey(d), name).Some? <==> LastNamed(d, name).Some?
    ensures LastNamed(d, name).Some? ==> LastNamed(TimerStatsByKey(d), name).value == TimerStatsOf(LastNamed(d, name).value)
  {
    if d != [] {
      assert TimerStatsByKey(d)[..|d| - 1] == TimerStatsByKey(d[..|d| - 1]);
      SummaryTimerCounts(d[..|d| - 1], name);
    }
  }

  // ---------------------------------------------------------------------------
  // TraceDecorator

  /** How a wrapped call ended: with a value, or by raising. */
  datatype CallResult<T> = Returned(value: T) | Raised(error: string)

  /**
   * The wrapper `TraceDecorator` puts around `func`: whether the call returns
   * or raises, one duration is recorded under `<func name>_execution_time`
   * with no labels, and the call's own outcome is passed on (the exception
   * re-raised).
   */
  method TracedCall<T>(metrics: MetricsCollector, funcName: string, call: CallResult<T>, elapsed: real)
    returns (r: CallResult<T>)
    requires metrics.Valid()
    modifies metrics
    ensures metrics.Valid() && r == call
    ensures metrics.counters == old(metrics.counters) && metrics.gauges == old(metrics.gauges)
    ensures var key := KeyOf(funcName + "_execution_time", None);
      DurationsOf(metrics.timers, key) == old(DurationsOf(metrics.timers, key)) + [elapsed]
      && forall k :: k != key ==> Lookup(metrics.timers, k) == old(Lookup(metrics.timers, k))
  {
    match call
    case Returned(_) =>
      metrics.RecordTimer(funcName + "_execution_time", elapsed, None);
      r := call;
    case Raised(_) =>
      metrics.RecordTimer(funcName + "_execution_time", elapsed, None);
      r := call;
  }
}
