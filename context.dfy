/**
 * The context window (ecoagent/context_engineering.py): keyed context items
 * with time-to-live expiry and a relevance score, compaction to the top
 * items by score, snapshots with a size and a content hash, and the tool
 * functions that add and purge items.
 *
 * The clock is the parameter `now` (seconds). The sha256 digest of the
 * snapshot hash is the parameter `digest`, applied to the key-to-rendering
 * map that `json.dumps(..., sort_keys=True)` serialises.
 */
module Context {
  import opened Prelude

  datatype ContextImportance = Critical | High | Medium | Low | Trivial

  /** The enum's value: CRITICAL = 5 down to TRIVIAL = 1. */
  function ImportanceValue(i: ContextImportance): int {
    match i
    case Critical => 5
    case High => 4
    case Medium => 3
    case Low => 2
    case Trivial => 1
  }

  function ImportanceName(i: ContextImportance): string {
    match i
    case Critical => "CRITICAL"
    case High => "HIGH"
    case Medium => "MEDIUM"
    case Low => "LOW"
    case Trivial => "TRIVIAL"
  }

  /** `ContextImportance[name]`; None stands for the KeyError. */
  function ImportanceByName(name: string): (r: Option<ContextImportance>)
    ensures r.Some? ==> ImportanceName(r.value) == name
    ensures r.None? ==> forall i :: ImportanceName(i) != name
  {
    if name == "CRITICAL" then Some(Critical)
    else if name == "HIGH" then Some(High)
    else if name == "MEDIUM" then Some(Medium)
    else if name == "LOW" then Some(Low)
    else if name == "TRIVIAL" then Some(Trivial)
    else None
  }

  datatype ContextType =
    | UserProfile | ConversationHistory | SustainabilityGoals | SustainabilityActions
    | CarbonFootprint | Recommendations | OperationState | Preferences | Constraints | Metadata

  /** The enum's value, e.g. "user_profile". */
  function TypeValue(t: ContextType): string {
    match t
    case UserProfile => "user_profile"
    case ConversationHistory => "conversation_history"
    case SustainabilityGoals => "sustainability_goals"
    case SustainabilityActions => "sustainability_actions"
    case CarbonFootprint => "carbon_footprint"
    case Recommendations => "recommendations"
    case OperationState => "operation_state"
    case Preferences => "preferences"
    case Constraints => "constraints"
    case Metadata => "metadata"
  }

  /** The enum member's name, e.g. "USER_PROFILE". */
  function TypeName(t: ContextType): string {
    match t
    case UserProfile => "USER_PROFILE"
    case ConversationHistory => "CONVERSATION_HISTORY"
    case SustainabilityGoals => "SUSTAINABILITY_GOALS"
    case SustainabilityActions => "SUSTAINABILITY_ACTIONS"
    case CarbonFootprint => "CARBON_FOOTPRINT"
    case Recommendations => "RECOMMENDATIONS"
    case OperationState => "OPERATION_STATE"
    case Preferences => "PREFERENCES"
    case Constraints => "CONSTRAINTS"
    case Metadata => "METADATA"
  }

  /** `ContextType[name]`; None stands for the KeyError. */
  function TypeByName(name: string): (r: Option<ContextType>)
    ensures r.Some? ==> TypeName(r.value) == name
    ensures r.None? ==> forall t :: TypeName(t) != name
  {
    if name == "USER_PROFILE" then Some(UserProfile)
    else if name == "CONVERSATION_HISTORY" then Some(ConversationHistory)
    else if name == "SUSTAINABILITY_GOALS" then Some(SustainabilityGoals)
    else if name == "SUSTAINABILITY_ACTIONS" then Some(SustainabilityActions)
    else if name == "CARBON_FOOTPRINT" then Some(CarbonFootprint)
    else if name == "RECOMMENDATIONS" then Some(Recommendations)
    else if name == "OPERATION_STATE" then Some(OperationState)
    else if name == "PREFERENCES" then Some(Preferences)
    else if name == "CONSTRAINTS" then Some(Constraints)
    else if name == "METADATA" then Some(Metadata)
    else None
  }

  // ---------------------------------------------------------------------------
  // Relevance score

  const SecondsPerDay: real := 86400.0

  /**
   * `get_relevance_score`: twenty points per importance level, a recency
   * term of 100 that halves after a day, and five points per access up to
   * 30. The source divides by zero at an age of exactly minus one day.
   */
  function RelevanceScore(imp: ContextImportance, ageSeconds: real, accesses: nat): (r: real)
    requires ageSeconds != -SecondsPerDay
    ensures ageSeconds >= 0.0 ==> ImportanceValue(imp) as real * 20.0 < r <= ImportanceValue(imp) as real * 20.0 + 130.0
    ensures ageSeconds == 0.0 && accesses == 0 ==> r == ImportanceValue(imp) as real * 20.0 + 100.0
  {
    var ageHours := ageSeconds / 3600.0;
    var base := ImportanceValue(imp) as real * 20.0;
    var recency := 100.0 / (1.0 + ageHours / 24.0);
    assert ageSeconds >= 0.0 ==> 0.0 < recency <= 100.0 by {
      if ageSeconds >= 0.0 {
        var d := 1.0 + ageHours / 24.0;
        assert d >= 1.0;
        assert recency * d == 100.0;
      }
    }
    var access := MinReal(accesses as real * 5.0, 30.0);
    base + recency + access
  }

  /** Each access adds five points up to the sixth; from then on accesses add nothing. */
  lemma ScoreGrowsWithAccess(imp: ContextImportance, ageSeconds: real, n: nat)
    requires ageSeconds != -SecondsPerDay
    ensures n < 6 ==> RelevanceScore(imp, ageSeconds, n + 1) == RelevanceScore(imp, ageSeconds, n) + 5.0
    ensures n >= 6 ==> RelevanceScore(imp, ageSeconds, n + 1) == RelevanceScore(imp, ageSeconds, n)
  {
  }

  /** An older item never scores higher. */
  lemma ScoreAntitoneInAge(imp: ContextImportance, a1: real, a2: real, accesses: nat)
    requires 0.0 <= a1 <= a2
    ensures RelevanceScore(imp, a2, accesses) <= RelevanceScore(imp, a1, accesses)
  {
    var d1 := 1.0 + a1 / 3600.0 / 24.0;
    var d2 := 1.0 + a2 / 3600.0 / 24.0;
    assert 1.0 <= d1 <= d2;
    var q1 := 100.0 / d1;
    var q2 := 100.0 / d2;
    assert q1 * d1 == 100.0 && q2 * d2 == 100.0;
    assert q2 * d1 <= q2 * d2;
    assert q2 * d1 <= q1 * d1;
  }

  /** At equal age and access count, a higher importance scores strictly higher. */
  lemma ScoreStrictInImportance(a: ContextImportance, b: ContextImportance, ageSeconds: real, accesses: nat)
    requires ImportanceValue(a) > ImportanceValue(b) && ageSeconds != -SecondsPerDay
    ensures RelevanceScore(a, ageSeconds, accesses) >= RelevanceScore(b, ageSeconds, accesses) + 20.0
  {
  }

  // ---------------------------------------------------------------------------
  // A context item

  class ContextItem {
    const key: string
    const value: Value
    const contextType: ContextType
    const importance: ContextImportance
    const timestamp: Time
    const expiresAt: Option<Time>
    const ttlSeconds: Option<int>
    var accessCount: nat
    var lastAccessed: Option<Time>

    constructor (key: string, value: Value, contextType: ContextType, importance: ContextImportance,
                 timestamp: Time, expiresAt: Option<Time>, ttlSeconds: Option<int>)
      ensures this.key == key && this.value == value && this.contextType == contextType
      ensures this.importance == importance && this.timestamp == timestamp
      ensures this.expiresAt == expiresAt && this.ttlSeconds == ttlSeconds
      ensures accessCount == 0 && lastAccessed == None
    {
      this.key, this.value, this.contextType, this.importance := key, value, contextType, importance;
      this.timestamp, this.expiresAt, this.ttlSeconds := timestamp, expiresAt, ttlSeconds;
      accessCount, lastAccessed := 0, None;
    }

    /** `is_expired`: strictly past the deadline; no deadline never expires. */
    predicate IsExpiredAt(now: Time) {
      expiresAt.Some? && now > expiresAt.value
    }

    function AgeSeconds(now: Time): real {
      now - timestamp
    }

    function ScoreAt(now: Time): real
      reads this
      requires AgeSeconds(now) != -SecondsPerDay
    {
      RelevanceScore(importance, AgeSeconds(now), accessCount)
    }

    /** `update_access`: one more access, stamped now; the score rises until the sixth. */
    method UpdateAccess(now: Time)
      modifies this
      ensures accessCount == old(accessCount) + 1 && lastAccessed == Some(now)
      ensures forall t :: AgeSeconds(t) != -SecondsPerDay ==>
                (old(accessCount) < 6 ==> ScoreAt(t) == old(ScoreAt(t)) + 5.0)
                && (old(accessCount) >= 6 ==> ScoreAt(t) == old(ScoreAt(t)))
    {
      accessCount := accessCount + 1;
      lastAccessed := Some(now);
      forall t | AgeSeconds(t) != -SecondsPerDay
        ensures old(accessCount) < 6 ==> ScoreAt(t) == old(ScoreAt(t)) + 5.0
        ensures old(accessCount) >= 6 ==> ScoreAt(t) == old(ScoreAt(t))
      {
        ScoreGrowsWithAccess(importance, AgeSeconds(t), old(accessCount));
      }
    }
  }

  // ---------------------------------------------------------------------------
  // Python renderings of a value

  /** `repr(v)`; a dict's keys are strings. */
  function Repr(v: Value): string
    decreases v
  {
    match v
    case Text(s) => PyRepr(s)
    case Scalar(_, repr, _) => repr
    case List(es) => "[" + Join(", ", seq(|es|, i requires 0 <= i < |es| => Repr(es[i]))) + "]"
    case Dict(fs) => "{" + Join(", ", seq(|fs|, i requires 0 <= i < |fs| => PyRepr(fs[i].0) + ": " + Repr(fs[i].1))) + "}"
  }

  /** `str(v)` */
  function Str(v: Value): string {
    if v.Text? then v.text else if v.Scalar? then v.str else Repr(v)
  }

  /** `json.dumps(v)`; None where it raises (a value JSON cannot encode). */
  function Json(v: Value): Option<string>
    decreases v
  {
    match v
    case Text(s) => Some(JsonQuote(s))
    case Scalar(_, _, json) => json
    case List(es) =>
      var parts := seq(|es|, i requires 0 <= i < |es| => Json(es[i]));
      if forall i :: 0 <= i < |parts| ==> parts[i].Some? then
        Some("[" + Join(", ", seq(|parts|, i requires 0 <= i < |parts| && parts[i].Some? => parts[i].value)) + "]")
      else None
    case Dict(fs) =>
      var parts := seq(|fs|, i requires 0 <= i < |fs| => Json(fs[i].1));
      if forall i :: 0 <= i < |parts| ==> parts[i].Some? then
        Some("{" + Join(", ", seq(|parts|, i requires 0 <= i < |parts| && parts[i].Some? =>
                                    JsonQuote(fs[i].0) + ": " + parts[i].value)) + "}")
      else None
  }

  /** The number of bytes of the UTF-8 encoding of a character. */
  function CharBytes(c: char): nat {
    if c as int < 0x80 then 1 else if c as int < 0x800 then 2 else if c as int < 0x10000 then 3 else 4
  }

  /** `len(s.encode('utf-8'))` */
  function Utf8Len(s: string): (r: nat)
    ensures |s| <= r <= 4 * |s|
  {
    if s == [] then 0 else CharBytes(s[0]) + Utf8Len(s[1..])
  }

  /** The bytes `calculate_size` counts for one value: its JSON, or else its `str`. */
  function ValueBytes(v: Value): nat {
    var j := Json(v);
    Utf8Len(if j.Some? then j.value else Str(v))
  }

  // ---------------------------------------------------------------------------
  // Snapshots

  datatype ContextSnapshot = ContextSnapshot(
    timestamp: Time, items: map<string, ContextItem>, keys: seq<string>,
    totalSizeBytes: nat, compressionRatio: real, hashId: string)

  /** `calculate_size`: the bytes of every value, in key order. */
  function CalculateSize(items: map<string, ContextItem>, keys: seq<string>): (r: nat)
    requires forall k :: k in keys ==> k in items
    ensures keys == [] ==> r == 0
  {
    if keys == [] then 0 else ValueBytes(items[keys[0]].value) + CalculateSize(items, keys[1..])
  }

  /** The sizes of two runs of keys add up. */
  lemma {:induction false} SizeAdditive(items: map<string, ContextItem>, a: seq<string>, b: seq<string>)
    requires forall k :: k in a + b ==> k in items
    ensures CalculateSize(items, a + b) == CalculateSize(items, a) + CalculateSize(items, b)
    decreases |a|
  {
    if a != [] {
      assert (a + b)[0] == a[0];
      assert (a + b)[1..] == a[1..] + b;
      SizeAdditive(items, a[1..], b);
      assert CalculateSize(items, a + b) == ValueBytes(items[a[0]].value) + CalculateSize(items, a[1..] + b);
      assert CalculateSize(items, a) == ValueBytes(items[a[0]].value) + CalculateSize(items, a[1..]);
    } else {
      assert a + b == b;
    }
  }

  /** The key-to-`str(value)` map that the hash serialises with sorted keys. */
  function Renderings(items: map<string, ContextItem>): map<string, string> {
    map k | k in items :: Str(items[k].value)
  }

  /**
   * `calculate_hash`: the first 16 hex digits of the digest of the sorted
   * serialisation, a function of the key-to-rendering map alone.
   */
  function CalculateHash(items: map<string, ContextItem>, digest: map<string, string> -> string): (r: string)
    ensures |digest(Renderings(items))| >= 16 ==> |r| == 16
  {
    Take(digest(Renderings(items)), 16)
  }

  /**
   * Two item maps whose values render alike (whatever their insertion order
   * or the items' other fields) hash alike.
   */
  lemma HashDependsOnRenderingsOnly(a: map<string, ContextItem>, b: map<string, ContextItem>,
                                    digest: map<string, string> -> string)
    requires a.Keys == b.Keys
    requires forall k :: k in a ==> Str(a[k].value) == Str(b[k].value)
    ensures CalculateHash(a, digest) == CalculateHash(b, digest)
  {
    assert Renderings(a) == Renderings(b);
  }

  // ---------------------------------------------------------------------------
  // Summaries

  /**
   * `_summarize_item`: a dict as its size and first five keys, a list as
   * its size and its first element cut to 50 characters, anything else as
   * its `str` cut to 100 characters; each after the type's value.
   */
  function SummarizeValue(t: ContextType, v: Value): (r: string)
    ensures TypeValue(t) + ": " <= r
    ensures v.Text? || v.Scalar? ==> |r| <= |TypeValue(t)| + 2 + 100 && r[|TypeValue(t)| + 2..] <= Str(v)
    ensures v.List? ==> TypeValue(t) + ": " + NatToString(|v.elems|) + " items" <= r
    ensures v.Dict? ==> TypeValue(t) + ": " + NatToString(|v.entries|) + " items" <= r
  {
    var head := TypeValue(t) + ": ";
    var detail := Detail(v);
    PrefixOfConcat(head, detail);
    assert (head + detail)[|head|..] == detail;
    if v.Text? || v.Scalar? then head + detail
    else
      PrefixExtend(head, NatToString(if v.List? then |v.elems| else |v.entries|) + " items", detail);
      head + detail
  }

  lemma PrefixExtend(head: string, count: string, detail: string)
    requires count <= detail
    ensures head + count <= head + detail
  {
    assert detail == count + detail[|count|..];
    assert head + detail == (head + count) + detail[|count|..];
    PrefixOfConcat(head + count, detail[|count|..]);
  }

  /** What `_summarize_item` writes after the type. */
  function Detail(v: Value): (r: string)
    ensures v.Text? || v.Scalar? ==> |r| <= 100 && r <= Str(v)
    ensures v.List? ==> NatToString(|v.elems|) + " items" <= r
    ensures v.Dict? ==> NatToString(|v.entries|) + " items" <= r
  {
    match v
    case Dict(fs) =>
      var count := NatToString(|fs|) + " items";
      var rest := ", keys: " + Join(", ", Take(Keys(fs), 5));
      PrefixOfConcat(count, rest);
      count + rest
    case List(es) =>
      var count := NatToString(|es|) + " items";
      var first := if es != [] then Take(Str(es[0]), 50) else "empty";
      var rest := ", first: " + first + "...";
      PrefixOfConcat(count, rest);
      count + rest
    case Text(s) =>
      Take(s, 100)
    case Scalar(s, _, _) =>
      Take(s, 100)
  }

  lemma PrefixOfConcat(a: string, b: string)
    ensures a <= a + b
  {
    assert (a + b)[..|a|] == a;
  }

  /** `summarize_items`: every item summarised under its key. */
  function SummarizeItems(items: map<string, ContextItem>): (r: map<string, string>)
    ensures r.Keys == items.Keys
    ensures forall k :: k in items ==> r[k] == SummarizeValue(items[k].contextType, items[k].value)
  {
    map k | k in items :: SummarizeValue(items[k].contextType, items[k].value)
  }

  // ---------------------------------------------------------------------------
  // Compaction: the top items by score

  /** The keys of a dict in iteration order. */
  predicate Enumerates(items: map<string, ContextItem>, order: seq<string>) {
    Distinct(order) && (forall k :: k in order ==> k in items) && (forall k :: k in items ==> k in order)
  }

  /** Every item can be scored at `now`. */
  predicate Scorable(items: map<string, ContextItem>, now: Time) {
    forall k :: k in items ==> items[k].AgeSeconds(now) != -SecondsPerDay
  }

  /** The keys of the unexpired items, in order. */
  function LiveKeys(items: map<string, ContextItem>, order: seq<string>, now: Time): (r: seq<string>)
    requires forall k :: k in order ==> k in items
    ensures forall k :: k in r <==> k in order && !items[k].IsExpiredAt(now)
    ensures Distinct(order) ==> Distinct(r)
    ensures |r| <= |order|
  {
    if order == [] then []
    else
      var rest := LiveKeys(items, order[1..], now);
      assert Distinct(order) ==> order[0] !in order[1..];
      if items[order[0]].IsExpiredAt(now) then rest else [order[0]] + rest
  }

  /** A key with its item's score. */
  datatype ScoredKey = ScoredKey(key: string, score: real)

  function ByScore(s: ScoredKey): Rank { Rank(s.score, 0.0) }

  /** Every item's `get_relevance_score()` at `now`. */
  function Scores(items: map<string, ContextItem>, now: Time): (r: map<string, real>)
    reads set k | k in items :: items[k]
    requires Scorable(items, now)
    ensures r.Keys == items.Keys
  {
    map k | k in items :: items[k].ScoreAt(now)
  }

  function ScoreWith(scores: map<string, real>, keys: seq<string>): (r: seq<ScoredKey>)
    requires forall k :: k in keys ==> k in scores
    ensures |r| == |keys|
    ensures forall i :: 0 <= i < |keys| ==> r[i] == ScoredKey(keys[i], scores[keys[i]])
  {
    seq(|keys|, i requires 0 <= i < |keys| => ScoredKey(keys[i], scores[keys[i]]))
  }

  function KeysOf(ss: seq<ScoredKey>): (r: seq<string>)
    ensures |r| == |ss| && forall i :: 0 <= i < |ss| ==> r[i] == ss[i].key
  {
    seq(|ss|, i requires 0 <= i < |ss| => ss[i].key)
  }

  /** How many of n unexpired items compaction keeps: the target size, or all n when that is larger. */
  function KeptCount(n: nat, targetReduction: real): (r: nat)
    ensures r <= n && (n > 0 ==> r >= 1)
  {
    Min(TargetSize(n, targetReduction), n)
  }

  /** `max(1, int(n * (1 - target_reduction)))` */
  function TargetSize(n: nat, targetReduction: real): (r: nat)
    ensures 1 <= r
  {
    var t := Trunc(n as real * (1.0 - targetReduction));
    if t >= 1 then t else 1
  }

  /** The first c scored keys by descending score (ties keep their order). */
  function TopOf(ss: seq<ScoredKey>, c: nat): (r: seq<ScoredKey>)
    ensures |r| == if c < |ss| then c else |ss|
  {
    Take(SortDesc(ss, ByScore), c)
  }

  /** The keys among `live` that compaction keeps, highest score first. */
  function TopKeys(scores: map<string, real>, live: seq<string>, targetReduction: real): seq<string>
    requires forall k :: k in live ==> k in scores
  {
    KeysOf(TopOf(ScoreWith(scores, live), TargetSize(|live|, targetReduction)))
  }

  /**
   * The keys `compact_context` keeps: the unexpired items sorted by score,
   * cut to the target size.
   */
  function KeptKeys(items: map<string, ContextItem>, order: seq<string>, targetReduction: real, now: Time): seq<string>
    reads set k | k in items :: items[k]
    requires forall k :: k in order ==> k in items
    requires Scorable(items, now)
  {
    TopKeys(Scores(items, now), LiveKeys(items, order, now), targetReduction)
  }

  /** Sorting scored keys keeps them distinct and keeps the same entries. */
  lemma SortKeepsKeysDistinct(ss: seq<ScoredKey>)
    requires Distinct(KeysOf(ss))
    ensures Distinct(KeysOf(SortDesc(ss, ByScore)))
    ensures forall x :: x in SortDesc(ss, ByScore) <==> x in ss
  {
    var t := SortDesc(ss, ByScore);
    assert Distinct(ss) by {
      forall i, j | 0 <= i < j < |ss| ensures ss[i] != ss[j] {
        assert KeysOf(ss)[i] != KeysOf(ss)[j];
      }
    }
    DistinctPermutation(ss, t);
    SortDescSameElements(ss, ByScore);
    forall a, b | 0 <= a < b < |t| ensures t[a].key != t[b].key {
      assert t[a] in ss && t[b] in ss;
      var a' :| 0 <= a' < |ss| && ss[a'] == t[a];
      var b' :| 0 <= b' < |ss| && ss[b'] == t[b];
      assert a' != b';
      assert KeysOf(ss)[a'] != KeysOf(ss)[b'];
    }
  }

  /**
   * The top c entries are distinct entries of ss, and each scores at least
   * as high as every entry of ss whose key was not kept.
   */
  lemma TopScored(ss: seq<ScoredKey>, c: nat)
    requires Distinct(KeysOf(ss))
    ensures Distinct(KeysOf(TopOf(ss, c)))
    ensures forall x :: x in TopOf(ss, c) ==> x in ss
    ensures forall x, y :: x in TopOf(ss, c) && y in ss && y.key !in KeysOf(TopOf(ss, c)) ==> x.score >= y.score
  {
    var t := SortDesc(ss, ByScore);
    var m := TopOf(ss, c);
    SortKeepsKeysDistinct(ss);
    SortDescSorted(ss, ByScore);
    assert forall i :: 0 <= i < |m| ==> m[i] == t[i];
    assert Distinct(KeysOf(m)) by {
      forall i, j | 0 <= i < j < |m| ensures KeysOf(m)[i] != KeysOf(m)[j] {
        assert KeysOf(t)[i] != KeysOf(t)[j];
      }
    }
    forall x, y | x in m && y in ss && y.key !in KeysOf(m) ensures x.score >= y.score {
      var i :| 0 <= i < |m| && m[i] == x;
      assert y in t;
      var j :| 0 <= j < |t| && t[j] == y;
      assert forall k :: 0 <= k < |m| ==> t[k].key == KeysOf(m)[k];
      assert RankGe(ByScore(t[i]), ByScore(t[j]));
    }
  }

  /**
   * Of n distinct live keys, compaction keeps `min(n, max(1, int(n * (1 - r))))`
   * distinct ones, and each kept key scores at least as high as every live
   * key dropped.
   */
  lemma TopKeysAreTop(scores: map<string, real>, live: seq<string>, targetReduction: real)
    requires Distinct(live) && forall k :: k in live ==> k in scores
    ensures var kept := TopKeys(scores, live, targetReduction);
            var c := TargetSize(|live|, targetReduction);
            |kept| == (if c < |live| then c else |live|) && Distinct(kept)
    ensures forall k :: k in TopKeys(scores, live, targetReduction) ==> k in live
    ensures forall a, b ::
              (a in TopKeys(scores, live, targetReduction) && b in live && b !in TopKeys(scores, live, targetReduction)) ==>
              scores[a] >= scores[b]
  {
    var ss := ScoreWith(scores, live);
    assert KeysOf(ss) == live;
    TopScored(ss, TargetSize(|live|, targetReduction));
    TopKeysLive(scores, live, targetReduction);
    TopKeysOutscore(scores, live, targetReduction);
  }

  lemma TopKeysLive(scores: map<string, real>, live: seq<string>, targetReduction: real)
    requires Distinct(live) && forall k :: k in live ==> k in scores
    ensures forall k :: k in TopKeys(scores, live, targetReduction) ==> k in live
  {
    var ss := ScoreWith(scores, live);
    var m := TopOf(ss, TargetSize(|live|, targetReduction));
    var kept := TopKeys(scores, live, targetReduction);
    assert KeysOf(ss) == live;
    TopScored(ss, TargetSize(|live|, targetReduction));
    forall k | k in kept ensures k in live {
      var i :| 0 <= i < |kept| && kept[i] == k;
      assert m[i] in ss;
      var i' :| 0 <= i' < |ss| && ss[i'] == m[i];
      assert live[i'] == k;
    }
  }

  lemma TopKeysOutscore(scores: map<string, real>, live: seq<string>, targetReduction: real)
    requires Distinct(live) && forall k :: k in live ==> k in scores
    ensures forall a, b ::
              (a in TopKeys(scores, live, targetReduction) && b in live && b !in TopKeys(scores, live, targetReduction)) ==>
              a in scores && scores[a] >= scores[b]
  {
    var kept := TopKeys(scores, live, targetReduction);
    forall a, b | a in kept && b in live && b !in kept ensures a in scores && scores[a] >= scores[b] {
      TopKeyOutscores(scores, live, targetReduction, a, b);
    }
  }

  /** One kept key against one dropped key. */
  lemma TopKeyOutscores(scores: map<string, real>, live: seq<string>, targetReduction: real, a: string, b: string)
    requires Distinct(live) && forall k :: k in live ==> k in scores
    requires a in TopKeys(scores, live, targetReduction) && b in live && b !in TopKeys(scores, live, targetReduction)
    ensures a in scores && scores[a] >= scores[b]
  {
    var ss := ScoreWith(scores, live);
    var c := TargetSize(|live|, targetReduction);
    var m := TopOf(ss, c);
    assert TopKeys(scores, live, targetReduction) == KeysOf(m);
    assert KeysOf(ss) == live;
    TopScored(ss, c);
    var i :| 0 <= i < |m| && KeysOf(m)[i] == a;
    var j :| 0 <= j < |live| && live[j] == b;
    InScoreWith(scores, live, m[i]);
    assert ss[j].score == scores[b];
  }

  /** An entry of `ScoreWith(scores, live)` carries its key's score. */
  lemma InScoreWith(scores: map<string, real>, live: seq<string>, e: ScoredKey)
    requires forall k :: k in live ==> k in scores
    requires e in ScoreWith(scores, live)
    ensures e.key in scores && e.score == scores[e.key]
  {
    var ss := ScoreWith(scores, live);
    var i :| 0 <= i < |ss| && ss[i] == e;
  }

  /**
   * By the scores in `scores`, every key of `kept` ranks at least as high as
   * every unexpired item of `all` that `kept` leaves out.
   */
  predicate KeepsTop(kept: set<string>, all: map<string, ContextItem>, scores: map<string, real>, now: Time) {
    forall a, b :: a in kept && b in all && b !in kept && !all[b].IsExpiredAt(now) && a in scores && b in scores ==>
      scores[a] >= scores[b]
  }

  /**
   * Compaction keeps `min(n, max(1, int(n * (1 - r))))` distinct keys of the
   * n unexpired items, and every kept item scores at least as high as every
   * unexpired item dropped.
   */
  lemma CompactionKeepsTop(items: map<string, ContextItem>, order: seq<string>, targetReduction: real, now: Time)
    requires Enumerates(items, order) && Scorable(items, now)
    ensures var kept := KeptKeys(items, order, targetReduction, now);
            var n := |LiveKeys(items, order, now)|;
            |kept| == (if TargetSize(n, targetReduction) < n then TargetSize(n, targetReduction) else n)
            && Distinct(kept)
    ensures forall k :: k in KeptKeys(items, order, targetReduction, now) ==> k in items && !items[k].IsExpiredAt(now)
    ensures forall a, b ::
              (a in KeptKeys(items, order, targetReduction, now) && b in items && !items[b].IsExpiredAt(now)
               && b !in KeptKeys(items, order, targetReduction, now)) ==>
              items[a].ScoreAt(now) >= items[b].ScoreAt(now)
  {
    var live := LiveKeys(items, order, now);
    var scores := Scores(items, now);
    TopKeysAreTop(scores, live, targetReduction);
    assert KeptKeys(items, order, targetReduction, now) == TopKeys(scores, live, targetReduction);
  }

  class ContextCompactor {
    const maxContextTokens: int
    /** Each compaction's time and ratio of kept to unexpired items. */
    var compressionHistory: seq<(Time, real)>

    constructor (maxContextTokens: int)
      ensures this.maxContextTokens == maxContextTokens && compressionHistory == []
    {
      this.maxContextTokens := maxContextTokens;
      compressionHistory := [];
    }

    /**
     * `compact_context`: the top items by score among the unexpired ones, as
     * a new dict in score order; records the kept ratio.
     */
    method CompactContext(items: map<string, ContextItem>, order: seq<string>, targetReduction: real, now: Time)
      returns (compacted: map<string, ContextItem>, compactedOrder: seq<string>)
      requires Enumerates(items, order) && Scorable(items, now)
      modifies this
      ensures compactedOrder == old(KeptKeys(items, order, targetReduction, now))
      ensures Enumerates(compacted, compactedOrder)
      ensures forall k :: k in compacted ==> k in items && compacted[k] == items[k]
      ensures KeepsTop(compacted.Keys, items, old(Scores(items, now)), now)
      ensures |compactedOrder| == KeptCount(|LiveKeys(items, order, now)|, targetReduction)
      ensures var n := |LiveKeys(items, order, now)|;
              compressionHistory == old(compressionHistory)
                + [(now, if n > 0 then |compactedOrder| as real / n as real else 1.0)]
    {
      var live := LiveKeys(items, order, now);
      var targetSize := TargetSize(|live|, targetReduction);
      compactedOrder := KeysOf(TopOf(ScoreWith(Scores(items, now), live), targetSize));
      assert compactedOrder == KeptKeys(items, order, targetReduction, now);
      CompactionKeepsTop(items, order, targetReduction, now);
      assert forall k :: k in compactedOrder ==> k in items;
      compacted := map k | k in compactedOrder :: items[k];
      assert KeepsTop(compacted.Keys, items, Scores(items, now), now);
      var ratio := if |live| > 0 then |compactedOrder| as real / |live| as real else 1.0;
      compressionHistory := compressionHistory + [(now, ratio)];
    }
  }

  // ---------------------------------------------------------------------------
  // The context window

  /** `expires_at` of a new item: set only for a truthy TTL (0 and None never expire). */
  function ExpiryFor(ttlSeconds: Option<int>, now: Time): (r: Option<Time>)
    ensures r.Some? <==> ttlSeconds.Some? && ttlSeconds.value != 0
    ensures r.Some? ==> r.value == now + ttlSeconds.value as real
  {
    if ttlSeconds.Some? && ttlSeconds.value != 0 then Some(now + ttlSeconds.value as real) else None
  }

  /** A zero TTL, as written, gives an item that never expires. */
  lemma ZeroTtlNeverExpires(now: Time, later: Time)
    ensures ExpiryFor(Some(0), now) == None
    ensures ExpiryFor(Some(0), now) == ExpiryFor(None, now)
  {
  }

  /** `expires_at` as the TTL evidently means it: any given TTL, 0 included, sets a deadline. */
  function IntendedExpiryFor(ttlSeconds: Option<int>, now: Time): (r: Option<Time>)
    ensures r.Some? <==> ttlSeconds.Some?
    ensures r.Some? ==> r.value == now + ttlSeconds.value as real
    ensures ttlSeconds == Some(0) ==> r == Some(now)
  {
    if ttlSeconds.Some? then Some(now + ttlSeconds.value as real) else None
  }

  /** An item given a zero TTL is expired at every later instant. */
  lemma IntendedZeroTtlExpires(now: Time, later: Time)
    requires later > now
    ensures var e := IntendedExpiryFor(Some(0), now);
            e.Some? && later > e.value
  {
  }

  /** One row of `get_window_data`. */
  datatype WindowRow = WindowRow(key: string, value: Value, typeValue: string, importanceName: string,
                                 ageSeconds: real, accessCount: nat)

  datatype OptimizeReport = OptimizeReport(beforeSize: nat, afterSize: nat, expiredRemoved: nat,
                                           reductionRatio: real)

  class ContextWindow {
    const maxWindowSize: int
    var items: map<string, ContextItem>
    /** The keys of `items` in dict iteration order. */
    var order: seq<string>
    const compactor: ContextCompactor
    var snapshots: seq<ContextSnapshot>

    ghost predicate Valid()
      reads this
    {
      Enumerates(items, order) && (forall k :: k in items ==> items[k].key == k)
    }

    function Footprint(): set<object>
      reads this
    {
      set k | k in items :: items[k]
    }

    constructor (maxWindowSize: int)
      ensures Valid() && fresh(compactor) && this.maxWindowSize == maxWindowSize
      ensures compactor.maxContextTokens == maxWindowSize && compactor.compressionHistory == []
      ensures items == map[] && order == [] && snapshots == []
    {
      this.maxWindowSize := maxWindowSize;
      items, order, snapshots := map[], [], [];
      compactor := new ContextCompactor(maxWindowSize);
    }

    /** The dict holds as many items as it has keys in order. */
    lemma SizeIsOrderLength()
      requires Valid()
      ensures |items| == |order|
    {
      DistinctCard(order);
      assert items.Keys == set k | k in order;
    }

    /**
     * `add_item`: a new item under `key`, replacing any item there (which
     * keeps its place in the iteration order).
     */
    method AddItem(key: string, value: Value, contextType: ContextType, importance: ContextImportance,
                   ttlSeconds: Option<int>, now: Time) returns (item: ContextItem)
      requires Valid()
      modifies this
      ensures Valid() && fresh(item)
      ensures item.key == key && item.value == value && item.contextType == contextType
      ensures item.importance == importance && item.timestamp == now && item.ttlSeconds == ttlSeconds
      ensures item.expiresAt == ExpiryFor(ttlSeconds, now) && item.accessCount == 0
      ensures items == old(items)[key := item]
      ensures order == if key in old(items) then old(order) else old(order) + [key]
      ensures snapshots == old(snapshots)
    {
      item := new ContextItem(key, value, contextType, importance, now, ExpiryFor(ttlSeconds, now), ttlSeconds);
      if key !in items {
        order := order + [key];
      }
      items := items[key := item];
    }

    /**
     * `add_item` as the TTL is evidently meant: a zero TTL sets a deadline
     * of now instead of none.
     */
    method AddItemIntended(key: string, value: Value, contextType: ContextType, importance: ContextImportance,
                           ttlSeconds: Option<int>, now: Time) returns (item: ContextItem)
      requires Valid()
      modifies this
      ensures Valid() && fresh(item)
      ensures item.key == key && item.value == value && item.contextType == contextType
      ensures item.importance == importance && item.timestamp == now && item.ttlSeconds == ttlSeconds
      ensures item.expiresAt == IntendedExpiryFor(ttlSeconds, now) && item.accessCount == 0
      ensures items == old(items)[key := item]
      ensures order == if key in old(items) then old(order) else old(order) + [key]
      ensures snapshots == old(snapshots)
    {
      item := new ContextItem(key, value, contextType, importance, now, IntendedExpiryFor(ttlSeconds, now), ttlSeconds);
      if key !in items {
        order := order + [key];
      }
      items := items[key := item];
    }

    /**
     * `get_item`: an unexpired hit is accessed once more and returned; an
     * expired hit is deleted; a miss changes nothing.
     */
    method GetItem(key: string, now: Time) returns (item: ContextItem?)
      requires Valid()
      modifies this, if key in items then {items[key]} else {}
      ensures Valid() && snapshots == old(snapshots)
      ensures key !in old(items) ==> item == null && items == old(items) && order == old(order)
      ensures key in old(items) && !old(items)[key].IsExpiredAt(now) ==>
                item == old(items)[key] && item.accessCount == old(item.accessCount) + 1
                && item.lastAccessed == Some(now) && items == old(items) && order == old(order)
      ensures key in old(items) && old(items)[key].IsExpiredAt(now) ==>
                item == null && items == old(items) - {key} && order == Without(old(order), {key})
    {
      if key in items && !items[key].IsExpiredAt(now) {
        item := items[key];
        item.UpdateAccess(now);
      } else {
        if key in items {
          items := items - {key};
          order := Without(order, {key});
        }
        item := null;
      }
    }

    /** `remove_item`: true exactly when the key was present; only that key goes. */
    method RemoveItem(key: string) returns (removed: bool)
      requires Valid()
      modifies this
      ensures Valid() && snapshots == old(snapshots)
      ensures removed == (key in old(items))
      ensures items == old(items) - {key} && order == Without(old(order), {key})
    {
      removed := key in items;
      if removed {
        items := items - {key};
      }
      order := Without(order, {key});
    }

    /** `for key in keys: remove_item(key)` */
    method RemoveAll(keys: seq<string>)
      requires Valid()
      modifies this
      ensures Valid() && snapshots == old(snapshots)
      ensures items == old(items) - (set k | k in keys)
      ensures order == Without(old(order), set k | k in keys)
    {
      ghost var removed: set<string> := {};
      WithoutNothing(order);
      var j := 0;
      while j < |keys|
        invariant 0 <= j <= |keys|
        invariant forall k :: k in removed <==> k in keys[..j]
        invariant Valid() && snapshots == old(snapshots)
        invariant items == old(items) - removed
        invariant order == Without(old(order), removed)
      {
        var key := keys[j];
        assert keys[..j + 1] == keys[..j] + [key];
        WithoutStep(old(order), removed, key, order);
        MinusStep(old(items), removed, key);
        var _ := RemoveItem(key);
        removed := removed + {key};
        j := j + 1;
      }
      assert keys[..j] == keys;
      assert removed == set k | k in keys;
    }

    /** The keys of the expired items, in order. */
    function ExpiredKeys(now: Time): (r: seq<string>)
      reads this
      requires Valid()
      ensures Distinct(r)
      ensures forall k :: k in r <==> k in items && items[k].IsExpiredAt(now)
    {
      ExpiredAmong(items, order, now)
    }

    /**
     * `cleanup_expired`: deletes the expired items and returns how many;
     * every unexpired item stays as it was.
     */
    method CleanupExpired(now: Time) returns (count: nat)
      requires Valid()
      modifies this
      ensures Valid() && snapshots == old(snapshots)
      ensures items == LiveItems(old(items), now)
      ensures order == LiveKeys(old(items), old(order), now)
      ensures count == |old(order)| - |order| && count == |old(items)| - |items|
      ensures count == |old(ExpiredKeys(now))|
    {
      SizeIsOrderLength();
      var expiredKeys := ExpiredKeys(now);
      var current, currentOrder := DeleteKeys(items, order, expiredKeys);
      count := |expiredKeys|;
      CleanupResult(items, order, now);
      items, order := current, currentOrder;
      SizeIsOrderLength();
    }

    /** The compaction step of `optimize`: the dict becomes what `compact_context` returns. */
    method CompactItems(targetReduction: real, now: Time)
      requires Valid() && Scorable(items, now)
      modifies this, compactor
      ensures Valid() && snapshots == old(snapshots)
      ensures order == old(KeptKeys(items, order, targetReduction, now))
      ensures forall k :: k in items ==> k in old(items) && items[k] == old(items)[k]
      ensures KeepsTop(items.Keys, old(items), old(Scores(items, now)), now)
      ensures |order| == old(KeptCount(|LiveKeys(items, order, now)|, targetReduction))
      ensures var n := old(|LiveKeys(items, order, now)|);
              compactor.compressionHistory == old(compactor.compressionHistory)
                + [(now, if n > 0 then |order| as real / n as real else 1.0)]
    {
      var compacted, compactedOrder := compactor.CompactContext(items, order, targetReduction, now);
      assert forall k :: k in compacted ==> compacted[k].key == k;
      items, order := compacted, compactedOrder;
    }

    /**
     * `optimize`: removes the expired items, then compacts what is left
     * (when anything is), and reports the sizes.
     */
    method Optimize(targetReduction: real, now: Time) returns (report: OptimizeReport)
      requires Valid() && Scorable(items, now)
      modifies this, compactor
      ensures Valid() && snapshots == old(snapshots)
      ensures report.beforeSize == |old(items)| && report.afterSize == |items|
      ensures report.expiredRemoved == |old(ExpiredKeys(now))|
      ensures report.reductionRatio == if report.beforeSize > 0 then 1.0 - report.afterSize as real / report.beforeSize as real
                                       else 0.0
      ensures forall k :: k in items ==> k in old(items) && items[k] == old(items)[k] && !items[k].IsExpiredAt(now)
      ensures report.afterSize <= report.beforeSize - report.expiredRemoved
      ensures report.beforeSize > report.expiredRemoved ==> report.afterSize >= 1
      ensures forall a, b :: a in items && b in old(items) && b !in items && !old(items)[b].IsExpiredAt(now) ==>
                old(items[a].ScoreAt(now) >= items[b].ScoreAt(now))
      ensures |compactor.compressionHistory| ==
                |old(compactor.compressionHistory)| + (if report.beforeSize > report.expiredRemoved then 1 else 0)
    {
      var beforeSize := |items|;
      var expiredCount := CleanupExpired(now);
      assert forall k :: k in items ==> items[k].ScoreAt(now) == old(items[k].ScoreAt(now));
      CompactLive(targetReduction, now);
      var afterSize := |items|;
      var ratio := if beforeSize > 0 then 1.0 - afterSize as real / beforeSize as real else 0.0;
      report := OptimizeReport(beforeSize, afterSize, expiredCount, ratio);
    }

    /** The second step of `optimize`: compacts the (unexpired) items when there are any. */
    method CompactLive(targetReduction: real, now: Time)
      requires Valid() && Scorable(items, now)
      requires forall k :: k in items ==> !items[k].IsExpiredAt(now)
      modifies this, compactor
      ensures Valid() && snapshots == old(snapshots)
      ensures forall k :: k in items ==> k in old(items) && items[k] == old(items)[k]
      ensures |old(items)| > 0 ==> |items| == KeptCount(|old(items)|, targetReduction)
      ensures |old(items)| == 0 ==> items == old(items)
      ensures forall a, b :: a in items && b in old(items) && b !in items ==>
                old(items[a].ScoreAt(now) >= items[b].ScoreAt(now))
      ensures |compactor.compressionHistory| ==
                |old(compactor.compressionHistory)| + (if |old(items)| > 0 then 1 else 0)
    {
      SizeIsOrderLength();
      if |items| > 0 {
        LiveOfLive(items, order, now);
        CompactItems(targetReduction, now);
        SizeIsOrderLength();
      }
    }

    /** `take_snapshot`: a copy of the item dict with its size and hash, appended to the list. */
    method TakeSnapshot(now: Time, digest: map<string, string> -> string) returns (snapshot: ContextSnapshot)
      requires Valid()
      modifies this
      ensures items == old(items) && order == old(order) && Valid()
      ensures snapshot == ContextSnapshot(now, items, order, CalculateSize(items, order), 1.0, CalculateHash(items, digest))
      ensures snapshots == old(snapshots) + [snapshot]
    {
      snapshot := ContextSnapshot(now, items, order, 0, 1.0, "");
      snapshot := snapshot.(totalSizeBytes := CalculateSize(snapshot.items, snapshot.keys));
      snapshot := snapshot.(hashId := CalculateHash(snapshot.items, digest));
      snapshots := snapshots + [snapshot];
    }

    /** `get_window_data`: a row for every unexpired item, in order. */
    function WindowData(now: Time): (r: seq<WindowRow>)
      reads this, Footprint()
      requires Valid()
      ensures |r| == |LiveKeys(items, order, now)|
      ensures forall i :: 0 <= i < |r| ==> r[i].key in items && !items[r[i].key].IsExpiredAt(now)
      ensures forall i :: 0 <= i < |r| ==>
                var it := items[r[i].key];
                r[i].key == LiveKeys(items, order, now)[i] && r[i].value == it.value
                && r[i].typeValue == TypeValue(it.contextType) && r[i].importanceName == ImportanceName(it.importance)
                && r[i].ageSeconds == it.AgeSeconds(now) && r[i].accessCount == it.accessCount
      ensures forall k :: k in items && !items[k].IsExpiredAt(now) ==> exists i :: 0 <= i < |r| && r[i].key == k
    {
      var live := LiveKeys(items, order, now);
      var r := seq(|live|, i reads this, Footprint() requires 0 <= i < |live| && live[i] in items =>
        var it := items[live[i]];
        WindowRow(live[i], it.value, TypeValue(it.contextType), ImportanceName(it.importance),
                  it.AgeSeconds(now), it.accessCount));
      assert forall k :: k in items && !items[k].IsExpiredAt(now) ==> exists i :: 0 <= i < |r| && r[i].key == k by {
        forall k | k in items && !items[k].IsExpiredAt(now) ensures exists i :: 0 <= i < |r| && r[i].key == k {
          var i :| 0 <= i < |live| && live[i] == k;
          assert r[i].key == k;
        }
      }
      r
    }
  }

  /** `[key for key in order if items[key].is_expired()]` */
  function ExpiredAmong(items: map<string, ContextItem>, order: seq<string>, now: Time): (r: seq<string>)
    requires forall k :: k in order ==> k in items
    ensures forall k :: k in r <==> k in order && items[k].IsExpiredAt(now)
    ensures Distinct(order) ==> Distinct(r)
  {
    if order == [] then []
    else
      var rest := ExpiredAmong(items, order[1..], now);
      assert Distinct(order) ==> order[0] !in order[1..];
      if items[order[0]].IsExpiredAt(now) then [order[0]] + rest else rest
  }

  /**
   * `for key in keys: del items[key]`. The iteration order after the
   * deletions is the old order without the deleted keys.
   */
  method DeleteKeys(items: map<string, ContextItem>, order: seq<string>, keys: seq<string>)
    returns (current: map<string, ContextItem>, currentOrder: seq<string>)
    ensures current == items - (set k | k in keys)
    ensures currentOrder == Without(order, set k | k in keys)
  {
    current := items;
    ghost var removed: set<string> := {};
    var i := 0;
    while i < |keys|
      invariant 0 <= i <= |keys|
      invariant removed == set k | k in keys[..i]
      invariant current == items - removed
    {
      var key := keys[i];
      assert keys[..i + 1] == keys[..i] + [key];
      current := current - {key};
      removed := removed + {key};
      i := i + 1;
    }
    assert keys[..i] == keys;
    currentOrder := Without(order, set k | k in keys);
  }

  /** Dropping one more key from a dict that already lacks `removed`. */
  lemma MinusStep(m: map<string, ContextItem>, removed: set<string>, key: string)
    ensures (m - removed) - {key} == m - (removed + {key})
  {
  }

  /** Dropping one more key from an order that already lacks `removed`. */
  lemma WithoutStep(s: seq<string>, removed: set<string>, key: string, current: seq<string>)
    requires current == Without(s, removed)
    ensures Without(current, {key}) == Without(s, removed + {key})
  {
    WithoutTwice(s, removed, {key});
  }

  /** The unexpired items. */
  function LiveItems(items: map<string, ContextItem>, now: Time): (r: map<string, ContextItem>)
    ensures forall k :: k in r <==> k in items && !items[k].IsExpiredAt(now)
    ensures forall k :: k in r ==> r[k] == items[k]
  {
    map k | k in items && !items[k].IsExpiredAt(now) :: items[k]
  }

  /** Deleting the expired keys one by one leaves the unexpired items in order. */
  lemma CleanupResult(items: map<string, ContextItem>, order: seq<string>, now: Time)
    requires Enumerates(items, order)
    ensures items - (set k | k in ExpiredAmong(items, order, now)) == LiveItems(items, now)
    ensures Without(order, set k | k in ExpiredAmong(items, order, now)) == LiveKeys(items, order, now)
    ensures |LiveKeys(items, order, now)| == |order| - |ExpiredAmong(items, order, now)|
  {
    var ex := ExpiredAmong(items, order, now);
    var drop := set k | k in ex;
    LiveIsWithoutExpired(items, order, now);
    DistinctCard(ex);
    WithoutCard(order, drop);
    assert items - drop == LiveItems(items, now);
  }

  /** Dropping the expired keys leaves the unexpired ones, in order. */
  lemma {:induction false} LiveIsWithoutExpired(items: map<string, ContextItem>, order: seq<string>, now: Time)
    requires forall k :: k in order ==> k in items
    ensures Without(order, set k | k in ExpiredAmong(items, order, now)) == LiveKeys(items, order, now)
    decreases |order|
  {
    if order != [] {
      var drop := set k | k in ExpiredAmong(items, order, now);
      var dropRest := set k | k in ExpiredAmong(items, order[1..], now);
      LiveIsWithoutExpired(items, order[1..], now);
      assert Without(order[1..], drop) == Without(order[1..], dropRest) by {
        forall x ensures x in Without(order[1..], drop) <==> x in Without(order[1..], dropRest) {
        }
        WithoutAgrees(order[1..], drop, dropRest, items, now);
      }
    }
  }

  /** Two drop sets that agree on the elements of s drop the same. */
  lemma {:induction false} WithoutAgrees(s: seq<string>, a: set<string>, b: set<string>,
                                         items: map<string, ContextItem>, now: Time)
    requires forall x :: x in s ==> (x in a <==> x in b)
    ensures Without(s, a) == Without(s, b)
    decreases |s|
  {
    if s != [] {
      WithoutAgrees(s[1..], a, b, items, now);
    }
  }

  /** With nothing expired, the unexpired keys are all the keys. */
  lemma {:induction false} LiveOfLive(items: map<string, ContextItem>, order: seq<string>, now: Time)
    requires forall k :: k in order ==> k in items && !items[k].IsExpiredAt(now)
    ensures LiveKeys(items, order, now) == order
    decreases |order|
  {
    if order != [] {
      LiveOfLive(items, order[1..], now);
    }
  }

  // ---------------------------------------------------------------------------
  // Tool functions over the window held in the tool context (`state["context_window"]`)

  /** What the `manage_context_item` tool returns. */
  datatype ManageReport =
    | ItemAdded(key: string, typeValue: string, importanceName: string)
    | EnumError(message: string)

  /**
   * The `KeyError` the two enum lookups raise, if any: the context type is
   * looked up first; the message is `repr` of the upper-cased name, as
   * `str()` of a `KeyError` gives it.
   */
  function ManageError(contextType: string, importance: string): (r: Option<string>)
    ensures r.None? <==> TypeByName(Upper(contextType)).Some? && ImportanceByName(Upper(importance)).Some?
    ensures TypeByName(Upper(contextType)).None? ==> r == Some("Invalid enum value: " + PyRepr(Upper(contextType)))
    ensures TypeByName(Upper(contextType)).Some? && ImportanceByName(Upper(importance)).None? ==>
              r == Some("Invalid enum value: " + PyRepr(Upper(importance)))
  {
    if TypeByName(Upper(contextType)).None? then Some("Invalid enum value: " + PyRepr(Upper(contextType)))
    else if ImportanceByName(Upper(importance)).None? then Some("Invalid enum value: " + PyRepr(Upper(importance)))
    else None
  }

  /**
   * The `manage_context_item` tool: creates the window when the context has
   * none (even when the enum names then fail to parse), parses both names
   * case-insensitively, and adds the item.
   */
  method ManageContextItem(slot: ContextWindow?, key: string, value: Value, contextType: string, importance: string,
                           ttlSeconds: Option<int>, now: Time) returns (window: ContextWindow, report: ManageReport)
    requires slot != null ==> slot.Valid()
    modifies slot
    ensures window.Valid()
    ensures slot != null ==> window == slot
    ensures slot == null ==> fresh(window) && window.maxWindowSize == 8000 && window.snapshots == []
    ensures report.EnumError? <==> ManageError(contextType, importance).Some?
    ensures report.EnumError? ==> Some(report.message) == ManageError(contextType, importance)
    ensures report.EnumError? && slot != null ==> window.items == old(slot.items) && window.order == old(slot.order)
    ensures report.EnumError? && slot == null ==> window.items == map[]
    ensures report.ItemAdded? ==>
              var t := TypeByName(Upper(contextType)).value;
              var i := ImportanceByName(Upper(importance)).value;
              report == ItemAdded(key, TypeValue(t), ImportanceName(i))
              && key in window.items && window.items[key].value == value
              && window.items[key].contextType == t && window.items[key].importance == i
              && window.items[key].expiresAt == ExpiryFor(ttlSeconds, now)
              && fresh(window.items[key]) && window.items[key].key == key
              && window.items[key].timestamp == now && window.items[key].accessCount == 0
              && window.items[key].ttlSeconds == ttlSeconds
              && (slot != null ==> window.items.Keys == old(slot.items).Keys + {key})
    ensures report.ItemAdded? && slot != null ==>
              window.items == old(slot.items)[key := window.items[key]]
              && window.order == if key in old(slot.items) then old(slot.order) else old(slot.order) + [key]
    ensures report.ItemAdded? && slot == null ==> window.items.Keys == {key} && window.order == [key]
    ensures slot != null ==> window.snapshots == old(slot.snapshots)
  {
    if slot == null {
      window := new ContextWindow(8000);
    } else {
      window := slot;
    }
    var error := ManageError(contextType, importance);
    if error.Some? {
      report := EnumError(error.value);
      return;
    }
    var t := TypeByName(Upper(contextType)).value;
    var i := ImportanceByName(Upper(importance)).value;
    var item := window.AddItem(key, value, t, i, ttlSeconds, now);
    report := ItemAdded(key, TypeValue(t), ImportanceName(i));
  }

  /** The type filter of `purge_context`: a name that does not parse filters nothing. */
  function PurgeTypeFilter(contextType: Option<string>): (r: Option<ContextType>)
    ensures r.Some? ==> contextType.Some? && TypeName(r.value) == Upper(contextType.value)
    ensures forall t :: contextType.Some? && contextType.value != "" && TypeName(t) == Upper(contextType.value) ==>
              r == Some(t)
  {
    if contextType.Some? && contextType.value != "" then TypeByName(Upper(contextType.value)) else None
  }

  /** The age threshold of `purge_context`: set only for a truthy number of hours. */
  function PurgeThreshold(olderThanHours: Option<int>, now: Time): (r: Option<Time>)
    ensures r.Some? <==> olderThanHours.Some? && olderThanHours.value != 0
    ensures r.Some? ==> r.value == now - olderThanHours.value as real * 3600.0
  {
    if olderThanHours.Some? && olderThanHours.value != 0 then Some(now - olderThanHours.value as real * 3600.0)
    else None
  }

  /** An item `purge_context` removes: of the filtered type and created before the threshold. */
  predicate Purgeable(item: ContextItem, typeFilter: Option<ContextType>, threshold: Option<Time>) {
    (typeFilter.None? || item.contextType == typeFilter.value)
    && threshold.Some? && item.timestamp < threshold.value
  }

  /** The keys to remove, in iteration order. */
  function PurgeKeys(items: map<string, ContextItem>, order: seq<string>, typeFilter: Option<ContextType>,
                     threshold: Option<Time>): (r: seq<string>)
    requires forall k :: k in order ==> k in items
    ensures forall k :: k in r <==> k in order && Purgeable(items[k], typeFilter, threshold)
    ensures Distinct(order) ==> Distinct(r)
    ensures threshold.None? ==> r == []
    decreases |order|
  {
    if order == [] then []
    else
      var last := order[|order| - 1];
      var rest := PurgeKeys(items, order[..|order| - 1], typeFilter, threshold);
      assert Distinct(order) ==> last !in order[..|order| - 1];
      assert forall k :: k in order <==> k in order[..|order| - 1] || k == last;
      if Purgeable(items[last], typeFilter, threshold) then rest + [last] else rest
  }

  /** The first loop of `purge_context`: the keys to remove, in iteration order. */
  method CollectPurgeKeys(items: map<string, ContextItem>, order: seq<string>, typeFilter: Option<ContextType>,
                          threshold: Option<Time>) returns (keys: seq<string>)
    requires forall k :: k in order ==> k in items
    ensures keys == PurgeKeys(items, order, typeFilter, threshold)
  {
    keys := [];
    var i := 0;
    while i < |order|
      invariant 0 <= i <= |order|
      invariant keys == PurgeKeys(items, order[..i], typeFilter, threshold)
    {
      var key := order[i];
      assert order[..i + 1][..i] == order[..i];
      if Purgeable(items[key], typeFilter, threshold) {
        keys := keys + [key];
      }
      i := i + 1;
    }
    assert order[..i] == order;
  }

  /** What the `purge_context` tool returns. */
  datatype PurgeReport =
    | NoContextWindow
    | Purged(purgedItems: nat, remainingItems: nat)

  /**
   * The `purge_context` tool: collects, in order, the keys of the items of
   * the given type (any type when the name is absent, empty or unknown)
   * created before the threshold, then removes each. Without a truthy
   * number of hours nothing is removed.
   */
  method PurgeContext(slot: ContextWindow?, contextType: Option<string>, olderThanHours: Option<int>, now: Time)
    returns (report: PurgeReport)
    requires slot != null ==> slot.Valid()
    modifies slot
    ensures slot == null <==> report == NoContextWindow
    ensures slot != null ==>
              var keys := PurgeKeys(old(slot.items), old(slot.order), PurgeTypeFilter(contextType),
                                    PurgeThreshold(olderThanHours, now));
              slot.Valid() && slot.snapshots == old(slot.snapshots)
              && slot.items == old(slot.items) - (set k | k in keys)
              && slot.order == Without(old(slot.order), set k | k in keys)
              && report == Purged(|keys|, |slot.items|)
    ensures slot != null && PurgeThreshold(olderThanHours, now).None? ==>
              slot.items == old(slot.items) && report.purgedItems == 0
  {
    if slot == null {
      return NoContextWindow;
    }
    var keysToRemove := CollectPurgeKeys(slot.items, slot.order, PurgeTypeFilter(contextType),
                                         PurgeThreshold(olderThanHours, now));
    slot.RemoveAll(keysToRemove);
    report := Purged(|keysToRemove|, |slot.items|);
  }
}
