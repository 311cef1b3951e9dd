/**
 * Long-term memories (ecoagent/sessions_and_memory.py): a memory's strength,
 * the memory bank with its search, pruning and consolidation, and the tool
 * functions that parse enum names.
 */
module Memories {
  import opened Prelude

  datatype MemoryType = Episodic | Semantic | Procedural | Emotional | Relational

  /** The enum's value, e.g. "episodic". */
  function TypeValue(t: MemoryType): string {
    match t
    case Episodic => "episodic"
    case Semantic => "semantic"
    case Procedural => "procedural"
    case Emotional => "emotional"
    case Relational => "relational"
  }

  /** The enum member's name, e.g. "EPISODIC". */
  function TypeName(t: MemoryType): string {
    match t
    case Episodic => "EPISODIC"
    case Semantic => "SEMANTIC"
    case Procedural => "PROCEDURAL"
    case Emotional => "EMOTIONAL"
    case Relational => "RELATIONAL"
  }

  /** `MemoryType[name]`: lookup by member name; None stands for the KeyError. */
  function TypeByName(name: string): (r: Option<MemoryType>)
    ensures r.Some? ==> TypeName(r.value) == name
    ensures r.None? ==> forall t :: TypeName(t) != name
  {
    if name == "EPISODIC" then Some(Episodic)
    else if name == "SEMANTIC" then Some(Semantic)
    else if name == "PROCEDURAL" then Some(Procedural)
    else if name == "EMOTIONAL" then Some(Emotional)
    else if name == "RELATIONAL" then Some(Relational)
    else None
  }

  datatype Importance = Critical | High | Medium | Low | Trivial

  /** The enum's value: CRITICAL = 5 down to TRIVIAL = 1. */
  function Level(i: Importance): int {
    match i
    case Critical => 5
    case High => 4
    case Medium => 3
    case Low => 2
    case Trivial => 1
  }

  function ImportanceName(i: Importance): string {
    match i
    case Critical => "CRITICAL"
    case High => "HIGH"
    case Medium => "MEDIUM"
    case Low => "LOW"
    case Trivial => "TRIVIAL"
  }

  /** `MemoryImportance[name]` */
  function ImportanceByName(name: string): (r: Option<Importance>)
    ensures r.Some? ==> ImportanceName(r.value) == name
    ensures r.None? ==> forall i :: ImportanceName(i) != name
  {
    if name == "CRITICAL" then Some(Critical)
    else if name == "HIGH" then Some(High)
    else if name == "MEDIUM" then Some(Medium)
    else if name == "LOW" then Some(Low)
    else if name == "TRIVIAL" then Some(Trivial)
    else None
  }

  /** Names are parsed after upper-casing, so any casing of a member name parses to it. */
  lemma ParseAnyCase(t: MemoryType, i: Importance)
    ensures TypeByName(Upper(Lower(TypeName(t)))) == Some(t)
    ensures ImportanceByName(Upper(Lower(ImportanceName(i)))) == Some(i)
  {
    assert Upper(Lower(TypeName(t))) == TypeName(t);
    assert Upper(Lower(ImportanceName(i))) == ImportanceName(i);
  }

  const SecondsPerDay: real := 86400.0

  // ---------------------------------------------------------------------------
  // Strength

  /** `max(0.1, 0.977 ** days)` */
  function DecayFactor(days: real): (r: real)
    ensures r >= 0.1
    ensures days >= 0.0 ==> r <= 1.0
  {
    MaxReal(0.1, Decay977(days))
  }

  lemma DecayFactorAntitone(d1: real, d2: real)
    requires 0.0 <= d1 <= d2
    ensures DecayFactor(d2) <= DecayFactor(d1)
  {
    DecayCurveAntitone(d1, d2);
  }

  /**
   * The strength formula: half importance, three tenths decay, a fifth
   * access count (saturating at 20 accesses), capped at 1.
   */
  function Strength(imp: Importance, decay: real, accesses: nat): (r: real)
    ensures r <= 1.0
    ensures decay >= 0.1 ==> r >= Level(imp) as real / 10.0 + 0.03
  {
    var raw := Level(imp) as real / 5.0 * 0.5 + decay * 0.3 + MinReal(accesses as real * 0.05, 1.0) * 0.2;
    MinReal(1.0, raw)
  }

  /** The strength of a memory aged `days`, as `get_strength` computes it. */
  function StrengthOfAge(imp: Importance, days: real, accesses: nat): (r: real)
    ensures 0.0 < r <= 1.0
  {
    Strength(imp, DecayFactor(days), accesses)
  }

  /** At equal age and access count, a higher importance is strictly stronger. */
  lemma StrengthStrictInImportance(a: Importance, b: Importance, days: real, accesses: nat)
    requires Level(a) > Level(b)
    requires days >= 0.0
    ensures StrengthOfAge(a, days, accesses) > StrengthOfAge(b, days, accesses)
  {
    var d := DecayFactor(days);
    var acc := MinReal(accesses as real * 0.05, 1.0) * 0.2;
    var rawB := Level(b) as real / 5.0 * 0.5 + d * 0.3 + acc;
    assert rawB <= 0.9;
  }

  /** More accesses never lower strength. */
  lemma StrengthMonotoneInAccesses(imp: Importance, days: real, n: nat, m: nat)
    requires n <= m
    ensures StrengthOfAge(imp, days, n) <= StrengthOfAge(imp, days, m)
  {
  }

  /** An older memory is never stronger. */
  lemma StrengthAntitoneInAge(imp: Importance, d1: real, d2: real, accesses: nat)
    requires 0.0 <= d1 <= d2
    ensures StrengthOfAge(imp, d2, accesses) <= StrengthOfAge(imp, d1, accesses)
  {
    DecayFactorAntitone(d1, d2);
  }

  /** Only a TRIVIAL memory accessed fewer than 10 times can fall below 0.2. */
  lemma WeakOnlyIfTrivial(imp: Importance, days: real, accesses: nat)
    requires StrengthOfAge(imp, days, accesses) < 0.2
    ensures imp == Trivial && accesses < 10
  {
  }

  // ---------------------------------------------------------------------------
  // Relevance

  /** `any(query in tag.lower() for tag in tags)` */
  predicate TagMatch(query: string, tags: seq<string>) {
    exists i :: 0 <= i < |tags| && Contains(Lower(tags[i]), query)
  }

  lemma {:induction false} CardIntersection(a: set<string>, b: set<string>)
    ensures |a * b| <= |a|
    decreases |a|
  {
    if a != {} {
      var x :| x in a;
      CardIntersection(a - {x}, b);
      assert a * b == (a - {x}) * b + (if x in b then {x} else {});
    }
  }

  /** `_calculate_relevance`: word overlap and tag match, scaled by strength. */
  function Relevance(query: string, content: string, tags: seq<string>, strength: real): (r: real)
    requires 0.0 < strength
    ensures 0.0 <= r <= 0.85 * strength
    ensures r > 0.0 <==> Words(Lower(query)) * Words(Lower(content)) != {} || TagMatch(query, tags)
  {
    var qw, cw := Words(Lower(query)), Words(Lower(content));
    var overlap := if qw != {} then |qw * cw| as real / |qw| as real else 0.0;
    CardIntersection(qw, cw);
    assert 0.0 <= overlap <= 1.0 && (overlap > 0.0 <==> qw * cw != {}) by {
      if qw != {} {
        UnitFraction(|qw * cw| as real, |qw| as real);
      }
    }
    var tagScore := if TagMatch(query, tags) then 0.5 else 0.0;
    var base := overlap * 0.7 + tagScore * 0.3;
    assert 0.0 <= base <= 0.85;
    assert base * strength <= 0.85 * strength;
    base * strength
  }

  // ---------------------------------------------------------------------------
  // A memory

  class Memory {
    const id: string
    const memoryType: MemoryType
    const content: string
    const context: Fields
    const importance: Importance
    const timestamp: Time
    const source: string
    const tags: seq<string>
    const relationships: seq<string>
    const metadata: Fields
    var accessCount: nat
    var lastAccessed: Option<Time>
    var decayFactor: real

    /** A new memory: never accessed, not decayed. */
    constructor (id: string, memoryType: MemoryType, content: string, context: Fields,
                 importance: Importance, timestamp: Time, source: string, tags: seq<string>)
      ensures this.id == id && this.memoryType == memoryType && this.content == content
      ensures this.context == context && this.importance == importance
      ensures this.timestamp == timestamp && this.source == source && this.tags == tags
      ensures accessCount == 0 && lastAccessed == None && decayFactor == 1.0
      ensures relationships == [] && metadata == []
    {
      this.id, this.memoryType, this.content, this.context := id, memoryType, content, context;
      this.importance, this.timestamp, this.source, this.tags := importance, timestamp, source, tags;
      relationships, metadata := [], [];
      accessCount, lastAccessed, decayFactor := 0, None, 1.0;
    }

    /** A memory rebuilt field by field from a stored row. */
    constructor Restore(id: string, memoryType: MemoryType, content: string, context: Fields,
                        importance: Importance, timestamp: Time, source: string, tags: seq<string>,
                        accessCount: nat, lastAccessed: Option<Time>, decayFactor: real,
                        relationships: seq<string>, metadata: Fields)
      ensures this.id == id && this.memoryType == memoryType && this.content == content
      ensures this.context == context && this.importance == importance
      ensures this.timestamp == timestamp && this.source == source && this.tags == tags
      ensures this.accessCount == accessCount && this.lastAccessed == lastAccessed
      ensures this.decayFactor == decayFactor
      ensures this.relationships == relationships && this.metadata == metadata
    {
      this.id, this.memoryType, this.content, this.context := id, memoryType, content, context;
      this.importance, this.timestamp, this.source, this.tags := importance, timestamp, source, tags;
      this.relationships, this.metadata := relationships, metadata;
      this.accessCount, this.lastAccessed, this.decayFactor := accessCount, lastAccessed, decayFactor;
    }

    /** `get_age_days` */
    function AgeDays(now: Time): real {
      (now - timestamp) / SecondsPerDay
    }

    /** What `get_strength` returns at `now`. */
    function StrengthAt(now: Time): (r: real)
      reads this
      ensures 0.0 < r <= 1.0
    {
      StrengthOfAge(importance, AgeDays(now), accessCount)
    }

    /** `update_access`: one more access, stamped now; strength never drops. */
    method UpdateAccess(now: Time)
      modifies this
      ensures accessCount == old(accessCount) + 1
      ensures lastAccessed == Some(now)
      ensures decayFactor == old(decayFactor)
      ensures forall t :: StrengthAt(t) >= old(StrengthAt(t))
    {
      accessCount := accessCount + 1;
      lastAccessed := Some(now);
      forall t ensures StrengthAt(t) >= old(StrengthAt(t)) {
        StrengthMonotoneInAccesses(importance, AgeDays(t), old(accessCount), accessCount);
      }
    }

    /** `apply_decay` */
    method ApplyDecay(days: real)
      modifies this
      ensures decayFactor == DecayFactor(days)
      ensures accessCount == old(accessCount) && lastAccessed == old(lastAccessed)
    {
      decayFactor := MaxReal(0.1, Decay977(days));
    }

    /** `get_strength`: refreshes the decay factor, then combines it. */
    method GetStrength(now: Time) returns (s: real)
      modifies this
      ensures decayFactor == DecayFactor(AgeDays(now))
      ensures s == StrengthAt(now)
      ensures accessCount == old(accessCount) && lastAccessed == old(lastAccessed)
    {
      ApplyDecay((now - timestamp) / SecondsPerDay);
      var importanceFactor := Level(importance) as real / 5.0;
      var accessFactor := MinReal(accessCount as real * 0.05, 1.0);
      var raw := importanceFactor * 0.5 + decayFactor * 0.3 + accessFactor * 0.2;
      s := MinReal(1.0, raw);
    }
  }


  /** `get_strength() < 0.2 and get_age_days() > 30` */
  predicate IsWeak(m: Memory, now: Time)
    reads m
  {
    m.StrengthAt(now) < 0.2 && m.AgeDays(now) > 30.0
  }

  /** Only TRIVIAL memories are ever weak. */
  lemma WeakIsTrivial(m: Memory, now: Time)
    requires IsWeak(m, now)
    ensures m.importance == Trivial
  {
    WeakOnlyIfTrivial(m.importance, m.AgeDays(now), m.accessCount);
  }

  // ---------------------------------------------------------------------------
  // Search

  /** The search filters, applied before scoring (None: no importance filter). */
  predicate PassesFilters(m: Memory, memoryType: Option<MemoryType>, tags: seq<string>,
                          minImportance: Option<Importance>)
  {
    (memoryType.Some? ==> m.memoryType == memoryType.value)
    && (minImportance.Some? ==> Level(m.importance) >= Level(minImportance.value))
    && (tags != [] ==> exists i :: 0 <= i < |tags| && tags[i] in m.tags)
  }

  /** A scored search result; the strength is kept as the sort's second key. */
  datatype Hit = Hit(memory: Memory, relevance: real, strength: real)

  function HitRank(h: Hit): Rank { Rank(h.relevance, h.strength) }

  function HitPairs(hs: seq<Hit>): (r: seq<(Memory, real)>)
    ensures |r| == |hs|
    ensures forall i :: 0 <= i < |hs| ==> r[i] == (hs[i].memory, hs[i].relevance)
  {
    seq(|hs|, i requires 0 <= i < |hs| => (hs[i].memory, hs[i].relevance))
  }

  /** The hit for m, when m passes the filters and scores above zero. */
  function HitFor(m: Memory, query: string, memoryType: Option<MemoryType>, tags: seq<string>,
                  minImportance: Option<Importance>, now: Time): (r: Option<Hit>)
    reads m
    ensures r.Some? <==> PassesFilters(m, memoryType, tags, minImportance)
                         && Relevance(query, m.content, m.tags, m.StrengthAt(now)) > 0.0
    ensures r.Some? ==> r.value == Hit(m, Relevance(query, m.content, m.tags, m.StrengthAt(now)), m.StrengthAt(now))
  {
    if !PassesFilters(m, memoryType, tags, minImportance) then None
    else
      var rel := Relevance(query, m.content, m.tags, m.StrengthAt(now));
      if rel > 0.0 then Some(Hit(m, rel, m.StrengthAt(now))) else None
  }

  /** The hits of the memories ms, in their order. */
  function Scan(ms: seq<Memory>, query: string, memoryType: Option<MemoryType>, tags: seq<string>,
                minImportance: Option<Importance>, now: Time): (r: seq<Hit>)
    reads set m | m in ms
    ensures forall h :: h in r ==> h.memory in ms
    ensures forall h :: h in r ==> Some(h) == HitFor(h.memory, query, memoryType, tags, minImportance, now)
    ensures forall m :: m in ms && HitFor(m, query, memoryType, tags, minImportance, now).Some? ==>
              HitFor(m, query, memoryType, tags, minImportance, now).value in r
    decreases |ms|
  {
    if ms == [] then []
    else
      var init := ms[..|ms| - 1];
      var last := ms[|ms| - 1];
      var hit := HitFor(last, query, memoryType, tags, minImportance, now);
      var r := Scan(init, query, memoryType, tags, minImportance, now);
      assert forall m :: m in ms ==> m in init || m == last;
      if hit.Some? then r + [hit.value] else r
  }

  /** The scanning loop of a search: one pass over ms, keeping each memory's hit. */
  method ScanMemories(ms: seq<Memory>, queryLower: string, memoryType: Option<MemoryType>, tags: seq<string>,
                      minImportance: Option<Importance>, now: Time) returns (hits: seq<Hit>)
    ensures hits == Scan(ms, queryLower, memoryType, tags, minImportance, now)
  {
    hits := [];
    var i := 0;
    while i < |ms|
      invariant 0 <= i <= |ms|
      invariant hits == Scan(ms[..i], queryLower, memoryType, tags, minImportance, now)
    {
      var m := ms[i];
      assert ms[..i + 1][..i] == ms[..i];
      if PassesFilters(m, memoryType, tags, minImportance) {
        var relevance := Relevance(queryLower, m.content, m.tags, m.StrengthAt(now));
        if relevance > 0.0 {
          hits := hits + [Hit(m, relevance, m.StrengthAt(now))];
        }
      }
      i := i + 1;
    }
    assert ms[..i] == ms;
  }

  /** The search result: the scan sorted by (relevance, strength), highest first. */
  function Ranked(ms: seq<Memory>, query: string, memoryType: Option<MemoryType>, tags: seq<string>,
                  minImportance: Option<Importance>, now: Time): seq<Hit>
    reads set m | m in ms
  {
    SortDesc(Scan(ms, query, memoryType, tags, minImportance, now), HitRank)
  }

  /** The search result is sorted by (relevance, strength), highest first. */
  lemma RankedSorted(ms: seq<Memory>, query: string, memoryType: Option<MemoryType>, tags: seq<string>,
                     minImportance: Option<Importance>, now: Time)
    ensures SortedDesc(Ranked(ms, query, memoryType, tags, minImportance, now), HitRank)
  {
    SortDescSorted(Scan(ms, query, memoryType, tags, minImportance, now), HitRank);
  }

  /** Every result passes the filters and carries its positive relevance. */
  lemma RankedSound(ms: seq<Memory>, query: string, memoryType: Option<MemoryType>, tags: seq<string>,
                    minImportance: Option<Importance>, now: Time, h: Hit)
    requires h in Ranked(ms, query, memoryType, tags, minImportance, now)
    ensures h.memory in ms && PassesFilters(h.memory, memoryType, tags, minImportance)
    ensures h.relevance == Relevance(query, h.memory.content, h.memory.tags, h.memory.StrengthAt(now))
    ensures h.relevance > 0.0
  {
    SortDescSameElements(Scan(ms, query, memoryType, tags, minImportance, now), HitRank);
  }

  /** Every memory that passes the filters with positive relevance is a result. */
  lemma RankedComplete(ms: seq<Memory>, query: string, memoryType: Option<MemoryType>, tags: seq<string>,
                       minImportance: Option<Importance>, now: Time, m: Memory)
    requires m in ms && PassesFilters(m, memoryType, tags, minImportance)
    requires Relevance(query, m.content, m.tags, m.StrengthAt(now)) > 0.0
    ensures HitFor(m, query, memoryType, tags, minImportance, now).Some?
    ensures HitFor(m, query, memoryType, tags, minImportance, now).value
              in Ranked(ms, query, memoryType, tags, minImportance, now)
  {
    SortDescSameElements(Scan(ms, query, memoryType, tags, minImportance, now), HitRank);
  }

  // ---------------------------------------------------------------------------
  // Pruning: the weakest go first

  /** A memory with its strength at the time of pruning. */
  datatype Scored = Scored(id: string, strength: real)

  /** Ascending strength as a descending key. */
  function WeakestFirst(s: Scored): Rank { Rank(-s.strength, 0.0) }

  function ScoredIds(ss: seq<Scored>): (r: seq<string>)
    ensures |r| == |ss| && forall i :: 0 <= i < |ss| ==> r[i] == ss[i].id
  {
    seq(|ss|, i requires 0 <= i < |ss| => ss[i].id)
  }

  lemma SortKeepsIdsDistinct(ss: seq<Scored>)
    requires Distinct(ScoredIds(ss))
    ensures Distinct(ScoredIds(SortDesc(ss, WeakestFirst)))
    ensures forall x :: x in SortDesc(ss, WeakestFirst) <==> x in ss
  {
    var t := SortDesc(ss, WeakestFirst);
    assert Distinct(ss) by {
      forall i, j | 0 <= i < j < |ss| ensures ss[i] != ss[j] {
        assert ScoredIds(ss)[i] != ScoredIds(ss)[j];
      }
    }
    DistinctPermutation(ss, t);
    SortDescSameElements(ss, WeakestFirst);
    forall a, b | 0 <= a < b < |t| ensures t[a].id != t[b].id {
      assert t[a] in ss && t[b] in ss;
      var a' :| 0 <= a' < |ss| && ss[a'] == t[a];
      var b' :| 0 <= b' < |ss| && ss[b'] == t[b];
      assert a' != b';
      assert ScoredIds(ss)[a'] != ScoredIds(ss)[b'];
    }
  }

  /** The ids of the weakest c. */
  function WeakestIds(ss: seq<Scored>, c: nat): seq<string> {
    ScoredIds(Take(SortDesc(ss, WeakestFirst), c))
  }

  /** The weakest c are c distinct ids of ss. */
  lemma WeakestIdsDistinct(ss: seq<Scored>, c: nat)
    requires Distinct(ScoredIds(ss)) && c <= |ss|
    ensures |WeakestIds(ss, c)| == c && Distinct(WeakestIds(ss, c))
    ensures forall v :: v in WeakestIds(ss, c) ==> v in ScoredIds(ss)
  {
    var t := SortDesc(ss, WeakestFirst);
    var vs := WeakestIds(ss, c);
    SortKeepsIdsDistinct(ss);
    assert forall a :: 0 <= a < c ==> vs[a] == t[a].id;
    forall v | v in vs ensures v in ScoredIds(ss) {
      var a :| 0 <= a < c && vs[a] == v;
      assert t[a] in ss;
      var a' :| 0 <= a' < |ss| && ss[a'] == t[a];
      assert ScoredIds(ss)[a'] == v;
    }
  }

  /** None of the weakest c is stronger than an entry left behind. */
  lemma WeakestAreWeakest(ss: seq<Scored>, c: nat, i: int, j: int)
    requires Distinct(ScoredIds(ss)) && c <= |ss|
    requires 0 <= i < |ss| && 0 <= j < |ss|
    requires ss[i].id in WeakestIds(ss, c) && ss[j].id !in WeakestIds(ss, c)
    ensures ss[i].strength <= ss[j].strength
  {
    var t := SortDesc(ss, WeakestFirst);
    var vs := WeakestIds(ss, c);
    SortKeepsIdsDistinct(ss);
    SortDescSorted(ss, WeakestFirst);
    assert forall a :: 0 <= a < c ==> vs[a] == t[a].id;
    var a :| 0 <= a < c && vs[a] == ss[i].id;
    assert t[a] in ss;
    var a' :| 0 <= a' < |ss| && ss[a'] == t[a];
    assert ScoredIds(ss)[a'] == ScoredIds(ss)[i];
    assert ss[j] in t;
    var b :| 0 <= b < |t| && t[b] == ss[j];
    assert RankGe(WeakestFirst(t[a]), WeakestFirst(t[b]));
  }

  // ---------------------------------------------------------------------------
  // Duplicates: one survivor per 50-character prefix

  /** A memory's dedup entry: its 50-character content prefix and its strength. */
  datatype Entry = Entry(id: string, prefix: string, strength: real)

  /**
   * Within the first k entries, entry i is the one a duplicate scan keeps: no
   * earlier entry of its prefix is stronger, and every later one is strictly
   * weaker (a later entry wins a tie).
   */
  predicate Champion(es: seq<Entry>, k: int, i: int)
    requires 0 <= i < k <= |es|
  {
    (forall j :: 0 <= j < i && es[j].prefix == es[i].prefix ==> es[j].strength <= es[i].strength)
    && (forall j :: i < j < k && es[j].prefix == es[i].prefix ==> es[j].strength < es[i].strength)
  }

  function EntryIds(es: seq<Entry>): (r: seq<string>)
    ensures |r| == |es| && forall i :: 0 <= i < |es| ==> r[i] == es[i].id
  {
    seq(|es|, i requires 0 <= i < |es| => es[i].id)
  }

  /** Entry i's prefix group has a champion. */
  predicate GroupHasChampion(es: seq<Entry>, i: int)
    requires 0 <= i < |es|
  {
    exists j :: 0 <= j < |es| && es[j].prefix == es[i].prefix && Champion(es, |es|, j)
  }

  /** Each prefix group has at most one champion. */
  lemma ChampionUnique(es: seq<Entry>, k: int, i: int, j: int)
    requires 0 <= i < k <= |es| && 0 <= j < k && i != j && es[i].prefix == es[j].prefix
    requires Champion(es, k, i)
    ensures !Champion(es, k, j)
  {
  }

  lemma ChampionExtend(es: seq<Entry>, k: int, i: int)
    requires 0 <= i < k < |es|
    ensures Champion(es, k + 1, i) <==>
            Champion(es, k, i) && (es[k].prefix == es[i].prefix ==> es[k].strength < es[i].strength)
  {
  }

  lemma ChampionNewcomer(es: seq<Entry>, k: int, c: int)
    requires 0 <= c < k < |es| && es[c].prefix == es[k].prefix && Champion(es, k, c)
    ensures Champion(es, k + 1, k) <==> es[c].strength <= es[k].strength
  {
    if es[c].strength <= es[k].strength {
      forall j | 0 <= j < k && es[j].prefix == es[k].prefix ensures es[j].strength <= es[k].strength {
        if j < c {
        } else if j > c {
        }
      }
    }
  }

  /** The scan state after k entries: `seen` maps each prefix so far to its champion. */
  predicate SeenOk(es: seq<Entry>, k: int, seen: map<string, nat>)
    requires 0 <= k <= |es|
  {
    (forall p :: p in seen ==> seen[p] < k && es[seen[p]].prefix == p && Champion(es, k, seen[p]))
    && (forall i :: 0 <= i < k ==> es[i].prefix in seen)
  }

  /** The scan state after k entries: `dups` lists exactly the non-champions so far. */
  predicate DupsOk(es: seq<Entry>, k: int, dups: seq<string>)
    requires 0 <= k <= |es|
  {
    (forall i :: 0 <= i < k ==> (es[i].id in dups <==> !Champion(es, k, i)))
    && (forall d :: d in dups ==> exists i :: 0 <= i < k && es[i].id == d)
    && Distinct(dups)
  }

  predicate IdsDistinct(es: seq<Entry>) {
    forall i, j :: 0 <= i < j < |es| ==> es[i].id != es[j].id
  }

  /** Adding an id not yet listed keeps a list of ids from the first k entries distinct. */
  lemma AppendDup(es: seq<Entry>, k: int, dups: seq<string>, x: string)
    requires 0 <= k < |es|
    requires Distinct(dups) && x !in dups
    requires forall d :: d in dups ==> exists i :: 0 <= i < k && es[i].id == d
    requires exists i :: 0 <= i < k + 1 && es[i].id == x
    ensures Distinct(dups + [x])
    ensures forall d :: d in dups + [x] ==> exists i :: 0 <= i < k + 1 && es[i].id == d
  {
    forall d | d in dups + [x] ensures exists i :: 0 <= i < k + 1 && es[i].id == d {
      if d != x {
        assert d in dups;
        var i :| 0 <= i < k && es[i].id == d;
      }
    }
  }

  /** A prefix not seen before: the entry becomes its champion. */
  lemma StepFirst(es: seq<Entry>, k: int, seen: map<string, nat>, dups: seq<string>)
    requires 0 <= k < |es| && IdsDistinct(es)
    requires SeenOk(es, k, seen) && DupsOk(es, k, dups) && es[k].prefix !in seen
    ensures SeenOk(es, k + 1, seen[es[k].prefix := k]) && DupsOk(es, k + 1, dups)
  {
    var p := es[k].prefix;
    var seen' := seen[p := k];
    assert Champion(es, k + 1, k);
    forall q | q in seen' ensures seen'[q] < k + 1 && es[seen'[q]].prefix == q && Champion(es, k + 1, seen'[q]) {
      if q != p {
        ChampionExtend(es, k, seen[q]);
      }
    }
    forall i | 0 <= i < k ensures es[i].id in dups <==> !Champion(es, k + 1, i) {
      ChampionExtend(es, k, i);
    }
  }

  /** Champions other than c keep their standing when entry k joins c's group or another. */
  lemma StepOthers(es: seq<Entry>, k: int, c: int, i: int)
    requires 0 <= c < k < |es| && 0 <= i < k && i != c
    requires es[c].prefix == es[k].prefix && Champion(es, k, c)
    ensures Champion(es, k + 1, i) <==> Champion(es, k, i)
  {
    ChampionExtend(es, k, i);
    if es[i].prefix == es[k].prefix {
      ChampionUnique(es, k, c, i);
    }
  }

  /** The champions of the first k entries other than c's group stay champions. */
  lemma StepSeen(es: seq<Entry>, k: int, seen: map<string, nat>)
    requires 0 <= k < |es| && SeenOk(es, k, seen) && es[k].prefix in seen
    ensures forall q :: q in seen && q != es[k].prefix ==> Champion(es, k + 1, seen[q])
  {
    forall q | q in seen && q != es[k].prefix ensures Champion(es, k + 1, seen[q]) {
      ChampionExtend(es, k, seen[q]);
    }
  }

  /** The entry is weaker than the champion c: the champions stay. */
  lemma StepLosesSeen(es: seq<Entry>, k: int, seen: map<string, nat>)
    requires 0 <= k < |es|
    requires SeenOk(es, k, seen) && es[k].prefix in seen
    requires es[k].strength < es[seen[es[k].prefix]].strength
    ensures SeenOk(es, k + 1, seen)
  {
    ChampionExtend(es, k, seen[es[k].prefix]);
    StepSeen(es, k, seen);
  }

  /** The entry is weaker than the champion c: it is a duplicate. */
  lemma StepLoses(es: seq<Entry>, k: int, seen: map<string, nat>, dups: seq<string>)
    requires 0 <= k < |es| && IdsDistinct(es)
    requires SeenOk(es, k, seen) && DupsOk(es, k, dups) && es[k].prefix in seen
    requires es[k].strength < es[seen[es[k].prefix]].strength
    ensures DupsOk(es, k + 1, dups + [es[k].id])
  {
    var p := es[k].prefix;
    var c := seen[p];
    ChampionNewcomer(es, k, c);
    ChampionExtend(es, k, c);
    assert Champion(es, k + 1, c) && !Champion(es, k + 1, k);
    var dups' := dups + [es[k].id];
    forall i | 0 <= i < k ensures es[i].id in dups' <==> !Champion(es, k + 1, i) {
      assert es[i].id != es[k].id;
      if i != c {
        StepOthers(es, k, c, i);
      } else {
        assert es[c].id !in dups;
      }
    }
    assert es[k].id !in dups by {
      forall d | d in dups ensures d != es[k].id {
        var i :| 0 <= i < k && es[i].id == d;
      }
    }
    AppendDup(es, k, dups, es[k].id);
  }

  /** The entry is at least as strong as the champion c: it replaces c as its prefix's champion. */
  lemma StepWinsSeen(es: seq<Entry>, k: int, seen: map<string, nat>)
    requires 0 <= k < |es|
    requires SeenOk(es, k, seen) && es[k].prefix in seen
    requires es[k].strength >= es[seen[es[k].prefix]].strength
    ensures SeenOk(es, k + 1, seen[es[k].prefix := k])
  {
    ChampionNewcomer(es, k, seen[es[k].prefix]);
    StepSeen(es, k, seen);
  }

  /** The entry is at least as strong as the champion c: c is the duplicate. */
  lemma StepWins(es: seq<Entry>, k: int, seen: map<string, nat>, dups: seq<string>)
    requires 0 <= k < |es| && IdsDistinct(es)
    requires SeenOk(es, k, seen) && DupsOk(es, k, dups) && es[k].prefix in seen
    requires es[k].strength >= es[seen[es[k].prefix]].strength
    ensures DupsOk(es, k + 1, dups + [es[seen[es[k].prefix]].id])
  {
    var p := es[k].prefix;
    var c := seen[p];
    ChampionNewcomer(es, k, c);
    ChampionExtend(es, k, c);
    var dups' := dups + [es[c].id];
    forall i | 0 <= i < k ensures es[i].id in dups' <==> !Champion(es, k + 1, i) {
      if i != c {
        StepOthers(es, k, c, i);
        assert es[i].id != es[c].id;
      }
    }
    assert es[k].id != es[c].id;
    AppendDup(es, k, dups, es[c].id);
  }

  /**
   * `_find_duplicate_memories`: walks the entries keeping, per prefix, the
   * strongest so far (a later one wins a tie); every entry that loses is
   * reported. The result is exactly the entries that are not champions, and
   * every prefix keeps its champion.
   */
  method FindDuplicates(es: seq<Entry>) returns (dups: seq<string>)
    requires Distinct(EntryIds(es))
    ensures Distinct(dups)
    ensures forall i :: 0 <= i < |es| ==> (es[i].id in dups <==> !Champion(es, |es|, i))
    ensures forall d :: d in dups ==> d in EntryIds(es)
    ensures forall i :: 0 <= i < |es| ==> GroupHasChampion(es, i)
  {
    assert IdsDistinct(es) by {
      assert forall i :: 0 <= i < |es| ==> EntryIds(es)[i] == es[i].id;
    }
    dups := [];
    var seen: map<string, nat> := map[];
    var k := 0;
    while k < |es|
      invariant 0 <= k <= |es|
      invariant SeenOk(es, k, seen) && DupsOk(es, k, dups)
    {
      var e := es[k];
      if e.prefix in seen {
        var other := seen[e.prefix];
        if e.strength < es[other].strength {
          StepLosesSeen(es, k, seen);
          StepLoses(es, k, seen, dups);
          dups := dups + [e.id];
        } else {
          StepWinsSeen(es, k, seen);
          StepWins(es, k, seen, dups);
          dups := dups + [es[other].id];
          seen := seen[e.prefix := k];
        }
      } else {
        StepFirst(es, k, seen, dups);
        seen := seen[e.prefix := k];
      }
      k := k + 1;
    }
    ScanDone(es, seen, dups);
  }

  /** What the finished scan state says about the whole sequence. */
  lemma ScanDone(es: seq<Entry>, seen: map<string, nat>, dups: seq<string>)
    requires SeenOk(es, |es|, seen) && DupsOk(es, |es|, dups)
    ensures Distinct(dups)
    ensures forall i :: 0 <= i < |es| ==> (es[i].id in dups <==> !Champion(es, |es|, i))
    ensures forall d :: d in dups ==> d in EntryIds(es)
    ensures forall i :: 0 <= i < |es| ==> GroupHasChampion(es, i)
  {
    forall d | d in dups ensures d in EntryIds(es) {
      var i :| 0 <= i < |es| && es[i].id == d;
      assert EntryIds(es)[i] == d;
    }
    forall i | 0 <= i < |es|
      ensures GroupHasChampion(es, i)
    {
      assert es[i].prefix in seen;
      var j := seen[es[i].prefix];
      assert 0 <= j < |es| && es[j].prefix == es[i].prefix && Champion(es, |es|, j);
    }
  }

  /** No two survivors of a duplicate scan share a prefix. */
  lemma SurvivorsDiffer(es: seq<Entry>, dups: seq<string>, i: int, j: int)
    requires forall x :: 0 <= x < |es| ==> (es[x].id in dups <==> !Champion(es, |es|, x))
    requires 0 <= i < |es| && 0 <= j < |es| && i != j
    requires es[i].id !in dups && es[j].id !in dups
    ensures es[i].prefix != es[j].prefix
  {
    if es[i].prefix == es[j].prefix {
      ChampionUnique(es, |es|, i, j);
    }
  }

  /** Every duplicate has a survivor of its prefix that is at least as strong. */
  lemma DuplicateHasSurvivor(es: seq<Entry>, dups: seq<string>, i: int) returns (j: int)
    requires forall x :: 0 <= x < |es| ==> (es[x].id in dups <==> !Champion(es, |es|, x))
    requires forall x :: 0 <= x < |es| ==> GroupHasChampion(es, x)
    requires 0 <= i < |es|
    ensures 0 <= j < |es| && es[j].id !in dups && es[j].prefix == es[i].prefix
    ensures es[j].strength >= es[i].strength
  {
    assert GroupHasChampion(es, i);
    j :| 0 <= j < |es| && es[j].prefix == es[i].prefix && Champion(es, |es|, j);
    if i != j {
      assert es[i].strength <= es[j].strength;
    }
  }

  // ---------------------------------------------------------------------------
  // The memory bank

  /** The report of `consolidate_memories`. */
  datatype ConsolidationReport = ConsolidationReport(beforeCount: nat, afterCount: nat, removedWeak: nat,
                                                     removedDuplicates: nat, timestamp: Time)

  /** The memories of ms of the given type, in order. */
  function OfType(ms: seq<Memory>, t: MemoryType): (r: seq<Memory>)
    ensures forall i :: 0 <= i < |r| ==> r[i] in ms && r[i].memoryType == t
    ensures forall i :: 0 <= i < |ms| && ms[i].memoryType == t ==> ms[i] in r
    ensures |r| <= |ms|
  {
    if ms == [] then []
    else (if ms[0].memoryType == t then [ms[0]] else []) + OfType(ms[1..], t)
  }

  /** The memories of ms stamped strictly after the cutoff, in order. */
  function After(ms: seq<Memory>, cutoff: Time): (r: seq<Memory>)
    ensures forall i :: 0 <= i < |r| ==> r[i] in ms && r[i].timestamp > cutoff
    ensures forall i :: 0 <= i < |ms| && ms[i].timestamp > cutoff ==> ms[i] in r
    ensures |r| <= |ms|
  {
    if ms == [] then []
    else (if ms[0].timestamp > cutoff then [ms[0]] else []) + After(ms[1..], cutoff)
  }

  class MemoryBank {
    const maxMemories: int
    var memories: map<string, Memory>
    /** The keys of `memories` in insertion order (dict iteration order). */
    var order: seq<string>

    ghost predicate Valid()
      reads this
    {
      Distinct(order)
      && (forall k :: k in order <==> k in memories)
      && (forall k :: k in memories ==> memories[k].id == k)
    }

    /** An empty bank (the source's default limit is 1000). */
    constructor (maxMemories: int)
      ensures Valid() && this.maxMemories == maxMemories
      ensures memories == map[] && order == []
    {
      this.maxMemories := maxMemories;
      memories, order := map[], [];
    }

    /** The memories in iteration order. */
    function Values(): (r: seq<Memory>)
      reads this
      requires Valid()
      ensures |r| == |order|
      ensures forall i :: 0 <= i < |order| ==> r[i] == memories[order[i]]
    {
      seq(|order|, i requires 0 <= i < |order| && order[i] in memories reads this => memories[order[i]])
    }

    function Footprint(): set<Memory>
      reads this
    {
      set k | k in memories :: memories[k]
    }

    /** `get_memories_by_type` */
    function MemoriesByType(t: MemoryType): (r: seq<Memory>)
      reads this
      requires Valid()
      ensures forall i :: 0 <= i < |r| ==> r[i] in memories.Values && r[i].memoryType == t
      ensures forall k :: k in memories && memories[k].memoryType == t ==> memories[k] in r
    {
      var ms := Values();
      assert forall k :: k in memories ==> memories[k] in ms by {
        forall k | k in memories ensures memories[k] in ms {
          var i :| 0 <= i < |order| && order[i] == k;
          assert ms[i] == memories[k];
        }
      }
      OfType(ms, t)
    }

    /** `get_recent_memories`: stamped within the last `days` days. */
    function RecentMemories(days: int, now: Time): (r: seq<Memory>)
      reads this
      requires Valid()
      ensures forall i :: 0 <= i < |r| ==> r[i] in memories.Values && r[i].timestamp > now - days as real * SecondsPerDay
      ensures forall k :: k in memories && memories[k].timestamp > now - days as real * SecondsPerDay ==>
                memories[k] in r
    {
      var ms := Values();
      assert forall k :: k in memories ==> memories[k] in ms by {
        forall k | k in memories ensures memories[k] in ms {
          var i :| 0 <= i < |order| && order[i] == k;
          assert ms[i] == memories[k];
        }
      }
      After(ms, now - days as real * SecondsPerDay)
    }

    /** Every memory with its strength at `now`, in iteration order. */
    function Scores(now: Time): (r: seq<Scored>)
      reads this, Footprint()
      requires Valid()
      ensures |r| == |order|
      ensures forall i :: 0 <= i < |order| ==> r[i] == Scored(order[i], memories[order[i]].StrengthAt(now))
    {
      seq(|order|, i requires 0 <= i < |order| && order[i] in memories reads this, Footprint() =>
        Scored(order[i], memories[order[i]].StrengthAt(now)))
    }

    /** `max(1, n // 10)` */
    static function PruneCount(n: nat): (r: nat)
      ensures 1 <= r
      ensures 1 <= n ==> r <= n
    {
      if n / 10 >= 1 then n / 10 else 1
    }

    /** The ids `_prune_memories` deletes: the weakest first (ties in insertion order). */
    function VictimIds(now: Time): seq<string>
      reads this, Footprint()
      requires Valid()
    {
      WeakestIds(Scores(now), PruneCount(|order|))
    }

    /**
     * Pruning a non-empty bank deletes exactly `max(1, n // 10)` distinct
     * memories, none of them stronger than any memory it keeps.
     */
    lemma PruneRemovesWeakest(now: Time)
      requires Valid() && |order| >= 1
      ensures forall v :: v in VictimIds(now) ==> v in memories
      ensures |VictimIds(now)| == PruneCount(|order|) && Distinct(VictimIds(now))
      ensures forall v, k :: v in VictimIds(now) && k in memories && k !in VictimIds(now) ==>
                memories[v].StrengthAt(now) <= memories[k].StrengthAt(now)
    {
      var ss := Scores(now);
      var c := PruneCount(|order|);
      assert ScoredIds(ss) == order;
      WeakestIdsDistinct(ss, c);
      forall v, k | v in VictimIds(now) && k in memories && k !in VictimIds(now)
        ensures memories[v].StrengthAt(now) <= memories[k].StrengthAt(now)
      {
        var a :| 0 <= a < |order| && order[a] == v;
        var b :| 0 <= b < |order| && order[b] == k;
        WeakestAreWeakest(ss, c, a, b);
      }
    }

    /** Deletes the given keys from the bank, one at a time. */
    method DeleteAll(ids: seq<string>)
      requires Valid()
      modifies this
      ensures Valid()
      ensures memories == old(memories) - (set d | d in ids)
      ensures order == Without(old(order), set d | d in ids)
    {
      var i := 0;
      while i < |ids|
        invariant 0 <= i <= |ids|
        invariant order == old(order)
        invariant memories == old(memories) - (set d | d in ids[..i])
      {
        if ids[i] in memories {
          memories := map k | k in memories && k != ids[i] :: memories[k];
        }
        assert ids[..i + 1] == ids[..i] + [ids[i]];
        i := i + 1;
      }
      assert ids[..i] == ids;
      order := Without(order, set d | d in ids);
    }

    /** `_prune_memories`: deletes the `max(1, n // 10)` weakest memories. */
    method PruneMemories(now: Time)
      requires Valid()
      modifies this
      ensures Valid()
      ensures memories == old(memories) - (set v | v in old(VictimIds(now)))
      ensures order == Without(old(order), set v | v in old(VictimIds(now)))
      ensures |old(order)| >= 1 ==> |order| == |old(order)| - PruneCount(|old(order)|)
      ensures forall k :: k in memories ==> k in old(memories)
      ensures forall r, k :: r in old(memories) && r !in memories && k in memories ==>
                old(memories)[r].StrengthAt(now) <= memories[k].StrengthAt(now)
    {
      var victims := VictimIds(now);
      if |order| >= 1 {
        PruneRemovesWeakest(now);
        DistinctCard(victims);
        WithoutCard(order, set v | v in victims);
      }
      DeleteAll(victims);
    }

    /** `retrieve_memory`: a hit is accessed once more; a miss changes nothing. */
    method RetrieveMemory(id: string, now: Time) returns (m: Memory?)
      requires Valid()
      modifies if id in memories then {memories[id]} else {}
      ensures id in memories ==> m == memories[id] && m.accessCount == old(m.accessCount) + 1
                                 && m.lastAccessed == Some(now)
      ensures id !in memories ==> m == null
    {
      if id in memories {
        m := memories[id];
        m.UpdateAccess(now);
      } else {
        m := null;
      }
    }

    /** Stores m under its id, appended to the iteration order. */
    method Insert(m: Memory)
      requires Valid() && m.id !in memories
      modifies this
      ensures Valid()
      ensures memories == old(memories)[m.id := m] && order == old(order) + [m.id]
    {
      memories := memories[m.id := m];
      order := order + [m.id];
    }

    /**
     * `add_memory`: stores a new memory under a fresh id, then prunes the
     * weakest when the bank holds more than `maxMemories`.
     */
    method AddMemory(freshId: string, content: string, memoryType: MemoryType, importance: Importance,
                     source: string, tags: seq<string>, context: Fields, now: Time) returns (m: Memory)
      requires Valid() && freshId !in memories
      modifies this
      ensures Valid() && fresh(m)
      ensures m.id == freshId && m.content == content && m.memoryType == memoryType
      ensures m.importance == importance && m.source == source && m.tags == tags
      ensures m.context == context && m.timestamp == now && m.accessCount == 0
      ensures |old(order)| + 1 <= maxMemories ==>
                memories == old(memories)[freshId := m] && order == old(order) + [freshId]
      ensures |old(order)| + 1 > maxMemories ==>
                |order| == |old(order)| + 1 - PruneCount(|old(order)| + 1)
      ensures forall k :: k in memories ==> k in old(memories) || k == freshId
      ensures forall k :: k in memories ==> memories[k] == old(memories)[freshId := m][k]
      ensures |old(order)| + 1 > maxMemories ==>
                var added := old(memories)[freshId := m];
                forall r, k :: r in added && r !in memories && k in memories ==>
                  added[r].StrengthAt(now) <= memories[k].StrengthAt(now)
      ensures 0 <= maxMemories && |old(order)| <= maxMemories ==> |order| <= maxMemories
    {
      m := new Memory(freshId, memoryType, content, context, importance, now, source, tags);
      Insert(m);
      if |order| > maxMemories {
        PruneMemories(now);
      }
    }

    /** `search_memories` (min_importance None means no importance filter). */
    method SearchMemories(query: string, memoryType: Option<MemoryType>, tags: seq<string>,
                          minImportance: Option<Importance>, now: Time) returns (results: seq<(Memory, real)>)
      requires Valid()
      ensures results == HitPairs(Ranked(Values(), Lower(query), memoryType, tags, minImportance, now))
    {
      var hits := ScanMemories(Values(), Lower(query), memoryType, tags, minImportance, now);
      results := HitPairs(SortDesc(hits, HitRank));
    }

    /** The weak memories among ids, in order. */
    function WeakAmong(ids: seq<string>, now: Time): (r: seq<string>)
      reads this, Footprint()
      requires forall k :: k in ids ==> k in memories
      ensures forall k :: k in r <==> k in ids && IsWeak(memories[k], now)
      ensures Distinct(ids) ==> Distinct(r)
    {
      if ids == [] then []
      else
        var rest := WeakAmong(ids[1..], now);
        assert Distinct(ids) ==> ids[0] !in ids[1..];
        if IsWeak(memories[ids[0]], now) then [ids[0]] + rest else rest
    }

    /** Every memory's dedup entry, in iteration order. */
    function Entries(now: Time): (r: seq<Entry>)
      reads this, Footprint()
      requires Valid()
      ensures |r| == |order| && EntryIds(r) == order
      ensures forall i :: 0 <= i < |order| ==>
                r[i] == Entry(order[i], Take(memories[order[i]].content, 50), memories[order[i]].StrengthAt(now))
    {
      seq(|order|, i requires 0 <= i < |order| && order[i] in memories reads this, Footprint() =>
        Entry(order[i], Take(memories[order[i]].content, 50), memories[order[i]].StrengthAt(now)))
    }

    /** `_find_duplicate_memories` over the bank's memories. */
    method FindDuplicateMemories(now: Time) returns (dups: seq<string>)
      requires Valid()
      ensures Distinct(dups) && forall d :: d in dups ==> d in memories
      ensures forall a, b :: a in memories && b in memories && a !in dups && b !in dups && a != b ==>
                Take(memories[a].content, 50) != Take(memories[b].content, 50)
      ensures forall d :: d in dups ==> exists k :: (k in memories && k !in dups
                && Take(memories[k].content, 50) == Take(memories[d].content, 50)
                && memories[k].StrengthAt(now) >= memories[d].StrengthAt(now))
    {
      var es := Entries(now);
      dups := FindDuplicates(es);
      forall a, b | a in memories && b in memories && a !in dups && b !in dups && a != b
        ensures Take(memories[a].content, 50) != Take(memories[b].content, 50)
      {
        var i :| 0 <= i < |order| && order[i] == a;
        var j :| 0 <= j < |order| && order[j] == b;
        SurvivorsDiffer(es, dups, i, j);
      }
      forall d | d in dups
        ensures exists k :: (k in memories && k !in dups
                && Take(memories[k].content, 50) == Take(memories[d].content, 50)
                && memories[k].StrengthAt(now) >= memories[d].StrengthAt(now))
      {
        var i :| 0 <= i < |order| && order[i] == d;
        var j := DuplicateHasSurvivor(es, dups, i);
        assert order[j] in memories && order[j] !in dups;
      }
    }

    /** The weak-memory pass of `consolidate_memories`. */
    method RemoveWeak(now: Time) returns (weak: seq<string>)
      requires Valid()
      modifies this
      ensures Valid()
      ensures weak == old(WeakAmong(order, now))
      ensures |order| == |old(order)| - |weak|
      ensures memories == old(memories) - (set w | w in weak)
      ensures forall k :: k in memories ==> !IsWeak(memories[k], now)
      ensures forall k :: k in old(memories) && IsWeak(old(memories)[k], now) ==>
                k !in memories && old(memories)[k].importance == Trivial
    {
      weak := WeakAmong(order, now);
      forall k | k in memories && IsWeak(memories[k], now) ensures memories[k].importance == Trivial {
        WeakIsTrivial(memories[k], now);
      }
      DistinctCard(weak);
      WithoutCard(order, set w | w in weak);
      DeleteAll(weak);
    }

    /** The duplicate pass of `consolidate_memories`. */
    method RemoveDuplicates(now: Time) returns (dups: seq<string>)
      requires Valid()
      modifies this
      ensures Valid()
      ensures |order| == |old(order)| - |dups|
      ensures memories == old(memories) - (set d | d in dups)
      ensures forall a, b :: a in memories && b in memories && a != b ==>
                Take(memories[a].content, 50) != Take(memories[b].content, 50)
      ensures forall d :: d in old(memories) && d !in memories ==>
                exists k :: (k in memories && Take(memories[k].content, 50) == Take(old(memories)[d].content, 50)
                  && memories[k].StrengthAt(now) >= old(memories)[d].StrengthAt(now))
    {
      dups := FindDuplicateMemories(now);
      DistinctCard(dups);
      WithoutCard(order, set d | d in dups);
      DeleteAll(dups);
    }

    /**
     * `consolidate_memories`: deletes the weak memories, then every
     * duplicate the scan reports, and reports the counts.
     */
    method ConsolidateMemories(now: Time) returns (report: ConsolidationReport)
      requires Valid()
      modifies this
      ensures Valid()
      ensures report.beforeCount == |old(order)| && report.afterCount == |order|
      ensures report.afterCount == report.beforeCount - report.removedWeak - report.removedDuplicates
      ensures report.removedWeak == |old(WeakAmong(order, now))| && report.timestamp == now
      ensures forall k :: k in memories ==> k in old(memories)
      ensures forall k :: k in memories ==> !IsWeak(memories[k], now)
      ensures forall k :: k in old(memories) && IsWeak(old(memories)[k], now) ==>
                k !in memories && old(memories)[k].importance == Trivial
      ensures forall a, b :: a in memories && b in memories && a != b ==>
                Take(memories[a].content, 50) != Take(memories[b].content, 50)
      ensures forall d :: d in old(memories) && d !in memories && !IsWeak(old(memories)[d], now) ==>
                exists k :: (k in memories && Take(memories[k].content, 50) == Take(old(memories)[d].content, 50)
                  && memories[k].StrengthAt(now) >= old(memories)[d].StrengthAt(now))
    {
      var before := |order|;
      var weak := RemoveWeak(now);
      ghost var mid := memories;
      var dups := RemoveDuplicates(now);
      forall d | d in old(memories) && d !in memories && !IsWeak(old(memories)[d], now)
        ensures d in mid && mid[d] == old(memories)[d]
      {
      }
      report := ConsolidationReport(before, |order|, |weak|, |dups|, now);
    }
  }

  // ---------------------------------------------------------------------------
  // Tool functions over the bank held in the tool context (`state["memory_bank"]`)

  /** What the `add_memory` tool returns. */
  datatype AddMemoryReport =
    | MemoryAdded(memoryId: string, typeName: string, importanceName: string, timestamp: Time)
    | InvalidEnum(message: string)

  /**
   * The error the tool reports for the first enum name that does not parse, if
   * any: `repr` of the upper-cased name, as `str()` of a `KeyError` gives it.
   */
  function EnumError(memoryType: string, importance: string): (r: Option<string>)
    ensures r.None? <==> TypeByName(Upper(memoryType)).Some? && ImportanceByName(Upper(importance)).Some?
    ensures TypeByName(Upper(memoryType)).None? ==> r == Some("Invalid enum: " + PyRepr(Upper(memoryType)))
    ensures TypeByName(Upper(memoryType)).Some? && ImportanceByName(Upper(importance)).None? ==>
              r == Some("Invalid enum: " + PyRepr(Upper(importance)))
  {
    if TypeByName(Upper(memoryType)).None? then Some("Invalid enum: " + PyRepr(Upper(memoryType)))
    else if ImportanceByName(Upper(importance)).None? then Some("Invalid enum: " + PyRepr(Upper(importance)))
    else None
  }

  /**
   * The `add_memory` tool: creates the bank when the context has none, then
   * parses both enum names (case-insensitively); a bad name adds nothing.
   */
  method AddMemoryTool(slot: MemoryBank?, freshId: string, content: string, memoryType: string,
                       importance: string, source: string, tags: seq<string>, context: Fields, now: Time)
    returns (bank: MemoryBank, report: AddMemoryReport)
    requires slot != null ==> slot.Valid() && freshId !in slot.memories
    modifies slot
    ensures bank.Valid()
    ensures slot != null ==> bank == slot
    ensures slot == null ==> fresh(bank) && bank.maxMemories == 1000
    ensures report.InvalidEnum? <==> EnumError(memoryType, importance).Some?
    ensures report.InvalidEnum? ==> Some(report.message) == EnumError(memoryType, importance)
    ensures report.InvalidEnum? && slot != null ==>
              bank.memories == old(slot.memories) && bank.order == old(slot.order)
    ensures report.InvalidEnum? && slot == null ==> bank.memories == map[]
    ensures report.MemoryAdded? ==>
              report == MemoryAdded(freshId, memoryType, importance, now)
              && TypeByName(Upper(memoryType)).Some? && ImportanceByName(Upper(importance)).Some?
    ensures report.MemoryAdded? && freshId in bank.memories ==>
              var m := bank.memories[freshId];
              m.id == freshId && m.content == content && m.memoryType == TypeByName(Upper(memoryType)).value
              && m.importance == ImportanceByName(Upper(importance)).value && m.source == source
              && m.tags == tags && m.context == context && m.timestamp == now && m.accessCount == 0
    ensures report.MemoryAdded? && slot == null ==> bank.memories.Keys == {freshId}
    ensures report.MemoryAdded? && slot != null && |old(slot.order)| + 1 <= bank.maxMemories ==>
              bank.memories.Keys == old(slot.memories).Keys + {freshId}
    ensures slot != null ==> forall k :: k in bank.memories && k != freshId ==>
              k in old(slot.memories) && bank.memories[k] == old(slot.memories[k])
  {
    if slot == null {
      bank := new MemoryBank(1000);
    } else {
      bank := slot;
    }
    var error := EnumError(memoryType, importance);
    if error.Some? {
      report := InvalidEnum(error.value);
      return;
    }
    var m := bank.AddMemory(freshId, content, TypeByName(Upper(memoryType)).value,
                            ImportanceByName(Upper(importance)).value, source, tags, context, now);
    report := MemoryAdded(m.id, memoryType, importance, now);
  }

  /** One row of the `search_memories` tool's result. */
  datatype SearchRow = SearchRow(id: string, content: string, typeValue: string, strength: real,
                                 relevance: real, timestamp: Time)

  /** What the `search_memories` tool returns. */
  datatype SearchReport =
    | NoMemoryBank
    | SearchComplete(query: string, results: seq<SearchRow>, totalResults: nat)

  function SearchRows(hits: seq<(Memory, real)>, now: Time): (r: seq<SearchRow>)
    reads set h | h in hits :: h.0
    ensures |r| == |hits|
    ensures forall i :: 0 <= i < |hits| ==>
              r[i] == SearchRow(hits[i].0.id, hits[i].0.content, TypeValue(hits[i].0.memoryType),
                                hits[i].0.StrengthAt(now), hits[i].1, hits[i].0.timestamp)
  {
    seq(|hits|, i requires 0 <= i < |hits| reads set h | h in hits :: h.0 =>
      SearchRow(hits[i].0.id, hits[i].0.content, TypeValue(hits[i].0.memoryType),
                hits[i].0.StrengthAt(now), hits[i].1, hits[i].0.timestamp))
  }

  /**
   * The `search_memories` tool: an unknown type name is ignored, the bank's
   * default importance floor LOW applies, and at most ten rows are reported
   * next to the total number of hits.
   */
  method SearchMemoriesTool(slot: MemoryBank?, query: string, memoryType: Option<string>, tags: seq<string>,
                            now: Time) returns (report: SearchReport)
    requires slot != null ==> slot.Valid()
    ensures slot == null <==> report == NoMemoryBank
    ensures slot != null ==>
              var typeFilter := if memoryType.Some? && memoryType.value != "" then TypeByName(Upper(memoryType.value)) else None;
              var hits := HitPairs(Ranked(slot.Values(), Lower(query), typeFilter, tags, Some(Low), now));
              report == SearchComplete(query, SearchRows(Take(hits, 10), now), |hits|)
  {
    if slot == null {
      return NoMemoryBank;
    }
    var typeFilter := None;
    if memoryType.Some? && memoryType.value != "" {
      typeFilter := TypeByName(Upper(memoryType.value));
    }
    var hits := slot.SearchMemories(query, typeFilter, tags, Some(Low), now);
    report := SearchComplete(query, SearchRows(Take(hits, 10), now), |hits|);
  }
}
