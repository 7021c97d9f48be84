/** The simulation as a state machine on values: the configuration, the
    statistics, the routing of an access to one of the three caches, one
    step of the access loop, and the replay of a whole trace. */
module Driver {
  import opened Cache

  datatype Mapping = DirectMapped | FullyAssociative
  datatype Organization = Unified | Split
  datatype AccessKind = Instruction | Data

  /** One trace record. */
  datatype MemAccess = MemAccess(address: u32, kind: AccessKind)

  /** The command-line configuration; numBlocks is cache_size / block_size. */
  datatype Config = Config(numBlocks: nat, mapping: Mapping, org: Organization)

  /** The cache_stat_t counters. */
  datatype Stats = Stats(accesses: nat, hits: nat, evicts: nat)

  /** The three caches, the counters, and the one replacement cursor that
      every fully-associative access shares. */
  datatype Sim = Sim(unified: seq<Line>, data: seq<Line>, instr: seq<Line>,
                     stats: Stats, cursor: nat)

  /** Which of the three caches an access goes to. */
  datatype Target = UnifiedCache | DataCache | InstructionCache

  function CacheOf(s: Sim, t: Target): seq<Line>
  {
    match t
    case UnifiedCache => s.unified
    case DataCache => s.data
    case InstructionCache => s.instr
  }

  function WithCache(s: Sim, t: Target, cache: seq<Line>): (r: Sim)
  {
    match t
    case UnifiedCache => s.(unified := cache)
    case DataCache => s.(data := cache)
    case InstructionCache => s.(instr := cache)
  }

  /** The dispatch of the access loop: a unified organisation sends every
      access to the unified cache, a split one sends data accesses to the
      data cache and instruction accesses to the instruction cache. */
  function Route(org: Organization, kind: AccessKind): (t: Target)
    ensures t.UnifiedCache? <==> org.Unified?
    ensures t.DataCache? <==> org.Split? && kind.Data?
    ensures t.InstructionCache? <==> org.Split? && kind.Instruction?
  {
    if org == Unified then UnifiedCache
    else if kind == Data then DataCache
    else InstructionCache
  }

  /** The state main sets up before the access loop: zeroed counters and
      cursor, the unified cache cleared entirely, and the data and
      instruction caches cleared only on their lower half. The rest of each
      array keeps what the allocator left there, given here as `garbage`. */
  function Start(numBlocks: nat, garbageUnified: seq<Line>, garbageData: seq<Line>,
                 garbageInstr: seq<Line>): (s: Sim)
    requires |garbageUnified| == |garbageData| == |garbageInstr| == numBlocks
    ensures |s.unified| == |s.data| == |s.instr| == numBlocks
    ensures forall j :: 0 <= j < numBlocks ==> s.unified[j] == Empty
    ensures forall j :: 0 <= j < numBlocks / 2 ==> s.data[j] == Empty && s.instr[j] == Empty
    ensures forall j :: numBlocks / 2 <= j < numBlocks ==>
              s.data[j] == garbageData[j] && s.instr[j] == garbageInstr[j]
    ensures s.stats == Stats(0, 0, 0) && s.cursor == 0
  {
    Sim(Initialized(garbageUnified, numBlocks), Initialized(garbageData, numBlocks / 2),
        Initialized(garbageInstr, numBlocks / 2), Stats(0, 0, 0), 0)
  }

  /** Every cache is numBlocks lines long, and the shared cursor is below
      numBlocks (or 0 when there are no lines). */
  predicate Shaped(c: Config, s: Sim)
  {
    |s.unified| == c.numBlocks && |s.data| == c.numBlocks && |s.instr| == c.numBlocks &&
    (s.cursor < c.numBlocks || s.cursor == 0)
  }

  /** A state a record can be processed in: every access passes numBlocks
      as the size, and the policies reduce by it, so it must not be 0. */
  predicate WellFormed(c: Config, s: Sim)
  {
    c.numBlocks > 0 && Shaped(c, s)
  }

  /** Whether an access hits the cache it is routed to. */
  predicate HitsOn(c: Config, s: Sim, a: MemAccess)
    requires WellFormed(c, s)
  {
    var cache := CacheOf(s, Route(c.org, a.kind));
    match c.mapping
    case DirectMapped => DmHit(cache, a.address, c.numBlocks)
    case FullyAssociative => Resident(cache, c.numBlocks, TagOf(a.address))
  }

  /** One pass through the body of the access loop for a record whose
      address is not 0: count the access, then run the policy of the
      configured mapping on the cache the record is routed to. */
  function Step(c: Config, s: Sim, a: MemAccess): (r: Sim)
    requires WellFormed(c, s)
    ensures WellFormed(c, r)
  {
    var t := Route(c.org, a.kind);
    var cache := CacheOf(s, t);
    var counted := s.stats.(accesses := s.stats.accesses + 1);
    match c.mapping
    case DirectMapped =>
      var hit := DmHit(cache, a.address, c.numBlocks);
      WithCache(s, t, DmFill(cache, a.address, c.numBlocks))
        .(stats := counted.(hits := counted.hits + if hit then 1 else 0))
    case FullyAssociative =>
      var hit := Resident(cache, c.numBlocks, TagOf(a.address));
      WithCache(s, t, FaFill(cache, s.cursor, a.address, c.numBlocks))
        .(stats := if hit then counted.(hits := counted.hits + 1)
                   else counted.(evicts := counted.evicts + 1),
          cursor := FaCursor(cache, s.cursor, a.address, c.numBlocks))
  }

  /** The state after the records of a trace (none of them the terminator)
      have been processed in order. */
  function Replay(c: Config, s: Sim, trace: seq<MemAccess>): (r: Sim)
    requires Shaped(c, s) && (c.numBlocks > 0 || trace == [])
    ensures Shaped(c, r)
    decreases |trace|
  {
    if trace == [] then s
    else Step(c, Replay(c, s, trace[..|trace| - 1]), trace[|trace| - 1])
  }

  /** The records the access loop processes: those before the first record
      whose address is 0 (a missing record reads as address 0 too). */
  function Processed(trace: seq<MemAccess>): (p: seq<MemAccess>)
    ensures p <= trace
    ensures forall i :: 0 <= i < |p| ==> p[i].address != 0
    ensures |p| < |trace| ==> trace[|p|].address == 0
  {
    if trace == [] || trace[0].address == 0 then []
    else [trace[0]] + Processed(trace[1..])
  }

  /** The counters the source keeps consistent: hits never exceed accesses,
      a fully-associative access is either a hit or an eviction, and the
      direct-mapped policy never counts an eviction. */
  predicate StatsInvariant(c: Config, st: Stats)
  {
    st.hits <= st.accesses &&
    (c.mapping == FullyAssociative ==> st.hits + st.evicts == st.accesses) &&
    (c.mapping == DirectMapped ==> st.evicts == 0)
  }

  // ---------------------------------------------------------------------
  // One step

  /** Each processed record adds one access, one hit exactly when it hits,
      and one eviction exactly when it misses under full associativity. */
  lemma StepCounters(c: Config, s: Sim, a: MemAccess)
    requires WellFormed(c, s)
    ensures Step(c, s, a).stats.accesses == s.stats.accesses + 1
    ensures Step(c, s, a).stats.hits == s.stats.hits + (if HitsOn(c, s, a) then 1 else 0)
    ensures Step(c, s, a).stats.evicts ==
              s.stats.evicts + (if c.mapping == FullyAssociative && !HitsOn(c, s, a) then 1 else 0)
  {
  }

  /** A hit changes nothing but the counters and leaves the cursor alone. */
  lemma StepHitChangesOnlyCounters(c: Config, s: Sim, a: MemAccess)
    requires WellFormed(c, s) && HitsOn(c, s, a)
    ensures Step(c, s, a) == s.(stats := s.stats.(accesses := s.stats.accesses + 1,
                                                  hits := s.stats.hits + 1))
  {
  }

  /** A fully-associative miss writes the tag at the old cursor of the routed
      cache, changes no other line, and moves the cursor on by one. */
  lemma StepFaMiss(c: Config, s: Sim, a: MemAccess)
    requires WellFormed(c, s) && c.mapping == FullyAssociative && !HitsOn(c, s, a)
    ensures var r := Step(c, s, a);
            var t := Route(c.org, a.kind);
            CacheOf(r, t)[s.cursor] == Line(TagOf(a.address), true) &&
            (forall j :: 0 <= j < c.numBlocks && j != s.cursor ==> CacheOf(r, t)[j] == CacheOf(s, t)[j]) &&
            r.cursor == (s.cursor + 1) % c.numBlocks
  {
  }

  /** A direct-mapped miss writes the tag at its index in the routed cache
      and changes no other line; the cursor is never touched. */
  lemma StepDmMiss(c: Config, s: Sim, a: MemAccess)
    requires WellFormed(c, s) && c.mapping == DirectMapped && !HitsOn(c, s, a)
    ensures var r := Step(c, s, a);
            var t := Route(c.org, a.kind);
            var i := DmIndex(a.address, c.numBlocks);
            CacheOf(r, t)[i] == Line(TagOf(a.address), true) &&
            (forall j :: 0 <= j < c.numBlocks && j != i ==> CacheOf(r, t)[j] == CacheOf(s, t)[j]) &&
            r.cursor == s.cursor
  {
  }

  /** What one step does to the routed cache, the counters and the cursor;
      the other two caches keep their contents. */
  lemma StepEffect(c: Config, s: Sim, a: MemAccess)
    requires WellFormed(c, s)
    ensures var t := Route(c.org, a.kind);
            var cache := CacheOf(s, t);
            var r := Step(c, s, a);
            r == WithCache(s, t, CacheOf(r, t)).(stats := r.stats, cursor := r.cursor) &&
            match c.mapping
            case DirectMapped =>
              CacheOf(r, t) == DmFill(cache, a.address, c.numBlocks) && r.cursor == s.cursor
            case FullyAssociative =>
              CacheOf(r, t) == FaFill(cache, s.cursor, a.address, c.numBlocks) &&
              r.cursor == FaCursor(cache, s.cursor, a.address, c.numBlocks)
  {
  }

  /** Only the cache the record is routed to can change. */
  lemma StepRouting(c: Config, s: Sim, a: MemAccess, u: Target)
    requires WellFormed(c, s) && u != Route(c.org, a.kind)
    ensures CacheOf(Step(c, s, a), u) == CacheOf(s, u)
  {
  }

  /** After any access the tag is resident, so repeating the access at once
      hits and changes nothing but the counters. */
  lemma RepeatHits(c: Config, s: Sim, a: MemAccess)
    requires WellFormed(c, s)
    ensures HitsOn(c, Step(c, s, a), a)
    ensures var r := Step(c, s, a);
            Step(c, r, a) == r.(stats := r.stats.(accesses := r.stats.accesses + 1,
                                                  hits := r.stats.hits + 1))
  {
    var r := Step(c, s, a);
    var t := Route(c.org, a.kind);
    assert CacheOf(r, t) == (match c.mapping
      case DirectMapped => DmFill(CacheOf(s, t), a.address, c.numBlocks)
      case FullyAssociative => FaFill(CacheOf(s, t), s.cursor, a.address, c.numBlocks));
    StepHitChangesOnlyCounters(c, r, a);
  }

  /** Every step keeps the counters consistent. */
  lemma StepKeepsStats(c: Config, s: Sim, a: MemAccess)
    requires WellFormed(c, s) && StatsInvariant(c, s.stats)
    ensures StatsInvariant(c, Step(c, s, a).stats)
  {
    StepCounters(c, s, a);
  }

  // ---------------------------------------------------------------------
  // Whole traces

  /** Every processed record counts as exactly one access, and at most one
      hit. */
  lemma {:induction false} ReplayCounts(c: Config, s: Sim, trace: seq<MemAccess>)
    requires WellFormed(c, s)
    ensures Replay(c, s, trace).stats.accesses == s.stats.accesses + |trace|
    ensures s.stats.hits <= Replay(c, s, trace).stats.hits <= s.stats.hits + |trace|
    decreases |trace|
  {
    if trace != [] {
      var front := trace[..|trace| - 1];
      ReplayCounts(c, s, front);
      StepCounters(c, Replay(c, s, front), trace[|trace| - 1]);
    }
  }

  /** Replaying a trace keeps the counters consistent; from zeroed counters
      that gives hits <= accesses, hits + evicts == accesses under full
      associativity, and evicts == 0 under direct mapping. */
  lemma {:induction false} ReplayKeepsStats(c: Config, s: Sim, trace: seq<MemAccess>)
    requires WellFormed(c, s) && StatsInvariant(c, s.stats)
    ensures StatsInvariant(c, Replay(c, s, trace).stats)
    decreases |trace|
  {
    if trace != [] {
      var front := trace[..|trace| - 1];
      ReplayKeepsStats(c, s, front);
      StepKeepsStats(c, Replay(c, s, front), trace[|trace| - 1]);
    }
  }

  /** Under a unified organisation only the unified cache changes; under a
      split one the unified cache never changes, a trace without data
      accesses leaves the data cache alone and one without instruction
      accesses leaves the instruction cache alone. */
  lemma {:induction false} ReplayRouting(c: Config, s: Sim, trace: seq<MemAccess>)
    requires WellFormed(c, s)
    ensures var r := Replay(c, s, trace);
            (c.org == Unified ==> r.data == s.data && r.instr == s.instr) &&
            (c.org == Split ==> r.unified == s.unified) &&
            (c.org == Split && (forall i :: 0 <= i < |trace| ==> trace[i].kind == Instruction) ==>
               r.data == s.data) &&
            (c.org == Split && (forall i :: 0 <= i < |trace| ==> trace[i].kind == Data) ==>
               r.instr == s.instr)
    decreases |trace|
  {
    if trace != [] {
      var front := trace[..|trace| - 1];
      var a := trace[|trace| - 1];
      ReplayRouting(c, s, front);
      var m := Replay(c, s, front);
      var t := Route(c.org, a.kind);
      forall u | u != t ensures CacheOf(Step(c, m, a), u) == CacheOf(m, u) {
        StepRouting(c, m, a, u);
      }
      assert CacheOf(Step(c, m, a), UnifiedCache) == Step(c, m, a).unified;
      assert CacheOf(Step(c, m, a), DataCache) == Step(c, m, a).data;
      assert CacheOf(Step(c, m, a), InstructionCache) == Step(c, m, a).instr;
    }
  }

  /** Replaying one more record of a trace is one more step. */
  lemma ReplayPrefix(c: Config, s: Sim, trace: seq<MemAccess>, k: nat)
    requires WellFormed(c, s) && k < |trace|
    ensures Replay(c, s, trace[..k + 1]) == Step(c, Replay(c, s, trace[..k]), trace[k])
  {
    assert trace[..k + 1][..k] == trace[..k];
  }

  // ---------------------------------------------------------------------
  // Round-robin replacement

  /** How many records of a trace miss the cache they are routed to. */
  function Misses(c: Config, s: Sim, trace: seq<MemAccess>): (m: nat)
    requires WellFormed(c, s)
    ensures m <= |trace|
    decreases |trace|
  {
    if trace == [] then 0
    else
      var front := trace[..|trace| - 1];
      Misses(c, s, front) + if HitsOn(c, Replay(c, s, front), trace[|trace| - 1]) then 0 else 1
  }

  /** Under full associativity the evictions a trace adds are its misses. */
  lemma {:induction false} ReplayEvictsAreMisses(c: Config, s: Sim, trace: seq<MemAccess>)
    requires WellFormed(c, s) && c.mapping == FullyAssociative
    ensures Replay(c, s, trace).stats.evicts == s.stats.evicts + Misses(c, s, trace)
    decreases |trace|
  {
    if trace != [] {
      var front := trace[..|trace| - 1];
      ReplayEvictsAreMisses(c, s, front);
      StepCounters(c, Replay(c, s, front), trace[|trace| - 1]);
    }
  }

  /** How many misses the round-robin cursor needs to move from `cursor` to
      line `k` of a cache of `n` lines. */
  function Dist(cursor: nat, k: nat, n: nat): (d: nat)
    requires cursor < n && k < n
    ensures d < n
    ensures d == 0 <==> cursor == k
    ensures cursor + d == k || cursor + d == k + n
  {
    if k >= cursor then k - cursor else k + n - cursor
  }

  /** Under a unified fully-associative cache a line keeps its block until the
      cursor reaches it: hits never move the cursor, and each miss moves it
      one line on, so after at most Dist misses the line still holds the tag
      and the cursor is that many lines closer. */
  lemma {:induction false} Survives(c: Config, s: Sim, trace: seq<MemAccess>, k: nat, tag: u32)
    requires WellFormed(c, s) && c.mapping == FullyAssociative && c.org == Unified
    requires k < c.numBlocks && Holds(s.unified[k], tag)
    requires s.cursor < c.numBlocks && Misses(c, s, trace) <= Dist(s.cursor, k, c.numBlocks)
    ensures var r := Replay(c, s, trace);
            r.cursor < c.numBlocks && Holds(r.unified[k], tag) &&
            Dist(r.cursor, k, c.numBlocks) == Dist(s.cursor, k, c.numBlocks) - Misses(c, s, trace)
    decreases |trace|
  {
    if trace != [] {
      var n := c.numBlocks;
      var front := trace[..|trace| - 1];
      var a := trace[|trace| - 1];
      Survives(c, s, front, k, tag);
      var m := Replay(c, s, front);
      if HitsOn(c, m, a) {
        StepHitChangesOnlyCounters(c, m, a);
      } else {
        StepFaMiss(c, m, a);
        assert m.cursor != k;
        var r := Step(c, m, a);
        assert r.cursor == if m.cursor + 1 == n then 0 else m.cursor + 1;
      }
    }
  }

  /** A block placed by a fully-associative miss in a unified cache survives
      up to numBlocks - 1 further misses, with any number of hits between
      them; after exactly numBlocks - 1 misses the cursor is back at its line,
      so the next miss replaces it. */
  lemma PlacedSurvives(c: Config, s: Sim, a: MemAccess, trace: seq<MemAccess>)
    requires WellFormed(c, s) && c.mapping == FullyAssociative && c.org == Unified
    requires !HitsOn(c, s, a)
    requires Misses(c, Step(c, s, a), trace) < c.numBlocks
    ensures var r := Replay(c, Step(c, s, a), trace);
            Holds(r.unified[s.cursor], TagOf(a.address)) &&
            (Misses(c, Step(c, s, a), trace) == c.numBlocks - 1 ==> r.cursor == s.cursor)
  {
    var n := c.numBlocks;
    var s1 := Step(c, s, a);
    StepFaMiss(c, s, a);
    assert s1.cursor == if s.cursor + 1 == n then 0 else s.cursor + 1;
    assert Dist(s1.cursor, s.cursor, n) == n - 1;
    Survives(c, s1, trace, s.cursor, TagOf(a.address));
  }

  /** The miss that follows numBlocks - 1 misses after a placement overwrites
      the placed block with its own. */
  lemma PlacedEvictedOnNextMiss(c: Config, s: Sim, a: MemAccess, trace: seq<MemAccess>,
                                b: MemAccess)
    requires WellFormed(c, s) && c.mapping == FullyAssociative && c.org == Unified
    requires !HitsOn(c, s, a)
    requires Misses(c, Step(c, s, a), trace) == c.numBlocks - 1
    requires !HitsOn(c, Replay(c, Step(c, s, a), trace), b)
    ensures Step(c, Replay(c, Step(c, s, a), trace), b).unified[s.cursor] ==
            Line(TagOf(b.address), true)
  {
    PlacedSurvives(c, s, a, trace);
    StepFaMiss(c, Replay(c, Step(c, s, a), trace), b);
  }

  /** The access loop stops at the first record whose address is 0: any
      prefix of non-zero records that is followed by a 0 address, or by the
      end of the trace, is exactly what is processed. */
  lemma {:induction false} ProcessedStopsAtZero(trace: seq<MemAccess>, k: nat)
    requires k <= |trace|
    requires forall i :: 0 <= i < k ==> trace[i].address != 0
    requires k == |trace| || trace[k].address == 0
    ensures Processed(trace) == trace[..k]
    decreases k
  {
    if k > 0 {
      ProcessedStopsAtZero(trace[1..], k - 1);
      assert [trace[0]] + trace[1..][..k - 1] == trace[..k];
    }
  }
}
