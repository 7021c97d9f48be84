/** The simulator as the source runs it: three cache arrays updated in
    place, the global statistics, the one static replacement cursor, and
    the access loop of main. Every method is proved against the functions
    of modules Cache and Driver. */
module Simulator {
  import opened Cache
  import opened Driver

  /** initialize_cache: clears the first `size` lines and leaves the rest. */
  method InitializeCache(cache: array<Line>, size: nat)
    requires size <= cache.Length
    modifies cache
    ensures forall j :: 0 <= j < size ==> cache[j] == Empty
    ensures forall j :: size <= j < cache.Length ==> cache[j] == old(cache[j])
    ensures cache[..] == Initialized(old(cache[..]), size)
  {
    var i := 0;
    while i < size
      invariant 0 <= i <= size
      invariant forall j :: 0 <= j < i ==> cache[j] == Empty
      invariant forall j :: i <= j < cache.Length ==> cache[j] == old(cache[j])
    {
      cache[i] := Empty;
      i := i + 1;
    }
  }

  /** The search loop of access_cache_fa: scans the first `size` lines in
      ascending order and stops at the first one that holds the tag. */
  method FindLine(cache: array<Line>, size: nat, tag: u32) returns (found: bool, index: nat)
    requires size <= cache.Length
    ensures found <==> Resident(cache[..], size, tag)
    ensures found ==> index < size && Holds(cache[index], tag) &&
                      forall j :: 0 <= j < index ==> !Holds(cache[j], tag)
  {
    index := 0;
    while index < size
      invariant 0 <= index <= size
      invariant forall j :: 0 <= j < index ==> !Holds(cache[j], tag)
    {
      if cache[index].valid && cache[index].tag == tag {
        return true, index;
      }
      index := index + 1;
    }
    found := false;
  }

  class Simulator {
    /** Configuration from the command line. */
    const config: Config
    /** The three arrays of main, each numBlocks lines long. */
    const unified: array<Line>
    const data: array<Line>
    const instr: array<Line>
    /** cache_statistics. */
    var accesses: nat
    var hits: nat
    var evicts: nat
    /** The static replace_counter of access_cache_fa: one for all caches. */
    var cursor: nat

    ghost predicate Valid()
      reads this
    {
      unified.Length == config.numBlocks &&
      data.Length == config.numBlocks &&
      instr.Length == config.numBlocks &&
      unified != data && unified != instr && data != instr &&
      (cursor == 0 || cursor < config.numBlocks)
    }

    /** The whole state as a value. */
    ghost function State(): Sim
      reads this, unified, data, instr
    {
      Sim(unified[..], data[..], instr[..], Stats(accesses, hits, evicts), cursor)
    }

    /** The set-up part of main: zeroed statistics, three arrays of
        cache_size / 64 lines whose initial contents are whatever the
        allocator returned (the three `garbage` parameters), then the
        unified cache cleared entirely and the data and instruction caches
        cleared only on their lower half. */
    constructor (cacheSize: u32, mapping: Mapping, org: Organization,
                 garbageData: seq<Line>, garbageInstr: seq<Line>, garbageUnified: seq<Line>)
      requires |garbageData| == |garbageInstr| == |garbageUnified| == (cacheSize / BlockSize) as int
      ensures Valid() && fresh(unified) && fresh(data) && fresh(instr)
      ensures config == Config((cacheSize / BlockSize) as int, mapping, org)
      ensures State() == Start(config.numBlocks, garbageUnified, garbageData, garbageInstr)
      ensures StatsInvariant(config, State().stats)
    {
      var n := (cacheSize / BlockSize) as int;
      config := Config(n, mapping, org);
      accesses, hits, evicts := 0, 0, 0;
      cursor := 0;
      data := new Line[n](j requires 0 <= j < n => garbageData[j]);
      instr := new Line[n](j requires 0 <= j < n => garbageInstr[j]);
      unified := new Line[n](j requires 0 <= j < n => garbageUnified[j]);
      new;
      assert data[..] == garbageData && instr[..] == garbageInstr && unified[..] == garbageUnified;
      InitializeCache(data, n / 2);
      InitializeCache(instr, n / 2);
      InitializeCache(unified, n);
    }

    /** access_cache_dm on one of the arrays: a hit bumps the hit counter,
        a miss overwrites the indexed line; the eviction counter and the
        cursor are not touched. */
    method AccessDm(cache: array<Line>, address: u32, size: nat)
      requires 0 < size <= cache.Length
      modifies cache, this`hits
      ensures cache[..] == DmFill(old(cache[..]), address, size)
      ensures hits == old(hits) + if DmHit(old(cache[..]), address, size) then 1 else 0
    {
      var tag := address / BlockSize;
      var i := tag as int % size;
      if cache[i].valid && cache[i].tag == tag {
        hits := hits + 1;
        return;
      } else {
        cache[i] := Line(tag, true);
      }
    }

    /** access_cache_fa on one of the arrays: a hit bumps the hit counter
        only; a miss counts an eviction, overwrites the line under the
        shared cursor, and moves the cursor on modulo `size`. */
    method AccessFa(cache: array<Line>, address: u32, size: nat)
      requires cursor < size <= cache.Length
      modifies cache, this`hits, this`evicts, this`cursor
      ensures var hit := Resident(old(cache[..]), size, TagOf(address));
              cache[..] == FaFill(old(cache[..]), old(cursor), address, size) &&
              hits == old(hits) + (if hit then 1 else 0) &&
              evicts == old(evicts) + (if hit then 0 else 1) &&
              cursor == FaCursor(old(cache[..]), old(cursor), address, size)
    {
      var tag := address / BlockSize;
      var found, at := FindLine(cache, size, tag);
      if found {
        hits := hits + 1;
        return;
      }
      evicts := evicts + 1;
      cache[cursor] := Line(tag, true);
      cursor := (cursor + 1) % size;
    }

    /** The array that backs a routed-to cache. */
    function ArrayOf(t: Target): (cache: array<Line>)
    {
      match t
      case UnifiedCache => unified
      case DataCache => data
      case InstructionCache => instr
    }

    /** The body of the access loop for one record: count the access, then
        run the configured policy on the array the organisation and the
        access kind select. */
    method Process(a: MemAccess)
      requires Valid() && config.numBlocks > 0
      modifies this`accesses, this`hits, this`evicts, this`cursor, unified, data, instr
      ensures Valid()
      ensures State() == Step(config, old(State()), a)
      ensures StatsInvariant(config, old(State()).stats) ==> StatsInvariant(config, State().stats)
    {
      ghost var s := State();
      ghost var t := Route(config.org, a.kind);
      ghost var r := Step(config, s, a);
      StepEffect(config, s, a);
      StepCounters(config, s, a);
      accesses := accesses + 1;
      var n := config.numBlocks;
      var cache := ArrayOf(Route(config.org, a.kind));
      assert CacheOf(s, t) == cache[..];
      if config.mapping == DirectMapped {
        AccessDm(cache, a.address, n);
        assert CacheOf(r, t) == cache[..];
      } else {
        AccessFa(cache, a.address, n);
        assert CacheOf(r, t) == cache[..];
      }
      assert r.stats == State().stats && r.cursor == cursor;
      assert State() == WithCache(s, t, cache[..]).(stats := r.stats, cursor := r.cursor);
      if StatsInvariant(config, s.stats) {
        StepKeepsStats(config, s, a);
      }
    }

    /** The access loop of main: process records in order until the first
        one whose address is 0 or the end of the trace; return how many
        records were processed. A cache of fewer than 64 bytes has no lines,
        and the first record processed would divide by zero. */
    method Run(trace: seq<MemAccess>) returns (processed: nat)
      requires Valid()
      requires config.numBlocks > 0 || Processed(trace) == []
      modifies this`accesses, this`hits, this`evicts, this`cursor, unified, data, instr
      ensures Valid()
      ensures processed <= |trace| && trace[..processed] == Processed(trace)
      ensures State() == Replay(config, old(State()), Processed(trace))
      ensures StatsInvariant(config, old(State()).stats) ==> StatsInvariant(config, State().stats)
    {
      ghost var s0 := State();
      processed := 0;
      while true
        invariant Valid()
        invariant processed <= |trace|
        invariant forall j :: 0 <= j < processed ==> trace[j].address != 0
        invariant processed > 0 ==> config.numBlocks > 0
        invariant State() == Replay(config, s0, trace[..processed])
        decreases |trace| - processed
      {
        if processed == |trace| || trace[processed].address == 0 {
          break;
        }
        assert Processed(trace) != [];
        Process(trace[processed]);
        ReplayPrefix(config, s0, trace, processed);
        processed := processed + 1;
      }
      ProcessedStopsAtZero(trace, processed);
      if config.numBlocks > 0 && StatsInvariant(config, s0.stats) {
        ReplayKeepsStats(config, s0, Processed(trace));
      }
    }
  }
}
