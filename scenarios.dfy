/** Concrete runs of the model: small traces whose outcomes are worked out
    step by step, and the behaviours that set the source apart from a
    textbook simulator (the 0 terminator, the shared replacement cursor,
    the uncleared upper half of the split caches). */
module Scenarios {
  import opened Cache
  import opened Driver

  /** Cleared caches of four and of two lines. */
  const E4 := [Empty, Empty, Empty, Empty]
  const E2 := [Empty, Empty]

  /** A trace whose first record has address 0 processes nothing: the access
      of byte 0 is taken for the end of the trace. */
  lemma LeadingZeroEndsTrace()
    ensures Processed([MemAccess(0, Data), MemAccess(64, Data), MemAccess(128, Data),
                       MemAccess(192, Data), MemAccess(0, Data)]) == []
  {
  }

  /** A zero address in the middle of a trace cuts it there. */
  lemma ZeroCutsTrace(a: MemAccess, b: MemAccess)
    requires a.address != 0
    ensures Processed([a, MemAccess(0, Data), b]) == [a]
  {
    ProcessedStopsAtZero([a, MemAccess(0, Data), b], 1);
  }

  // ---------------------------------------------------------------------
  // Direct mapping, unified, four lines: blocks 4, 1, 2, 3, 4 go to lines
  // 0, 1, 2, 3, 0; four misses and then a hit, no eviction counted.

  const DmConfig := Config(4, DirectMapped, Unified)
  const DmTrace := [MemAccess(256, Data), MemAccess(64, Instruction), MemAccess(128, Data),
                    MemAccess(192, Data), MemAccess(256, Instruction)]
  const DmFinal := Sim([Line(4, true), Line(1, true), Line(2, true), Line(3, true)], E4, E4,
                       Stats(5, 1, 0), 0)

  lemma DmSteps()
    ensures Step(DmConfig, Sim(E4, E4, E4, Stats(0, 0, 0), 0), DmTrace[0]) ==
            Sim([Line(4, true), Empty, Empty, Empty], E4, E4, Stats(1, 0, 0), 0)
    ensures Step(DmConfig, Sim([Line(4, true), Empty, Empty, Empty], E4, E4, Stats(1, 0, 0), 0),
                 DmTrace[1]) ==
            Sim([Line(4, true), Line(1, true), Empty, Empty], E4, E4, Stats(2, 0, 0), 0)
    ensures Step(DmConfig, Sim([Line(4, true), Line(1, true), Empty, Empty], E4, E4, Stats(2, 0, 0), 0),
                 DmTrace[2]) ==
            Sim([Line(4, true), Line(1, true), Line(2, true), Empty], E4, E4, Stats(3, 0, 0), 0)
  {
  }

  lemma DmLastSteps()
    ensures Step(DmConfig, Sim([Line(4, true), Line(1, true), Line(2, true), Empty], E4, E4,
                               Stats(3, 0, 0), 0), DmTrace[3]) ==
            DmFinal.(stats := Stats(4, 0, 0))
    ensures Step(DmConfig, DmFinal.(stats := Stats(4, 0, 0)), DmTrace[4]) == DmFinal
  {
  }

  /** Replaying the whole trace from the cleared caches yields DmFinal. */
  lemma DirectMappedFourLines()
    ensures WellFormed(DmConfig, Start(4, E4, E4, E4))
    ensures Replay(DmConfig, Start(4, E4, E4, E4), Processed(DmTrace)) == DmFinal
  {
    var s0 := Start(4, E4, E4, E4);
    assert s0 == Sim(E4, E4, E4, Stats(0, 0, 0), 0);
    ProcessedStopsAtZero(DmTrace, 5);
    assert DmTrace[..5] == DmTrace && DmTrace[..0] == [];
    DmSteps();
    DmLastSteps();
    ReplayPrefix(DmConfig, s0, DmTrace, 0);
    ReplayPrefix(DmConfig, s0, DmTrace, 1);
    ReplayPrefix(DmConfig, s0, DmTrace, 2);
    ReplayPrefix(DmConfig, s0, DmTrace, 3);
    ReplayPrefix(DmConfig, s0, DmTrace, 4);
  }

  // ---------------------------------------------------------------------
  // Full associativity, unified, two lines: tags 5, 6, 5, 7 give miss,
  // miss, hit, miss; the last miss replaces tag 5 at line 0. Every miss
  // counts as an eviction, the two that fill empty lines included.

  const FaConfig := Config(2, FullyAssociative, Unified)
  const FaTrace := [MemAccess(320, Data), MemAccess(384, Data), MemAccess(320, Data),
                    MemAccess(448, Data)]
  const FaFinal := Sim([Line(7, true), Line(6, true)], E2, E2, Stats(4, 1, 3), 1)

  lemma FaSteps()
    ensures Step(FaConfig, Sim(E2, E2, E2, Stats(0, 0, 0), 0), FaTrace[0]) ==
            Sim([Line(5, true), Empty], E2, E2, Stats(1, 0, 1), 1)
    ensures Step(FaConfig, Sim([Line(5, true), Empty], E2, E2, Stats(1, 0, 1), 1), FaTrace[1]) ==
            Sim([Line(5, true), Line(6, true)], E2, E2, Stats(2, 0, 2), 0)
    ensures Step(FaConfig, Sim([Line(5, true), Line(6, true)], E2, E2, Stats(2, 0, 2), 0),
                 FaTrace[2]) ==
            Sim([Line(5, true), Line(6, true)], E2, E2, Stats(3, 1, 2), 0)
    ensures Step(FaConfig, Sim([Line(5, true), Line(6, true)], E2, E2, Stats(3, 1, 2), 0),
                 FaTrace[3]) == FaFinal
  {
    assert Holds([Line(5, true), Line(6, true)][0], 5);
  }

  /** Replaying the whole trace from the cleared caches yields FaFinal. */
  lemma FullyAssociativeTwoLines()
    ensures WellFormed(FaConfig, Start(2, E2, E2, E2))
    ensures Replay(FaConfig, Start(2, E2, E2, E2), Processed(FaTrace)) == FaFinal
  {
    var s0 := Start(2, E2, E2, E2);
    assert s0 == Sim(E2, E2, E2, Stats(0, 0, 0), 0);
    ProcessedStopsAtZero(FaTrace, 4);
    assert FaTrace[..4] == FaTrace && FaTrace[..0] == [];
    FaSteps();
    ReplayPrefix(FaConfig, s0, FaTrace, 0);
    ReplayPrefix(FaConfig, s0, FaTrace, 1);
    ReplayPrefix(FaConfig, s0, FaTrace, 2);
    ReplayPrefix(FaConfig, s0, FaTrace, 3);
  }

  /** Under a split fully-associative organisation the instruction cache and
      the data cache move one cursor: after an instruction miss, the first
      data miss lands on line 1 of the data cache, not on line 0. */
  lemma SplitCachesShareCursor()
    ensures var c := Config(2, FullyAssociative, Split);
            var s0 := Start(2, E2, E2, E2);
            var s2 := Step(c, Step(c, s0, MemAccess(64, Instruction)), MemAccess(128, Data));
            WellFormed(c, s0) && s2.data == [Empty, Line(2, true)] &&
            s2.instr == [Line(1, true), Empty] && s2.cursor == 0
  {
    var c := Config(2, FullyAssociative, Split);
    var s0 := Start(2, E2, E2, E2);
    var s1 := Step(c, s0, MemAccess(64, Instruction));
    assert !HitsOn(c, s0, MemAccess(64, Instruction));
    assert s1.cursor == 1;
    assert !HitsOn(c, s1, MemAccess(128, Data));
  }

  /** In split mode the data cache is cleared only on its lower half while
      accesses index all of it, so a line the allocator left valid can turn a
      first access into a hit. */
  lemma SplitUpperHalfIsNotCleared()
    ensures var c := Config(4, DirectMapped, Split);
            var garbage := [Empty, Empty, Empty, Line(3, true)];
            var s0 := Start(4, E4, garbage, E4);
            WellFormed(c, s0) && HitsOn(c, s0, MemAccess(192, Data)) &&
            Step(c, s0, MemAccess(192, Data)).stats == Stats(1, 1, 0)
  {
    var garbage := [Empty, Empty, Empty, Line(3, true)];
    var s0 := Start(4, E4, garbage, E4);
    assert s0.data[3] == Line(3, true);
  }
}
