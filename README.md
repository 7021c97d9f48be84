# Cache simulator model

`cache_sim.c` is a trace-driven simulator of one level of cache with 64-byte
lines. The command line fixes three things:

- the cache size in bytes;
- the mapping: direct-mapped (`dm`) or fully associative with round-robin
  replacement (`fa`);
- the organisation: one unified cache (`uc`), or split data and instruction
  caches (`sc`).

The simulator reads a trace of `(kind, address)` records. For each record it
counts an access, routes it to a cache, and runs the placement policy, which
counts hits and evictions.

This Dafny project models that engine in three layers:

- `cache.dfy` (module `Cache`): 32-bit addresses, cache lines, address
  decoding, and the two policies as functions on the contents of one cache
  (`DmFill`, `FaFill`, `FaCursor`), plus `Initialized` for
  `initialize_cache`.
- `driver.dfy` (module `Driver`): the simulation as a state machine on
  values.
  - `Route` is the dispatch.
  - `Step` is one pass of the access loop.
  - `Replay` folds `Step` over a trace.
  - `Processed` cuts a trace at its first 0 address.
  - The lemmas state the counting, routing and residency properties.
- `simulator.dfy` (module `Simulator`): the program as written.
  - The loops `InitializeCache` and `FindLine`.
  - Class `Simulator`, which holds the three arrays, the `cache_statistics`
    counters and the one static replacement cursor.
  - `AccessDm`, `AccessFa`, `Process` and `Run` update them in place.
  - Each method is proved against the functions above: `Process` against
    `Step`, `Run` against `Replay` of `Processed(trace)`.
- `scenarios.dfy` (module `Scenarios`): worked traces stated as
  lemmas.

Behaviours of the code that the model keeps on purpose:

- **One cursor for all caches.** `replace_counter` is a function-level
  `static` in `access_cache_fa`. So under `fa` + `sc` the data cache and the
  instruction cache move the same cursor (`SplitCachesShareCursor`).
- **Split caches use the full size.**
  - Both split caches get `num_of_blocks` lines.
  - Both are accessed with size `num_of_blocks`.
  - Only the lower `num_of_blocks / 2` lines of each are cleared.
  - The upper half holds whatever the allocator returned. The constructor
    takes that as parameters, so an uncleared valid line can turn a first
    access into a hit (`SplitUpperHalfIsNotCleared`).
- **Address 0 ends the trace.** A record with address 0 stops the loop, so
  such an access is never simulated (`LeadingZeroEndsTrace`,
  `ZeroCutsTrace`).
- **Every fully-associative miss counts an eviction**, including one that
  fills an empty line. For example, tags 5, 6, 5, 7 on two lines give 4
  accesses, 1 hit and 3 evictions (`FullyAssociativeTwoLines`). The comment at
  cache_sim.c:97 says that the program's own test cases expected a
  different eviction count.
- **Direct mapping never counts an eviction**, even when a miss overwrites
  a valid line.

In each of these cases the model follows the code. A textbook reading of
the simulator would expect something else:

- one cursor per cache;
- split caches of half the size;
- an eviction only when a valid line is replaced.

## Model

| member | source | states |
|---|---|---|
| Cache.TagOf | cache_sim.c:70 | the tag is the number of the 64-byte block that holds the address: tag*64 <= address < tag*64+64 |
| Cache.DmIndex | cache_sim.c:70-71 | the direct-mapped index is below the number of lines and is the remainder of the tag divided by that number |
| Cache.DmFill | cache_sim.c:69-82 | after a direct-mapped access the address hits; on a hit the cache is unchanged; on a miss the indexed line becomes {tag, valid}; every other line is unchanged |
| Cache.FaFill | cache_sim.c:84-99 | after a fully-associative access the tag is resident; on a hit the cache is unchanged; on a miss the line under the cursor becomes {tag, valid}; every other line is unchanged |
| Cache.FaCursor | cache_sim.c:86-101 | the cursor stays below the size; it is unchanged on a hit and advances by one with wrap-around to 0 on a miss |
| Cache.Initialized | cache_sim.c:105-110 | lines [0, size) become {tag 0, invalid}; lines at and beyond size keep their contents |
| Cache.DmConflictMisses | cache_sim.c:69-82 | two addresses with the same index but different tags conflict: after the first is filled in, the second misses |
| Cache.DmSameBlockHits | cache_sim.c:69-82 | after an access, any address in the same 64-byte block hits |
| Cache.FaHitAnywhere | cache_sim.c:88-95 | when any line below the size holds the tag, the access leaves the cache and the cursor untouched, whatever the position of that line |
| Driver.Route | cache_sim.c:188-208 | an access goes to the unified cache exactly under `uc`; under `sc` it goes to the data cache exactly for data accesses and to the instruction cache exactly for instruction accesses |
| Driver.Start | cache_sim.c:165-176 | after set-up the counters and cursor are 0, all three caches have numBlocks lines, the unified cache is cleared, and the data and instruction caches are cleared below numBlocks/2 and keep their allocated contents above |
| Driver.Step | cache_sim.c:184-208 | one processed record keeps every cache at numBlocks lines and the cursor below numBlocks |
| Driver.Replay | cache_sim.c:180-208 | replaying a trace keeps the shape of the state: three caches of numBlocks lines and a cursor in range |
| Driver.Processed | cache_sim.c:180-183 | the processed records are a prefix of the trace, none of them has address 0, and the record right after them, if any, has address 0 |
| Driver.ProcessedStopsAtZero | cache_sim.c:180-183 | a prefix of non-zero records followed by a 0 address or by the end of the trace is exactly what the loop processes |
| Driver.StepCounters | cache_sim.c:184-208 | each processed record adds exactly one access; it adds one hit exactly when it hits; under `fa` it adds one eviction exactly when it misses, and under `dm` never |
| Driver.StepHitChangesOnlyCounters | cache_sim.c:73-95 | on a hit only accesses and hits change (each by 1); the caches, evictions and cursor are untouched |
| Driver.StepFaMiss | cache_sim.c:96-101 | a fully-associative miss writes {tag, valid} at the old cursor of the routed cache, keeps every other line, and sets the cursor to (old + 1) % size |
| Driver.StepDmMiss | cache_sim.c:77-81 | a direct-mapped miss writes {tag, valid} at its index of the routed cache, keeps every other line, and leaves the cursor alone |
| Driver.StepRouting | cache_sim.c:188-208 | a record changes no cache other than the one it is routed to |
| Driver.RepeatHits | cache_sim.c:73-101 | after any access the accessed tag is resident, so repeating the access at once is a hit that changes only the counters |
| Driver.StepKeepsStats | cache_sim.c:184-208 | one step preserves hits <= accesses, hits + evicts == accesses under `fa`, and evicts == 0 under `dm` |
| Driver.ReplayCounts | cache_sim.c:180-208 | replaying a trace adds exactly its length to accesses and between 0 and its length to hits |
| Driver.ReplayKeepsStats | cache_sim.c:180-208 | replaying any trace preserves the counter invariant, so from zeroed counters hits <= accesses, hits + evicts == accesses under `fa`, and evicts == 0 under `dm` |
| Driver.ReplayRouting | cache_sim.c:188-208 | under `uc` the data and instruction caches never change; under `sc` the unified cache never changes, data accesses alone leave the instruction cache unchanged, and instruction accesses alone leave the data cache unchanged |
| Driver.Misses | cache_sim.c:89-97 | the number of records of a trace that miss their cache, at most the length of the trace |
| Driver.ReplayEvictsAreMisses | cache_sim.c:96-97 | under `fa` the evictions a trace adds are exactly its misses |
| Driver.Dist | cache_sim.c:101 | the number of round-robin moves from the cursor to line k: below the line count, 0 exactly when the cursor is at k, and cursor + distance is k or k plus the line count |
| Driver.Survives | cache_sim.c:84-101 | under `fa` + `uc` a line keeps its tag through any trace with at most Dist(cursor, line) misses, and each miss brings the cursor one line closer to it |
| Driver.PlacedSurvives | cache_sim.c:96-101 | under `fa` + `uc` a block placed by a miss survives up to numBlocks - 1 further misses and any number of hits; after exactly numBlocks - 1 misses the cursor is back at its line |
| Driver.PlacedEvictedOnNextMiss | cache_sim.c:96-101 | under `fa` + `uc` the miss after those numBlocks - 1 misses overwrites the placed block's line with its own tag |
| Simulator.InitializeCache | cache_sim.c:105-110 | the loop clears lines [0, size), keeps every line at and beyond size, and yields Initialized of the old contents |
| Simulator.FindLine | cache_sim.c:88-95 | the scan finds a line exactly when some line below size holds the tag, and returns the first such line |
| Simulator.Simulator.constructor | cache_sim.c:165-176 | the arrays are fresh and distinct with cache_size/64 lines each, and the whole state equals Start of the allocated contents |
| Simulator.Simulator.AccessDm | cache_sim.c:69-82 | the array becomes DmFill of its old contents, and hits goes up by one exactly on a hit |
| Simulator.Simulator.AccessFa | cache_sim.c:84-103 | the array becomes FaFill of its old contents; a hit adds one hit; a miss adds one eviction; the cursor becomes FaCursor |
| Simulator.Simulator.Process | cache_sim.c:184-208 | the new state of arrays, counters and cursor is Step of the old state, and the counter invariant is preserved |
| Simulator.Simulator.Run | cache_sim.c:179-209 | the loop processes exactly Processed(trace) and leaves the state Replay of the old state over it, preserving the counter invariant |
| Scenarios.LeadingZeroEndsTrace | cache_sim.c:183 | a trace that starts with address 0 processes nothing |
| Scenarios.ZeroCutsTrace | cache_sim.c:183 | a 0 address in the middle of a trace cuts it there |
| Scenarios.DirectMappedFourLines | cache_sim.c:188-197 | blocks 4, 1, 2, 3, 4 on a four-line unified direct-mapped cache give 5 accesses, 1 hit and 0 evictions |
| Scenarios.FullyAssociativeTwoLines | cache_sim.c:84-103 | tags 5, 6, 5, 7 on a two-line unified fully-associative cache leave tags 7 and 6 in lines 0 and 1, with 4 accesses, 1 hit, 3 evictions, cursor 1 |
| Scenarios.SplitCachesShareCursor | cache_sim.c:86-101 | under `fa` + `sc`, an instruction miss moves the cursor that the next data miss uses |
| Scenarios.SplitUpperHalfIsNotCleared | cache_sim.c:173-175 | under `dm` + `sc`, a valid line left by the allocator in the uncleared upper half of the data cache makes a first access a hit |

## Left out

- Reading the trace (`read_transaction`, cache_sim.c:49-67) is file I/O. The trace is a sequence of records given to `Run`. The end of the file is the end of that sequence: reading past its end yields address 0. The exit on an unknown access character is not modelled.
- Command-line parsing and the usage and error exits (cache_sim.c:125-155) are configuration glue. The size, mapping and organisation are constructor parameters.
- `fopen`, `fclose`, `malloc`, `free` and `memset` are resource management. The arrays are allocated in the constructor. What `malloc` leaves in them is given as the three `garbage` parameters.
- All `printf` output is left out, including the per-access debugging line and the final statistics.
- The hit rate `(double)hits / accesses` is left out. It is floating point, and it divides by zero on an empty trace.
- Simulator.Simulator.Process: carries a precondition that the cache has at least one line. With a cache size below 64 bytes, the `%` by a size of 0 in either policy is undefined behaviour in the source. `Run` needs the same condition only when it processes at least one record.
- Simulator.Simulator.AccessFa: requires the cursor to be below the size. In the source, `replace_counter` is below the last size it was reduced by, and the driver always passes the same size.
- The `uint64_t` counters of `cache_statistics` are unbounded naturals. Wrap-around after 2^64 accesses is not modelled.
- Survives, PlacedSurvives, PlacedEvictedOnNextMiss: stated for the unified organisation only. Under `sc` the one shared cursor also moves on misses in the other split cache (`SplitCachesShareCursor`). A placed block still survives at least numBlocks - 1 further misses when the misses of both split caches are counted, but it can be replaced after fewer misses of its own cache. With two lines, for example, a data miss places a block at line 0, an instruction miss moves the cursor back to 0, and the next data miss replaces the block.
