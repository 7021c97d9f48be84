/** Cache lines, address decoding and the two placement policies of the
    simulator, stated as functions on the contents of one cache array.
    The class in module Simulator is proved against these functions. */
module Cache {

  /** The source's uint32_t: addresses and tags. */
  newtype u32 = x: int | 0 <= x < 0x1_0000_0000

  /** Bytes covered by one cache line; a global the source never reassigns. */
  const BlockSize: u32 := 64

  /** One cache_block_t: the tag of the block it holds and its valid flag
      (an int in the source, read only as zero or non-zero). */
  datatype Line = Line(tag: u32, valid: bool)

  /** What initialize_cache writes into every line it touches. */
  const Empty: Line := Line(0, false)

  /** The tag of an address: the number of the 64-byte block holding it. */
  function TagOf(address: u32): (tag: u32)
    ensures tag as int * 64 <= address as int < tag as int * 64 + 64
  {
    address / BlockSize
  }

  /** The line a direct-mapped cache of `size` lines uses for an address:
      the tag reduced modulo the number of lines. */
  function DmIndex(address: u32, size: nat): (index: nat)
    requires size > 0
    ensures index < size
    ensures TagOf(address) as int == (TagOf(address) as int / size) * size + index
  {
    TagOf(address) as int % size
  }

  /** A line holds a tag when it is valid and its stored tag is that tag. */
  predicate Holds(line: Line, tag: u32)
  {
    line.valid && line.tag == tag
  }

  // ---------------------------------------------------------------------
  // Direct mapping

  /** A direct-mapped access hits when the indexed line holds the tag. */
  predicate DmHit(cache: seq<Line>, address: u32, size: nat)
    requires 0 < size <= |cache|
  {
    Holds(cache[DmIndex(address, size)], TagOf(address))
  }

  /** The cache after a direct-mapped access: unchanged on a hit; on a miss
      the indexed line, whatever it held, is overwritten with the tag. */
  function DmFill(cache: seq<Line>, address: u32, size: nat): (r: seq<Line>)
    requires 0 < size <= |cache|
    ensures |r| == |cache|
    ensures DmHit(r, address, size)
    ensures DmHit(cache, address, size) ==> r == cache
    ensures !DmHit(cache, address, size) ==>
              r[DmIndex(address, size)] == Line(TagOf(address), true)
    ensures forall j :: 0 <= j < |cache| && j != DmIndex(address, size) ==> r[j] == cache[j]
  {
    if DmHit(cache, address, size) then cache
    else cache[DmIndex(address, size) := Line(TagOf(address), true)]
  }

  // ---------------------------------------------------------------------
  // Full associativity with round-robin replacement

  /** Some line among the first `size` holds the tag. */
  predicate Resident(cache: seq<Line>, size: nat, tag: u32)
    requires size <= |cache|
  {
    exists i :: 0 <= i < size && Holds(cache[i], tag)
  }

  /** The cache after a fully-associative access: unchanged on a hit; on a
      miss the line under the replacement cursor is overwritten. */
  function FaFill(cache: seq<Line>, cursor: nat, address: u32, size: nat): (r: seq<Line>)
    requires cursor < size <= |cache|
    ensures |r| == |cache|
    ensures Resident(r, size, TagOf(address))
    ensures Resident(cache, size, TagOf(address)) ==> r == cache
    ensures !Resident(cache, size, TagOf(address)) ==> r[cursor] == Line(TagOf(address), true)
    ensures forall j :: 0 <= j < |cache| && j != cursor ==> r[j] == cache[j]
  {
    if Resident(cache, size, TagOf(address)) then cache
    else
      var r := cache[cursor := Line(TagOf(address), true)];
      assert Holds(r[cursor], TagOf(address));
      r
  }

  /** The replacement cursor after a fully-associative access: it moves, with
      wrap-around, only on a miss. */
  function FaCursor(cache: seq<Line>, cursor: nat, address: u32, size: nat): (next: nat)
    requires cursor < size <= |cache|
    ensures next < size
    ensures Resident(cache, size, TagOf(address)) ==> next == cursor
    ensures !Resident(cache, size, TagOf(address)) ==>
              next == if cursor + 1 == size then 0 else cursor + 1
  {
    if Resident(cache, size, TagOf(address)) then cursor else (cursor + 1) % size
  }

  // ---------------------------------------------------------------------
  // Initialisation

  /** The cache after initialize_cache(cache, size): the first `size` lines
      are cleared and the rest keep whatever they held. */
  function Initialized(cache: seq<Line>, size: nat): (r: seq<Line>)
    requires size <= |cache|
    ensures |r| == |cache|
    ensures forall j :: 0 <= j < size ==> r[j] == Empty
    ensures forall j :: size <= j < |cache| ==> r[j] == cache[j]
  {
    seq(|cache|, j requires 0 <= j < |cache| => if j < size then Empty else cache[j])
  }

  // ---------------------------------------------------------------------
  // Lemmas about the policies

  /** Two addresses with the same line but different tags conflict: the
      second misses after the first has been filled in. */
  lemma DmConflictMisses(cache: seq<Line>, first: u32, second: u32, size: nat)
    requires 0 < size <= |cache|
    requires DmIndex(first, size) == DmIndex(second, size)
    requires TagOf(first) != TagOf(second)
    ensures !DmHit(DmFill(cache, first, size), second, size)
  {
  }

  /** Two addresses in the same block hit the same line. */
  lemma DmSameBlockHits(cache: seq<Line>, first: u32, second: u32, size: nat)
    requires 0 < size <= |cache|
    requires first / BlockSize == second / BlockSize
    ensures DmHit(DmFill(cache, first, size), second, size)
  {
  }

  /** Full associativity never misses a tag that some line holds, whatever
      the position of that line. */
  lemma FaHitAnywhere(cache: seq<Line>, i: nat, size: nat, cursor: nat, address: u32)
    requires cursor < size <= |cache| && i < size
    requires Holds(cache[i], TagOf(address))
    ensures FaFill(cache, cursor, address, size) == cache
    ensures FaCursor(cache, cursor, address, size) == cursor
  {
  }
}
