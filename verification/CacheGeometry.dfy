/** Sizes, addresses and data words of the cache (rtl/cache/config.py, rtl/cache/cache_way.py).

    A CPU word address is a bit vector whose slices are, from the top: tag value, tag index,
    offset of the memory word in its line, and the 32-bit lane in the memory word.  The sizes
    are powers of two in the source; nothing below needs that, so any positive sizes are
    allowed, with at least two memory words a line.
 */
module CacheGeometry {
  import opened Arithmetic

  type Byte = x: int | 0 <= x < 256

  /** A 32-bit CPU word as four bytes, a memory-bus word as `mux` CPU words. */
  type Word = w: seq<Byte> | |w| == 4 witness [0, 0, 0, 0]
  type MWord = seq<Word>
  type Mask = m: seq<bool> | |m| == 4 witness [false, false, false, false]

  datatype Config = Config(tags: nat, lines: nat, lineSize: nat, mux: nat) {
    predicate Valid() {
      tags >= 1 && lines >= 1 && lineSize >= 2 && mux >= 1
    }

    /** Number of CPU words in the cacheable range. */
    function Size(): nat {
      tags * lines * lineSize * mux
    }
  }

  datatype Adr = Adr(tag: nat, index: nat, word: nat, lane: nat)

  /** The address of one memory-bus word. */
  datatype Loc = Loc(tag: nat, index: nat, word: nat)

  predicate InRange(c: Config, a: Adr) {
    a.tag < c.tags && a.index < c.lines && a.word < c.lineSize && a.lane < c.mux
  }

  predicate LocInRange(c: Config, l: Loc) {
    l.tag < c.tags && l.index < c.lines && l.word < c.lineSize
  }

  /** The slices of an address. */
  function Split(c: Config, adr: nat): Adr
    requires c.Valid()
  {
    var x := adr / c.mux;
    var line := x / c.lineSize;
    Adr(line / c.lines, line % c.lines, x % c.lineSize, adr % c.mux)
  }

  /** The concatenation of the slices. */
  function Concat(c: Config, a: Adr): nat {
    ((a.tag * c.lines + a.index) * c.lineSize + a.word) * c.mux + a.lane
  }

  /** The flat index of a memory word in the cache data RAM. */
  function Cell(c: Config, index: nat, word: nat): nat {
    index * c.lineSize + word
  }

  /** Byte-masked write of one word. */
  function Masked(prior: Word, we: Mask, data: Word): (w: Word) {
    seq(4, k requires 0 <= k < 4 => if we[k] then data[k] else prior[k])
  }

  const ZERO: Word := [0, 0, 0, 0]

  const NO_BYTES: Mask := [false, false, false, false]

  lemma MaskedNone(prior: Word, data: Word)
    ensures Masked(prior, NO_BYTES, data) == prior
  {
  }

  /** Slicing an address keeps every slice in range and loses nothing. */
  lemma ConcatSplit(c: Config, adr: nat)
    requires c.Valid() && adr < c.Size()
    ensures InRange(c, Split(c, adr)) && Concat(c, Split(c, adr)) == adr
    ensures var a := Split(c, adr);
            adr == ((a.tag * c.lines + a.index) * c.lineSize + a.word) * c.mux + a.lane
  {
    var x := adr / c.mux;
    var line := x / c.lineSize;
    DivLess(adr, c.tags * c.lines * c.lineSize, c.mux);
    DivLess(x, c.tags * c.lines, c.lineSize);
    DivLess(line, c.tags, c.lines);
  }

  /** Every combination of slices is an address of its own. */
  lemma SplitConcat(c: Config, a: Adr)
    requires c.Valid() && InRange(c, a)
    ensures Concat(c, a) < c.Size() && Split(c, Concat(c, a)) == a
  {
    var line := a.tag * c.lines + a.index;
    var x := line * c.lineSize + a.word;
    DivUnique(a.tag, a.index, c.lines);
    DivUnique(line, a.word, c.lineSize);
    DivUnique(x, a.lane, c.mux);
    Below(a.tag, a.index, c.tags, c.lines);
    Below(line, a.word, c.tags * c.lines, c.lineSize);
    Below(x, a.lane, c.tags * c.lines * c.lineSize, c.mux);
  }

  lemma CellInRange(c: Config, index: nat, word: nat)
    requires c.Valid() && index < c.lines && word < c.lineSize
    ensures Cell(c, index, word) < c.lines * c.lineSize
  {
    Below(index, word, c.lines, c.lineSize);
  }

  lemma CellInjective(c: Config, index: nat, word: nat, index': nat, word': nat)
    requires c.Valid() && word < c.lineSize && word' < c.lineSize
    requires Cell(c, index, word) == Cell(c, index', word')
    ensures index == index' && word == word'
  {
    DivUnique(index, word, c.lineSize);
    DivUnique(index', word', c.lineSize);
  }
}
