/**
 * Byte-addressed little-endian address spaces.
 *
 * Every address space the tool touches (the PCI configuration space of the
 * bound function, a card's register window, its frame-buffer window) is a
 * map from byte address to byte; a byte nobody wrote reads as zero.
 * 16- and 32-bit accesses are little-endian, as on the i386 host.
 */
module Bits {

  type Mem = map<int, bv8>

  /** Access widths of the register and frame-buffer accessors. */
  datatype Width = W8 | W16 | W32

  function Size(w: Width): (n: nat)
    ensures n == 1 || n == 2 || n == 4
  {
    match w
    case W8 => 1
    case W16 => 2
    case W32 => 4
  }

  function Byte(m: Mem, a: int): bv8
  {
    if a in m then m[a] else 0
  }

  /** Byte i (0 = least significant) of a 32-bit word. */
  function ByteOf(v: bv32, i: int): bv8
    requires 0 <= i < 4
  {
    if i == 0 then (v & 0xFF) as bv8
    else if i == 1 then ((v >> 8) & 0xFF) as bv8
    else if i == 2 then ((v >> 16) & 0xFF) as bv8
    else (v >> 24) as bv8
  }

  function Low8(v: bv32): bv8 { ByteOf(v, 0) }

  function Low16(v: bv32): bv16 { (v & 0xFFFF) as bv16 }

  function High16(v: bv32): bv16 { (v >> 16) as bv16 }

  /** The word whose halves are lo (bits 0-15) and hi (bits 16-31). */
  function Join16(lo: bv16, hi: bv16): bv32
  {
    ((hi as bv32) << 16) | (lo as bv32)
  }

  function Load8(m: Mem, a: int): bv8 { Byte(m, a) }

  function Load16(m: Mem, a: int): bv16
  {
    ((Byte(m, a + 1) as bv16) << 8) | (Byte(m, a) as bv16)
  }

  function Load32(m: Mem, a: int): bv32
  {
    Join16(Load16(m, a), Load16(m, a + 2))
  }

  function Store8(m: Mem, a: int, v: bv8): Mem { m[a := v] }

  function Store16(m: Mem, a: int, v: bv16): Mem
  {
    m[a := (v & 0xFF) as bv8][a + 1 := (v >> 8) as bv8]
  }

  function Store32(m: Mem, a: int, v: bv32): Mem
  {
    Store16(Store16(m, a, Low16(v)), a + 2, High16(v))
  }

  /** The low Size(w) bytes of v stored at a (the value is truncated to the width). */
  function StoreW(m: Mem, a: int, w: Width, v: bv32): Mem
  {
    match w
    case W8 => Store8(m, a, Low8(v))
    case W16 => Store16(m, a, Low16(v))
    case W32 => Store32(m, a, v)
  }

  /** v truncated to the width w. */
  function Truncate(v: bv32, w: Width): bv32
  {
    match w
    case W8 => v & 0xFF
    case W16 => v & 0xFFFF
    case W32 => v
  }

  function LoadW(m: Mem, a: int, w: Width): bv32
  {
    match w
    case W8 => Load8(m, a) as bv32
    case W16 => Load16(m, a) as bv32
    case W32 => Load32(m, a)
  }

  lemma Join16Halves(v: bv32)
    ensures Join16(Low16(v), High16(v)) == v
    ensures Low16(Join16(Low16(v), High16(v))) == Low16(v)
  {
  }

  lemma Halves16Join(lo: bv16, hi: bv16)
    ensures Low16(Join16(lo, hi)) == lo && High16(Join16(lo, hi)) == hi
  {
  }

  lemma Store16Bytes(m: Mem, a: int, v: bv16, b: int)
    ensures Byte(Store16(m, a, v), b) ==
              if b == a then (v & 0xFF) as bv8 else if b == a + 1 then (v >> 8) as bv8 else Byte(m, b)
  {
  }

  lemma HalfBytes(v: bv32)
    ensures ByteOf(v, 0) == (Low16(v) & 0xFF) as bv8
    ensures ByteOf(v, 1) == (Low16(v) >> 8) as bv8
    ensures ByteOf(v, 2) == (High16(v) & 0xFF) as bv8
    ensures ByteOf(v, 3) == (High16(v) >> 8) as bv8
  {
  }

  /** A store writes exactly the bytes [a, a + Size(w)) with the bytes of v, lowest first. */
  lemma StoreWBytes(m: Mem, a: int, w: Width, v: bv32, b: int)
    ensures Byte(StoreW(m, a, w, v), b) ==
              if a <= b < a + Size(w) then ByteOf(v, b - a) else Byte(m, b)
  {
    match w
    case W8 =>
    case W16 =>
      Store16Bytes(m, a, Low16(v), b);
      HalfBytes(v);
    case W32 =>
      var m1 := Store16(m, a, Low16(v));
      Store16Bytes(m, a, Low16(v), b);
      Store16Bytes(m1, a + 2, High16(v), b);
      HalfBytes(v);
      if b == a {
        assert Byte(Store32(m, a, v), b) == ByteOf(v, 0);
      } else if b == a + 1 {
        assert Byte(Store32(m, a, v), b) == ByteOf(v, 1);
      } else if b == a + 2 {
        assert Byte(Store32(m, a, v), b) == ByteOf(v, 2);
      } else if b == a + 3 {
        assert Byte(Store32(m, a, v), b) == ByteOf(v, 3);
      } else {
        assert Byte(Store32(m, a, v), b) == Byte(m, b);
      }
  }

  lemma Load16Bytes(m: Mem, a: int)
    ensures (Load16(m, a) & 0xFF) as bv8 == Byte(m, a)
    ensures (Load16(m, a) >> 8) as bv8 == Byte(m, a + 1)
  {
  }

  /** Storing back the half-word just read leaves every byte as it was. */
  lemma Store16Own(m: Mem, a: int, b: int)
    ensures Byte(Store16(m, a, Load16(m, a)), b) == Byte(m, b)
  {
    Store16Bytes(m, a, Load16(m, a), b);
    Load16Bytes(m, a);
  }

  lemma Bytes16(lo: bv8, hi: bv8, v: bv16)
    requires lo == (v & 0xFF) as bv8 && hi == (v >> 8) as bv8
    ensures ((hi as bv16) << 8) | (lo as bv16) == v
  {
  }

  lemma LoadStore16(m: Mem, a: int, v: bv16)
    ensures Load16(Store16(m, a, v), a) == v
  {
    var s := Store16(m, a, v);
    Store16Bytes(m, a, v, a);
    Store16Bytes(m, a, v, a + 1);
    Bytes16(Byte(s, a), Byte(s, a + 1), v);
  }

  lemma Load16Store16Disjoint(m: Mem, a: int, v: bv16, b: int)
    requires b + 2 <= a || a + 2 <= b
    ensures Load16(Store16(m, a, v), b) == Load16(m, b)
  {
    var s := Store16(m, a, v);
    Store16Bytes(m, a, v, b);
    Store16Bytes(m, a, v, b + 1);
    assert Byte(s, b) == Byte(m, b) && Byte(s, b + 1) == Byte(m, b + 1);
  }

  lemma LoadStore32(m: Mem, a: int, v: bv32)
    ensures Load32(Store32(m, a, v), a) == v
  {
    var m1 := Store16(m, a, Low16(v));
    var s := Store16(m1, a + 2, High16(v));
    LoadStore16(m, a, Low16(v));
    Load16Store16Disjoint(m1, a + 2, High16(v), a);
    LoadStore16(m1, a + 2, High16(v));
    assert Load16(s, a) == Low16(v) && Load16(s, a + 2) == High16(v);
    Join16Halves(v);
  }

  lemma WidenTruncated(v: bv32)
    ensures Low8(v) as bv32 == Truncate(v, W8)
    ensures Low16(v) as bv32 == Truncate(v, W16)
  {
  }

  /** Reading back a store yields the stored value truncated to the width. */
  lemma LoadStoreW(m: Mem, a: int, w: Width, v: bv32)
    ensures LoadW(StoreW(m, a, w, v), a, w) == Truncate(v, w)
  {
    WidenTruncated(v);
    match w
    case W8 =>
    case W16 =>
      LoadStore16(m, a, Low16(v));
    case W32 =>
      LoadStore32(m, a, v);
  }

  lemma UpdateTwice(m: Mem, a: int, x: bv8, y: bv8, x': bv8, y': bv8)
    ensures m[a := x][a + 1 := y][a := x'][a + 1 := y'] == m[a := x'][a + 1 := y']
  {
  }

  lemma Store16Twice(m: Mem, a: int, u: bv16, v: bv16)
    ensures Store16(Store16(m, a, u), a, v) == Store16(m, a, v)
  {
    UpdateTwice(m, a, (u & 0xFF) as bv8, (u >> 8) as bv8, (v & 0xFF) as bv8, (v >> 8) as bv8);
  }

  lemma Store16Commute(m: Mem, a: int, b: int, u: bv16, v: bv16)
    requires b + 2 <= a || a + 2 <= b
    ensures Store16(Store16(m, a, u), b, v) == Store16(Store16(m, b, v), a, u)
  {
    var u0, u1 := (u & 0xFF) as bv8, (u >> 8) as bv8;
    var v0, v1 := (v & 0xFF) as bv8, (v >> 8) as bv8;
    MapUpdatesCommute(m, a, a + 1, b, b + 1, u0, u1, v0, v1);
  }

  /** Two pairs of updates at four distinct keys can be made in either order. */
  lemma MapUpdatesCommute(m: Mem, a0: int, a1: int, b0: int, b1: int, x0: bv8, x1: bv8, y0: bv8, y1: bv8)
    requires a0 != b0 && a0 != b1 && a1 != b0 && a1 != b1
    ensures m[a0 := x0][a1 := x1][b0 := y0][b1 := y1] == m[b0 := y0][b1 := y1][a0 := x0][a1 := x1]
  {
  }

  /** Storing a value at a place overrides any earlier store of the same width there. */
  lemma StoreWTwice(m: Mem, a: int, w: Width, v: bv32, u: bv32)
    ensures StoreW(StoreW(m, a, w, u), a, w, v) == StoreW(m, a, w, v)
  {
    match w
    case W8 =>
    case W16 =>
      Store16Twice(m, a, Low16(u), Low16(v));
    case W32 =>
      var lu, hu, lv, hv := Low16(u), High16(u), Low16(v), High16(v);
      var m1 := Store16(m, a, lu);
      Store16Commute(m1, a + 2, a, hu, lv);
      Store16Twice(m, a, lu, lv);
      Store16Twice(Store16(m, a, lv), a + 2, hu, hv);
  }

  /** A store leaves the value read at any disjoint place unchanged. */
  lemma {:induction false} LoadStoreDisjoint(m: Mem, a: int, w: Width, v: bv32, b: int, r: Width)
    requires b + Size(r) <= a || a + Size(w) <= b
    ensures LoadW(StoreW(m, a, w, v), b, r) == LoadW(m, b, r)
  {
    forall i | b <= i < b + Size(r)
      ensures Byte(StoreW(m, a, w, v), i) == Byte(m, i)
    {
      StoreWBytes(m, a, w, v, i);
    }
  }

  /**
   * Fill(m, o, end, w, v): the stores of v at o, o + Size(w), o + 2 * Size(w), ...
   * while the offset is below end, in that order.
   */
  function Fill(m: Mem, o: int, end: int, w: Width, v: bv32): Mem
    decreases end - o
  {
    if o >= end then m else Fill(StoreW(m, o, w, v), o + Size(w), end, w, v)
  }

  /** Byte b lies in one of the blocks of a fill from start below end. */
  predicate Touched(b: int, start: int, end: int, w: Width)
  {
    start <= b && b - (b - start) % Size(w) < end
  }

  /** Offset o is one of the offsets a fill from start below end stores at. */
  predicate Stride(o: int, start: int, end: int, w: Width)
  {
    start <= o < end && (o - start) % Size(w) == 0
  }

  /** x written as n * q + r with 0 <= r < n has residue r. */
  lemma ResidueOf(x: int, n: int, q: int, r: int)
    requires n == 1 || n == 2 || n == 4
    requires x == n * q + r && 0 <= r < n
    ensures x % n == r
  {
  }

  /**
   * What a fill does, byte by byte: every touched byte holds the byte of v at
   * its position in its block, every other byte is unchanged.
   */
  lemma {:induction false} FillBytes(m: Mem, o: int, end: int, w: Width, v: bv32, b: int)
    ensures Byte(Fill(m, o, end, w, v), b) ==
              if Touched(b, o, end, w) then ByteOf(v, (b - o) % Size(w)) else Byte(m, b)
    decreases end - o
  {
    var n := Size(w);
    if o < end {
      var m' := StoreW(m, o, w, v);
      FillBytes(m', o + n, end, w, v, b);
      StoreWBytes(m, o, w, v, b);
      if b >= o + n {
        var q, r := (b - (o + n)) / n, (b - (o + n)) % n;
        ResidueOf(b - o, n, q + 1, r);
      }
    }
  }

  /** A fill stores the truncated value at every stride offset below end. */
  lemma {:induction false} FillStrides(m: Mem, start: int, end: int, w: Width, v: bv32, o: int)
    requires Stride(o, start, end, w)
    ensures LoadW(Fill(m, start, end, w, v), o, w) == Truncate(v, w)
  {
    var f := Fill(m, start, end, w, v);
    var s := StoreW(m, o, w, v);
    forall i | o <= i < o + Size(w)
      ensures Byte(f, i) == Byte(s, i)
    {
      FillBytes(m, start, end, w, v, i);
      StoreWBytes(m, o, w, v, i);
      assert (i - start) % Size(w) == i - o;
    }
    LoadStoreW(m, o, w, v);
    LoadEqual(f, s, o, w);
  }

  /** A fill leaves every byte below start unchanged, and every byte from the end of the last block on. */
  lemma {:induction false} FillOutside(m: Mem, start: int, end: int, w: Width, v: bv32, b: int)
    requires b < start || (b >= end && (b - start) % Size(w) <= b - end) || b >= end + Size(w) - 1
    ensures Byte(Fill(m, start, end, w, v), b) == Byte(m, b)
  {
    FillBytes(m, start, end, w, v, b);
  }

  /** Reads see only the bytes they cover. */
  lemma LoadEqual(m: Mem, n: Mem, a: int, w: Width)
    requires forall i :: a <= i < a + Size(w) ==> Byte(m, i) == Byte(n, i)
    ensures LoadW(m, a, w) == LoadW(n, a, w)
  {
    assert Byte(m, a) == Byte(n, a);
    if w != W8 {
      assert Byte(m, a + 1) == Byte(n, a + 1);
    }
    if w == W32 {
      assert Byte(m, a + 2) == Byte(n, a + 2);
      assert Byte(m, a + 3) == Byte(n, a + 3);
    }
  }
}
