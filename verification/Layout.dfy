/** Little-endian numbers and records laid out back to back: what fixed-offset byte decoding relies on
    (lib/arena/decode.ts). */
module Layout {
  type byte = x: int | 0 <= x < 0x100
  type u16 = x: int | 0 <= x < 0x1_0000
  type u32 = x: int | 0 <= x < 0x1_0000_0000
  type u64 = x: int | 0 <= x < 0x1_0000_0000_0000_0000
  type i64 = x: int | -0x8000_0000_0000_0000 <= x < 0x8000_0000_0000_0000

  // ---------------------------------------------------------------- numbers

  function Le(v: nat, w: nat): (r: seq<byte>)
    ensures |r| == w
  {
    if w == 0 then [] else [v % 0x100] + Le(v / 0x100, w - 1)
  }

  function Val(s: seq<byte>): nat {
    if |s| == 0 then 0 else s[0] + 0x100 * Val(s[1..])
  }

  function Pow(w: nat): nat {
    if w == 0 then 1 else 0x100 * Pow(w - 1)
  }

  lemma {:induction false} NumberRoundTrip(v: nat, w: nat)
    requires v < Pow(w)
    ensures Val(Le(v, w)) == v
  {
    if w > 0 {
      NumberRoundTrip(v / 0x100, w - 1);
      assert Le(v, w)[1..] == Le(v / 0x100, w - 1);
    }
  }

  lemma LastDigit(v: nat, digit: byte, rest: nat)
    requires v == digit + 0x100 * rest
    ensures v % 0x100 == digit && v / 0x100 == rest
  {
  }

  lemma {:induction false} BytesRoundTrip(s: seq<byte>)
    ensures Val(s) < Pow(|s|) && Le(Val(s), |s|) == s
  {
    if |s| > 0 {
      BytesRoundTrip(s[1..]);
      var rest := Val(s[1..]);
      LastDigit(Val(s), s[0], rest);
      assert s == [s[0]] + s[1..];
    }
  }

  lemma Widths()
    ensures Pow(1) == 0x100 && Pow(2) == 0x1_0000 && Pow(4) == 0x1_0000_0000 && Pow(5) == 0x100_0000_0000
    ensures Pow(7) == 0x100_0000_0000_0000 && Pow(8) == 0x1_0000_0000_0000_0000
  {
    assert Pow(3) == 0x100 * Pow(2);
    assert Pow(6) == 0x100 * Pow(5);
  }

  /** Two's complement at 64 bits. */
  function Signed(v: u64): i64 {
    if v >= 0x8000_0000_0000_0000 then v - 0x1_0000_0000_0000_0000 else v
  }

  function Unsigned(x: i64): u64 {
    if x < 0 then x + 0x1_0000_0000_0000_0000 else x
  }

  lemma Shifted(weight: nat, x: nat)
    ensures 0x100 * (weight * x) == (0x100 * weight) * x
  {
  }

  /** Little-endian: a byte is worth itself, and bytes further on weigh more. */
  lemma {:induction false} ValConcat(a: seq<byte>, b: seq<byte>)
    ensures Val(a + b) == Val(a) + Pow(|a|) * Val(b)
    ensures |a| == 1 ==> Val(a) == a[0]
  {
    if |a| == 0 {
      assert a + b == b;
    } else {
      ValConcat(a[1..], b);
      assert (a + b)[1..] == a[1..] + b;
      Shifted(Pow(|a[1..]|), Val(b));
      hide Val;
      assert Val(a + b) == a[0] + 0x100 * Val(a[1..] + b) && Val(a) == a[0] + 0x100 * Val(a[1..]);
    }
  }

  /** getUint8 .. getBigUint64, little-endian. */
  function U(s: seq<byte>, off: nat, w: nat): (v: nat)
    requires off + w <= |s|
    ensures v < Pow(w)
  {
    BytesRoundTrip(s[off..off + w]);
    Val(s[off..off + w])
  }

  /** getBigInt64, little-endian. */
  function I(s: seq<byte>, off: nat): i64
    requires off + 8 <= |s|
  {
    Widths();
    Signed(U(s, off, 8))
  }

  /** Eight bytes read as a signed number are its two's complement: the same number where the top bit is clear, and
      2^64 less where it is set. */
  lemma SignedExact(s: seq<byte>, off: nat)
    requires off + 8 <= |s|
    ensures var word := s[off..off + 8];
            I(s, off) == if word[7] < 0x80 then Val(word) else Val(word) - 0x1_0000_0000_0000_0000
  {
    hide Val, Pow;
    var word := s[off..off + 8];
    Widths();
    TopByte(word);
    BytesRoundTrip(word);
  }

  lemma TopByte(word: seq<byte>)
    requires |word| == 8
    ensures var top: int := word[7];
            top * 0x100_0000_0000_0000 <= Val(word) < (top + 1) * 0x100_0000_0000_0000
  {
    hide Val, Pow;
    var low, top := word[..7], word[7..];
    assert word == low + top;
    ValConcat(low, top);
    ValConcat(top, []);
    BytesRoundTrip(low);
    Widths();
  }

  // ---------------------------------------------------------------- records

  datatype Field = Field(off: nat, width: nat)

  function End(f: Field): nat { f.off + f.width }

  /** Fields in order, the first at zero, each starting where the one before ends, the last ending at size. */
  predicate Tiles(t: seq<Field>, size: nat) {
    && (if |t| == 0 then size == 0 else t[0].off == 0 && End(t[|t| - 1]) == size)
    && forall i, j :: 0 <= i < |t| && j == i + 1 && j < |t| ==> t[j].off == End(t[i])
  }

  lemma {:induction false} TilesOrder(t: seq<Field>, size: nat, i: nat, j: nat)
    requires Tiles(t, size) && i < j < |t|
    ensures End(t[i]) <= t[j].off
    decreases j - i
  {
    var k := i + 1;
    assert t[k].off == End(t[i]);
    if k < j { TilesOrder(t, size, k, j); }
  }

  /** Every field is in bounds and no two share a byte. */
  lemma TilesDisjoint(t: seq<Field>, size: nat, i: nat, j: nat)
    requires Tiles(t, size) && i < |t| && j < |t| && i != j
    ensures End(t[i]) <= size && (End(t[i]) <= t[j].off || End(t[j]) <= t[i].off)
  {
    if i < j { TilesOrder(t, size, i, j); } else { TilesOrder(t, size, j, i); }
    if i < |t| - 1 { TilesOrder(t, size, i, |t| - 1); }
  }

  lemma InBounds(t: seq<Field>, size: nat, i: nat)
    requires Tiles(t, size) && i < |t|
    ensures End(t[i]) <= size
  {
    if i < |t| - 1 { TilesOrder(t, size, i, |t| - 1); }
  }

  /** Every byte belongs to some field: no gap the table does not name. */
  lemma {:induction false} TilesCover(t: seq<Field>, size: nat, k: nat) returns (i: nat)
    requires Tiles(t, size) && k < size
    ensures i < |t| && t[i].off <= k < End(t[i])
  {
    var n := |t| - 1;
    if k >= t[n].off {
      i := n;
    } else {
      var init := t[..n];
      assert n > 0 && t[n].off == End(t[n - 1]);
      assert Tiles(init, t[n].off);
      i := TilesCover(init, t[n].off, k);
    }
  }

  function Concat(parts: seq<seq<byte>>): seq<byte> {
    if |parts| == 0 then [] else Concat(parts[..|parts| - 1]) + parts[|parts| - 1]
  }

  predicate Fits(t: seq<Field>, parts: seq<seq<byte>>) {
    |t| == |parts| && forall i :: 0 <= i < |t| ==> |parts[i]| == t[i].width
  }

  /** The parts stand in s, from base on, where the table says. */
  ghost predicate Laid(s: seq<byte>, base: nat, t: seq<Field>, parts: seq<seq<byte>>) {
    |t| == |parts| && forall i :: 0 <= i < |t| ==> Stands(s, base + t[i].off, t[i].width, parts[i])
  }

  predicate Stands(s: seq<byte>, off: nat, w: nat, part: seq<byte>) {
    off + w <= |s| && s[off..off + w] == part
  }

  lemma StandsAppend(left: seq<byte>, right: seq<byte>, off: nat, w: nat, part: seq<byte>)
    requires Stands(left, off, w, part)
    ensures Stands(left + right, off, w, part)
  {
    assert (left + right)[off..off + w] == left[off..off + w];
  }

  lemma StandsInside(s: seq<byte>, base: nat, size: nat, piece: seq<byte>, off: nat, w: nat, part: seq<byte>)
    requires Stands(s, base, size, piece) && Stands(piece, off, w, part)
    ensures Stands(s, base + off, w, part)
  {
    assert off + w <= |piece| && |piece| == size;
    var inner := s[base + off..base + off + w];
    forall k | 0 <= k < w ensures inner[k] == part[k] {
      assert inner[k] == s[base + (off + k)];
      assert piece[off + k] == s[base + (off + k)];
      assert part[k] == piece[off..off + w][k];
    }
    assert inner == part;
  }

  lemma TilesInit(t: seq<Field>, size: nat)
    requires Tiles(t, size) && |t| > 0
    ensures Tiles(t[..|t| - 1], t[|t| - 1].off)
  {
    var n := |t| - 1;
    if n > 0 {
      var k := n - 1;
      assert t[n].off == End(t[k]);
    }
  }

  lemma {:induction false} ConcatLaid(t: seq<Field>, size: nat, parts: seq<seq<byte>>)
    requires Tiles(t, size) && Fits(t, parts)
    ensures |Concat(parts)| == size && Laid(Concat(parts), 0, t, parts)
  {
    hide Tiles, Stands;
    if |t| == 0 {
      assert size == 0 by { TilesEmpty(t, size); }
    } else {
      var n := |t| - 1;
      var t', parts' := t[..n], parts[..n];
      TilesInit(t, size);
      ConcatLaid(t', t[n].off, parts');
      var left, all := Concat(parts'), Concat(parts);
      EndStands(left, parts[n]);
      assert size == End(t[n]) by { TilesEnd(t, size); }
      forall i | 0 <= i < |t| ensures Stands(all, 0 + t[i].off, t[i].width, parts[i]) {
        if i < n {
          assert Stands(left, 0 + t'[i].off, t'[i].width, parts'[i]);
          StandsAppend(left, parts[n], t[i].off, t[i].width, parts[i]);
        }
      }
    }
  }

  lemma TilesEmpty(t: seq<Field>, size: nat)
    requires Tiles(t, size) && |t| == 0
    ensures size == 0
  {
  }

  lemma TilesEnd(t: seq<Field>, size: nat)
    requires Tiles(t, size) && |t| > 0
    ensures size == End(t[|t| - 1])
  {
  }

  lemma EndStands(left: seq<byte>, right: seq<byte>)
    ensures Stands(left + right, |left|, |right|, right)
  {
  }

  /** The same inside a larger buffer. */
  lemma LaidAt(s: seq<byte>, base: nat, t: seq<Field>, size: nat, parts: seq<seq<byte>>)
    requires Tiles(t, size) && Fits(t, parts) && Stands(s, base, size, Concat(parts))
    ensures Laid(s, base, t, parts)
  {
    ConcatLaid(t, size, parts);
    var piece := Concat(parts);
    forall i | 0 <= i < |t| ensures Stands(s, base + t[i].off, t[i].width, parts[i]) {
      assert Stands(piece, 0 + t[i].off, t[i].width, parts[i]);
      StandsInside(s, base, size, piece, t[i].off, t[i].width, parts[i]);
    }
  }

  /** Reading a number where the table puts it gives the number that was written. */
  lemma ReadsBack(s: seq<byte>, base: nat, t: seq<Field>, parts: seq<seq<byte>>, i: nat, v: nat)
    requires Laid(s, base, t, parts) && i < |t| && v < Pow(t[i].width) && parts[i] == Le(v, t[i].width)
    ensures base + End(t[i]) <= |s| && U(s, base + t[i].off, t[i].width) == v
  {
    assert Stands(s, base + t[i].off, t[i].width, parts[i]);
    NumberRoundTrip(v, t[i].width);
  }

  lemma ReadsBackSigned(s: seq<byte>, base: nat, t: seq<Field>, parts: seq<seq<byte>>, i: nat, x: i64)
    requires Laid(s, base, t, parts) && i < |t| && t[i].width == 8 && parts[i] == Le(Unsigned(x), 8)
    ensures base + t[i].off + 8 <= |s| && I(s, base + t[i].off) == x
  {
    Widths();
    ReadsBack(s, base, t, parts, i, Unsigned(x));
  }

  /** An array: count records of w bytes. */
  function Grid(count: nat, w: nat): (t: seq<Field>)
    ensures |t| == count && forall i :: 0 <= i < count ==> t[i] == Field(i * w, w)
  {
    seq(count, i requires 0 <= i < count => Field(i * w, w))
  }

  lemma GridTiles(count: nat, w: nat)
    ensures Tiles(Grid(count, w), count * w)
  {
    var t := Grid(count, w);
    forall i, j | 0 <= i < |t| && j == i + 1 && j < |t| ensures t[j].off == End(t[i]) {
      assert (i + 1) * w == i * w + w;
    }
    if count > 0 { assert (count - 1) * w + w == count * w; }
  }

  lemma ArrayStands(s: seq<byte>, base: nat, w: nat, parts: seq<seq<byte>>, i: nat)
    requires (forall p <- parts :: |p| == w) && i < |parts|
    requires Stands(s, base, |parts| * w, Concat(parts))
    ensures Stands(s, base + i * w, w, parts[i])
  {
    var t := Grid(|parts|, w);
    GridTiles(|parts|, w);
    LaidAt(s, base, t, |parts| * w, parts);
    assert Stands(s, base + t[i].off, t[i].width, parts[i]);
  }

  /** Same length, same bytes everywhere but inside f. */
  ghost predicate AgreeOutside(s: seq<byte>, s': seq<byte>, f: Field) {
    |s| == |s'| && forall k :: 0 <= k < |s| && !(f.off <= k < End(f)) ==> s[k] == s'[k]
  }

  lemma LengthKept(s: seq<byte>, s': seq<byte>, f: Field)
    requires AgreeOutside(s, s', f)
    ensures |s| == |s'|
  {
  }

  lemma Untouched(s: seq<byte>, s': seq<byte>, f: Field, off: nat, w: nat)
    requires AgreeOutside(s, s', f) && off + w <= |s| && (off + w <= f.off || End(f) <= off)
    ensures s[off..off + w] == s'[off..off + w]
  {
  }

  lemma Apart(s: seq<byte>, s': seq<byte>, t: seq<Field>, size: nat, i: nat, j: nat)
    requires Tiles(t, size) && i < |t| && j < |t| && |s| == size && AgreeOutside(s, s', t[i])
    ensures End(t[j]) <= size && |s'| == size
    ensures i != j ==> s[t[j].off..End(t[j])] == s'[t[j].off..End(t[j])]
    ensures i != j ==> U(s, t[j].off, t[j].width) == U(s', t[j].off, t[j].width)
  {
    InBounds(t, size, j);
    if i != j {
      TilesDisjoint(t, size, j, i);
      Untouched(s, s', t[i], t[j].off, t[j].width);
    }
  }
}
