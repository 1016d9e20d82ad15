/** Fixed-length arrays of records inside an account, for any record that can be read from w bytes. */
module Arrays {
  import opened Layout

  function MapSeq<R, T>(ps: seq<R>, f: R -> T): (r: seq<T>)
    ensures |r| == |ps| && forall i :: 0 <= i < |ps| ==> r[i] == f(ps[i])
  {
    seq(|ps|, i requires 0 <= i < |ps| => f(ps[i]))
  }

  lemma {:induction false} InGrid(i: nat, count: nat, w: nat)
    requires i < count
    ensures i * w + w <= count * w
    decreases count
  {
    var m := count - 1;
    assert m * w + w == count * w;
    if i < m { InGrid(i, m, w); }
  }

  /** The bytes of record i. */
  function Slot(s: seq<byte>, base: nat, count: nat, w: nat, i: nat): (b: seq<byte>)
    requires i < count && base + count * w <= |s|
    ensures |b| == w
  {
    InGrid(i, count, w);
    s[base + i * w..base + i * w + w]
  }

  ghost predicate Reads<T(!new)>(read: seq<byte> --> T, w: nat) { forall b :: |b| == w ==> read.requires(b) }

  function ReadArray<T(!new)>(s: seq<byte>, base: nat, count: nat, w: nat, read: seq<byte> --> T): (r: seq<T>)
    requires base + count * w <= |s| && Reads(read, w)
    ensures |r| == count && forall i :: 0 <= i < count ==> r[i] == read(Slot(s, base, count, w, i))
  {
    seq(count, i requires 0 <= i < count => read(Slot(s, base, count, w, i)))
  }

  /** The encoder makes w bytes of every record, and the reader turns them into its value. */
  ghost predicate Inverts<R(!new), T(!new)>(w: nat, enc: R -> seq<byte>, read: seq<byte> --> T, view: R -> T) {
    Reads(read, w) && forall p :: |enc(p)| == w && read(enc(p)) == view(p)
  }

  lemma ArrayEncoded<R>(ps: seq<R>, w: nat, enc: R -> seq<byte>)
    requires forall p <- ps :: |enc(p)| == w
    ensures (forall part <- MapSeq(ps, enc) :: |part| == w) && |Concat(MapSeq(ps, enc))| == |ps| * w
  {
    hide Concat;
    GridTiles(|ps|, w);
    ConcatLaid(Grid(|ps|, w), |ps| * w, MapSeq(ps, enc));
  }

  lemma ArrayReadBack<R(!new), T(!new)>(
      s: seq<byte>, base: nat, ps: seq<R>, w: nat, enc: R -> seq<byte>, read: seq<byte> --> T, view: R -> T)
    requires Inverts(w, enc, read, view) && Stands(s, base, |ps| * w, Concat(MapSeq(ps, enc)))
    ensures ReadArray(s, base, |ps|, w, read) == MapSeq(ps, view)
  {
    hide Concat;
    ArrayEncoded(ps, w, enc);
    forall i | 0 <= i < |ps| ensures ReadArray(s, base, |ps|, w, read)[i] == MapSeq(ps, view)[i] {
      ArrayStands(s, base, w, MapSeq(ps, enc), i);
      assert Slot(s, base, |ps|, w, i) == enc(ps[i]);
    }
  }

  lemma SameInside(s: seq<byte>, s': seq<byte>, base: nat, size: nat, off: nat, w: nat)
    requires base + size <= |s| && |s| == |s'| && s[base..base + size] == s'[base..base + size] && off + w <= size
    ensures s[base + off..base + off + w] == s'[base + off..base + off + w]
  {
    forall k | base + off <= k < base + off + w ensures s[k] == s'[k] {
      assert s[base..base + size][k - base] == s'[base..base + size][k - base];
    }
  }

  lemma SlotSame(s: seq<byte>, s': seq<byte>, base: nat, count: nat, w: nat, i: nat)
    requires base + count * w <= |s| && |s| == |s'| && i < count
    requires s[base..base + count * w] == s'[base..base + count * w]
    ensures Slot(s, base, count, w, i) == Slot(s', base, count, w, i)
  {
    var off, size := i * w, count * w;
    InGrid(i, count, w);
    SameInside(s, s', base, size, off, w);
  }

  lemma SlotApart(s: seq<byte>, s': seq<byte>, base: nat, count: nat, w: nat, i: nat, j: nat)
    requires base + count * w <= |s| && |s| == |s'| && i < count && j < count && i != j
    requires AgreeOutside(s, s', Field(base + i * w, w))
    ensures Slot(s', base, count, w, j) == Slot(s, base, count, w, j)
  {
    hide AgreeOutside;
    InGrid(j, count, w);
    StridesApart(i, j, w);
    BytesApart(s, s', base, i * w, j * w, w);
  }

  lemma StridesApart(i: nat, j: nat, w: nat)
    requires i != j
    ensures i * w + w <= j * w || j * w + w <= i * w
  {
    if i < j { InGrid(i, j, w); } else { InGrid(j, i, w); }
  }

  lemma BytesApart(s: seq<byte>, s': seq<byte>, base: nat, here: nat, there: nat, w: nat)
    requires |s| == |s'| && base + there + w <= |s| && (here + w <= there || there + w <= here)
    requires AgreeOutside(s, s', Field(base + here, w))
    ensures s'[base + there..base + there + w] == s[base + there..base + there + w]
  {
    hide AgreeOutside;
    Untouched(s, s', Field(base + here, w), base + there, w);
  }

  lemma ReadArrayFrame<T(!new)>(s: seq<byte>, s': seq<byte>, base: nat, count: nat, w: nat, read: seq<byte> --> T)
    requires base + count * w <= |s| && |s| == |s'| && Reads(read, w)
    requires s[base..base + count * w] == s'[base..base + count * w]
    ensures ReadArray(s, base, count, w, read) == ReadArray(s', base, count, w, read)
  {
    hide Slot;
    forall i | 0 <= i < count ensures Slot(s, base, count, w, i) == Slot(s', base, count, w, i) {
      SlotSame(s, s', base, count, w, i);
    }
  }

  /** Changing the bytes of one element leaves the others. */
  lemma ElementFrame<T(!new)>(
      s: seq<byte>, s': seq<byte>, base: nat, count: nat, w: nat, read: seq<byte> --> T, i: nat)
    requires base + count * w <= |s| && i < count && Reads(read, w)
    requires AgreeOutside(s, s', Field(base + i * w, w))
    ensures |s'| == |s|
    ensures forall j :: 0 <= j < count && j != i ==>
              ReadArray(s', base, count, w, read)[j] == ReadArray(s, base, count, w, read)[j]
  {
    LengthKept(s, s', Field(base + i * w, w));
    hide Slot, AgreeOutside;
    forall j | 0 <= j < count && j != i ensures Slot(s', base, count, w, j) == Slot(s, base, count, w, j) {
      SlotApart(s, s', base, count, w, i, j);
    }
  }
}
