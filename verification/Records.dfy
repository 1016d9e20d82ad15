/** The records inside the arena accounts (lib/arena/decode.ts): for each, the raw fields in their declared order, the
    decoded value, and a reader at the fixed offsets of the OFF table. The encoder is a plain concatenation in declared
    order and knows no offset, so reader and encoder agree only if the offsets tile the record. */
module Records {
  import opened Layout

  type Pad4 = s: seq<byte> | |s| == 4 witness [0, 0, 0, 0]
  type Pad5 = s: seq<byte> | |s| == 5 witness [0, 0, 0, 0, 0]
  type Pad7 = s: seq<byte> | |s| == 7 witness [0, 0, 0, 0, 0, 0, 0]

  datatype Side = Long | Short

  function Usd(micro: int): real { micro as real / 1000000.0 }

  function Price(scaled: nat): real { scaled as real / 100000000.0 }

  function SideOf(code: nat): Side { if code == 1 then Short else Long }

  // ---------------------------------------------------------------- Position

  datatype RawPosition = RawPosition(
    entryPrice: u64, stakeMicro: u64, openedTs: i64, liqPrice: u64, ticksHeld: u32, leverage: u16, active: byte,
    marketId: byte, side: byte, pad: Pad7)

  datatype Position = Position(
    active: bool, marketId: nat, side: Side, entryPrice: real, stakeUsd: real, leverage: nat, openedTsMs: int,
    ticksHeld: nat, liqPrice: real)

  function PositionView(p: RawPosition): Position {
    Position(
      p.active == 1, p.marketId, SideOf(p.side), Price(p.entryPrice), Usd(p.stakeMicro), p.leverage,
      1000 * p.openedTs, p.ticksHeld, Price(p.liqPrice))
  }

  function PositionParts(p: RawPosition): seq<seq<byte>> {
    [
      Le(p.entryPrice, 8), Le(p.stakeMicro, 8), Le(Unsigned(p.openedTs), 8), Le(p.liqPrice, 8), Le(p.ticksHeld, 4),
      Le(p.leverage, 2), Le(p.active, 1), Le(p.marketId, 1), Le(p.side, 1), p.pad
    ]
  }

  function EncodePosition(p: RawPosition): seq<byte> { Concat(PositionParts(p)) }

  function PositionTable(): seq<Field> {
    [
      Field(0x00, 8), Field(0x08, 8), Field(0x10, 8), Field(0x18, 8), Field(0x20, 4), Field(0x24, 2), Field(0x26, 1),
      Field(0x27, 1), Field(0x28, 1), Field(0x29, 7)
    ]
  }

  function ReadPosition(b: seq<byte>): Position
    requires |b| == 48
  {
    Position(
      U(b, 0x26, 1) == 1, U(b, 0x27, 1), SideOf(U(b, 0x28, 1)), Price(U(b, 0x00, 8)), Usd(U(b, 0x08, 8)),
      U(b, 0x24, 2), 1000 * I(b, 0x10), U(b, 0x20, 4), Price(U(b, 0x18, 8)))
  }

  /** Which bytes hold which component, and in which unit: little-endian numbers, prices in 1e-8 dollars, amounts in
      1e-6 dollars, times in seconds. */
  lemma PositionFields(b: seq<byte>)
    requires |b| == 48
    ensures var r := ReadPosition(b);
            && r.active == (Val(b[0x26..0x27]) == 1) && r.marketId == Val(b[0x27..0x28])
            && r.side == (if Val(b[0x28..0x29]) == 1 then Short else Long)
            && r.entryPrice * 1_0000_0000.0 == Val(b[0x00..0x08]) as real
            && r.stakeUsd * 1_000_000.0 == Val(b[0x08..0x10]) as real && r.leverage == Val(b[0x24..0x26])
            && r.openedTsMs == 1000 * I(b, 0x10) && r.ticksHeld == Val(b[0x20..0x24])
            && r.liqPrice * 1_0000_0000.0 == Val(b[0x18..0x20]) as real
  {
  }

  lemma PositionLaid(p: RawPosition)
    ensures |EncodePosition(p)| == 48 && Laid(EncodePosition(p), 0, PositionTable(), PositionParts(p))
  {
    hide Le, Concat, Laid;
    ConcatLaid(PositionTable(), 48, PositionParts(p));
  }

  lemma PositionRoundTrip(p: RawPosition)
    ensures |EncodePosition(p)| == 48 && ReadPosition(EncodePosition(p)) == PositionView(p)
  {
    hide Le, Val, Pow, Concat, U, Laid;
    var t, parts, b := PositionTable(), PositionParts(p), EncodePosition(p);
    Widths();
    PositionLaid(p);
    ReadsBack(b, 0, t, parts, 0, p.entryPrice);
    ReadsBack(b, 0, t, parts, 1, p.stakeMicro);
    ReadsBackSigned(b, 0, t, parts, 2, p.openedTs);
    ReadsBack(b, 0, t, parts, 3, p.liqPrice);
    ReadsBack(b, 0, t, parts, 4, p.ticksHeld);
    ReadsBack(b, 0, t, parts, 5, p.leverage);
    ReadsBack(b, 0, t, parts, 6, p.active);
    ReadsBack(b, 0, t, parts, 7, p.marketId);
    ReadsBack(b, 0, t, parts, 8, p.side);
  }

  lemma PositionTiles()
    ensures Tiles(PositionTable(), 48)
  {
  }

  /** Changing the bytes of one field changes only the component read from it. */
  lemma PositionFrame(b: seq<byte>, b': seq<byte>, i: nat)
    requires |b| == 48 && i < |PositionTable()| && AgreeOutside(b, b', PositionTable()[i])
    ensures |b'| == 48
    ensures var r0, r1 := ReadPosition(b), ReadPosition(b');
            && (i != 6 ==> r1.active == r0.active) && (i != 7 ==> r1.marketId == r0.marketId)
            && (i != 8 ==> r1.side == r0.side) && (i != 0 ==> r1.entryPrice == r0.entryPrice)
            && (i != 1 ==> r1.stakeUsd == r0.stakeUsd) && (i != 5 ==> r1.leverage == r0.leverage)
            && (i != 2 ==> r1.openedTsMs == r0.openedTsMs) && (i != 4 ==> r1.ticksHeld == r0.ticksHeld)
            && (i != 3 ==> r1.liqPrice == r0.liqPrice)
  {
    hide Val, Pow, AgreeOutside, Tiles, U;
    var t := PositionTable();
    LengthKept(b, b', t[i]);
    PositionTiles();
    Apart(b, b', t, 48, i, 0);
    Apart(b, b', t, 48, i, 1);
    Apart(b, b', t, 48, i, 2);
    Apart(b, b', t, 48, i, 3);
    Apart(b, b', t, 48, i, 4);
    Apart(b, b', t, 48, i, 5);
    Apart(b, b', t, 48, i, 6);
    Apart(b, b', t, 48, i, 7);
    Apart(b, b', t, 48, i, 8);
  }

  // ---------------------------------------------------------------- TapeEntry

  datatype RawTapeEntry = RawTapeEntry(
    ts: i64, price: u64, stakeMicro: u64, marketId: byte, action: byte, conviction: byte, pad: Pad5)

  datatype TapeEntry = TapeEntry(
    tsMs: int, price: real, stakeUsd: real, marketId: nat, action: nat, conviction: nat)

  function TapeEntryView(p: RawTapeEntry): TapeEntry {
    TapeEntry(
      1000 * p.ts, Price(p.price), Usd(p.stakeMicro), p.marketId, p.action, p.conviction)
  }

  function TapeEntryParts(p: RawTapeEntry): seq<seq<byte>> {
    [
      Le(Unsigned(p.ts), 8), Le(p.price, 8), Le(p.stakeMicro, 8), Le(p.marketId, 1), Le(p.action, 1),
      Le(p.conviction, 1), p.pad
    ]
  }

  function EncodeTapeEntry(p: RawTapeEntry): seq<byte> { Concat(TapeEntryParts(p)) }

  function TapeEntryTable(): seq<Field> {
    [
      Field(0x00, 8), Field(0x08, 8), Field(0x10, 8), Field(0x18, 1), Field(0x19, 1), Field(0x1a, 1), Field(0x1b, 5)
    ]
  }

  function ReadTapeEntry(b: seq<byte>): TapeEntry
    requires |b| == 32
  {
    TapeEntry(
      1000 * I(b, 0x00), Price(U(b, 0x08, 8)), Usd(U(b, 0x10, 8)), U(b, 0x18, 1), U(b, 0x19, 1), U(b, 0x1a, 1))
  }

  /** Which bytes hold which component, and in which unit: little-endian numbers, prices in 1e-8 dollars, amounts in
      1e-6 dollars, times in seconds. */
  lemma TapeEntryFields(b: seq<byte>)
    requires |b| == 32
    ensures var r := ReadTapeEntry(b);
            && r.tsMs == 1000 * I(b, 0x00) && r.price * 1_0000_0000.0 == Val(b[0x08..0x10]) as real
            && r.stakeUsd * 1_000_000.0 == Val(b[0x10..0x18]) as real && r.marketId == Val(b[0x18..0x19])
            && r.action == Val(b[0x19..0x1a]) && r.conviction == Val(b[0x1a..0x1b])
  {
  }

  lemma TapeEntryLaid(p: RawTapeEntry)
    ensures |EncodeTapeEntry(p)| == 32 && Laid(EncodeTapeEntry(p), 0, TapeEntryTable(), TapeEntryParts(p))
  {
    hide Le, Concat, Laid;
    ConcatLaid(TapeEntryTable(), 32, TapeEntryParts(p));
  }

  lemma TapeEntryRoundTrip(p: RawTapeEntry)
    ensures |EncodeTapeEntry(p)| == 32 && ReadTapeEntry(EncodeTapeEntry(p)) == TapeEntryView(p)
  {
    hide Le, Val, Pow, Concat, U, Laid;
    var t, parts, b := TapeEntryTable(), TapeEntryParts(p), EncodeTapeEntry(p);
    Widths();
    TapeEntryLaid(p);
    ReadsBackSigned(b, 0, t, parts, 0, p.ts);
    ReadsBack(b, 0, t, parts, 1, p.price);
    ReadsBack(b, 0, t, parts, 2, p.stakeMicro);
    ReadsBack(b, 0, t, parts, 3, p.marketId);
    ReadsBack(b, 0, t, parts, 4, p.action);
    ReadsBack(b, 0, t, parts, 5, p.conviction);
  }

  lemma TapeEntryTiles()
    ensures Tiles(TapeEntryTable(), 32)
  {
  }

  /** Changing the bytes of one field changes only the component read from it. */
  lemma TapeEntryFrame(b: seq<byte>, b': seq<byte>, i: nat)
    requires |b| == 32 && i < |TapeEntryTable()| && AgreeOutside(b, b', TapeEntryTable()[i])
    ensures |b'| == 32
    ensures var r0, r1 := ReadTapeEntry(b), ReadTapeEntry(b');
            && (i != 0 ==> r1.tsMs == r0.tsMs) && (i != 1 ==> r1.price == r0.price)
            && (i != 2 ==> r1.stakeUsd == r0.stakeUsd) && (i != 3 ==> r1.marketId == r0.marketId)
            && (i != 4 ==> r1.action == r0.action) && (i != 5 ==> r1.conviction == r0.conviction)
  {
    hide Val, Pow, AgreeOutside, Tiles, U;
    var t := TapeEntryTable();
    LengthKept(b, b', t[i]);
    TapeEntryTiles();
    Apart(b, b', t, 32, i, 0);
    Apart(b, b', t, 32, i, 1);
    Apart(b, b', t, 32, i, 2);
    Apart(b, b', t, 32, i, 3);
    Apart(b, b', t, 32, i, 4);
    Apart(b, b', t, 32, i, 5);
  }

  // ---------------------------------------------------------------- StrategyParams

  datatype RawParams = RawParams(
    maxHoldTicks: u32, breakoutBps: u16, activityMultBps: u16, stakeFracBps: u16, leverage: u16,
    exitFavorableBps: u16, readSpan: byte, trendFilter: byte)

  datatype Params = Params(
    maxHoldTicks: nat, breakoutBps: nat, activityMultBps: nat, stakeFracBps: nat, leverage: nat,
    exitFavorableBps: nat, readSpan: nat, trendFilter: bool)

  function ParamsView(p: RawParams): Params {
    Params(
      p.maxHoldTicks, p.breakoutBps, p.activityMultBps, p.stakeFracBps, p.leverage, p.exitFavorableBps, p.readSpan,
      p.trendFilter == 1)
  }

  function ParamsParts(p: RawParams): seq<seq<byte>> {
    [
      Le(p.maxHoldTicks, 4), Le(p.breakoutBps, 2), Le(p.activityMultBps, 2), Le(p.stakeFracBps, 2), Le(p.leverage, 2),
      Le(p.exitFavorableBps, 2), Le(p.readSpan, 1), Le(p.trendFilter, 1)
    ]
  }

  function EncodeParams(p: RawParams): seq<byte> { Concat(ParamsParts(p)) }

  function ParamsTable(): seq<Field> {
    [
      Field(0x00, 4), Field(0x04, 2), Field(0x06, 2), Field(0x08, 2), Field(0x0a, 2), Field(0x0c, 2), Field(0x0e, 1),
      Field(0x0f, 1)
    ]
  }

  function ReadParams(b: seq<byte>): Params
    requires |b| == 16
  {
    Params(
      U(b, 0x00, 4), U(b, 0x04, 2), U(b, 0x06, 2), U(b, 0x08, 2), U(b, 0x0a, 2), U(b, 0x0c, 2), U(b, 0x0e, 1),
      U(b, 0x0f, 1) == 1)
  }

  /** Which bytes hold which component, and in which unit: little-endian numbers, prices in 1e-8 dollars, amounts in
      1e-6 dollars, times in seconds. */
  lemma ParamsFields(b: seq<byte>)
    requires |b| == 16
    ensures var r := ReadParams(b);
            && r.maxHoldTicks == Val(b[0x00..0x04]) && r.breakoutBps == Val(b[0x04..0x06])
            && r.activityMultBps == Val(b[0x06..0x08]) && r.stakeFracBps == Val(b[0x08..0x0a])
            && r.leverage == Val(b[0x0a..0x0c]) && r.exitFavorableBps == Val(b[0x0c..0x0e])
            && r.readSpan == Val(b[0x0e..0x0f]) && r.trendFilter == (Val(b[0x0f..0x10]) == 1)
  {
  }

  lemma ParamsLaid(p: RawParams)
    ensures |EncodeParams(p)| == 16 && Laid(EncodeParams(p), 0, ParamsTable(), ParamsParts(p))
  {
    hide Le, Concat, Laid;
    ConcatLaid(ParamsTable(), 16, ParamsParts(p));
  }

  lemma ParamsRoundTrip(p: RawParams)
    ensures |EncodeParams(p)| == 16 && ReadParams(EncodeParams(p)) == ParamsView(p)
  {
    hide Le, Val, Pow, Concat, U, Laid;
    var t, parts, b := ParamsTable(), ParamsParts(p), EncodeParams(p);
    Widths();
    ParamsLaid(p);
    ReadsBack(b, 0, t, parts, 0, p.maxHoldTicks);
    ReadsBack(b, 0, t, parts, 1, p.breakoutBps);
    ReadsBack(b, 0, t, parts, 2, p.activityMultBps);
    ReadsBack(b, 0, t, parts, 3, p.stakeFracBps);
    ReadsBack(b, 0, t, parts, 4, p.leverage);
    ReadsBack(b, 0, t, parts, 5, p.exitFavorableBps);
    ReadsBack(b, 0, t, parts, 6, p.readSpan);
    ReadsBack(b, 0, t, parts, 7, p.trendFilter);
  }

  lemma ParamsTiles()
    ensures Tiles(ParamsTable(), 16)
  {
  }

  /** Changing the bytes of one field changes only the component read from it. */
  lemma ParamsFrame(b: seq<byte>, b': seq<byte>, i: nat)
    requires |b| == 16 && i < |ParamsTable()| && AgreeOutside(b, b', ParamsTable()[i])
    ensures |b'| == 16
    ensures var r0, r1 := ReadParams(b), ReadParams(b');
            && (i != 0 ==> r1.maxHoldTicks == r0.maxHoldTicks) && (i != 1 ==> r1.breakoutBps == r0.breakoutBps)
            && (i != 2 ==> r1.activityMultBps == r0.activityMultBps)
            && (i != 3 ==> r1.stakeFracBps == r0.stakeFracBps) && (i != 4 ==> r1.leverage == r0.leverage)
            && (i != 5 ==> r1.exitFavorableBps == r0.exitFavorableBps) && (i != 6 ==> r1.readSpan == r0.readSpan)
            && (i != 7 ==> r1.trendFilter == r0.trendFilter)
  {
    hide Val, Pow, AgreeOutside, Tiles, U;
    var t := ParamsTable();
    LengthKept(b, b', t[i]);
    ParamsTiles();
    Apart(b, b', t, 16, i, 0);
    Apart(b, b', t, 16, i, 1);
    Apart(b, b', t, 16, i, 2);
    Apart(b, b', t, 16, i, 3);
    Apart(b, b', t, 16, i, 4);
    Apart(b, b', t, 16, i, 5);
    Apart(b, b', t, 16, i, 6);
    Apart(b, b', t, 16, i, 7);
  }

  // ---------------------------------------------------------------- Bucket

  datatype RawBucket = RawBucket(
    open: u64, high: u64, low: u64, close: u64, startTs: i64, pathLen: u64, updates: u32, pad: Pad4)

  datatype Bucket = Bucket(
    open: real, high: real, low: real, close: real, startTsMs: int, pathLen: real, updates: nat)

  function BucketView(p: RawBucket): Bucket {
    Bucket(
      Price(p.open), Price(p.high), Price(p.low), Price(p.close), 1000 * p.startTs, Price(p.pathLen), p.updates)
  }

  function BucketParts(p: RawBucket): seq<seq<byte>> {
    [
      Le(p.open, 8), Le(p.high, 8), Le(p.low, 8), Le(p.close, 8), Le(Unsigned(p.startTs), 8), Le(p.pathLen, 8),
      Le(p.updates, 4), p.pad
    ]
  }

  function EncodeBucket(p: RawBucket): seq<byte> { Concat(BucketParts(p)) }

  function BucketTable(): seq<Field> {
    [
      Field(0x00, 8), Field(0x08, 8), Field(0x10, 8), Field(0x18, 8), Field(0x20, 8), Field(0x28, 8), Field(0x30, 4),
      Field(0x34, 4)
    ]
  }

  function ReadBucket(b: seq<byte>): Bucket
    requires |b| == 56
  {
    Bucket(
      Price(U(b, 0x00, 8)), Price(U(b, 0x08, 8)), Price(U(b, 0x10, 8)), Price(U(b, 0x18, 8)), 1000 * I(b, 0x20),
      Price(U(b, 0x28, 8)), U(b, 0x30, 4))
  }

  /** Which bytes hold which component, and in which unit: little-endian numbers, prices in 1e-8 dollars, amounts in
      1e-6 dollars, times in seconds. */
  lemma BucketFields(b: seq<byte>)
    requires |b| == 56
    ensures var r := ReadBucket(b);
            && r.open * 1_0000_0000.0 == Val(b[0x00..0x08]) as real
            && r.high * 1_0000_0000.0 == Val(b[0x08..0x10]) as real
            && r.low * 1_0000_0000.0 == Val(b[0x10..0x18]) as real
            && r.close * 1_0000_0000.0 == Val(b[0x18..0x20]) as real && r.startTsMs == 1000 * I(b, 0x20)
            && r.pathLen * 1_0000_0000.0 == Val(b[0x28..0x30]) as real && r.updates == Val(b[0x30..0x34])
  {
  }

  lemma BucketLaid(p: RawBucket)
    ensures |EncodeBucket(p)| == 56 && Laid(EncodeBucket(p), 0, BucketTable(), BucketParts(p))
  {
    hide Le, Concat, Laid;
    ConcatLaid(BucketTable(), 56, BucketParts(p));
  }

  lemma BucketRoundTrip(p: RawBucket)
    ensures |EncodeBucket(p)| == 56 && ReadBucket(EncodeBucket(p)) == BucketView(p)
  {
    hide Le, Val, Pow, Concat, U, Laid;
    var t, parts, b := BucketTable(), BucketParts(p), EncodeBucket(p);
    Widths();
    BucketLaid(p);
    ReadsBack(b, 0, t, parts, 0, p.open);
    ReadsBack(b, 0, t, parts, 1, p.high);
    ReadsBack(b, 0, t, parts, 2, p.low);
    ReadsBack(b, 0, t, parts, 3, p.close);
    ReadsBackSigned(b, 0, t, parts, 4, p.startTs);
    ReadsBack(b, 0, t, parts, 5, p.pathLen);
    ReadsBack(b, 0, t, parts, 6, p.updates);
  }

  lemma BucketTiles()
    ensures Tiles(BucketTable(), 56)
  {
  }

  /** Changing the bytes of one field changes only the component read from it. */
  lemma BucketFrame(b: seq<byte>, b': seq<byte>, i: nat)
    requires |b| == 56 && i < |BucketTable()| && AgreeOutside(b, b', BucketTable()[i])
    ensures |b'| == 56
    ensures var r0, r1 := ReadBucket(b), ReadBucket(b');
            && (i != 0 ==> r1.open == r0.open) && (i != 1 ==> r1.high == r0.high) && (i != 2 ==> r1.low == r0.low)
            && (i != 3 ==> r1.close == r0.close) && (i != 4 ==> r1.startTsMs == r0.startTsMs)
            && (i != 5 ==> r1.pathLen == r0.pathLen) && (i != 6 ==> r1.updates == r0.updates)
  {
    hide Val, Pow, AgreeOutside, Tiles, U;
    var t := BucketTable();
    LengthKept(b, b', t[i]);
    BucketTiles();
    Apart(b, b', t, 56, i, 0);
    Apart(b, b', t, 56, i, 1);
    Apart(b, b', t, 56, i, 2);
    Apart(b, b', t, 56, i, 3);
    Apart(b, b', t, 56, i, 4);
    Apart(b, b', t, 56, i, 5);
    Apart(b, b', t, 56, i, 6);
  }

  // ---------------------------------------------------------------- LlmPosition

  datatype RawLlmPosition = RawLlmPosition(
    entryPrice: u64, stakeMicro: u64, stopPrice: u64, tpPrice: u64, liqPrice: u64, openedTs: i64, lastFundingTs: i64,
    ticksHeld: u32, leverage: u16, active: byte, marketId: byte, side: byte, pad: Pad7)

  datatype LlmPosition = LlmPosition(
    active: bool, marketId: nat, side: Side, entryPrice: real, stakeUsd: real, stopPrice: real, tpPrice: real,
    liqPrice: real, leverage: nat, openedTsMs: int, ticksHeld: nat)

  function LlmPositionView(p: RawLlmPosition): LlmPosition {
    LlmPosition(
      p.active == 1, p.marketId, SideOf(p.side), Price(p.entryPrice), Usd(p.stakeMicro), Price(p.stopPrice),
      Price(p.tpPrice), Price(p.liqPrice), p.leverage, 1000 * p.openedTs, p.ticksHeld)
  }

  function LlmPositionParts(p: RawLlmPosition): seq<seq<byte>> {
    [
      Le(p.entryPrice, 8), Le(p.stakeMicro, 8), Le(p.stopPrice, 8), Le(p.tpPrice, 8), Le(p.liqPrice, 8),
      Le(Unsigned(p.openedTs), 8), Le(Unsigned(p.lastFundingTs), 8), Le(p.ticksHeld, 4), Le(p.leverage, 2),
      Le(p.active, 1), Le(p.marketId, 1), Le(p.side, 1), p.pad
    ]
  }

  function EncodeLlmPosition(p: RawLlmPosition): seq<byte> { Concat(LlmPositionParts(p)) }

  function LlmPositionTable(): seq<Field> {
    [
      Field(0x00, 8), Field(0x08, 8), Field(0x10, 8), Field(0x18, 8), Field(0x20, 8), Field(0x28, 8), Field(0x30, 8),
      Field(0x38, 4), Field(0x3c, 2), Field(0x3e, 1), Field(0x3f, 1), Field(0x40, 1), Field(0x41, 7)
    ]
  }

  function ReadLlmPosition(b: seq<byte>): LlmPosition
    requires |b| == 72
  {
    LlmPosition(
      U(b, 0x3e, 1) == 1, U(b, 0x3f, 1), SideOf(U(b, 0x40, 1)), Price(U(b, 0x00, 8)), Usd(U(b, 0x08, 8)),
      Price(U(b, 0x10, 8)), Price(U(b, 0x18, 8)), Price(U(b, 0x20, 8)), U(b, 0x3c, 2), 1000 * I(b, 0x28),
      U(b, 0x38, 4))
  }

  /** Which bytes hold which component, and in which unit: little-endian numbers, prices in 1e-8 dollars, amounts in
      1e-6 dollars, times in seconds. */
  lemma LlmPositionFields(b: seq<byte>)
    requires |b| == 72
    ensures var r := ReadLlmPosition(b);
            && r.active == (Val(b[0x3e..0x3f]) == 1) && r.marketId == Val(b[0x3f..0x40])
            && r.side == (if Val(b[0x40..0x41]) == 1 then Short else Long)
            && r.entryPrice * 1_0000_0000.0 == Val(b[0x00..0x08]) as real
            && r.stakeUsd * 1_000_000.0 == Val(b[0x08..0x10]) as real
            && r.stopPrice * 1_0000_0000.0 == Val(b[0x10..0x18]) as real
            && r.tpPrice * 1_0000_0000.0 == Val(b[0x18..0x20]) as real
            && r.liqPrice * 1_0000_0000.0 == Val(b[0x20..0x28]) as real && r.leverage == Val(b[0x3c..0x3e])
            && r.openedTsMs == 1000 * I(b, 0x28) && r.ticksHeld == Val(b[0x38..0x3c])
  {
  }

  lemma LlmPositionLaid(p: RawLlmPosition)
    ensures |EncodeLlmPosition(p)| == 72 && Laid(EncodeLlmPosition(p), 0, LlmPositionTable(), LlmPositionParts(p))
  {
    hide Le, Concat, Laid;
    ConcatLaid(LlmPositionTable(), 72, LlmPositionParts(p));
  }

  lemma LlmPositionPrices(p: RawLlmPosition)
    ensures |EncodeLlmPosition(p)| == 72
    ensures var got, want := ReadLlmPosition(EncodeLlmPosition(p)), LlmPositionView(p);
            && got.entryPrice == want.entryPrice && got.stakeUsd == want.stakeUsd && got.stopPrice == want.stopPrice
            && got.tpPrice == want.tpPrice && got.liqPrice == want.liqPrice
  {
    hide Le, Val, Pow, Concat, U, Laid;
    var t, parts, b := LlmPositionTable(), LlmPositionParts(p), EncodeLlmPosition(p);
    Widths();
    LlmPositionLaid(p);
    ReadsBack(b, 0, t, parts, 0, p.entryPrice);
    ReadsBack(b, 0, t, parts, 1, p.stakeMicro);
    ReadsBack(b, 0, t, parts, 2, p.stopPrice);
    ReadsBack(b, 0, t, parts, 3, p.tpPrice);
    ReadsBack(b, 0, t, parts, 4, p.liqPrice);
  }

  lemma LlmPositionRest(p: RawLlmPosition)
    ensures |EncodeLlmPosition(p)| == 72
    ensures var got, want := ReadLlmPosition(EncodeLlmPosition(p)), LlmPositionView(p);
            && got.active == want.active && got.marketId == want.marketId && got.side == want.side
            && got.leverage == want.leverage && got.openedTsMs == want.openedTsMs && got.ticksHeld == want.ticksHeld
  {
    hide Le, Val, Pow, Concat, U, Laid;
    var t, parts, b := LlmPositionTable(), LlmPositionParts(p), EncodeLlmPosition(p);
    Widths();
    LlmPositionLaid(p);
    ReadsBackSigned(b, 0, t, parts, 5, p.openedTs);
    ReadsBack(b, 0, t, parts, 7, p.ticksHeld);
    ReadsBack(b, 0, t, parts, 8, p.leverage);
    ReadsBack(b, 0, t, parts, 9, p.active);
    ReadsBack(b, 0, t, parts, 10, p.marketId);
    ReadsBack(b, 0, t, parts, 11, p.side);
  }

  lemma LlmPositionRoundTrip(p: RawLlmPosition)
    ensures |EncodeLlmPosition(p)| == 72 && ReadLlmPosition(EncodeLlmPosition(p)) == LlmPositionView(p)
  {
    hide EncodeLlmPosition, U;
    LlmPositionPrices(p);
    LlmPositionRest(p);
  }

  lemma LlmPositionTiles()
    ensures Tiles(LlmPositionTable(), 72)
  {
  }

  /** Changing the bytes of one field changes only the component read from it. */
  lemma LlmPositionFrame(b: seq<byte>, b': seq<byte>, i: nat)
    requires |b| == 72 && i < |LlmPositionTable()| && AgreeOutside(b, b', LlmPositionTable()[i])
    ensures |b'| == 72
    ensures var r0, r1 := ReadLlmPosition(b), ReadLlmPosition(b');
            && (i != 9 ==> r1.active == r0.active) && (i != 10 ==> r1.marketId == r0.marketId)
            && (i != 11 ==> r1.side == r0.side) && (i != 0 ==> r1.entryPrice == r0.entryPrice)
            && (i != 1 ==> r1.stakeUsd == r0.stakeUsd) && (i != 2 ==> r1.stopPrice == r0.stopPrice)
            && (i != 3 ==> r1.tpPrice == r0.tpPrice) && (i != 4 ==> r1.liqPrice == r0.liqPrice)
            && (i != 8 ==> r1.leverage == r0.leverage) && (i != 5 ==> r1.openedTsMs == r0.openedTsMs)
            && (i != 7 ==> r1.ticksHeld == r0.ticksHeld)
  {
    hide Val, Pow, AgreeOutside, Tiles, U;
    var t := LlmPositionTable();
    LengthKept(b, b', t[i]);
    LlmPositionTiles();
    Apart(b, b', t, 72, i, 0);
    Apart(b, b', t, 72, i, 1);
    Apart(b, b', t, 72, i, 2);
    Apart(b, b', t, 72, i, 3);
    Apart(b, b', t, 72, i, 4);
    Apart(b, b', t, 72, i, 5);
    Apart(b, b', t, 72, i, 7);
    Apart(b, b', t, 72, i, 8);
    Apart(b, b', t, 72, i, 9);
    Apart(b, b', t, 72, i, 10);
    Apart(b, b', t, 72, i, 11);
  }

  // ---------------------------------------------------------------- LlmParams

  datatype RawLlmParams = RawLlmParams(
    maxHoldTicks: u32, decisionCooldownSecs: u32, maxLeverage: u16, minStopBps: u16, maxStopBps: u16,
    maxStakeFracBps: u16, maxTradesPerDay: u16, dailyLossLimitBps: u16, fundingBpsPerHour: u16, confidenceFloor: byte,
    riskSizing: byte)

  datatype LlmParams = LlmParams(
    maxHoldTicks: nat, decisionCooldownSecs: nat, maxLeverage: nat, minStopBps: nat, maxStopBps: nat,
    maxStakeFracBps: nat, maxTradesPerDay: nat, dailyLossLimitBps: nat, fundingBpsPerHour: nat, confidenceFloor: nat,
    riskSizing: bool)

  function LlmParamsView(p: RawLlmParams): LlmParams {
    LlmParams(
      p.maxHoldTicks, p.decisionCooldownSecs, p.maxLeverage, p.minStopBps, p.maxStopBps, p.maxStakeFracBps,
      p.maxTradesPerDay, p.dailyLossLimitBps, p.fundingBpsPerHour, p.confidenceFloor, p.riskSizing == 1)
  }

  function LlmParamsParts(p: RawLlmParams): seq<seq<byte>> {
    [
      Le(p.maxHoldTicks, 4), Le(p.decisionCooldownSecs, 4), Le(p.maxLeverage, 2), Le(p.minStopBps, 2),
      Le(p.maxStopBps, 2), Le(p.maxStakeFracBps, 2), Le(p.maxTradesPerDay, 2), Le(p.dailyLossLimitBps, 2),
      Le(p.fundingBpsPerHour, 2), Le(p.confidenceFloor, 1), Le(p.riskSizing, 1)
    ]
  }

  function EncodeLlmParams(p: RawLlmParams): seq<byte> { Concat(LlmParamsParts(p)) }

  function LlmParamsTable(): seq<Field> {
    [
      Field(0x00, 4), Field(0x04, 4), Field(0x08, 2), Field(0x0a, 2), Field(0x0c, 2), Field(0x0e, 2), Field(0x10, 2),
      Field(0x12, 2), Field(0x14, 2), Field(0x16, 1), Field(0x17, 1)
    ]
  }

  function ReadLlmParams(b: seq<byte>): LlmParams
    requires |b| == 24
  {
    LlmParams(
      U(b, 0x00, 4), U(b, 0x04, 4), U(b, 0x08, 2), U(b, 0x0a, 2), U(b, 0x0c, 2), U(b, 0x0e, 2), U(b, 0x10, 2),
      U(b, 0x12, 2), U(b, 0x14, 2), U(b, 0x16, 1), U(b, 0x17, 1) == 1)
  }

  /** Which bytes hold which component, and in which unit: little-endian numbers, prices in 1e-8 dollars, amounts in
      1e-6 dollars, times in seconds. */
  lemma LlmParamsFields(b: seq<byte>)
    requires |b| == 24
    ensures var r := ReadLlmParams(b);
            && r.maxHoldTicks == Val(b[0x00..0x04]) && r.decisionCooldownSecs == Val(b[0x04..0x08])
            && r.maxLeverage == Val(b[0x08..0x0a]) && r.minStopBps == Val(b[0x0a..0x0c])
            && r.maxStopBps == Val(b[0x0c..0x0e]) && r.maxStakeFracBps == Val(b[0x0e..0x10])
            && r.maxTradesPerDay == Val(b[0x10..0x12]) && r.dailyLossLimitBps == Val(b[0x12..0x14])
            && r.fundingBpsPerHour == Val(b[0x14..0x16]) && r.confidenceFloor == Val(b[0x16..0x17])
            && r.riskSizing == (Val(b[0x17..0x18]) == 1)
  {
  }

  lemma LlmParamsLaid(p: RawLlmParams)
    ensures |EncodeLlmParams(p)| == 24 && Laid(EncodeLlmParams(p), 0, LlmParamsTable(), LlmParamsParts(p))
  {
    hide Le, Concat, Laid;
    ConcatLaid(LlmParamsTable(), 24, LlmParamsParts(p));
  }

  lemma LlmParamsRoundTrip(p: RawLlmParams)
    ensures |EncodeLlmParams(p)| == 24 && ReadLlmParams(EncodeLlmParams(p)) == LlmParamsView(p)
  {
    hide Le, Val, Pow, Concat, U, Laid;
    var t, parts, b := LlmParamsTable(), LlmParamsParts(p), EncodeLlmParams(p);
    Widths();
    LlmParamsLaid(p);
    ReadsBack(b, 0, t, parts, 0, p.maxHoldTicks);
    ReadsBack(b, 0, t, parts, 1, p.decisionCooldownSecs);
    ReadsBack(b, 0, t, parts, 2, p.maxLeverage);
    ReadsBack(b, 0, t, parts, 3, p.minStopBps);
    ReadsBack(b, 0, t, parts, 4, p.maxStopBps);
    ReadsBack(b, 0, t, parts, 5, p.maxStakeFracBps);
    ReadsBack(b, 0, t, parts, 6, p.maxTradesPerDay);
    ReadsBack(b, 0, t, parts, 7, p.dailyLossLimitBps);
    ReadsBack(b, 0, t, parts, 8, p.fundingBpsPerHour);
    ReadsBack(b, 0, t, parts, 9, p.confidenceFloor);
    ReadsBack(b, 0, t, parts, 10, p.riskSizing);
  }

  lemma LlmParamsTiles()
    ensures Tiles(LlmParamsTable(), 24)
  {
  }

  /** Changing the bytes of one field changes only the component read from it. */
  lemma LlmParamsFrame(b: seq<byte>, b': seq<byte>, i: nat)
    requires |b| == 24 && i < |LlmParamsTable()| && AgreeOutside(b, b', LlmParamsTable()[i])
    ensures |b'| == 24
    ensures var r0, r1 := ReadLlmParams(b), ReadLlmParams(b');
            && (i != 0 ==> r1.maxHoldTicks == r0.maxHoldTicks)
            && (i != 1 ==> r1.decisionCooldownSecs == r0.decisionCooldownSecs)
            && (i != 2 ==> r1.maxLeverage == r0.maxLeverage) && (i != 3 ==> r1.minStopBps == r0.minStopBps)
            && (i != 4 ==> r1.maxStopBps == r0.maxStopBps) && (i != 5 ==> r1.maxStakeFracBps == r0.maxStakeFracBps)
            && (i != 6 ==> r1.maxTradesPerDay == r0.maxTradesPerDay)
            && (i != 7 ==> r1.dailyLossLimitBps == r0.dailyLossLimitBps)
            && (i != 8 ==> r1.fundingBpsPerHour == r0.fundingBpsPerHour)
            && (i != 9 ==> r1.confidenceFloor == r0.confidenceFloor) && (i != 10 ==> r1.riskSizing == r0.riskSizing)
  {
    hide Val, Pow, AgreeOutside, Tiles, U;
    var t := LlmParamsTable();
    LengthKept(b, b', t[i]);
    LlmParamsTiles();
    Apart(b, b', t, 24, i, 0);
    Apart(b, b', t, 24, i, 1);
    Apart(b, b', t, 24, i, 2);
    Apart(b, b', t, 24, i, 3);
    Apart(b, b', t, 24, i, 4);
    Apart(b, b', t, 24, i, 5);
    Apart(b, b', t, 24, i, 6);
    Apart(b, b', t, 24, i, 7);
    Apart(b, b', t, 24, i, 8);
    Apart(b, b', t, 24, i, 9);
    Apart(b, b', t, 24, i, 10);
  }
}
