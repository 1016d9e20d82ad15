/** The three arena accounts and their decoders (lib/arena/decode.ts). The encoders lay the fields out in declared
    order; the decoders read at the fixed offsets. An account is 8 bytes of discriminator, then the struct. */
module Accounts {
  import opened Base
  import opened Layout
  import opened Records
  import opened Arrays

  type Pad2 = s: seq<byte> | |s| == 2 witness [0, 0]
  type Bytes16 = s: seq<byte> | |s| == 16 witness seq(16, i => 0)
  type Bytes32 = s: seq<byte> | |s| == 32 witness seq(32, i => 0)

  /** A byte view into a larger pool, as account data usually is. */
  datatype Account = Account(pool: seq<byte>, off: nat, len: nat) {
    predicate Valid() { off + len <= |pool| }

    function Data(): (d: seq<byte>)
      requires Valid()
      ensures |d| == len
    {
      pool[off..off + len]
    }
  }

  /** The name bytes: up to the first zero, or all of them. */
  function Name(id: seq<byte>): (r: seq<byte>)
    ensures r <= id && 0 !in r && (|r| < |id| ==> id[|r|] == 0)
  {
    if |id| == 0 || id[0] == 0 then [] else [id[0]] + Name(id[1..])
  }

  lemma PoolSlice(v: Account, off: nat, w: nat)
    requires v.Valid() && 8 + off + w <= v.len
    ensures v.pool[v.off + 8 + off..v.off + 8 + off + w] == v.Data()[8..][off..off + w]
  {
    var dv := v.Data()[8..];
    forall k | off <= k < off + w ensures v.pool[v.off + 8 + k] == dv[k] {
      assert dv[k] == v.Data()[8 + k];
    }
  }

  lemma PartStands(s: seq<byte>, t: seq<Field>, parts: seq<seq<byte>>, i: nat)
    requires Laid(s, 0, t, parts) && i < |t|
    ensures Stands(s, t[i].off, t[i].width, parts[i])
  {
    assert Stands(s, 0 + t[i].off, t[i].width, parts[i]);
  }

  lemma PositionArraySize(ps: seq<RawPosition>)
    ensures |Concat(MapSeq(ps, EncodePosition))| == |ps| * 48
  {
    hide Concat, EncodePosition;
    PositionInverts();
    ArrayEncoded(ps, 48, EncodePosition);
  }

  lemma PositionInverts()
    ensures Inverts(48, EncodePosition, ReadPosition, PositionView)
  {
    hide EncodePosition, ReadPosition, PositionView;
    forall p ensures |EncodePosition(p)| == 48 && ReadPosition(EncodePosition(p)) == PositionView(p) {
      PositionRoundTrip(p);
    }
  }

  lemma TapeEntryArraySize(ps: seq<RawTapeEntry>)
    ensures |Concat(MapSeq(ps, EncodeTapeEntry))| == |ps| * 32
  {
    hide Concat, EncodeTapeEntry;
    TapeEntryInverts();
    ArrayEncoded(ps, 32, EncodeTapeEntry);
  }

  lemma TapeEntryInverts()
    ensures Inverts(32, EncodeTapeEntry, ReadTapeEntry, TapeEntryView)
  {
    hide EncodeTapeEntry, ReadTapeEntry, TapeEntryView;
    forall p ensures |EncodeTapeEntry(p)| == 32 && ReadTapeEntry(EncodeTapeEntry(p)) == TapeEntryView(p) {
      TapeEntryRoundTrip(p);
    }
  }

  lemma BucketArraySize(ps: seq<RawBucket>)
    ensures |Concat(MapSeq(ps, EncodeBucket))| == |ps| * 56
  {
    hide Concat, EncodeBucket;
    BucketInverts();
    ArrayEncoded(ps, 56, EncodeBucket);
  }

  lemma BucketInverts()
    ensures Inverts(56, EncodeBucket, ReadBucket, BucketView)
  {
    hide EncodeBucket, ReadBucket, BucketView;
    forall p ensures |EncodeBucket(p)| == 56 && ReadBucket(EncodeBucket(p)) == BucketView(p) { BucketRoundTrip(p); }
  }

  lemma LlmPositionArraySize(ps: seq<RawLlmPosition>)
    ensures |Concat(MapSeq(ps, EncodeLlmPosition))| == |ps| * 72
  {
    hide Concat, EncodeLlmPosition;
    LlmPositionInverts();
    ArrayEncoded(ps, 72, EncodeLlmPosition);
  }

  lemma LlmPositionInverts()
    ensures Inverts(72, EncodeLlmPosition, ReadLlmPosition, LlmPositionView)
  {
    hide EncodeLlmPosition, ReadLlmPosition, LlmPositionView;
    forall p ensures |EncodeLlmPosition(p)| == 72 && ReadLlmPosition(EncodeLlmPosition(p)) == LlmPositionView(p) {
      LlmPositionRoundTrip(p);
    }
  }

  // ---------------------------------------------------------------- Bot

  datatype RawBot = RawBot(
    balanceMicro: u64, grossPnlMicro: i64, feesMicro: u64, equityHighMicro: u64, seqNo: u64,
    positions: seq<RawPosition>, tape: seq<RawTapeEntry>, params: RawParams, personaId: Bytes16, trades: u32,
    wins: u32, tapeHead: u16, bump: byte, pad: Pad5)

  datatype Bot = Bot(
    balanceUsd: real, grossPnlUsd: real, feesUsd: real, equityHighUsd: real, seqNo: nat, positions: seq<Position>,
    tape: seq<TapeEntry>, params: Params, personaName: seq<byte>, trades: nat, wins: nat, tapeHead: nat, bump: nat)

  predicate BotSized(a: RawBot) { |a.positions| == 4 && |a.tape| == 64 }

  function BotView(a: RawBot): Bot {
    Bot(
      Usd(a.balanceMicro), Usd(a.grossPnlMicro), Usd(a.feesMicro), Usd(a.equityHighMicro), a.seqNo,
      MapSeq(a.positions, PositionView), MapSeq(a.tape, TapeEntryView), ParamsView(a.params), Name(a.personaId),
      a.trades, a.wins, a.tapeHead, a.bump)
  }

  function BotHead(a: RawBot): seq<seq<byte>> {
    [
      Le(a.balanceMicro, 8), Le(Unsigned(a.grossPnlMicro), 8), Le(a.feesMicro, 8), Le(a.equityHighMicro, 8),
      Le(a.seqNo, 8), Concat(MapSeq(a.positions, EncodePosition)), Concat(MapSeq(a.tape, EncodeTapeEntry))
    ]
  }

  function BotTail(a: RawBot): seq<seq<byte>> {
    [
      EncodeParams(a.params), a.personaId, Le(a.trades, 4), Le(a.wins, 4), Le(a.tapeHead, 2), Le(a.bump, 1), a.pad
    ]
  }

  function BotParts(a: RawBot): seq<seq<byte>> { BotHead(a) + BotTail(a) }

  function EncodeBot(a: RawBot): seq<byte> { Concat(BotParts(a)) }

  function BotHeadTable(): seq<Field> {
    [
      Field(0x00, 8), Field(0x08, 8), Field(0x10, 8), Field(0x18, 8), Field(0x20, 8), Field(0x28, 4 * 48),
      Field(0xe8, 64 * 32)
    ]
  }

  function BotTailTable(): seq<Field> {
    [
      Field(0x8e8, 16), Field(0x8f8, 16), Field(0x908, 4), Field(0x90c, 4), Field(0x910, 2), Field(0x912, 1),
      Field(0x913, 5)
    ]
  }

  function BotTable(): seq<Field> { BotHeadTable() + BotTailTable() }

  /** The decoder's result, every component at the offset the source gives. */
  function BotAt(s: seq<byte>): Bot
    requires |s| >= 2328
  {
    Bot(
      Usd(U(s, 0x00, 8)), Usd(I(s, 0x08)), Usd(U(s, 0x10, 8)), Usd(U(s, 0x18, 8)), U(s, 0x20, 8),
      ReadArray(s, 0x28, 4, 48, ReadPosition), ReadArray(s, 0xe8, 64, 32, ReadTapeEntry),
      ReadParams(s[0x8e8..0x8e8 + 16]), Name(s[0x8f8..0x8f8 + 16]), U(s, 0x908, 4), U(s, 0x90c, 4), U(s, 0x910, 2),
      U(s, 0x912, 1))
  }

  /** Which bytes of the struct hold which component, and in which unit. */
  lemma BotFields(s: seq<byte>)
    requires |s| >= 2328
    ensures var r := BotAt(s);
            && r.balanceUsd * 1_000_000.0 == Val(s[0x00..0x08]) as real
            && r.grossPnlUsd * 1_000_000.0 == I(s, 0x08) as real
            && r.feesUsd * 1_000_000.0 == Val(s[0x10..0x18]) as real
            && r.equityHighUsd * 1_000_000.0 == Val(s[0x18..0x20]) as real && r.seqNo == Val(s[0x20..0x28])
            && |r.positions| == 4
            && (forall i :: 0 <= i < 4 ==>
                  r.positions[i] == ReadPosition(s[0x28 + 48 * i..0x28 + 48 * i + 48]))
            && |r.tape| == 64
            && (forall i :: 0 <= i < 64 ==>
                  r.tape[i] == ReadTapeEntry(s[0xe8 + 32 * i..0xe8 + 32 * i + 32]))
            && r.params == ReadParams(s[0x8e8..0x8f8]) && r.personaName == Name(s[0x8f8..0x908])
            && r.trades == Val(s[0x908..0x90c]) && r.wins == Val(s[0x90c..0x910])
            && r.tapeHead == Val(s[0x910..0x912]) && r.bump == Val(s[0x912..0x913])
  {
    hide Val, Name, ReadParams, ReadPosition, ReadTapeEntry;
  }

  lemma BotTiles()
    ensures Tiles(BotTable(), 2328)
  {
  }

  lemma BotHeadFits(a: RawBot)
    requires BotSized(a)
    ensures Fits(BotHeadTable(), BotHead(a))
  {
    hide Le, Concat, Laid, MapSeq, EncodePosition, EncodeTapeEntry;
    PositionArraySize(a.positions);
    TapeEntryArraySize(a.tape);
  }

  lemma BotTailFits(a: RawBot)
    requires BotSized(a)
    ensures Fits(BotTailTable(), BotTail(a))
  {
    hide Le, Concat, Laid, MapSeq, EncodeParams;
    ParamsLaid(a.params);
  }

  lemma BotFits(a: RawBot)
    requires BotSized(a)
    ensures Fits(BotTable(), BotParts(a))
  {
    hide BotHeadTable, BotTailTable, BotHead, BotTail;
    BotHeadFits(a);
    BotTailFits(a);
  }

  lemma BotLaid(a: RawBot, rest: seq<byte>)
    requires BotSized(a)
    ensures |EncodeBot(a)| == 2328 && Laid(EncodeBot(a) + rest, 0, BotTable(), BotParts(a))
  {
    hide Concat, Laid, Tiles, Fits, BotTable, BotParts;
    BotTiles();
    BotFits(a);
    ConcatLaid(BotTable(), 2328, BotParts(a));
    LaidAt(EncodeBot(a) + rest, 0, BotTable(), 2328, BotParts(a));
  }

  lemma BotScalars(a: RawBot, rest: seq<byte>)
    requires BotSized(a)
    ensures |EncodeBot(a)| == 2328
    ensures var got, want := BotAt(EncodeBot(a) + rest), BotView(a);
            && got.balanceUsd == want.balanceUsd && got.grossPnlUsd == want.grossPnlUsd && got.feesUsd == want.feesUsd
            && got.equityHighUsd == want.equityHighUsd && got.seqNo == want.seqNo && got.trades == want.trades
            && got.wins == want.wins && got.tapeHead == want.tapeHead && got.bump == want.bump
  {
    hide Le, Val, Pow, Concat, U, Laid, Name, EncodeParams, EncodePosition, EncodeTapeEntry, ParamsView,
      PositionView, ReadParams, ReadPosition, ReadTapeEntry, TapeEntryView;
    BotLaid(a, rest);
    var s, t, parts := EncodeBot(a) + rest, BotTable(), BotParts(a);
    Widths();
    ReadsBack(s, 0, t, parts, 0, a.balanceMicro);
    ReadsBackSigned(s, 0, t, parts, 1, a.grossPnlMicro);
    ReadsBack(s, 0, t, parts, 2, a.feesMicro);
    ReadsBack(s, 0, t, parts, 3, a.equityHighMicro);
    ReadsBack(s, 0, t, parts, 4, a.seqNo);
    ReadsBack(s, 0, t, parts, 9, a.trades);
    ReadsBack(s, 0, t, parts, 10, a.wins);
    ReadsBack(s, 0, t, parts, 11, a.tapeHead);
    ReadsBack(s, 0, t, parts, 12, a.bump);
  }

  /** Decoding inverts the encoder on every raw account, whatever follows it in the buffer. */
  lemma BotRoundTrip(a: RawBot, rest: seq<byte>)
    requires BotSized(a)
    ensures |EncodeBot(a)| == 2328 && BotAt(EncodeBot(a) + rest) == BotView(a)
  {
    hide Le, Val, Pow, Concat, U, Laid, Name, EncodeParams, EncodePosition, EncodeTapeEntry, ParamsView,
      PositionView, ReadParams, ReadPosition, ReadTapeEntry, TapeEntryView;
    BotScalars(a, rest);
    BotLaid(a, rest);
    var s, t, parts := EncodeBot(a) + rest, BotTable(), BotParts(a);
    PartStands(s, t, parts, 5);
    PositionInverts();
    ArrayReadBack(s, 0x28, a.positions, 48, EncodePosition, ReadPosition, PositionView);
    PartStands(s, t, parts, 6);
    TapeEntryInverts();
    ArrayReadBack(s, 0xe8, a.tape, 32, EncodeTapeEntry, ReadTapeEntry, TapeEntryView);
    PartStands(s, t, parts, 7);
    ParamsRoundTrip(a.params);
    PartStands(s, t, parts, 8);
  }

  lemma BotScalarFrame(s: seq<byte>, s': seq<byte>, i: nat)
    requires |s| == 2328 && i < |BotTable()| && AgreeOutside(s, s', BotTable()[i])
    ensures |s'| == 2328
    ensures var s0, s1 := BotAt(s), BotAt(s');
            && (i != 0 ==> s1.balanceUsd == s0.balanceUsd) && (i != 1 ==> s1.grossPnlUsd == s0.grossPnlUsd)
            && (i != 2 ==> s1.feesUsd == s0.feesUsd) && (i != 3 ==> s1.equityHighUsd == s0.equityHighUsd)
            && (i != 4 ==> s1.seqNo == s0.seqNo) && (i != 9 ==> s1.trades == s0.trades)
            && (i != 10 ==> s1.wins == s0.wins) && (i != 11 ==> s1.tapeHead == s0.tapeHead)
            && (i != 12 ==> s1.bump == s0.bump)
  {
    hide Val, Pow, AgreeOutside, Tiles, Name, U, ReadParams, ReadPosition, ReadTapeEntry, ReadArray;
    var t := BotTable();
    LengthKept(s, s', t[i]);
    BotTiles();
    Apart(s, s', t, 2328, i, 0);
    Apart(s, s', t, 2328, i, 1);
    Apart(s, s', t, 2328, i, 2);
    Apart(s, s', t, 2328, i, 3);
    Apart(s, s', t, 2328, i, 4);
    Apart(s, s', t, 2328, i, 9);
    Apart(s, s', t, 2328, i, 10);
    Apart(s, s', t, 2328, i, 11);
    Apart(s, s', t, 2328, i, 12);
  }

  /** Changing the bytes of one field changes only the component read from it; a pad field changes nothing. */
  lemma BotFrame(s: seq<byte>, s': seq<byte>, i: nat)
    requires |s| == 2328 && i < |BotTable()| && AgreeOutside(s, s', BotTable()[i])
    ensures |s'| == 2328
    ensures var s0, s1 := BotAt(s), BotAt(s');
            && (i != 0 ==> s1.balanceUsd == s0.balanceUsd) && (i != 1 ==> s1.grossPnlUsd == s0.grossPnlUsd)
            && (i != 2 ==> s1.feesUsd == s0.feesUsd) && (i != 3 ==> s1.equityHighUsd == s0.equityHighUsd)
            && (i != 4 ==> s1.seqNo == s0.seqNo) && (i != 5 ==> s1.positions == s0.positions)
            && (i != 6 ==> s1.tape == s0.tape) && (i != 7 ==> s1.params == s0.params)
            && (i != 8 ==> s1.personaName == s0.personaName) && (i != 9 ==> s1.trades == s0.trades)
            && (i != 10 ==> s1.wins == s0.wins) && (i != 11 ==> s1.tapeHead == s0.tapeHead)
            && (i != 12 ==> s1.bump == s0.bump)
  {
    hide Val, Pow, AgreeOutside, Tiles, Name, U, ReadParams, ReadPosition, ReadTapeEntry, ReadArray;
    var t := BotTable();
    LengthKept(s, s', t[i]);
    BotTiles();
    BotScalarFrame(s, s', i);
    Apart(s, s', t, 2328, i, 5);
    Apart(s, s', t, 2328, i, 6);
    Apart(s, s', t, 2328, i, 7);
    Apart(s, s', t, 2328, i, 8);
    if i != 5 { ReadArrayFrame(s, s', 0x28, 4, 48, ReadPosition); }
    if i != 6 { ReadArrayFrame(s, s', 0xe8, 64, 32, ReadTapeEntry); }
  }

  /** decodeBot. */
  method DecodeBot(v: Account) returns (r: Option<Bot>)
    requires v.Valid()
    ensures r.None? <==> v.len < 8 + 2328
    ensures r.Some? ==> r.value == BotAt(v.Data()[8..])
  {
    hide Val, Pow, Name, ReadParams, ReadPosition, ReadTapeEntry;
    if v.len < 8 + 2328 { return None; }
    var dv := v.Data()[8..];
    var positions: seq<Position> := [];
    for i := 0 to 4
      invariant positions == ReadArray(dv, 0x28, i, 48, ReadPosition)
    {
      positions := positions + [ReadPosition(dv[0x28 + i * 48..0x28 + i * 48 + 48])];
    }
    var tape: seq<TapeEntry> := [];
    for i := 0 to 64
      invariant tape == ReadArray(dv, 0xe8, i, 32, ReadTapeEntry)
    {
      tape := tape + [ReadTapeEntry(dv[0xe8 + i * 32..0xe8 + i * 32 + 32])];
    }
    PoolSlice(v, 0x8f8, 16);
    r := Some(Bot(
      Usd(U(dv, 0x00, 8)), Usd(I(dv, 0x08)), Usd(U(dv, 0x10, 8)), Usd(U(dv, 0x18, 8)), U(dv, 0x20, 8), positions,
      tape, ReadParams(dv[0x8e8..0x8e8 + 16]), Name(v.pool[v.off + 8 + 0x8f8..v.off + 8 + 0x8f8 + 16]),
      U(dv, 0x908, 4), U(dv, 0x90c, 4), U(dv, 0x910, 2), U(dv, 0x912, 1)));
  }

  // ---------------------------------------------------------------- LlmBot

  datatype RawLlmBot = RawLlmBot(
    operator: Bytes32, balanceMicro: u64, grossPnlMicro: i64, feesMicro: u64, fundingPaidMicro: u64,
    equityHighMicro: u64, dayStartEquityMicro: u64, seqNo: u64, dayStartTs: i64, lastDecisionTs: i64,
    positions: seq<RawLlmPosition>, tape: seq<RawTapeEntry>, params: RawLlmParams, personaId: Bytes16, trades: u32,
    wins: u32, tradesToday: u16, tapeHead: u16, halted: byte, bump: byte, pad: Pad2)

  datatype LlmBot = LlmBot(
    balanceUsd: real, grossPnlUsd: real, feesUsd: real, fundingPaidUsd: real, equityHighUsd: real,
    dayStartEquityUsd: real, seqNo: nat, dayStartTsMs: int, lastDecisionTsMs: int, positions: seq<LlmPosition>,
    tape: seq<TapeEntry>, params: LlmParams, personaName: seq<byte>, trades: nat, wins: nat, tradesToday: nat,
    halted: bool, tapeHead: nat, bump: nat)

  predicate LlmBotSized(a: RawLlmBot) { |a.positions| == 4 && |a.tape| == 64 }

  function LlmBotView(a: RawLlmBot): LlmBot {
    LlmBot(
      Usd(a.balanceMicro), Usd(a.grossPnlMicro), Usd(a.feesMicro), Usd(a.fundingPaidMicro), Usd(a.equityHighMicro),
      Usd(a.dayStartEquityMicro), a.seqNo, 1000 * a.dayStartTs, 1000 * a.lastDecisionTs,
      MapSeq(a.positions, LlmPositionView), MapSeq(a.tape, TapeEntryView), LlmParamsView(a.params), Name(a.personaId),
      a.trades, a.wins, a.tradesToday, a.halted == 1, a.tapeHead, a.bump)
  }

  function LlmBotHead(a: RawLlmBot): seq<seq<byte>> {
    [
      a.operator, Le(a.balanceMicro, 8), Le(Unsigned(a.grossPnlMicro), 8), Le(a.feesMicro, 8),
      Le(a.fundingPaidMicro, 8), Le(a.equityHighMicro, 8), Le(a.dayStartEquityMicro, 8), Le(a.seqNo, 8),
      Le(Unsigned(a.dayStartTs), 8), Le(Unsigned(a.lastDecisionTs), 8), Concat(MapSeq(a.positions, EncodeLlmPosition))
    ]
  }

  function LlmBotTail(a: RawLlmBot): seq<seq<byte>> {
    [
      Concat(MapSeq(a.tape, EncodeTapeEntry)), EncodeLlmParams(a.params), a.personaId, Le(a.trades, 4), Le(a.wins, 4),
      Le(a.tradesToday, 2), Le(a.tapeHead, 2), Le(a.halted, 1), Le(a.bump, 1), a.pad
    ]
  }

  function LlmBotParts(a: RawLlmBot): seq<seq<byte>> { LlmBotHead(a) + LlmBotTail(a) }

  function EncodeLlmBot(a: RawLlmBot): seq<byte> { Concat(LlmBotParts(a)) }

  function LlmBotHeadTable(): seq<Field> {
    [
      Field(0x00, 32), Field(0x20, 8), Field(0x28, 8), Field(0x30, 8), Field(0x38, 8), Field(0x40, 8), Field(0x48, 8),
      Field(0x50, 8), Field(0x58, 8), Field(0x60, 8), Field(0x68, 4 * 72)
    ]
  }

  function LlmBotTailTable(): seq<Field> {
    [
      Field(0x188, 64 * 32), Field(0x988, 24), Field(0x9a0, 16), Field(0x9b0, 4), Field(0x9b4, 4), Field(0x9b8, 2),
      Field(0x9ba, 2), Field(0x9bc, 1), Field(0x9bd, 1), Field(0x9be, 2)
    ]
  }

  function LlmBotTable(): seq<Field> { LlmBotHeadTable() + LlmBotTailTable() }

  /** The decoder's result, every component at the offset the source gives. */
  function LlmBotAt(s: seq<byte>): LlmBot
    requires |s| >= 2496
  {
    LlmBot(
      Usd(U(s, 0x20, 8)), Usd(I(s, 0x28)), Usd(U(s, 0x30, 8)), Usd(U(s, 0x38, 8)), Usd(U(s, 0x40, 8)),
      Usd(U(s, 0x48, 8)), U(s, 0x50, 8), 1000 * I(s, 0x58), 1000 * I(s, 0x60),
      ReadArray(s, 0x68, 4, 72, ReadLlmPosition), ReadArray(s, 0x188, 64, 32, ReadTapeEntry),
      ReadLlmParams(s[0x988..0x988 + 24]), Name(s[0x9a0..0x9a0 + 16]), U(s, 0x9b0, 4), U(s, 0x9b4, 4), U(s, 0x9b8, 2),
      U(s, 0x9bc, 1) == 1, U(s, 0x9ba, 2), U(s, 0x9bd, 1))
  }

  /** Which bytes of the struct hold which component, and in which unit. */
  lemma LlmBotFields(s: seq<byte>)
    requires |s| >= 2496
    ensures var r := LlmBotAt(s);
            && r.balanceUsd * 1_000_000.0 == Val(s[0x20..0x28]) as real
            && r.grossPnlUsd * 1_000_000.0 == I(s, 0x28) as real
            && r.feesUsd * 1_000_000.0 == Val(s[0x30..0x38]) as real
            && r.fundingPaidUsd * 1_000_000.0 == Val(s[0x38..0x40]) as real
            && r.equityHighUsd * 1_000_000.0 == Val(s[0x40..0x48]) as real
            && r.dayStartEquityUsd * 1_000_000.0 == Val(s[0x48..0x50]) as real && r.seqNo == Val(s[0x50..0x58])
            && r.dayStartTsMs == 1000 * I(s, 0x58) && r.lastDecisionTsMs == 1000 * I(s, 0x60)
            && |r.positions| == 4
            && (forall i :: 0 <= i < 4 ==>
                  r.positions[i] == ReadLlmPosition(s[0x68 + 72 * i..0x68 + 72 * i + 72]))
            && |r.tape| == 64
            && (forall i :: 0 <= i < 64 ==>
                  r.tape[i] == ReadTapeEntry(s[0x188 + 32 * i..0x188 + 32 * i + 32]))
            && r.params == ReadLlmParams(s[0x988..0x9a0]) && r.personaName == Name(s[0x9a0..0x9b0])
            && r.trades == Val(s[0x9b0..0x9b4]) && r.wins == Val(s[0x9b4..0x9b8])
            && r.tradesToday == Val(s[0x9b8..0x9ba]) && r.halted == (Val(s[0x9bc..0x9bd]) == 1)
            && r.tapeHead == Val(s[0x9ba..0x9bc]) && r.bump == Val(s[0x9bd..0x9be])
  {
    hide Val, Name, ReadLlmParams, ReadLlmPosition, ReadTapeEntry;
  }

  lemma LlmBotTiles()
    ensures Tiles(LlmBotTable(), 2496)
  {
  }

  lemma LlmBotHeadFits(a: RawLlmBot)
    requires LlmBotSized(a)
    ensures Fits(LlmBotHeadTable(), LlmBotHead(a))
  {
    hide Le, Concat, Laid, MapSeq, EncodeLlmPosition;
    LlmPositionArraySize(a.positions);
  }

  lemma LlmBotTailFits(a: RawLlmBot)
    requires LlmBotSized(a)
    ensures Fits(LlmBotTailTable(), LlmBotTail(a))
  {
    hide Le, Concat, Laid, MapSeq, EncodeLlmParams, EncodeTapeEntry;
    TapeEntryArraySize(a.tape);
    LlmParamsLaid(a.params);
  }

  lemma LlmBotFits(a: RawLlmBot)
    requires LlmBotSized(a)
    ensures Fits(LlmBotTable(), LlmBotParts(a))
  {
    hide LlmBotHeadTable, LlmBotTailTable, LlmBotHead, LlmBotTail;
    LlmBotHeadFits(a);
    LlmBotTailFits(a);
  }

  lemma LlmBotLaid(a: RawLlmBot, rest: seq<byte>)
    requires LlmBotSized(a)
    ensures |EncodeLlmBot(a)| == 2496 && Laid(EncodeLlmBot(a) + rest, 0, LlmBotTable(), LlmBotParts(a))
  {
    hide Concat, Laid, Tiles, Fits, LlmBotTable, LlmBotParts;
    LlmBotTiles();
    LlmBotFits(a);
    ConcatLaid(LlmBotTable(), 2496, LlmBotParts(a));
    LaidAt(EncodeLlmBot(a) + rest, 0, LlmBotTable(), 2496, LlmBotParts(a));
  }

  lemma LlmBotScalars(a: RawLlmBot, rest: seq<byte>)
    requires LlmBotSized(a)
    ensures |EncodeLlmBot(a)| == 2496
    ensures var got, want := LlmBotAt(EncodeLlmBot(a) + rest), LlmBotView(a);
            && got.balanceUsd == want.balanceUsd && got.grossPnlUsd == want.grossPnlUsd && got.feesUsd == want.feesUsd
            && got.fundingPaidUsd == want.fundingPaidUsd && got.equityHighUsd == want.equityHighUsd
            && got.dayStartEquityUsd == want.dayStartEquityUsd && got.seqNo == want.seqNo
            && got.dayStartTsMs == want.dayStartTsMs && got.lastDecisionTsMs == want.lastDecisionTsMs
            && got.trades == want.trades && got.wins == want.wins && got.tradesToday == want.tradesToday
            && got.halted == want.halted && got.tapeHead == want.tapeHead && got.bump == want.bump
  {
    hide Le, Val, Pow, Concat, U, Laid, Name, EncodeLlmParams, EncodeLlmPosition, EncodeTapeEntry, LlmParamsView,
      LlmPositionView, ReadLlmParams, ReadLlmPosition, ReadTapeEntry, TapeEntryView;
    LlmBotLaid(a, rest);
    var s, t, parts := EncodeLlmBot(a) + rest, LlmBotTable(), LlmBotParts(a);
    Widths();
    ReadsBack(s, 0, t, parts, 1, a.balanceMicro);
    ReadsBackSigned(s, 0, t, parts, 2, a.grossPnlMicro);
    ReadsBack(s, 0, t, parts, 3, a.feesMicro);
    ReadsBack(s, 0, t, parts, 4, a.fundingPaidMicro);
    ReadsBack(s, 0, t, parts, 5, a.equityHighMicro);
    ReadsBack(s, 0, t, parts, 6, a.dayStartEquityMicro);
    ReadsBack(s, 0, t, parts, 7, a.seqNo);
    ReadsBackSigned(s, 0, t, parts, 8, a.dayStartTs);
    ReadsBackSigned(s, 0, t, parts, 9, a.lastDecisionTs);
    ReadsBack(s, 0, t, parts, 14, a.trades);
    ReadsBack(s, 0, t, parts, 15, a.wins);
    ReadsBack(s, 0, t, parts, 16, a.tradesToday);
    ReadsBack(s, 0, t, parts, 17, a.tapeHead);
    ReadsBack(s, 0, t, parts, 18, a.halted);
    ReadsBack(s, 0, t, parts, 19, a.bump);
  }

  /** Decoding inverts the encoder on every raw account, whatever follows it in the buffer. */
  lemma LlmBotRoundTrip(a: RawLlmBot, rest: seq<byte>)
    requires LlmBotSized(a)
    ensures |EncodeLlmBot(a)| == 2496 && LlmBotAt(EncodeLlmBot(a) + rest) == LlmBotView(a)
  {
    hide Le, Val, Pow, Concat, U, Laid, Name, EncodeLlmParams, EncodeLlmPosition, EncodeTapeEntry, LlmParamsView,
      LlmPositionView, ReadLlmParams, ReadLlmPosition, ReadTapeEntry, TapeEntryView;
    LlmBotScalars(a, rest);
    LlmBotLaid(a, rest);
    var s, t, parts := EncodeLlmBot(a) + rest, LlmBotTable(), LlmBotParts(a);
    PartStands(s, t, parts, 10);
    LlmPositionInverts();
    ArrayReadBack(s, 0x68, a.positions, 72, EncodeLlmPosition, ReadLlmPosition, LlmPositionView);
    PartStands(s, t, parts, 11);
    TapeEntryInverts();
    ArrayReadBack(s, 0x188, a.tape, 32, EncodeTapeEntry, ReadTapeEntry, TapeEntryView);
    PartStands(s, t, parts, 12);
    LlmParamsRoundTrip(a.params);
    PartStands(s, t, parts, 13);
  }

  lemma LlmBotEarlyFrame(s: seq<byte>, s': seq<byte>, i: nat)
    requires |s| == 2496 && i < |LlmBotTable()| && AgreeOutside(s, s', LlmBotTable()[i])
    ensures |s'| == 2496
    ensures var s0, s1 := LlmBotAt(s), LlmBotAt(s');
            && (i != 1 ==> s1.balanceUsd == s0.balanceUsd) && (i != 2 ==> s1.grossPnlUsd == s0.grossPnlUsd)
            && (i != 3 ==> s1.feesUsd == s0.feesUsd) && (i != 4 ==> s1.fundingPaidUsd == s0.fundingPaidUsd)
            && (i != 5 ==> s1.equityHighUsd == s0.equityHighUsd)
            && (i != 6 ==> s1.dayStartEquityUsd == s0.dayStartEquityUsd) && (i != 7 ==> s1.seqNo == s0.seqNo)
  {
    hide Val, Pow, AgreeOutside, Tiles, Name, U, ReadLlmParams, ReadLlmPosition, ReadTapeEntry, ReadArray;
    var t := LlmBotTable();
    LengthKept(s, s', t[i]);
    LlmBotTiles();
    Apart(s, s', t, 2496, i, 1);
    Apart(s, s', t, 2496, i, 2);
    Apart(s, s', t, 2496, i, 3);
    Apart(s, s', t, 2496, i, 4);
    Apart(s, s', t, 2496, i, 5);
    Apart(s, s', t, 2496, i, 6);
    Apart(s, s', t, 2496, i, 7);
  }

  lemma LlmBotLateFrame(s: seq<byte>, s': seq<byte>, i: nat)
    requires |s| == 2496 && i < |LlmBotTable()| && AgreeOutside(s, s', LlmBotTable()[i])
    ensures |s'| == 2496
    ensures var s0, s1 := LlmBotAt(s), LlmBotAt(s');
            && (i != 8 ==> s1.dayStartTsMs == s0.dayStartTsMs)
            && (i != 9 ==> s1.lastDecisionTsMs == s0.lastDecisionTsMs) && (i != 14 ==> s1.trades == s0.trades)
            && (i != 15 ==> s1.wins == s0.wins) && (i != 16 ==> s1.tradesToday == s0.tradesToday)
            && (i != 18 ==> s1.halted == s0.halted) && (i != 17 ==> s1.tapeHead == s0.tapeHead)
            && (i != 19 ==> s1.bump == s0.bump)
  {
    hide Val, Pow, AgreeOutside, Tiles, Name, U, ReadLlmParams, ReadLlmPosition, ReadTapeEntry, ReadArray;
    var t := LlmBotTable();
    LengthKept(s, s', t[i]);
    LlmBotTiles();
    Apart(s, s', t, 2496, i, 8);
    Apart(s, s', t, 2496, i, 9);
    Apart(s, s', t, 2496, i, 14);
    Apart(s, s', t, 2496, i, 15);
    Apart(s, s', t, 2496, i, 16);
    Apart(s, s', t, 2496, i, 18);
    Apart(s, s', t, 2496, i, 17);
    Apart(s, s', t, 2496, i, 19);
  }

  /** Changing the bytes of one field changes only the component read from it; a pad field changes nothing. */
  lemma LlmBotFrame(s: seq<byte>, s': seq<byte>, i: nat)
    requires |s| == 2496 && i < |LlmBotTable()| && AgreeOutside(s, s', LlmBotTable()[i])
    ensures |s'| == 2496
    ensures var s0, s1 := LlmBotAt(s), LlmBotAt(s');
            && (i != 1 ==> s1.balanceUsd == s0.balanceUsd) && (i != 2 ==> s1.grossPnlUsd == s0.grossPnlUsd)
            && (i != 3 ==> s1.feesUsd == s0.feesUsd) && (i != 4 ==> s1.fundingPaidUsd == s0.fundingPaidUsd)
            && (i != 5 ==> s1.equityHighUsd == s0.equityHighUsd)
            && (i != 6 ==> s1.dayStartEquityUsd == s0.dayStartEquityUsd) && (i != 7 ==> s1.seqNo == s0.seqNo)
            && (i != 8 ==> s1.dayStartTsMs == s0.dayStartTsMs)
            && (i != 9 ==> s1.lastDecisionTsMs == s0.lastDecisionTsMs) && (i != 10 ==> s1.positions == s0.positions)
            && (i != 11 ==> s1.tape == s0.tape) && (i != 12 ==> s1.params == s0.params)
            && (i != 13 ==> s1.personaName == s0.personaName) && (i != 14 ==> s1.trades == s0.trades)
            && (i != 15 ==> s1.wins == s0.wins) && (i != 16 ==> s1.tradesToday == s0.tradesToday)
            && (i != 18 ==> s1.halted == s0.halted) && (i != 17 ==> s1.tapeHead == s0.tapeHead)
            && (i != 19 ==> s1.bump == s0.bump)
  {
    hide Val, Pow, AgreeOutside, Tiles, Name, U, ReadLlmParams, ReadLlmPosition, ReadTapeEntry, ReadArray;
    var t := LlmBotTable();
    LengthKept(s, s', t[i]);
    LlmBotTiles();
    LlmBotEarlyFrame(s, s', i);
    LlmBotLateFrame(s, s', i);
    Apart(s, s', t, 2496, i, 10);
    Apart(s, s', t, 2496, i, 11);
    Apart(s, s', t, 2496, i, 12);
    Apart(s, s', t, 2496, i, 13);
    if i != 10 { ReadArrayFrame(s, s', 0x68, 4, 72, ReadLlmPosition); }
    if i != 11 { ReadArrayFrame(s, s', 0x188, 64, 32, ReadTapeEntry); }
  }

  /** decodeLlmBot. */
  method DecodeLlmBot(v: Account) returns (r: Option<LlmBot>)
    requires v.Valid()
    ensures r.None? <==> v.len < 8 + 2496
    ensures r.Some? ==> r.value == LlmBotAt(v.Data()[8..])
  {
    hide Val, Pow, Name, ReadLlmParams, ReadLlmPosition, ReadTapeEntry;
    if v.len < 8 + 2496 { return None; }
    var dv := v.Data()[8..];
    var positions: seq<LlmPosition> := [];
    for i := 0 to 4
      invariant positions == ReadArray(dv, 0x68, i, 72, ReadLlmPosition)
    {
      positions := positions + [ReadLlmPosition(dv[0x68 + i * 72..0x68 + i * 72 + 72])];
    }
    var tape: seq<TapeEntry> := [];
    for i := 0 to 64
      invariant tape == ReadArray(dv, 0x188, i, 32, ReadTapeEntry)
    {
      tape := tape + [ReadTapeEntry(dv[0x188 + i * 32..0x188 + i * 32 + 32])];
    }
    PoolSlice(v, 0x9a0, 16);
    r := Some(LlmBot(
      Usd(U(dv, 0x20, 8)), Usd(I(dv, 0x28)), Usd(U(dv, 0x30, 8)), Usd(U(dv, 0x38, 8)), Usd(U(dv, 0x40, 8)),
      Usd(U(dv, 0x48, 8)), U(dv, 0x50, 8), 1000 * I(dv, 0x58), 1000 * I(dv, 0x60), positions, tape,
      ReadLlmParams(dv[0x988..0x988 + 24]), Name(v.pool[v.off + 8 + 0x9a0..v.off + 8 + 0x9a0 + 16]), U(dv, 0x9b0, 4),
      U(dv, 0x9b4, 4), U(dv, 0x9b8, 2), U(dv, 0x9bc, 1) == 1, U(dv, 0x9ba, 2), U(dv, 0x9bd, 1)));
  }

  // ---------------------------------------------------------------- MarketState

  datatype RawMarketState = RawMarketState(
    lastPrice: u64, lastPublishTs: i64, ring: seq<RawBucket>, head: u16, marketId: byte, bump: byte, pad: Pad4)

  datatype MarketState = MarketState(
    lastPrice: real, lastPublishTsMs: int, head: nat, marketId: nat, bump: nat, ring: seq<Bucket>, headBucket: Bucket)

  predicate MarketStateSized(a: RawMarketState) { |a.ring| == 64 }

  function MarketStateView(a: RawMarketState): MarketState
    requires MarketStateSized(a)
  {
    MarketState(
      Price(a.lastPrice), 1000 * a.lastPublishTs, a.head, a.marketId, a.bump, MapSeq(a.ring, BucketView),
      BucketView(a.ring[a.head % 64]))
  }

  function MarketStateParts(a: RawMarketState): seq<seq<byte>> {
    [
      Le(a.lastPrice, 8), Le(Unsigned(a.lastPublishTs), 8), Concat(MapSeq(a.ring, EncodeBucket)), Le(a.head, 2),
      Le(a.marketId, 1), Le(a.bump, 1), a.pad
    ]
  }

  function EncodeMarketState(a: RawMarketState): seq<byte> { Concat(MarketStateParts(a)) }

  function MarketStateTable(): seq<Field> {
    [
      Field(0x00, 8), Field(0x08, 8), Field(0x10, 64 * 56), Field(0xe10, 2), Field(0xe12, 1), Field(0xe13, 1),
      Field(0xe14, 4)
    ]
  }

  /** The decoder's result, every component at the offset the source gives. */
  function MarketStateAt(s: seq<byte>): MarketState
    requires |s| >= 3608
  {
    MarketState(
      Price(U(s, 0x00, 8)), 1000 * I(s, 0x08), U(s, 0xe10, 2), U(s, 0xe12, 1), U(s, 0xe13, 1),
      ReadArray(s, 0x10, 64, 56, ReadBucket), ReadArray(s, 0x10, 64, 56, ReadBucket)[U(s, 0xe10, 2) % 64])
  }

  /** Which bytes of the struct hold which component, and in which unit. */
  lemma MarketStateFields(s: seq<byte>)
    requires |s| >= 3608
    ensures var r := MarketStateAt(s);
            && r.lastPrice * 1_0000_0000.0 == Val(s[0x00..0x08]) as real && r.lastPublishTsMs == 1000 * I(s, 0x08)
            && r.head == Val(s[0xe10..0xe12]) && r.marketId == Val(s[0xe12..0xe13]) && r.bump == Val(s[0xe13..0xe14])
            && |r.ring| == 64
            && (forall i :: 0 <= i < 64 ==>
                  r.ring[i] == ReadBucket(s[0x10 + 56 * i..0x10 + 56 * i + 56]))
            && r.headBucket == r.ring[r.head % 64]
  {
    hide Val, ReadBucket;
  }

  lemma MarketStateTiles()
    ensures Tiles(MarketStateTable(), 3608)
  {
  }

  lemma MarketStateFits(a: RawMarketState)
    requires MarketStateSized(a)
    ensures Fits(MarketStateTable(), MarketStateParts(a))
  {
    hide Le, Concat, Laid, MapSeq, EncodeBucket;
    BucketArraySize(a.ring);
  }

  lemma MarketStateLaid(a: RawMarketState, rest: seq<byte>)
    requires MarketStateSized(a)
    ensures |EncodeMarketState(a)| == 3608
    ensures Laid(EncodeMarketState(a) + rest, 0, MarketStateTable(), MarketStateParts(a))
  {
    hide Concat, Laid, Tiles, Fits, MarketStateTable, MarketStateParts;
    MarketStateTiles();
    MarketStateFits(a);
    ConcatLaid(MarketStateTable(), 3608, MarketStateParts(a));
    LaidAt(EncodeMarketState(a) + rest, 0, MarketStateTable(), 3608, MarketStateParts(a));
  }

  lemma MarketStateScalars(a: RawMarketState, rest: seq<byte>)
    requires MarketStateSized(a)
    ensures |EncodeMarketState(a)| == 3608
    ensures var got, want := MarketStateAt(EncodeMarketState(a) + rest), MarketStateView(a);
            && got.lastPrice == want.lastPrice && got.lastPublishTsMs == want.lastPublishTsMs && got.head == want.head
            && got.marketId == want.marketId && got.bump == want.bump
  {
    hide Le, Val, Pow, Concat, U, Laid, Name, BucketView, EncodeBucket, ReadBucket;
    MarketStateLaid(a, rest);
    var s, t, parts := EncodeMarketState(a) + rest, MarketStateTable(), MarketStateParts(a);
    Widths();
    ReadsBack(s, 0, t, parts, 0, a.lastPrice);
    ReadsBackSigned(s, 0, t, parts, 1, a.lastPublishTs);
    ReadsBack(s, 0, t, parts, 3, a.head);
    ReadsBack(s, 0, t, parts, 4, a.marketId);
    ReadsBack(s, 0, t, parts, 5, a.bump);
  }

  /** Decoding inverts the encoder on every raw account, whatever follows it in the buffer. */
  lemma MarketStateRoundTrip(a: RawMarketState, rest: seq<byte>)
    requires MarketStateSized(a)
    ensures |EncodeMarketState(a)| == 3608 && MarketStateAt(EncodeMarketState(a) + rest) == MarketStateView(a)
  {
    hide Le, Val, Pow, Concat, U, Laid, Name, BucketView, EncodeBucket, ReadBucket;
    MarketStateScalars(a, rest);
    MarketStateLaid(a, rest);
    var s, t, parts := EncodeMarketState(a) + rest, MarketStateTable(), MarketStateParts(a);
    PartStands(s, t, parts, 2);
    BucketInverts();
    ArrayReadBack(s, 0x10, a.ring, 56, EncodeBucket, ReadBucket, BucketView);
  }

  /** Changing the bytes of one field changes only the component read from it; a pad field changes nothing. */
  lemma MarketStateFrame(s: seq<byte>, s': seq<byte>, i: nat)
    requires |s| == 3608 && i < |MarketStateTable()| && AgreeOutside(s, s', MarketStateTable()[i])
    ensures |s'| == 3608
    ensures var s0, s1 := MarketStateAt(s), MarketStateAt(s');
            && (i != 0 ==> s1.lastPrice == s0.lastPrice) && (i != 1 ==> s1.lastPublishTsMs == s0.lastPublishTsMs)
            && (i != 3 ==> s1.head == s0.head) && (i != 4 ==> s1.marketId == s0.marketId)
            && (i != 5 ==> s1.bump == s0.bump) && (i != 2 ==> s1.ring == s0.ring)
            && (i !in {2, 3} ==> s1.headBucket == s0.headBucket)
  {
    hide Val, Pow, AgreeOutside, Tiles, Name, U, ReadBucket, ReadArray;
    var t := MarketStateTable();
    LengthKept(s, s', t[i]);
    MarketStateTiles();
    Apart(s, s', t, 3608, i, 0);
    Apart(s, s', t, 3608, i, 1);
    Apart(s, s', t, 3608, i, 2);
    Apart(s, s', t, 3608, i, 3);
    Apart(s, s', t, 3608, i, 4);
    Apart(s, s', t, 3608, i, 5);
    if i != 2 { ReadArrayFrame(s, s', 0x10, 64, 56, ReadBucket); }
  }

  /** decodeMarketState. */
  method DecodeMarketState(v: Account) returns (r: Option<MarketState>)
    requires v.Valid()
    ensures r.None? <==> v.len < 8 + 3608
    ensures r.Some? ==> r.value == MarketStateAt(v.Data()[8..])
  {
    hide Val, Pow, Name, ReadBucket;
    if v.len < 8 + 3608 { return None; }
    var dv := v.Data()[8..];
    var ring: seq<Bucket> := [];
    for i := 0 to 64
      invariant ring == ReadArray(dv, 0x10, i, 56, ReadBucket)
    {
      ring := ring + [ReadBucket(dv[0x10 + i * 56..0x10 + i * 56 + 56])];
    }
    var head := U(dv, 0xe10, 2);
    r := Some(MarketState(
      Price(U(dv, 0x00, 8)), 1000 * I(dv, 0x08), head, U(dv, 0xe12, 1), U(dv, 0xe13, 1), ring, ring[head % 64]));
  }
}
