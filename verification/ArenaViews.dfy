/** From account bytes to what the arena page shows: decoding and ring reading together (lib/arena/decode.ts). */
module ArenaViews {
  import opened Layout
  import opened Records
  import opened Arrays
  import opened Accounts
  import opened Rings

  lemma HoldsBuckets(slots: seq<RawBucket>, log: seq<RawBucket>, blank: RawBucket)
    requires Holds(slots, log, blank)
    ensures Holds(MapSeq(slots, BucketView), MapSeq(log, BucketView), BucketView(blank))
  {
    hide BucketView;
    var n := |slots|;
    forall i | 0 <= i < |log| && |log| - n <= i ensures MapSeq(slots, BucketView)[i % n] == MapSeq(log, BucketView)[i] {
      assert slots[i % n] == log[i];
    }
  }

  lemma HoldsEntries(slots: seq<RawTapeEntry>, log: seq<RawTapeEntry>, blank: RawTapeEntry)
    requires Holds(slots, log, blank)
    ensures Holds(MapSeq(slots, TapeEntryView), MapSeq(log, TapeEntryView), TapeEntryView(blank))
  {
    hide TapeEntryView;
    var n := |slots|;
    forall i | 0 <= i < |log| && |log| - n <= i
      ensures MapSeq(slots, TapeEntryView)[i % n] == MapSeq(log, TapeEntryView)[i] {
      assert slots[i % n] == log[i];
    }
  }

  /** The market account of a ring that holds a log, decoded from its bytes and read as a chart: the closes of the last
      64 buckets, oldest to newest, and the newest bucket as the head bucket. */
  lemma MarketBytesShowLog(a: RawMarketState, log: seq<RawBucket>, blank: RawBucket, rest: seq<byte>)
    requires MarketStateSized(a) && Holds(a.ring, log, blank)
    requires a.head == if |log| == 0 then 0 else (|log| - 1) % 64
    requires !Shows(BucketView(blank)) && forall b <- log :: Shows(BucketView(b))
    ensures |EncodeMarketState(a)| == 3608
    ensures var m := MarketStateAt(EncodeMarketState(a) + rest);
            && Closes(Ahead(Market(m.ring, m.head), 64)) == CloseOf(Last(MapSeq(log, BucketView), 64))
            && (|log| > 0 ==> m.headBucket == BucketView(log[|log| - 1]))
  {
    hide BucketView, Shows, MarketStateAt, EncodeMarketState, Closes, Ahead, Last, CloseOf;
    MarketStateRoundTrip(a, rest);
    HoldsBuckets(a.ring, log, blank);
    var views := MapSeq(log, BucketView);
    forall b <- views ensures Shows(b) {
      var i :| 0 <= i < |views| && views[i] == b;
      assert log[i] in log;
    }
    RingShowsLog(Market(MapSeq(a.ring, BucketView), a.head), views, BucketView(blank));
    if |log| > 0 {
      assert a.ring[(|log| - 1) % 64] == log[|log| - 1];
      SmallRest(a.head, 64);
    }
  }

  /** The decision tape of a bot, likewise: the last 64 entries, newest first. */
  lemma BotBytesShowTape(a: RawBot, log: seq<RawTapeEntry>, blank: RawTapeEntry, rest: seq<byte>)
    requires BotSized(a) && Holds(a.tape, log, blank) && a.tapeHead == |log| % 64
    requires blank.ts == 0 && forall e <- log :: e.ts != 0
    ensures |EncodeBot(a)| == 2328
    ensures var b := BotAt(EncodeBot(a) + rest);
            Written(Behind(Tape(b.tape, b.tapeHead), 64)) == Reverse(Last(MapSeq(log, TapeEntryView), 64))
  {
    hide BotAt, EncodeBot, Written, Behind, Last, Reverse;
    BotRoundTrip(a, rest);
    HoldsEntries(a.tape, log, blank);
    var views := MapSeq(log, TapeEntryView);
    forall e <- views ensures e.tsMs != 0 {
      var i :| 0 <= i < |views| && views[i] == e;
      assert log[i] in log;
    }
    TapeShowsLog(Tape(MapSeq(a.tape, TapeEntryView), a.tapeHead), views, TapeEntryView(blank));
  }
}
