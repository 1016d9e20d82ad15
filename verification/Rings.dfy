/** The circular buffers of the arena accounts, as their readers see them (lib/arena/decode.ts and the head-excluding
    variant in components/feed/unified-feed-model.ts), against a plain append log. */
module Rings {
  import opened Records

  // ---------------------------------------------------------------- modular indices

  lemma {:induction false} AddMultiple(x: int, k: int, n: int)
    requires n > 0
    ensures (x + k * n) % n == x % n
    decreases if k < 0 then -k else k
  {
    if k > 0 {
      AddMultiple(x, k - 1, n);
      assert x + k * n == x + (k - 1) * n + n;
      AddOne(x + (k - 1) * n, n);
    } else if k < 0 {
      AddMultiple(x, k + 1, n);
      assert x + (k + 1) * n == x + k * n + n;
      AddOne(x + k * n, n);
    }
  }

  lemma AddOne(x: int, n: int)
    requires n > 0
    ensures (x + n) % n == x % n
  {
    var q, r := x / n, x % n;
    assert x + n == (q + 1) * n + r;
    UniqueRest(x + n, q + 1, r, n);
  }

  lemma MultipleGap(d: int, n: int)
    requires n > 0
    ensures d >= 1 ==> d * n >= n
    ensures d <= -1 ==> d * n <= -n
  {
    if d >= 1 {
      assert (d - 1) * n >= 0;
    } else if d <= -1 {
      assert (-d - 1) * n >= 0;
    }
  }

  /** Quotient and remainder are determined by the equation that defines them. */
  lemma SameQuotient(p: int, r: int, q: int, t: int, n: int)
    requires n > 0 && 0 <= r < n && 0 <= t < n && p * n + r == q * n + t
    ensures p == q && r == t
  {
    assert (p - q) * n == p * n - q * n;
    MultipleGap(p - q, n);
  }

  lemma UniqueRest(x: int, q: int, r: int, n: int)
    requires n > 0 && 0 <= r < n && x == q * n + r
    ensures x % n == r && x / n == q
  {
    SameQuotient(x / n, x % n, q, r, n);
  }

  lemma RestOfRest(a: int, i: int, n: int)
    requires n > 0
    ensures (a % n + i) % n == (a + i) % n
  {
    AddMultiple(a % n + i, a / n, n);
    assert a == a / n * n + a % n;
  }

  lemma SmallRest(x: int, n: int)
    requires 0 <= x < n
    ensures x % n == x
  {
    UniqueRest(x, 0, x, n);
  }

  /** Two positions less than n apart fall into different slots. */
  lemma DistinctSlots(i: int, k: int, n: int)
    requires n > 0 && i < k < i + n
    ensures i % n != k % n
  {
    var d := k / n - i / n;
    assert d * n == k / n * n - i / n * n;
    assert k % n - i % n == k - i - d * n;
    MultipleGap(d, n);
  }

  /** JavaScript's % keeps the sign of the dividend. */
  function JsRem(a: int, n: int): int
    requires n > 0
  {
    if a >= 0 then a % n else -((-a) % n)
  }

  lemma JsWrap(a: int, n: int)
    requires n > 0
    ensures 0 <= JsRem(JsRem(a, n) + n, n) < n
    ensures JsRem(JsRem(a, n) + n, n) == a % n
  {
    if a >= 0 {
      AddOne(a % n, n);
      SmallRest(a % n, n);
    } else {
      var q, r := (-a) / n, (-a) % n;
      assert -a == q * n + r;
      assert -r + n == a + (q + 1) * n;
      AddMultiple(a, q + 1, n);
    }
  }

  // ---------------------------------------------------------------- a ring holds the end of its log

  /** Position i of the log lives in slot i mod n; the slots a short log has not reached are blank. */
  ghost predicate Holds<T>(slots: seq<T>, log: seq<T>, blank: T) {
    && |slots| > 0
    && (forall i :: 0 <= i < |log| && |log| - |slots| <= i ==> slots[i % |slots|] == log[i])
    && (forall j :: |log| <= j < |slots| ==> slots[j] == blank)
  }

  lemma HoldsPush<T>(slots: seq<T>, log: seq<T>, blank: T, x: T)
    requires Holds(slots, log, blank)
    ensures Holds(slots[|log| % |slots| := x], log + [x], blank)
  {
    var n, k := |slots|, |log|;
    forall i | 0 <= i < k && k + 1 - n <= i ensures i % n != k % n {
      DistinctSlots(i, k, n);
    }
    if k < n { SmallRest(k, n); }
  }

  lemma HoldsReplaceLast<T>(slots: seq<T>, log: seq<T>, blank: T, x: T)
    requires Holds(slots, log, blank) && |log| > 0
    ensures Holds(slots[(|log| - 1) % |slots| := x], log[..|log| - 1] + [x], blank)
  {
    var n, k := |slots|, |log| - 1;
    forall i | 0 <= i < k && k + 1 - n <= i ensures i % n != k % n {
      DistinctSlots(i, k, n);
    }
    if k < n { SmallRest(k, n); }
  }

  function Last<T>(log: seq<T>, n: nat): seq<T> { if |log| <= n then log else log[|log| - n..] }

  function Reverse<T>(s: seq<T>): (r: seq<T>)
    ensures |r| == |s| && forall i :: 0 <= i < |s| ==> r[i] == s[|s| - 1 - i]
  {
    seq(|s|, i requires 0 <= i < |s| => s[|s| - 1 - i])
  }

  // ---------------------------------------------------------------- the decision tape

  /** head is the next slot to write. */
  datatype Tape = Tape(slots: seq<TapeEntry>, head: nat)

  function Append(t: Tape, e: TapeEntry): Tape
    requires |t.slots| > 0
  {
    Tape(t.slots[t.head % |t.slots| := e], (t.head % |t.slots| + 1) % |t.slots|)
  }

  function Written(s: seq<TapeEntry>): seq<TapeEntry> {
    if |s| == 0 then [] else Written(s[..|s| - 1]) + (if s[|s| - 1].tsMs != 0 then [s[|s| - 1]] else [])
  }

  /** A slot is shown exactly when it was stamped, and the order of the slots is kept. */
  lemma {:induction false} WrittenExact(a: seq<TapeEntry>, b: seq<TapeEntry>)
    ensures Written(a + b) == Written(a) + Written(b)
    ensures |b| == 1 ==> Written(b) == if b[0].tsMs != 0 then b else []
  {
    if |b| == 0 {
      assert a + b == a;
    } else {
      WrittenExact(a, b[..|b| - 1]);
      assert (a + b)[..|a + b| - 1] == a + b[..|b| - 1];
      if |b| == 1 { assert Written(b[..0]) == []; }
    }
  }

  /** The slots behind head, newest first. */
  function Behind(t: Tape, m: nat): (r: seq<TapeEntry>)
    requires |t.slots| > 0
    ensures |r| == m && forall i :: 0 <= i < m ==> r[i] == t.slots[(t.head - (i + 1)) % |t.slots|]
  {
    seq(m, i requires 0 <= i < m => t.slots[(t.head - (i + 1)) % |t.slots|])
  }

  /** tapeNewestFirst. */
  method TapeNewestFirst(t: Tape) returns (out: seq<TapeEntry>)
    ensures |t.slots| == 0 ==> out == []
    ensures |t.slots| > 0 ==> out == Written(Behind(t, |t.slots|))
  {
    var n := |t.slots|;
    out := [];
    for i := 1 to n + 1
      invariant n > 0 ==> out == Written(Behind(t, i - 1))
      invariant n == 0 ==> out == []
    {
      JsWrap(t.head - i, n);
      var entry := t.slots[JsRem(JsRem(t.head - i, n) + n, n)];
      assert Behind(t, i)[..i - 1] == Behind(t, i - 1) && Behind(t, i)[i - 1] == entry;
      if entry.tsMs != 0 { out := out + [entry]; }
    }
  }

  ghost predicate TapeOf(t: Tape, log: seq<TapeEntry>, blank: TapeEntry) {
    Holds(t.slots, log, blank) && t.head == |log| % |t.slots|
  }

  lemma AppendRefines(t: Tape, log: seq<TapeEntry>, blank: TapeEntry, e: TapeEntry)
    requires TapeOf(t, log, blank)
    ensures TapeOf(Append(t, e), log + [e], blank)
  {
    var n := |t.slots|;
    SmallRest(t.head, n);
    HoldsPush(t.slots, log, blank, e);
    RestOfRest(|log|, 1, n);
  }

  function AppendAll(t: Tape, es: seq<TapeEntry>): (r: Tape)
    requires |t.slots| > 0
    ensures |r.slots| == |t.slots|
  {
    if |es| == 0 then t else Append(AppendAll(t, es[..|es| - 1]), es[|es| - 1])
  }

  lemma {:induction false} AppendAllRefines(t: Tape, blank: TapeEntry, es: seq<TapeEntry>)
    requires TapeOf(t, [], blank)
    ensures TapeOf(AppendAll(t, es), es, blank)
  {
    if |es| == 0 {
      assert es == [];
    } else {
      var init := es[..|es| - 1];
      AppendAllRefines(t, blank, init);
      AppendRefines(AppendAll(t, init), init, blank, es[|es| - 1]);
      assert es == init + [es[|es| - 1]];
    }
  }

  lemma {:induction false} AllWritten(a: seq<TapeEntry>)
    requires forall e <- a :: e.tsMs != 0
    ensures Written(a) == a
  {
    if |a| > 0 {
      var init := a[..|a| - 1];
      assert a[|a| - 1] in a;
      AllWritten(init);
      assert a == init + [a[|a| - 1]];
    }
  }

  lemma {:induction false} WrittenSplits(a: seq<TapeEntry>, b: seq<TapeEntry>)
    requires (forall e <- a :: e.tsMs != 0) && (forall e <- b :: e.tsMs == 0)
    ensures Written(a + b) == a
  {
    if |b| == 0 {
      assert a + b == a;
      AllWritten(a);
    } else {
      var init := b[..|b| - 1];
      assert b[|b| - 1] in b;
      assert (a + b)[..|a + b| - 1] == a + init;
      WrittenSplits(a, init);
    }
  }

  lemma BehindIsReversed(t: Tape, log: seq<TapeEntry>, blank: TapeEntry)
    requires TapeOf(t, log, blank)
    ensures var n := |t.slots|; var recent := Last(log, n);
            Behind(t, n) == Reverse(recent) + seq(n - |recent|, i => blank)
  {
    var n, k := |t.slots|, |log|;
    var recent := Last(log, n);
    forall i | 0 <= i < n ensures Behind(t, n)[i] == (Reverse(recent) + seq(n - |recent|, i => blank))[i] {
      RestOfRest(k, -(i + 1), n);
      assert (t.head - (i + 1)) % n == (k - (i + 1)) % n;
      if i >= k {
        AddOne(k - (i + 1), n);
        SmallRest(k - (i + 1) + n, n);
      }
    }
  }

  lemma TapeShowsLog(t: Tape, log: seq<TapeEntry>, blank: TapeEntry)
    requires TapeOf(t, log, blank) && blank.tsMs == 0 && forall e <- log :: e.tsMs != 0
    ensures Written(Behind(t, |t.slots|)) == Reverse(Last(log, |t.slots|))
  {
    var n := |t.slots|;
    BehindIsReversed(t, log, blank);
    var recent := Last(log, n);
    assert forall e <- Reverse(recent) :: e in log;
    WrittenSplits(Reverse(recent), seq(n - |recent|, i => blank));
  }

  /** Tape refinement: after any number of appends to a blank tape of any length, with nonzero timestamps, the reader
      returns exactly the most recent entries of the append log that fit, newest first. */
  lemma TapeRefinesLog(t: Tape, blank: TapeEntry, log: seq<TapeEntry>)
    requires TapeOf(t, [], blank) && blank.tsMs == 0 && forall e <- log :: e.tsMs != 0
    ensures var end := AppendAll(t, log);
            Written(Behind(end, |end.slots|)) == Reverse(Last(log, |t.slots|))
  {
    AppendAllRefines(t, blank, log);
    TapeShowsLog(AppendAll(t, log), log, blank);
  }

  // ---------------------------------------------------------------- the market ring

  /** head is the bucket in progress, the newest one. */
  datatype Market = Market(ring: seq<Bucket>, head: nat)

  predicate Shows(b: Bucket) { b.startTsMs != 0 && b.close > 0.0 }

  function Closes(s: seq<Bucket>): seq<real> {
    if |s| == 0 then [] else Closes(s[..|s| - 1]) + (if Shows(s[|s| - 1]) then [s[|s| - 1].close] else [])
  }

  /** A bucket's close is shown exactly when the bucket is stamped and the close is positive, in the order given. */
  lemma {:induction false} ClosesExact(a: seq<Bucket>, b: seq<Bucket>)
    ensures Closes(a + b) == Closes(a) + Closes(b)
    ensures |b| == 1 ==> Closes(b) == if b[0].startTsMs != 0 && b[0].close > 0.0 then [b[0].close] else []
  {
    if |b| == 0 {
      assert a + b == a;
    } else {
      ClosesExact(a, b[..|b| - 1]);
      assert (a + b)[..|a + b| - 1] == a + b[..|b| - 1];
      if |b| == 1 { assert Closes(b[..0]) == []; }
    }
  }

  /** The first m buckets after head, wrapping around; with m == n the last one is the head itself. */
  function Ahead(mk: Market, m: nat): (r: seq<Bucket>)
    requires |mk.ring| > 0
    ensures |r| == m && forall i :: 0 <= i < m ==> r[i] == mk.ring[(mk.head + i + 1) % |mk.ring|]
  {
    seq(m, i requires 0 <= i < m => mk.ring[(mk.head + i + 1) % |mk.ring|])
  }

  /** ringClosesChronological of decode.ts: ends at the bucket in progress. */
  method RingClosesChronological(mk: Market) returns (out: seq<real>)
    ensures |mk.ring| == 0 ==> out == []
    ensures |mk.ring| > 0 ==> out == Closes(Ahead(mk, |mk.ring|))
  {
    var n := |mk.ring|;
    out := [];
    for i := 1 to n + 1
      invariant n > 0 ==> out == Closes(Ahead(mk, i - 1))
      invariant n == 0 ==> out == []
    {
      var bucket := mk.ring[(mk.head + i) % n];
      assert Ahead(mk, i)[..i - 1] == Ahead(mk, i - 1) && Ahead(mk, i)[i - 1] == bucket;
      if bucket.startTsMs != 0 && bucket.close > 0.0 { out := out + [bucket.close]; }
    }
  }

  /** The feed's variant: stops before head, and shows nothing rather than a single point. */
  function FeedCloses(mk: Market): seq<real> {
    if |mk.ring| == 0 then []
    else
      var closes := Closes(Ahead(mk, |mk.ring| - 1));
      if |closes| >= 2 then closes else []
  }

  method FeedRingClosesChronological(mk: Market) returns (out: seq<real>)
    ensures out == FeedCloses(mk)
  {
    var n := |mk.ring|;
    if n == 0 { return []; }
    out := [];
    for i := 1 to n
      invariant out == Closes(Ahead(mk, i - 1))
    {
      var b := mk.ring[(mk.head + i) % n];
      assert Ahead(mk, i)[..i - 1] == Ahead(mk, i - 1) && Ahead(mk, i)[i - 1] == b;
      if b.startTsMs != 0 && b.close > 0.0 { out := out + [b.close]; }
    }
    if |out| < 2 { out := []; }
  }

  datatype RingOp = Rollover(b: Bucket) | Update(b: Bucket)

  /** The writer: a rollover advances head (the very first bucket takes slot 0), an update rewrites the head bucket. */
  function Write(mk: Market, isFirst: bool, op: RingOp): Market
    requires |mk.ring| > 0
  {
    var n := |mk.ring|;
    match op
    case Rollover(b) =>
      var head := if isFirst then 0 else (mk.head + 1) % n;
      Market(mk.ring[head := b], head)
    case Update(b) => if isFirst then mk else Market(mk.ring[mk.head % n := b], mk.head)
  }

  function LogAfter(log: seq<Bucket>, op: RingOp): seq<Bucket> {
    match op
    case Rollover(b) => log + [b]
    case Update(b) => if |log| == 0 then log else log[..|log| - 1] + [b]
  }

  ghost predicate MarketOf(mk: Market, log: seq<Bucket>, blank: Bucket) {
    Holds(mk.ring, log, blank) && mk.head == if |log| == 0 then 0 else (|log| - 1) % |mk.ring|
  }

  lemma WriteRefines(mk: Market, log: seq<Bucket>, blank: Bucket, op: RingOp)
    requires MarketOf(mk, log, blank)
    ensures MarketOf(Write(mk, |log| == 0, op), LogAfter(log, op), blank)
  {
    var n, k := |mk.ring|, |log|;
    match op
    case Rollover(b) =>
      HoldsPush(mk.ring, log, blank, b);
      SmallRest(0, n);
      if k > 0 { RestOfRest(k - 1, 1, n); }
    case Update(b) =>
      if k > 0 {
        HoldsReplaceLast(mk.ring, log, blank, b);
        SmallRest(mk.head, n);
      }
  }

  function LogAll(ops: seq<RingOp>): seq<Bucket> {
    if |ops| == 0 then [] else LogAfter(LogAll(ops[..|ops| - 1]), ops[|ops| - 1])
  }

  function WriteAll(mk: Market, ops: seq<RingOp>): (r: Market)
    requires |mk.ring| > 0
    ensures |r.ring| == |mk.ring|
  {
    if |ops| == 0 then mk
    else Write(WriteAll(mk, ops[..|ops| - 1]), |LogAll(ops[..|ops| - 1])| == 0, ops[|ops| - 1])
  }

  lemma {:induction false} WriteAllRefines(mk: Market, blank: Bucket, ops: seq<RingOp>)
    requires MarketOf(mk, [], blank)
    ensures MarketOf(WriteAll(mk, ops), LogAll(ops), blank)
  {
    if |ops| > 0 {
      var init := ops[..|ops| - 1];
      WriteAllRefines(mk, blank, init);
      WriteRefines(WriteAll(mk, init), LogAll(init), blank, ops[|ops| - 1]);
    }
  }

  function CloseOf(s: seq<Bucket>): (r: seq<real>)
    ensures |r| == |s| && forall i :: 0 <= i < |s| ==> r[i] == s[i].close
  {
    seq(|s|, i requires 0 <= i < |s| => s[i].close)
  }

  lemma {:induction false} ClosesSplit(blanks: seq<Bucket>, s: seq<Bucket>)
    requires (forall b <- blanks :: !Shows(b)) && (forall b <- s :: Shows(b))
    ensures Closes(blanks + s) == CloseOf(s)
  {
    if |s| > 0 {
      var init := s[..|s| - 1];
      assert s[|s| - 1] in s && forall b <- init :: b in s;
      assert (blanks + s)[..|blanks + s| - 1] == blanks + init;
      ClosesSplit(blanks, init);
      assert CloseOf(s) == CloseOf(init) + [s[|s| - 1].close];
    } else if |blanks| > 0 {
      var init := blanks[..|blanks| - 1];
      assert blanks[|blanks| - 1] in blanks && forall b <- init :: b in blanks;
      assert blanks + s == blanks && init + [] == init;
      ClosesSplit(init, []);
    }
  }

  lemma AheadIsRecent(mk: Market, log: seq<Bucket>, blank: Bucket)
    requires MarketOf(mk, log, blank) && |log| > 0
    ensures var n := |mk.ring|; var recent := Last(log, n);
            Ahead(mk, n) == seq(n - |recent|, i => blank) + recent
  {
    var n, k := |mk.ring|, |log|;
    var recent := Last(log, n);
    forall i | 0 <= i < n ensures Ahead(mk, n)[i] == (seq(n - |recent|, i => blank) + recent)[i] {
      RestOfRest(k - 1, i + 1, n);
      assert (mk.head + i + 1) % n == (k + i) % n;
      if k + i >= n {
        AddOne(k + i - n, n);
      } else {
        SmallRest(k + i, n);
      }
    }
  }

  lemma RingShowsLog(mk: Market, log: seq<Bucket>, blank: Bucket)
    requires MarketOf(mk, log, blank) && !Shows(blank) && forall b <- log :: Shows(b)
    ensures Closes(Ahead(mk, |mk.ring|)) == CloseOf(Last(log, |mk.ring|))
  {
    var n := |mk.ring|;
    if |log| == 0 {
      var all := Ahead(mk, n);
      assert all + [] == all;
      forall b <- all ensures !Shows(b) {
        var i :| 0 <= i < n && all[i] == b;
        assert 0 <= (mk.head + i + 1) % n < n;
      }
      ClosesSplit(all, []);
    } else {
      AheadIsRecent(mk, log, blank);
      var recent := Last(log, n);
      assert forall b <- recent :: b in log;
      ClosesSplit(seq(n - |recent|, i => blank), recent);
    }
  }

  /** Market ring refinement: after any rollovers and updates of a blank ring, with every written bucket stamped and
      priced, the reader returns the most recent closes that fit, oldest to newest, ending at the bucket in progress. */
  lemma RingRefinesLog(mk: Market, blank: Bucket, ops: seq<RingOp>)
    requires MarketOf(mk, [], blank) && !Shows(blank) && forall b <- LogAll(ops) :: Shows(b)
    ensures var end := WriteAll(mk, ops);
            Closes(Ahead(end, |end.ring|)) == CloseOf(Last(LogAll(ops), |mk.ring|))
  {
    WriteAllRefines(mk, blank, ops);
    RingShowsLog(WriteAll(mk, ops), LogAll(ops), blank);
  }

  /** On every ring, written or not, the two readers differ only in the head bucket and the two-point minimum. */
  lemma FeedDropsOnlyHead(mk: Market)
    requires |mk.ring| > 0
    ensures var headBucket := mk.ring[mk.head % |mk.ring|];
            var decoded, upToHead := Closes(Ahead(mk, |mk.ring|)), Closes(Ahead(mk, |mk.ring| - 1));
            && decoded == upToHead + (if Shows(headBucket) then [headBucket.close] else [])
            && FeedCloses(mk) == if |upToHead| >= 2 then upToHead else []
  {
    var n := |mk.ring|;
    assert Ahead(mk, n)[..n - 1] == Ahead(mk, n - 1);
    AddOne(mk.head, n);
    assert mk.head + (n - 1) + 1 == mk.head + n;
  }

  /** What the decoder shows of a log, less its last point, is what the feed sees before the head. */
  lemma FeedSees(mk: Market, log: seq<Bucket>, blank: Bucket)
    requires MarketOf(mk, log, blank) && !Shows(blank) && |log| > 0 && forall b <- log :: Shows(b)
    ensures var recent := Last(log, |mk.ring|);
            |recent| > 0 && Closes(Ahead(mk, |mk.ring| - 1)) == CloseOf(recent)[..|recent| - 1]
  {
    var n, recent := |mk.ring|, Last(log, |mk.ring|);
    RingShowsLog(mk, log, blank);
    FeedDropsOnlyHead(mk);
    HeadIsLast(mk, log, blank);
    hide Closes, Ahead, Last, CloseOf, MarketOf, FeedCloses;
    var upToHead := Closes(Ahead(mk, n - 1));
    assert CloseOf(recent) == upToHead + [log[|log| - 1].close];
    assert CloseOf(recent)[..|CloseOf(recent)| - 1] == upToHead;
  }

  lemma HeadIsLast(mk: Market, log: seq<Bucket>, blank: Bucket)
    requires MarketOf(mk, log, blank) && |log| > 0 && forall b <- log :: Shows(b)
    ensures mk.ring[mk.head % |mk.ring|] == log[|log| - 1] && Shows(log[|log| - 1])
    ensures |Last(log, |mk.ring|)| > 0
  {
    SmallRest(mk.head, |mk.ring|);
    assert log[|log| - 1] in log;
  }

  /** So on a ring written like a log the feed shows the completed buckets only, or nothing when fewer than two. */
  lemma FeedRefinesLog(mk: Market, blank: Bucket, ops: seq<RingOp>)
    requires MarketOf(mk, [], blank) && !Shows(blank) && |LogAll(ops)| > 0 && forall b <- LogAll(ops) :: Shows(b)
    ensures var recent := Last(LogAll(ops), |mk.ring|);
            |recent| > 0 &&
            var completed := CloseOf(recent)[..|recent| - 1];
            FeedCloses(WriteAll(mk, ops)) == if |completed| >= 2 then completed else []
  {
    WriteAllRefines(mk, blank, ops);
    hide LogAll, WriteAll, Closes, Ahead, Last, CloseOf;
    FeedSees(WriteAll(mk, ops), LogAll(ops), blank);
  }
}
