/** The ledger/chain reconcile sweep (lib/bets/flash-reconcile.ts): queue predicates, what a transaction says about a
    bet, and the guarded writes that follow, on a table of bets and a table of fills. */
module Reconcile {
  import opened Base
  import opened Brain
  import opened Ledger

  const BATCH := 10
  const OPEN_SIG_MAX_AGE_MS := 30 * 60_000

  // ---------------------------------------------------------------- USDC delta of a transaction

  datatype TokenBalance = TokenBalance(owner: nat, isUsdc: bool, uiAmount: Option<real>)
  datatype TxMeta = TxMeta(err: bool, pre: seq<TokenBalance>, post: seq<TokenBalance>)

  predicate Counts(b: TokenBalance, owner: nat) { b.owner == owner && b.isUsdc }

  function Amount(b: TokenBalance): real { match b.uiAmount case None => 0.0 case Some(x) => x }

  function OwnerTotal(balances: seq<TokenBalance>, owner: nat): real {
    if |balances| == 0 then 0.0
    else OwnerTotal(balances[..|balances| - 1], owner) +
         (if Counts(balances[|balances| - 1], owner) then Amount(balances[|balances| - 1]) else 0.0)
  }

  predicate OwnerAppears(balances: seq<TokenBalance>, owner: nat) { exists b <- balances :: Counts(b, owner) }

  /** Post minus pre over the owner's USDC entries; unknown when the owner has none on either side. */
  function UsdcDelta(tx: TxMeta, owner: nat): Option<real> {
    if !OwnerAppears(tx.pre, owner) && !OwnerAppears(tx.post, owner) then None
    else Some(OwnerTotal(tx.post, owner) - OwnerTotal(tx.pre, owner))
  }

  method SumForOwner(balances: seq<TokenBalance>, owner: nat) returns (total: Option<real>)
    ensures total == if OwnerAppears(balances, owner) then Some(OwnerTotal(balances, owner)) else None
  {
    total := None;
    for i := 0 to |balances|
      invariant total == if OwnerAppears(balances[..i], owner) then Some(OwnerTotal(balances[..i], owner)) else None
      invariant !OwnerAppears(balances[..i], owner) ==> OwnerTotal(balances[..i], owner) == 0.0
    {
      var b := balances[i];
      assert balances[..i + 1] == balances[..i] + [b] && balances[..i + 1][..i] == balances[..i];
      if Counts(b, owner) {
        total := Some((if total.None? then 0.0 else total.value) + Amount(b));
      }
    }
    assert balances[..|balances|] == balances;
  }

  method UsdcDeltaForOwner(tx: TxMeta, owner: nat) returns (delta: Option<real>)
    ensures delta == UsdcDelta(tx, owner)
    ensures delta == if OwnerAppears(tx.pre, owner) || OwnerAppears(tx.post, owner)
                     then Some(OwnerTotal(tx.post, owner) - OwnerTotal(tx.pre, owner)) else None
  {
    var pre := SumForOwner(tx.pre, owner);
    var post := SumForOwner(tx.post, owner);
    if pre == None && post == None { return None; }
    AbsentIsZero(tx.pre, owner);
    AbsentIsZero(tx.post, owner);
    delta := Some((if post.None? then 0.0 else post.value) - (if pre.None? then 0.0 else pre.value));
  }

  lemma {:induction false} AbsentIsZero(balances: seq<TokenBalance>, owner: nat)
    ensures !OwnerAppears(balances, owner) ==> OwnerTotal(balances, owner) == 0.0
  {
    if |balances| > 0 {
      var init, last := balances[..|balances| - 1], balances[|balances| - 1];
      AbsentIsZero(init, owner);
      assert last in balances && forall b <- init :: b in balances;
    }
  }

  lemma {:induction false} TotalWithout(balances: seq<TokenBalance>, owner: nat, i: nat)
    requires i < |balances|
    ensures OwnerTotal(balances, owner) ==
              OwnerTotal(balances[..i] + balances[i + 1..], owner) +
              (if Counts(balances[i], owner) then Amount(balances[i]) else 0.0)
  {
    var n := |balances| - 1;
    var rest := balances[..i] + balances[i + 1..];
    if i == n {
      assert rest == balances[..n];
    } else {
      TotalWithout(balances[..n], owner, i);
      assert rest[..n - 1] == balances[..n][..i] + balances[..n][i + 1..];
      assert rest[n - 1] == balances[n];
    }
  }

  lemma {:induction false} TotalPermutes(a: seq<TokenBalance>, b: seq<TokenBalance>, owner: nat)
    requires multiset(a) == multiset(b)
    ensures OwnerTotal(a, owner) == OwnerTotal(b, owner)
  {
    SameSize(a, b);
    if |a| > 0 {
      var n, last := |a| - 1, a[|a| - 1];
      assert last in multiset(b);
      var i :| 0 <= i < |b| && b[i] == last;
      TotalWithout(b, owner, i);
      RestsAgree(a, b, i);
      TotalPermutes(a[..n], b[..i] + b[i + 1..], owner);
    }
  }

  lemma SameSize(a: seq<TokenBalance>, b: seq<TokenBalance>)
    requires multiset(a) == multiset(b)
    ensures |a| == |b|
  {
    assert |multiset(a)| == |multiset(b)|;
  }

  lemma RestsAgree(a: seq<TokenBalance>, b: seq<TokenBalance>, i: nat)
    requires multiset(a) == multiset(b) && |a| > 0 && i < |b| && b[i] == a[|a| - 1]
    ensures multiset(a[..|a| - 1]) == multiset(b[..i] + b[i + 1..])
  {
    var x, init, rest := b[i], a[..|a| - 1], b[..i] + b[i + 1..];
    assert a == init + [x];
    assert b == b[..i] + ([x] + b[i + 1..]);
    assert multiset(b) == multiset(rest) + multiset{x};
    assert multiset(a) == multiset(init) + multiset{x};
    assert multiset(init) == multiset(a) - multiset{x};
  }

  /** The order of a transaction's balance entries never matters, and only the owner's USDC entries do. */
  lemma DeltaPermutes(a: TxMeta, b: TxMeta, owner: nat)
    requires multiset(a.pre) == multiset(b.pre) && multiset(a.post) == multiset(b.post)
    ensures UsdcDelta(a, owner) == UsdcDelta(b, owner)
    ensures UsdcDelta(a, owner) == None <==> forall x :: x in multiset(a.pre) + multiset(a.post) ==> !Counts(x, owner)
  {
    TotalPermutes(a.pre, b.pre, owner);
    TotalPermutes(a.post, b.post, owner);
    SameMembers(a.pre, b.pre, owner);
    SameMembers(a.post, b.post, owner);
  }

  lemma SameMembers(a: seq<TokenBalance>, b: seq<TokenBalance>, owner: nat)
    requires multiset(a) == multiset(b)
    ensures OwnerAppears(a, owner) == OwnerAppears(b, owner)
    ensures OwnerAppears(a, owner) <==> exists x :: x in multiset(a) && Counts(x, owner)
  {
    forall x ensures x in a <==> x in b {
      assert x in a <==> x in multiset(a);
      assert x in b <==> x in multiset(b);
    }
    assert forall x :: x in a <==> x in multiset(a);
  }

  /** What each balance entry contributes, one by one: an entry of the owner in USDC counts for the delta after the
      transaction and against it before, from nothing at all; any other entry changes nothing. */
  lemma DeltaByEntry(tx: TxMeta, owner: nat, b: TokenBalance)
    ensures |tx.pre| == 0 && |tx.post| == 0 ==> UsdcDelta(tx, owner) == None
    ensures var was := match UsdcDelta(tx, owner) case None => 0.0 case Some(d) => d;
            var x := match b.uiAmount case None => 0.0 case Some(x) => x;
            var later := UsdcDelta(tx.(post := tx.post + [b]), owner);
            var sooner := UsdcDelta(tx.(pre := tx.pre + [b]), owner);
            if b.owner == owner && b.isUsdc then later == Some(was + x) && sooner == Some(was - x)
            else later == UsdcDelta(tx, owner) && sooner == UsdcDelta(tx, owner)
  {
    EntryPushed(tx.pre, owner, b);
    EntryPushed(tx.post, owner, b);
    AbsentIsZero(tx.pre, owner);
    AbsentIsZero(tx.post, owner);
  }

  lemma EntryPushed(balances: seq<TokenBalance>, owner: nat, b: TokenBalance)
    ensures OwnerTotal(balances + [b], owner) ==
              OwnerTotal(balances, owner) + if Counts(b, owner) then Amount(b) else 0.0
    ensures OwnerAppears(balances + [b], owner) <==> OwnerAppears(balances, owner) || Counts(b, owner)
  {
    assert (balances + [b])[..|balances|] == balances;
  }

  /** One entry of the owner goes up by x. */
  function Raise(balances: seq<TokenBalance>, i: nat, x: real): seq<TokenBalance>
    requires i < |balances|
  {
    balances[i := balances[i].(uiAmount := Some((match balances[i].uiAmount case None => 0.0 case Some(y) => y) + x))]
  }

  lemma {:induction false} RaiseTotal(balances: seq<TokenBalance>, owner: nat, i: nat, x: real)
    requires i < |balances|
    ensures OwnerTotal(Raise(balances, i, x), owner) ==
              OwnerTotal(balances, owner) + if Counts(balances[i], owner) then x else 0.0
    ensures OwnerAppears(Raise(balances, i, x), owner) == OwnerAppears(balances, owner)
  {
    var n, raised := |balances| - 1, Raise(balances, i, x);
    if i < n {
      RaiseTotal(balances[..n], owner, i, x);
      assert raised[..n] == Raise(balances[..n], i, x);
    } else {
      assert raised[..n] == balances[..n];
    }
    forall k | 0 <= k < |balances| ensures Counts(raised[k], owner) <==> Counts(balances[k], owner) {}
    if OwnerAppears(balances, owner) {
      var k :| 0 <= k < |balances| && Counts(balances[k], owner);
      assert raised[k] in raised;
    }
    if OwnerAppears(raised, owner) {
      var k :| 0 <= k < |raised| && Counts(raised[k], owner);
      assert balances[k] in balances;
    }
  }

  /** Money that arrives raises the delta by as much and money that was there before lowers it by as much; entries of
      other owners and in other tokens do not matter. */
  lemma DeltaMoves(tx: TxMeta, owner: nat, i: nat, x: real)
    ensures i < |tx.post| && tx.post[i].owner == owner && tx.post[i].isUsdc ==>
              && UsdcDelta(tx, owner).Some?
              && UsdcDelta(tx.(post := Raise(tx.post, i, x)), owner) == Some(UsdcDelta(tx, owner).value + x)
    ensures i < |tx.pre| && tx.pre[i].owner == owner && tx.pre[i].isUsdc ==>
              && UsdcDelta(tx, owner).Some?
              && UsdcDelta(tx.(pre := Raise(tx.pre, i, x)), owner) == Some(UsdcDelta(tx, owner).value - x)
    ensures i < |tx.post| && !(tx.post[i].owner == owner && tx.post[i].isUsdc) ==>
              UsdcDelta(tx.(post := Raise(tx.post, i, x)), owner) == UsdcDelta(tx, owner)
    ensures i < |tx.pre| && !(tx.pre[i].owner == owner && tx.pre[i].isUsdc) ==>
              UsdcDelta(tx.(pre := Raise(tx.pre, i, x)), owner) == UsdcDelta(tx, owner)
  {
    hide OwnerTotal;
    if i < |tx.post| {
      RaiseTotal(tx.post, owner, i, x);
      assert tx.post[i] in tx.post;
    }
    if i < |tx.pre| {
      RaiseTotal(tx.pre, owner, i, x);
      assert tx.pre[i] in tx.pre;
    }
  }

  /** The owner's one USDC account in the list holds x. */
  ghost predicate Holding(balances: seq<TokenBalance>, owner: nat, x: real) {
    exists i :: 0 <= i < |balances| && OneAccount(balances, owner, i) && balances[i].uiAmount == Some(x)
  }

  ghost predicate OneAccount(balances: seq<TokenBalance>, owner: nat, i: nat)
    requires i < |balances|
  {
    forall k :: 0 <= k < |balances| ==> (balances[k].owner == owner && balances[k].isUsdc <==> k == i)
  }

  lemma HoldingTotal(balances: seq<TokenBalance>, owner: nat, x: real)
    requires Holding(balances, owner, x)
    ensures OwnerTotal(balances, owner) == x && OwnerAppears(balances, owner)
  {
    var i :| 0 <= i < |balances| && OneAccount(balances, owner, i) && balances[i].uiAmount == Some(x);
    TotalWithout(balances, owner, i);
    assert balances[i] in balances;
    var rest := balances[..i] + balances[i + 1..];
    forall b | b in rest ensures !Counts(b, owner) {
      var k :| 0 <= k < |rest| && rest[k] == b;
      assert rest[k] == if k < i then balances[k] else balances[k + 1];
    }
    AbsentIsZero(rest, owner);
  }

  /** A wallet that held p dollars before the transaction and q after it has gained q - p; one whose account the
      transaction opened has gained what it holds. */
  lemma DeltaIsGain(tx: TxMeta, owner: nat, p: real, q: real)
    requires Holding(tx.post, owner, q)
    ensures Holding(tx.pre, owner, p) ==> UsdcDelta(tx, owner) == Some(q - p)
    ensures (forall i :: 0 <= i < |tx.pre| ==> tx.pre[i].owner != owner || !tx.pre[i].isUsdc) ==>
              UsdcDelta(tx, owner) == Some(q)
  {
    HoldingTotal(tx.post, owner, q);
    if Holding(tx.pre, owner, p) { HoldingTotal(tx.pre, owner, p); }
    AbsentIsZero(tx.pre, owner);
  }

  // ---------------------------------------------------------------- queues

  /** A close still on its quote estimate. */
  predicate CloseQueued(row: Row) {
    row.status == Closed && row.meta.proceedsSource == Some(QuoteEstimate) && row.meta.closeSig.Some?
  }

  /** An open never chain-verified. */
  predicate OpenQueued(row: Row) { row.status == Confirmed && row.meta.reconciledAt.None? && row.meta.openSig.Some? }

  predicate Queued(row: Row) { CloseQueued(row) || OpenQueued(row) }

  predicate LivenessCandidate(row: Row, cutoff: int) {
    row.status == Confirmed && row.meta.reconciledAt.Some? && row.createdAt < cutoff
  }

  /** How rows come into the queues and leave them: a close enters when it is confirmed, an open when it is confirmed
      before any verification; a landed truth takes its row out for good and makes an open a candidate for the liveness
      check; a failed close goes back among the opens unless its open was verified already. */
  lemma QueuesExactly(row: Row, sig: Sig, est: Option<real>, why: Reason, now: int, snap: Meta, t: Truth, cutoff: int)
    ensures Queued(OpenConfirmed(row, sig, snap)) <==> snap.reconciledAt == None
    ensures Queued(CloseConfirmed(row, sig, est, why, now, snap))
    ensures !t.failed && row.status == TruthGuard(t) ==> !Queued(TruthApplied(row, t))
    ensures !t.failed && t.action == Open && row.status == Confirmed ==>
              (LivenessCandidate(TruthApplied(row, t), cutoff) <==> row.createdAt < cutoff)
    ensures t.failed && t.action == Close ==>
              (Queued(TruthApplied(row, t)) <==> t.meta.reconciledAt == None && t.meta.openSig.Some?)
    ensures row.status !in {Confirmed, Closed} ==> !Queued(row) && !LivenessCandidate(row, cutoff)
    ensures row.meta.reconciledAt == None ==> !LivenessCandidate(row, cutoff)
  {
  }

  /** What getTransaction says about a signature. */
  datatype TxReply = Unseen | Seen(failed: bool, delta: Option<real>)

  function ReplyOf(tx: Option<TxMeta>, wallet: nat): TxReply {
    match tx
    case None => Unseen
    case Some(m) => Seen(m.err, if m.err then None else UsdcDelta(m, wallet))
  }

  /** The truth a sweep applies for a listed bet, if any: an unseen transaction is one only for an open past the age
      cutoff, where absence means it never landed. */
  function TruthFor(bet: BetId, row: Row, reply: TxReply, now: int): Option<Truth>
    requires Queued(row)
  {
    var action := if CloseQueued(row) then Close else Open;
    var sig := if CloseQueued(row) then row.meta.closeSig.value else row.meta.openSig.value;
    match reply
    case Unseen =>
      if action == Open && now - row.createdAt > OPEN_SIG_MAX_AGE_MS
      then Some(Truth(bet, action, sig, None, true, row.meta, now)) else None
    case Seen(failed, delta) => Some(Truth(bet, action, sig, if failed then None else delta, failed, row.meta, now))
  }

  function SigOf(row: Row): Sig
    requires Queued(row)
  {
    if CloseQueued(row) then row.meta.closeSig.value else row.meta.openSig.value
  }

  // ---------------------------------------------------------------- fills

  datatype Fill = Fill(bet: BetId, usd: Option<real>, source: Source)
  type Fills = map<(Sig, Action), Fill>

  function Abs(x: real): real { if x < 0.0 then -x else x }

  /** The fills part of applyChainTruth. It does not look at the bet row at all. */
  function FillsAfter(fills: Fills, t: Truth): Fills {
    var key := (t.sig, t.action);
    if t.failed then fills - {key}
    else if t.usdcDelta.None? || key !in fills then fills
    else fills[key := fills[key].(usd := Some(Abs(t.usdcDelta.value)), source := Chain)]
  }

  /** Fill frame: a failed transaction keeps no fill, a landed one with a known delta keeps it as its absolute value,
      and every other fill is untouched, whatever happened to the bet row. */
  lemma FillFrame(fills: Fills, t: Truth)
    ensures var after, key := FillsAfter(fills, t), (t.sig, t.action);
            && (t.failed ==> key !in after)
            && (!t.failed && t.usdcDelta.Some? && key in fills ==>
                  && key in after && after[key].source == Chain && after[key].bet == fills[key].bet
                  && after[key].usd.Some? && after[key].usd.value >= 0.0
                  && (after[key].usd.value == t.usdcDelta.value || after[key].usd.value == -t.usdcDelta.value))
            && (!t.failed && t.usdcDelta.None? ==> after == fills)
            && after.Keys - {key} == fills.Keys - {key}
            && (forall k :: k in fills && k != key ==> after[k] == fills[k])
  {
  }

  // ---------------------------------------------------------------- the two tables

  class Db {
    var rows: seq<Row>
    var fills: Fills

    constructor (rows: seq<Row>, fills: Fills)
      ensures this.rows == rows && this.fills == fills
    {
      this.rows, this.fills := rows, fills;
    }

    method ReapStalePending(now: int) returns (reaped: nat)
      modifies this`rows
      ensures rows == Apply(old(rows), Reap(now - STALE_PENDING_MS, None))
      ensures |rows| == |old(rows)|
      ensures forall i :: 0 <= i < |rows| ==>
                var row := old(rows)[i];
                rows[i] == if row.status == Pending && row.createdAt < now - 5 * 60_000
                           then row.(status := Abandoned) else row
      ensures reaped == |set i | 0 <= i < |old(rows)| && old(rows)[i] != rows[i]|
    {
      var cutoff := now - STALE_PENDING_MS;
      ghost var rows0 := rows;
      ghost var hit: set<int> := {};
      reaped := 0;
      var i := 0;
      while i < |rows|
        invariant 0 <= i <= |rows| == |rows0|
        invariant forall j :: 0 <= j < i ==> rows[j] == Reaped(rows0[j], cutoff)
        invariant forall j :: i <= j < |rows| ==> rows[j] == rows0[j]
        invariant hit == set j | 0 <= j < i && rows0[j] != Reaped(rows0[j], cutoff)
        invariant reaped == |hit|
      {
        var row := rows[i];
        if row.status == Pending && row.createdAt < cutoff {
          rows := rows[i := row.(status := Abandoned)];
          reaped := reaped + 1;
          hit := hit + {i};
        }
        i := i + 1;
      }
      assert rows == ReapAll(rows0, cutoff, None);
      assert hit == set j | 0 <= j < |rows0| && rows0[j] != rows[j];
    }

    /** applyChainTruth, statement by statement: the fill deletion comes first when the transaction failed, the fill
        update last when it landed, and neither depends on whether the guarded row update matched. */
    method ApplyChainTruth(truth: Truth)
      modifies this
      ensures rows == Apply(old(rows), ApplyTruth(truth))
      ensures fills == FillsAfter(old(fills), truth)
    {
      var b, key := truth.bet, (truth.sig, truth.action);
      if truth.failed {
        fills := fills - {key};
        if truth.action == Open {
          if b < |rows| && rows[b].status == Confirmed {
            rows := rows[b := rows[b].(status := Failed, meta := truth.meta.(reconciledAt := Some(truth.now)))];
          }
        } else {
          if b < |rows| && rows[b].status == Closed {
            rows := rows[b := rows[b].(status := Confirmed, closedAt := None, closeTxHash := None, proceeds := None,
                                       meta := truth.meta.(closeSig := None, closeReason := None,
                                           proceedsSource := None))];
          }
        }
        return;
      }
      if truth.action == Close {
        var stamped := truth.meta.(proceedsSource := Some(Chain), reconciledAt := Some(truth.now));
        if truth.usdcDelta == None {
          if b < |rows| && rows[b].status == Closed {
            rows := rows[b := rows[b].(meta := stamped)];
          }
          return;
        }
        if b < |rows| && rows[b].status == Closed {
          rows := rows[b := rows[b].(proceeds := truth.usdcDelta, meta := stamped)];
        }
      } else {
        if b < |rows| && rows[b].status == Confirmed {
          rows := rows[b := rows[b].(meta := truth.meta.(reconciledAt := Some(truth.now)))];
        }
      }
      if truth.usdcDelta != None && key in fills {
        fills := fills[key := fills[key].(usd := Some(Abs(truth.usdcDelta.value)), source := Chain)];
      }
    }

    method MarkClosedExternal(bet: BetId, meta: Meta, now: int)
      modifies this`rows
      ensures rows == Apply(old(rows), MarkExternal(bet, meta, now))
      ensures bet < |old(rows)| && old(rows)[bet].status == Confirmed ==>
                && OnlyAt(old(rows), rows, bet)
                && rows[bet] == old(rows)[bet].(status := ClosedExternal, closedAt := Some(now),
                                                meta := meta.(closeReason := Some(External)))
      ensures bet >= |old(rows)| || old(rows)[bet].status != Confirmed ==> rows == old(rows)
    {
      if bet < |rows| && rows[bet].status == Confirmed {
        rows := rows[bet := Externalized(rows[bet], meta, now)];
      }
    }
  }

  // ---------------------------------------------------------------- one sweep

  /** A bet as the sweep listed it. */
  datatype Snap = Snap(bet: BetId, row: Row)

  /** What the sweep makes of getTransaction for one listed bet; an error is retried next sweep. */
  function TruthOf(snap: Snap, reply: Reply<Option<TxMeta>>, now: int): Option<Truth>
    requires Queued(snap.row)
  {
    match reply
    case Threw => None
    case Ok(tx) => TruthFor(snap.bet, snap.row, ReplyOf(tx, snap.row.lineage.wallet), now)
  }

  /** The truths of the first candidates, in order. */
  function Truths(snaps: seq<Snap>, replies: seq<Reply<Option<TxMeta>>>, now: int): seq<Truth>
    requires |replies| <= |snaps| && forall s <- snaps :: Queued(s.row)
  {
    if |replies| == 0 then []
    else
      var n := |replies| - 1;
      Truths(snaps, replies[..n], now) +
      (match TruthOf(snaps[n], replies[n], now) case None => [] case Some(t) => [t])
  }

  /** The row of the listed bet once the sweep has worked on it, whatever has happened to the row since. */
  function Verdict(rows: seq<Row>, snap: Snap, reply: Reply<Option<TxMeta>>, now: int): seq<Row>
    requires Queued(snap.row)
  {
    match TruthOf(snap, reply, now) case None => rows case Some(t) => Apply(rows, ApplyTruth(t))
  }

  /** What the sweep does to the bet of a listed close, on the raw reply and the row's own columns. A landed close that
      is still closed is stamped as chain truth, with the wallet's USDC gain as its proceeds where the transaction shows
      the wallet's USDC at all and with its estimate kept otherwise; a failed one is reopened with every trace of the
      close erased; an unseen or unreadable transaction changes nothing, and neither does a row that moved on. */
  lemma CloseVerdict(rows: seq<Row>, snap: Snap, reply: Reply<Option<TxMeta>>, now: int)
    requires Queued(snap.row) && snap.row.status == Closed && snap.bet < |rows|
    ensures var row, was, after := rows[snap.bet], snap.row, Verdict(rows, snap, reply, now);
            && OnlyAt(rows, after, snap.bet)
            && (reply.Threw? || reply.value.None? || row.status != Closed ==> after[snap.bet] == row)
            && (reply.Ok? && reply.value.Some? && row.status == Closed ==>
                  var m, wallet, result := reply.value.value, was.lineage.wallet, after[snap.bet];
                  if m.err then
                    && result.status == Confirmed && result.closedAt == None && result.closeTxHash == None
                    && result.proceeds == None
                    && result.meta == Meta(was.meta.openSig, None, None, None, was.meta.reconciledAt)
                  else
                    && result.status == Closed && result.closedAt == row.closedAt
                    && result.closeTxHash == row.closeTxHash
                    && result.meta ==
                         Meta(was.meta.openSig, was.meta.closeSig, was.meta.closeReason, Some(Chain), Some(now))
                    && result.proceeds == if OwnerAppears(m.pre, wallet) || OwnerAppears(m.post, wallet)
                                       then Some(OwnerTotal(m.post, wallet) - OwnerTotal(m.pre, wallet))
                                       else row.proceeds)
  {
    hide OwnerTotal, OwnerAppears;
  }

  /** A landed close that takes the wallet from p to q dollars leaves its row closed with proceeds q - p. */
  lemma CloseIsPaid(rows: seq<Row>, snap: Snap, m: TxMeta, p: real, q: real, now: int)
    requires Queued(snap.row) && snap.row.status == Closed && snap.bet < |rows| && rows[snap.bet].status == Closed
    requires !m.err && Holding(m.pre, snap.row.lineage.wallet, p) && Holding(m.post, snap.row.lineage.wallet, q)
    ensures var result := Verdict(rows, snap, Ok(Some(m)), now)[snap.bet];
            result.status == Closed && result.proceeds == Some(q - p) && result.meta.proceedsSource == Some(Chain)
  {
    hide OwnerTotal, Holding;
    HoldingTotal(m.pre, snap.row.lineage.wallet, p);
    HoldingTotal(m.post, snap.row.lineage.wallet, q);
  }

  /** The same for a listed open that is still confirmed: a landed one is only stamped; a failed one, or one still
      unseen more than thirty minutes after its creation, is failed. */
  lemma OpenVerdict(rows: seq<Row>, snap: Snap, reply: Reply<Option<TxMeta>>, now: int)
    requires Queued(snap.row) && snap.row.status == Confirmed && snap.bet < |rows|
    ensures var row, was, after := rows[snap.bet], snap.row, Verdict(rows, snap, reply, now);
            var stale := now - was.createdAt > 30 * 60_000;
            && OnlyAt(rows, after, snap.bet)
            && (reply.Threw? || (reply.value.None? && !stale) || row.status != Confirmed ==> after[snap.bet] == row)
            && (reply.Ok? && (reply.value.Some? || stale) && row.status == Confirmed ==>
                  var result := after[snap.bet];
                  && result.status == (if reply.value.None? || reply.value.value.err then Failed else Confirmed)
                  && result.meta == Meta(was.meta.openSig, was.meta.closeSig, was.meta.closeReason,
                                      was.meta.proceedsSource, Some(now))
                  && result.proceeds == row.proceeds && result.closedAt == row.closedAt
                  && result.closeTxHash == row.closeTxHash)
  {
  }

  /** The fill of the listed signature: deleted when the transaction failed or never landed, set to the amount the
      wallet gained or paid when the transaction shows it, and otherwise left alone. */
  lemma FillVerdict(fills: Fills, snap: Snap, tx: Option<TxMeta>, now: int)
    requires Queued(snap.row)
    ensures var was, truth := snap.row, TruthOf(snap, Ok(tx), now);
            var key :=
              if was.status == Closed then (was.meta.closeSig.value, Close) else (was.meta.openSig.value, Open);
            truth.Some? ==>
              var after := FillsAfter(fills, truth.value);
              if tx.None? || tx.value.err then after == fills - {key}
              else
                var m, wallet := tx.value, was.lineage.wallet;
                var gain := OwnerTotal(m.post, wallet) - OwnerTotal(m.pre, wallet);
                if (OwnerAppears(m.pre, wallet) || OwnerAppears(m.post, wallet)) && key in fills
                then after == fills[key := Fill(fills[key].bet, Some(if gain < 0.0 then -gain else gain), Chain)]
                else after == fills
  {
    hide OwnerTotal, OwnerAppears;
  }

  function RowsAfter(rows: seq<Row>, truths: seq<Truth>): seq<Row> {
    if |truths| == 0 then rows else Apply(RowsAfter(rows, truths[..|truths| - 1]), ApplyTruth(truths[|truths| - 1]))
  }

  function AllFillsAfter(fills: Fills, truths: seq<Truth>): Fills {
    if |truths| == 0 then fills else FillsAfter(AllFillsAfter(fills, truths[..|truths| - 1]), truths[|truths| - 1])
  }

  lemma NoTruths(rows: seq<Row>, fills: Fills, snaps: seq<Snap>, now: int)
    requires forall s <- snaps :: Queued(s.row)
    ensures Truths(snaps, [], now) == [] && RowsAfter(rows, []) == rows && AllFillsAfter(fills, []) == fills
  {
  }

  lemma OneMoreReply(snaps: seq<Snap>, replies: seq<Reply<Option<TxMeta>>>, reply: Reply<Option<TxMeta>>, now: int)
    requires |replies| < |snaps| && forall s <- snaps :: Queued(s.row)
    ensures Truths(snaps, replies + [reply], now) == Truths(snaps, replies, now) +
              (match TruthOf(snaps[|replies|], reply, now) case None => [] case Some(t) => [t])
  {
    assert (replies + [reply])[..|replies|] == replies;
  }

  lemma OneMoreTruth(rows: seq<Row>, fills: Fills, truths: seq<Truth>, t: Truth)
    ensures RowsAfter(rows, truths + [t]) == Apply(RowsAfter(rows, truths), ApplyTruth(t))
    ensures AllFillsAfter(fills, truths + [t]) == FillsAfter(AllFillsAfter(fills, truths), t)
  {
    assert (truths + [t])[..|truths|] == truths;
  }

  lemma VerdictIsLocal(rows: seq<Row>, others: seq<Row>, snap: Snap, reply: Reply<Option<TxMeta>>, now: int)
    requires Queued(snap.row) && snap.bet < |rows| == |others| && rows[snap.bet] == others[snap.bet]
    ensures OnlyAt(rows, Verdict(rows, snap, reply, now), snap.bet)
    ensures Verdict(rows, snap, reply, now)[snap.bet] == Verdict(others, snap, reply, now)[snap.bet]
  {
  }

  /** The queue lists no bet twice. */
  ghost predicate NoneTwice(snaps: seq<Snap>) {
    forall i, j :: 0 <= i < j < |snaps| ==> snaps[i].bet != snaps[j].bet
  }

  lemma OneMoreVerdict(rows: seq<Row>, snaps: seq<Snap>, replies: seq<Reply<Option<TxMeta>>>, now: int)
    requires 0 < |replies| <= |snaps| && forall s <- snaps :: Queued(s.row)
    ensures var n := |replies| - 1;
            var before := RowsAfter(rows, Truths(snaps, replies[..n], now));
            RowsAfter(rows, Truths(snaps, replies, now)) == Verdict(before, snaps[n], replies[n], now)
  {
    hide TruthOf, Apply;
    var n := |replies| - 1;
    var truths, t := Truths(snaps, replies[..n], now), TruthOf(snaps[n], replies[n], now);
    if t.Some? {
      OneMoreTruth(rows, map[], truths, t.value);
    } else {
      assert truths + [] == truths;
    }
  }

  /** What a verify pass leaves: each bet it reached has the verdict on its own reply, as if it were the only one, and
      every other row is as it was. */
  lemma {:induction false} PassVerdict(rows: seq<Row>, snaps: seq<Snap>, replies: seq<Reply<Option<TxMeta>>>, now: int)
    requires |replies| <= |snaps| && (forall s <- snaps :: Queued(s.row) && s.bet < |rows|) && NoneTwice(snaps)
    ensures var after := RowsAfter(rows, Truths(snaps, replies, now));
            && |after| == |rows|
            && (forall i :: 0 <= i < |replies| ==>
                  after[snaps[i].bet] == Verdict(rows, snaps[i], replies[i], now)[snaps[i].bet])
            && (forall b :: 0 <= b < |rows| && (forall i :: 0 <= i < |replies| ==> snaps[i].bet != b) ==>
                  after[b] == rows[b])
  {
    hide Truths, RowsAfter, Verdict;
    if |replies| == 0 {
      NoTruths(rows, map[], snaps, now);
      assert replies == [];
    } else {
      var n := |replies| - 1;
      var before := RowsAfter(rows, Truths(snaps, replies[..n], now));
      PassVerdict(rows, snaps, replies[..n], now);
      OneMoreVerdict(rows, snaps, replies, now);
      VerdictIsLocal(before, rows, snaps[n], replies[n], now);
    }
  }

  datatype LivePosition = LivePosition(market: Market, side: Side)

  /** The chain, the venue and the clock, answering as they like. */
  datatype SweepEnv = SweepEnv(
    late: nat -> bool,
    getTx: (nat, Sig) -> Reply<Option<TxMeta>>,
    getLivePositions: (nat, nat) -> Reply<seq<LivePosition>>)

  /** The signature-verify loop: the truths of the candidates reached before the deadline are applied in order, and
      each is counted. */
  method VerifyPass(db: Db, candidates: seq<Snap>, env: SweepEnv, now: int)
    returns (checked: nat, replies: seq<Reply<Option<TxMeta>>>)
    requires forall s <- candidates :: Queued(s.row)
    modifies db
    ensures |replies| <= |candidates| && (|replies| < |candidates| ==> env.late(|replies|))
    ensures forall i :: 0 <= i < |replies| ==>
              var row := candidates[i].row;
              var sig := if row.status == Closed then row.meta.closeSig else row.meta.openSig;
              !env.late(i) && sig.Some? && replies[i] == env.getTx(i, sig.value)
    ensures var truths := Truths(candidates, replies, now);
            && checked == |truths|
            && db.rows == RowsAfter(old(db.rows), truths) && db.fills == AllFillsAfter(old(db.fills), truths)
  {
    hide Apply, FillsAfter, TruthFor, TruthOf, ReplyOf, Truths, RowsAfter, AllFillsAfter;
    checked, replies := 0, [];
    ghost var truths: seq<Truth> := [];
    NoTruths(db.rows, db.fills, candidates, now);
    var i := 0;
    while i < |candidates| && !env.late(i)
      invariant 0 <= i == |replies| <= |candidates|
      invariant forall j :: 0 <= j < i ==> !env.late(j) && replies[j] == env.getTx(j, SigOf(candidates[j].row))
      invariant truths == Truths(candidates, replies, now) && checked == |truths|
      invariant db.rows == RowsAfter(old(db.rows), truths) && db.fills == AllFillsAfter(old(db.fills), truths)
    {
      var snap := candidates[i];
      assert snap in candidates;
      var reply := env.getTx(i, SigOf(snap.row));
      OneMoreReply(candidates, replies, reply, now);
      replies := replies + [reply];
      i := i + 1;
      var truth := TruthOf(snap, reply, now);
      if truth.Some? {
        checked := checked + 1;
        db.ApplyChainTruth(truth.value);
        OneMoreTruth(old(db.rows), old(db.fills), truths, truth.value);
        truths := truths + [truth.value];
      }
    }
  }

  predicate Alive(positions: seq<LivePosition>, row: Row) {
    exists p <- positions :: p.market == row.lineage.market && p.side == row.lineage.side
  }

  /** The wallet's positions could be read, and none of them is this bet's. */
  predicate Gone(known: map<nat, Option<seq<LivePosition>>>, row: Row) {
    var wallet := row.lineage.wallet;
    wallet in known && known[wallet].Some? && !Alive(known[wallet].value, row)
  }

  lemma GoneMeans(known: map<nat, Option<seq<LivePosition>>>, row: Row)
    ensures Gone(known, row) <==>
              && row.lineage.wallet in known && known[row.lineage.wallet].Some?
              && forall p <- known[row.lineage.wallet].value ::
                   p.market != row.lineage.market || p.side != row.lineage.side
  {
  }

  /** What is remembered is one read a wallet, in the order asked; a failed read is remembered as unknown. */
  ghost predicate Remembers(env: SweepEnv, known: map<nat, Option<seq<LivePosition>>>, asked: seq<nat>) {
    && (forall w :: w in known <==> w in asked)
    && (forall k :: 0 <= k < |asked| ==> known[asked[k]] == Known(env.getLivePositions(k, asked[k])))
    && forall j, k :: 0 <= j < k < |asked| ==> asked[j] != asked[k]
  }

  lemma RemembersMore(env: SweepEnv, known: map<nat, Option<seq<LivePosition>>>, asked: seq<nat>, w: nat)
    requires Remembers(env, known, asked) && w !in known
    ensures Remembers(env, known[w := Known(env.getLivePositions(|asked|, w))], asked + [w])
  {
    hide Known;
  }

  /** The liveness loop. Each wallet is read at most once; a bet reached before the deadline is expired exactly when its
      wallet was read successfully and shows no position on its market and side. */
  method LivenessPass(db: Db, candidates: seq<Snap>, env: SweepEnv, now: int)
    returns (reached: nat, expired: seq<nat>, positionsByWallet: map<nat, Option<seq<LivePosition>>>, asked: seq<nat>)
    modifies db`rows
    ensures reached <= |candidates| && (reached < |candidates| ==> env.late(reached))
    ensures forall i :: 0 <= i < |candidates| ==>
              var bet := candidates[i].row.lineage;
              i in expired <==>
                && i < reached && bet.wallet in positionsByWallet && positionsByWallet[bet.wallet].Some?
                && forall p <- positionsByWallet[bet.wallet].value :: p.market != bet.market || p.side != bet.side
    ensures Remembers(env, positionsByWallet, asked)
    ensures forall i :: 0 <= i < reached ==> candidates[i].row.lineage.wallet in positionsByWallet
    ensures db.rows == RowsExpired(old(db.rows), candidates, expired, now)
  {
    hide Apply, Alive, Known, Remembers;
    reached, expired, positionsByWallet, asked := 0, [], map[], [];
    NothingRemembered(env);
    while reached < |candidates| && !env.late(reached)
      invariant 0 <= reached <= |candidates|
      invariant Remembers(env, positionsByWallet, asked)
      invariant forall i :: 0 <= i < reached ==> candidates[i].row.lineage.wallet in positionsByWallet
      invariant forall i <- expired :: i < reached
      invariant forall i :: 0 <= i < reached ==> (i in expired <==> Gone(positionsByWallet, candidates[i].row))
      invariant db.rows == RowsExpired(old(db.rows), candidates, expired, now)
    {
      var bet := candidates[reached];
      var wallet := bet.row.lineage.wallet;
      if wallet !in positionsByWallet {
        var read := env.getLivePositions(|asked|, wallet);
        RemembersMore(env, positionsByWallet, asked, wallet);
        positionsByWallet := positionsByWallet[wallet := Known(read)];
        asked := asked + [wallet];
      }
      var positions := positionsByWallet[wallet];
      var dead := positions.Some? && !Alive(positions.value, bet.row);
      if dead {
        db.MarkClosedExternal(bet.bet, bet.row.meta, now);
        ghost var before := expired;
        expired := expired + [reached];
        assert expired[..|expired| - 1] == before;
      }
      reached := reached + 1;
    }
    forall i | 0 <= i < |candidates|
      ensures Gone(positionsByWallet, candidates[i].row) <==>
                var bet := candidates[i].row.lineage;
                && bet.wallet in positionsByWallet && positionsByWallet[bet.wallet].Some?
                && forall p <- positionsByWallet[bet.wallet].value :: p.market != bet.market || p.side != bet.side
    {
      GoneMeans(positionsByWallet, candidates[i].row);
    }
  }

  lemma NothingRemembered(env: SweepEnv)
    ensures Remembers(env, map[], [])
  {
  }

  /** Unreadable is not dead: a failed read is remembered as unknown. */
  function Known(read: Reply<seq<LivePosition>>): Option<seq<LivePosition>> {
    match read case Ok(ps) => Some(ps) case Threw => None
  }

  function RowsExpired(rows: seq<Row>, candidates: seq<Snap>, expired: seq<nat>, now: int): seq<Row> {
    if |expired| == 0 then rows
    else
      var before, i := RowsExpired(rows, candidates, expired[..|expired| - 1], now), expired[|expired| - 1];
      if i < |candidates| then Apply(before, MarkExternal(candidates[i].bet, candidates[i].row.meta, now)) else before
  }

  /** The i-th candidate is expired and was open when its turn came: it becomes closed-external now, in the version that
      was listed, with no proceeds stamped. */
  ghost predicate ExpiredAs(rows: seq<Row>, after: seq<Row>, snap: Snap, now: int) {
    && snap.bet < |rows| == |after|
    && after[snap.bet] == if rows[snap.bet].status != Confirmed then rows[snap.bet]
                          else rows[snap.bet].(status := ClosedExternal, closedAt := Some(now),
                                               meta := snap.row.meta.(closeReason := Some(External)))
  }

  /** What the liveness loop leaves, row by row, when it expired these candidates. */
  lemma {:induction false} ExpiredExactly(rows: seq<Row>, candidates: seq<Snap>, expired: seq<nat>, now: int)
    requires (forall s <- candidates :: s.bet < |rows|) && NoneTwice(candidates)
    requires forall i <- expired :: i < |candidates|
    requires forall j, k :: 0 <= j < k < |expired| ==> expired[j] != expired[k]
    ensures var after := RowsExpired(rows, candidates, expired, now);
            && |after| == |rows|
            && (forall i <- expired :: ExpiredAs(rows, after, candidates[i], now))
            && (forall b :: 0 <= b < |rows| && (forall i <- expired :: candidates[i].bet != b) ==> after[b] == rows[b])
  {
    if |expired| > 0 {
      var n := |expired| - 1;
      var init, i := expired[..n], expired[n];
      assert i in expired && forall j <- init :: j in expired;
      ExpiredExactly(rows, candidates, init, now);
      var before, snap := RowsExpired(rows, candidates, init, now), candidates[i];
      forall j <- init ensures candidates[j].bet != snap.bet {
        var m :| 0 <= m < n && init[m] == j;
        assert expired[m] != expired[n];
      }
      assert before[snap.bet] == rows[snap.bet];
      forall j <- expired ensures j in init || j == i {
        var m :| 0 <= m <= n && expired[m] == j;
        assert m < n ==> init[m] == j;
      }
    }
  }
}
