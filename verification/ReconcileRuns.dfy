/** The sweep as a snapshot-then-compare-and-set process, interleaved with the confirm postbacks of users and of the
    engine. Every postback is itself a load, then a guarded update, then a fill insert. */
module ReconcileRuns {
  import opened Base
  import opened Ledger
  import opened Reconcile
  import Brain

  /** A sweep in progress: the listed bets it has not dealt with yet. */
  datatype Sweep = Idle | Verifying(todo: seq<Snap>) | Expiring(todo: seq<Snap>)

  /** A postback in progress. */
  datatype Post = Loaded(action: Action, bet: BetId, meta: Meta) | Owes(sig: Sig, action: Action, fill: Fill)

  datatype World = World(rows: seq<Row>, fills: Fills, sweeps: seq<Sweep>, posts: map<nat, Post>)

  datatype Label =
    | Record(row: Row)
    | ReapPending(cutoff: int, only: Option<set<BetId>>)
    | Load(p: nat, action: Action, bet: BetId)
    | CasOpen(p: nat, sig: Sig, notional: Option<real>)
    | CasClose(p: nat, sig: Sig, estimate: Option<real>, reason: Reason, now: int)
    | InsertFill(p: nat)
    | ListQueue(k: nat, bets: seq<BetId>)
    | Verify(k: nat, reply: Reply<Option<TxMeta>>, now: int)
    | ListLive(k: nat, bets: seq<BetId>, cutoff: int)
    | Expire(k: nat, dead: bool, now: int)
    | Stop(k: nat)

  // ---------------------------------------------------------------- steps

  function Guard(a: Action): Status { match a case Open => Pending case Close => Confirmed }

  ghost predicate NoRepeats(bets: seq<BetId>) { forall i, j :: 0 <= i < j < |bets| ==> bets[i] != bets[j] }

  function SnapsOf(rows: seq<Row>, bets: seq<BetId>): (snaps: seq<Snap>)
    requires forall i :: 0 <= i < |bets| ==> bets[i] < |rows|
    ensures |snaps| == |bets| && forall i :: 0 <= i < |bets| ==> snaps[i] == Snap(bets[i], rows[bets[i]])
  {
    seq(|bets|, i requires 0 <= i < |bets| => Snap(bets[i], rows[bets[i]]))
  }

  ghost predicate Enabled(w: World, l: Label) {
    match l
    case Record(row) => row.status == Pending
    case ReapPending(_, _) => true
    case Load(p, a, b) => p !in w.posts && Matches(w.rows, b, Guard(a))
    case CasOpen(p, _, _) => p in w.posts && w.posts[p].Loaded? && w.posts[p].action == Open
    case CasClose(p, _, _, _, _) => p in w.posts && w.posts[p].Loaded? && w.posts[p].action == Close
    case InsertFill(p) => p in w.posts && w.posts[p].Owes?
    case ListQueue(k, bets) =>
      && k < |w.sweeps| && w.sweeps[k].Idle? && NoRepeats(bets)
      && forall i :: 0 <= i < |bets| ==> bets[i] < |w.rows| && Queued(w.rows[bets[i]])
    case Verify(k, _, _) =>
      k < |w.sweeps| && w.sweeps[k].Verifying? && |w.sweeps[k].todo| > 0 && Queued(w.sweeps[k].todo[0].row)
    case ListLive(k, bets, cutoff) =>
      && k < |w.sweeps| && w.sweeps[k].Verifying? && NoRepeats(bets)
      && forall i :: 0 <= i < |bets| ==> bets[i] < |w.rows| && LivenessCandidate(w.rows[bets[i]], cutoff)
    case Expire(k, _, _) => k < |w.sweeps| && w.sweeps[k].Expiring? && |w.sweeps[k].todo| > 0
    case Stop(k) => k < |w.sweeps|
  }

  function Posted(w: World, p: nat, x: Write, owes: Post): World
    requires p in w.posts && w.posts[p].Loaded?
  {
    if Matches(w.rows, w.posts[p].bet, Guard(w.posts[p].action))
    then w.(rows := Apply(w.rows, x), posts := w.posts[p := owes])
    else w.(posts := w.posts - {p})
  }

  ghost function Step(w: World, l: Label): World
    requires Enabled(w, l)
  {
    match l
    case Record(row) => w.(rows := Apply(w.rows, Insert(row)))
    case ReapPending(cutoff, only) => w.(rows := Apply(w.rows, Reap(cutoff, only)))
    case Load(p, a, b) => w.(posts := w.posts[p := Loaded(a, b, w.rows[b].meta)])
    case CasOpen(p, sig, notional) =>
      var post := w.posts[p];
      Posted(w, p, ConfirmOpen(post.bet, sig, post.meta), Owes(sig, Open, Fill(post.bet, notional, QuoteEstimate)))
    case CasClose(p, sig, est, reason, now) =>
      var post := w.posts[p];
      Posted(w, p, ConfirmClose(post.bet, sig, est, reason, now, post.meta),
          Owes(sig, Close, Fill(post.bet, est, QuoteEstimate)))
    case InsertFill(p) =>
      var post, key := w.posts[p], (w.posts[p].sig, w.posts[p].action);
      // ON CONFLICT DO NOTHING
      w.(fills := if key in w.fills then w.fills else w.fills[key := post.fill], posts := w.posts - {p})
    case ListQueue(k, bets) => w.(sweeps := w.sweeps[k := Verifying(SnapsOf(w.rows, bets))])
    case Verify(k, reply, now) =>
      var snap := w.sweeps[k].todo[0];
      var popped := w.(sweeps := w.sweeps[k := Verifying(w.sweeps[k].todo[1..])]);
      (match TruthOf(snap, reply, now)
       case None => popped
       case Some(t) => popped.(rows := Apply(w.rows, ApplyTruth(t)), fills := FillsAfter(w.fills, t)))
    case ListLive(k, bets, _) => w.(sweeps := w.sweeps[k := Expiring(SnapsOf(w.rows, bets))])
    case Expire(k, dead, now) =>
      var snap := w.sweeps[k].todo[0];
      var popped := w.(sweeps := w.sweeps[k := Expiring(w.sweeps[k].todo[1..])]);
      if dead then popped.(rows := Apply(w.rows, MarkExternal(snap.bet, snap.row.meta, now))) else popped
    case Stop(k) => w.(sweeps := w.sweeps[k := Idle])
  }

  ghost predicate Legal(w: World, run: seq<Label>)
    decreases |run|
  {
    |run| == 0 || (Enabled(w, run[0]) && Legal(Step(w, run[0]), run[1..]))
  }

  ghost function After(w: World, run: seq<Label>): World
    requires Legal(w, run)
    decreases |run|
  {
    if |run| == 0 then w else After(Step(w, run[0]), run[1..])
  }

  // ---------------------------------------------------------------- no ABA with one sweeper

  function Todo(s: Sweep): seq<Snap> { if s.Idle? then [] else s.todo }

  /** The row is the listed version, or a user has closed it since it was listed as open. */
  predicate Current(rows: seq<Row>, snap: Snap) {
    && snap.bet < |rows|
    && (snap.row.status == Confirmed || snap.row.status == Closed)
    && (rows[snap.bet] == snap.row || (snap.row.status == Confirmed && rows[snap.bet].status == Closed))
  }

  /** An open bet whose open the chain has confirmed. */
  predicate Verified(row: Row) { row.status == Confirmed && row.meta.reconciledAt.Some? }

  ghost predicate OneSweeper(w: World) {
    && |w.sweeps| == 1
    && (forall i :: 0 <= i < |Todo(w.sweeps[0])| ==> Current(w.rows, Todo(w.sweeps[0])[i]))
    && (forall i :: 0 <= i < |Todo(w.sweeps[0])| ==>
          if w.sweeps[0].Verifying? then Queued(Todo(w.sweeps[0])[i].row)
          else Verified(Todo(w.sweeps[0])[i].row))
    && (forall i, j :: 0 <= i < j < |Todo(w.sweeps[0])| ==> Todo(w.sweeps[0])[i].bet != Todo(w.sweeps[0])[j].bet)
  }

  /** A write by anyone but the sweeper keeps every listed row current. */
  lemma OthersKeepCurrent(rows: seq<Row>, x: Write, snap: Snap)
    requires Current(rows, snap)
    requires x.Insert? || x.Reap? || x.ConfirmOpen? || x.ConfirmClose?
    ensures Current(Apply(rows, x), snap)
  {
  }

  /** A write of the sweep for another bet does not touch this one. */
  lemma OtherBetKeepsCurrent(rows: seq<Row>, x: Write, snap: Snap, b: BetId)
    requires Current(rows, snap) && b != snap.bet
    requires (x.ApplyTruth? && x.truth.bet == b) || (x.MarkExternal? && x.bet == b)
    ensures Current(Apply(rows, x), snap)
  {
  }

  lemma PostsKeep(w: World, l: Label)
    requires OneSweeper(w) && Enabled(w, l)
    requires l.Record? || l.ReapPending? || l.Load? || l.CasOpen? || l.CasClose? || l.InsertFill?
    ensures OneSweeper(Step(w, l))
  {
    var w', todo := Step(w, l), Todo(w.sweeps[0]);
    forall i | 0 <= i < |todo| ensures Current(w'.rows, todo[i]) {
      if w'.rows != w.rows {
        OthersKeepCurrent(w.rows,
          match l
          case Record(row) => Insert(row)
          case ReapPending(cutoff, only) => Reap(cutoff, only)
          case CasOpen(p, sig, _) => ConfirmOpen(w.posts[p].bet, sig, w.posts[p].meta)
          case CasClose(p, sig, est, reason, now) =>
            ConfirmClose(w.posts[p].bet, sig, est, reason, now, w.posts[p].meta)
          case _ => Reap(0, None),
          todo[i]);
      }
    }
  }

  lemma SweepKeeps(w: World, l: Label)
    requires OneSweeper(w) && Enabled(w, l) && (l.Verify? || l.Expire?)
    ensures OneSweeper(Step(w, l))
  {
    var w', todo := Step(w, l), Todo(w.sweeps[0]);
    forall i | 1 <= i < |todo| ensures Current(w'.rows, todo[i]) {
      assert todo[0].bet != todo[i].bet;
      if l.Verify? && TruthOf(todo[0], l.reply, l.now).Some? {
        OtherBetKeepsCurrent(w.rows, ApplyTruth(TruthOf(todo[0], l.reply, l.now).value), todo[i], todo[0].bet);
      } else if l.Expire? && l.dead {
        OtherBetKeepsCurrent(w.rows, MarkExternal(todo[0].bet, todo[0].row.meta, l.now), todo[i], todo[0].bet);
      }
    }
  }

  lemma StepKeeps(w: World, l: Label)
    requires OneSweeper(w) && Enabled(w, l)
    ensures OneSweeper(Step(w, l))
  {
    match l
    case Verify(_, _, _) => SweepKeeps(w, l);
    case Expire(_, _, _) => SweepKeeps(w, l);
    case ListQueue(k, bets) =>
    case ListLive(k, bets, _) =>
    case Stop(_) =>
    case _ => PostsKeep(w, l);
  }

  ghost predicate Started(w: World) { |w.sweeps| == 1 && w.sweeps[0].Idle? }

  lemma {:induction false} RunKeeps(w: World, run: seq<Label>)
    requires OneSweeper(w) && Legal(w, run)
    ensures OneSweeper(After(w, run))
    decreases |run|
  {
    if |run| > 0 {
      StepKeeps(w, run[0]);
      RunKeeps(Step(w, run[0]), run[1..]);
    }
  }

  /** No ABA: with a single sweeper, however its steps interleave with postbacks, a step of the sweep changes a bet only
      if the row still is, in every field, the version the sweep listed. In particular a close confirmed since is
      never overwritten, and no other row is touched. */
  lemma SweepActsOnListedVersion(w: World, run: seq<Label>, l: Label, b: BetId)
    requires Started(w) && Legal(w, run) && Enabled(After(w, run), l) && (l.Verify? || l.Expire?)
    requires b < |After(w, run).rows|
    ensures var before, after, snap := After(w, run), Step(After(w, run), l), After(w, run).sweeps[l.k].todo[0];
            && |after.rows| == |before.rows|
            && (after.rows[b] != before.rows[b] ==> b == snap.bet && before.rows[b] == snap.row)
  {
    RunKeeps(w, run);
    assert Current(After(w, run).rows, Todo(After(w, run).sweeps[0])[0]);
  }

  /** So a bet is expired only in a version whose open the chain had confirmed, and it loses nothing by it: the step
      leaves its proceeds as they were. */
  lemma ExpiresOnlyVerified(w: World, run: seq<Label>, l: Label, b: BetId)
    requires Started(w) && Legal(w, run) && Enabled(After(w, run), l) && l.Expire? && b < |After(w, run).rows|
    requires Step(After(w, run), l).rows[b] != After(w, run).rows[b]
    ensures var row, after := After(w, run).rows[b], Step(After(w, run), l).rows[b];
            && l.dead && row.status == Confirmed && row.meta.reconciledAt.Some? && after.status == ClosedExternal
            && after.proceeds == row.proceeds && after.closedAt == Some(l.now)
            && after.meta == row.meta.(closeReason := Some(External))
  {
    RunKeeps(w, run);
    assert Current(After(w, run).rows, Todo(After(w, run).sweeps[0])[0]);
  }

  // ---------------------------------------------------------------- status safety

  /** The only status changes a sweep makes. */
  predicate SweepEdge(a: Status, b: Status) {
    || a == b
    || (a == Pending && b == Abandoned)
    || (a == Confirmed && b in {Failed, ClosedExternal})
    || (a == Closed && b == Confirmed)
  }

  predicate BySweep(l: Label) { l.ReapPending? || l.ListQueue? || l.Verify? || l.ListLive? || l.Expire? || l.Stop? }

  /** Whatever the number of sweepers, a sweep step moves a row only along the four edges. */
  lemma SweepStatusSafety(w: World, l: Label, b: BetId)
    requires Enabled(w, l) && BySweep(l) && b < |w.rows|
    ensures |Step(w, l).rows| == |w.rows| && SweepEdge(w.rows[b].status, Step(w, l).rows[b].status)
    ensures Step(w, l).rows[b].lineage == w.rows[b].lineage && Step(w, l).rows[b].stake == w.rows[b].stake
  {
  }

  /** Rows nothing may touch again: dead ones, and closes whose proceeds are chain truth. */
  predicate Settled(row: Row) {
    || row.status in {ClosedExternal, Failed, Abandoned}
    || (row.status == Closed && row.meta.proceedsSource == Some(Chain))
  }

  lemma SettledStep(w: World, l: Label, b: BetId)
    requires OneSweeper(w) && Enabled(w, l) && b < |w.rows| && Settled(w.rows[b])
    ensures b < |Step(w, l).rows| && Step(w, l).rows[b] == w.rows[b]
  {
    if l.Verify? || l.Expire? {
      assert Current(w.rows, Todo(w.sweeps[0])[0]);
    }
  }

  /** With a single sweeper a settled row never changes again, in any field, in any run: chain-stamped proceeds are
      final, and no dead bet comes back. */
  lemma {:induction false} SettledIsFinal(w: World, run: seq<Label>, b: BetId)
    requires OneSweeper(w) && Legal(w, run) && b < |w.rows| && Settled(w.rows[b])
    ensures b < |After(w, run).rows| && After(w, run).rows[b] == w.rows[b]
    decreases |run|
  {
    if |run| > 0 {
      StepKeeps(w, run[0]);
      SettledStep(w, run[0], b);
      SettledIsFinal(Step(w, run[0]), run[1..], b);
    }
  }

  // ---------------------------------------------------------------- fills over runs

  type Key = (Sig, Action)

  datatype FillOp = Inserts | Deletes | Neither

  /** What a step does to the fill of that key: a postback's insert, or the deletion that a failed truth brings. */
  ghost function OnFill(w: World, l: Label, key: Key): FillOp
    requires Enabled(w, l)
  {
    match l
    case InsertFill(p) => if (w.posts[p].sig, w.posts[p].action) == key then Inserts else Neither
    case Verify(k, reply, now) =>
      (match TruthOf(w.sweeps[k].todo[0], reply, now)
       case None => Neither
       case Some(t) => if t.failed && (t.sig, t.action) == key then Deletes else Neither)
    case _ => Neither
  }

  ghost function FillOps(w: World, run: seq<Label>, key: Key): (ops: seq<FillOp>)
    requires Legal(w, run)
    ensures |ops| == |run|
    decreases |run|
  {
    if |run| == 0 then [] else [OnFill(w, run[0], key)] + FillOps(Step(w, run[0]), run[1..], key)
  }

  ghost predicate NeverDeleted(ops: seq<FillOp>) { forall j :: 0 <= j < |ops| ==> ops[j] != Deletes }

  /** Some insert came after the last deletion. */
  ghost predicate InsertedLast(ops: seq<FillOp>) {
    exists i :: 0 <= i < |ops| && ops[i] == Inserts && NeverDeleted(ops[i + 1..])
  }

  lemma FillStep(w: World, l: Label, key: Key)
    requires Enabled(w, l)
    ensures key in Step(w, l).fills <==> match OnFill(w, l, key)
                                         case Inserts => true
                                         case Deletes => false
                                         case Neither => key in w.fills
  {
  }

  lemma OpsPush(op: FillOp, ops: seq<FillOp>)
    ensures NeverDeleted([op] + ops) <==> op != Deletes && NeverDeleted(ops)
    ensures InsertedLast([op] + ops) <==> InsertedLast(ops) || (op == Inserts && NeverDeleted(ops))
  {
    var all := [op] + ops;
    assert all[1..] == ops;
    if op != Deletes && NeverDeleted(ops) {
      forall j | 0 <= j < |all| ensures all[j] != Deletes { assert j > 0 ==> all[j] == ops[j - 1]; }
    }
    if NeverDeleted(all) {
      assert all[0] == op;
      forall j | 0 <= j < |ops| ensures ops[j] != Deletes { assert all[j + 1] == ops[j]; }
    }
    if i :| 0 <= i < |ops| && ops[i] == Inserts && NeverDeleted(ops[i + 1..]) {
      assert all[i + 1] == Inserts && all[i + 1 + 1..] == ops[i + 1..];
    }
    if i :| 0 <= i < |all| && all[i] == Inserts && NeverDeleted(all[i + 1..]) {
      if i > 0 { assert ops[i - 1] == Inserts && ops[i - 1 + 1..] == all[i + 1..]; }
    }
    if op == Inserts && NeverDeleted(ops) {
      assert all[0] == Inserts && all[0 + 1..] == ops;
    }
  }

  /** Over every run, with any number of sweepers: a fill is there exactly when it was there before and never deleted,
      or an insert came after its last deletion. */
  lemma {:induction false} FillsExactly(w: World, run: seq<Label>, key: Key)
    requires Legal(w, run)
    ensures key in After(w, run).fills
       <==> (key in w.fills && NeverDeleted(FillOps(w, run, key))) || InsertedLast(FillOps(w, run, key))
    decreases |run|
  {
    hide Enabled, Step, OnFill;
    if |run| > 0 {
      FillStep(w, run[0], key);
      FillsExactly(Step(w, run[0]), run[1..], key);
      OpsPush(OnFill(w, run[0], key), FillOps(Step(w, run[0]), run[1..], key));
    }
  }

  /** So after a failed truth its fill is back exactly when a postback inserted it later and no failed truth after that;
      with no later insert it stays gone in every run. */
  lemma FailedFillReturnsExactly(w: World, l: Label, run: seq<Label>, key: Key)
    requires Enabled(w, l) && OnFill(w, l, key) == Deletes && Legal(Step(w, l), run)
    ensures key in After(Step(w, l), run).fills <==> InsertedLast(FillOps(Step(w, l), run, key))
    ensures Inserts !in FillOps(Step(w, l), run, key) ==> key !in After(Step(w, l), run).fills
  {
    hide Enabled, Step, OnFill;
    FillStep(w, l, key);
    FillsExactly(Step(w, l), run, key);
  }

  // ---------------------------------------------------------------- two sweepers, and a late fill

  const L0 := Lineage(None, BTC, Brain.Long, 7, None)

  /** A bet closed under signature 1, on its quote estimate. */
  const CLOSED_ONCE := Row(L0, 5.0, 0, Closed, Some(1), Some(1), Some(4.0),
                           Meta(Some(0), Some(1), Some(Manual), Some(QuoteEstimate), None))

  /** The same bet closed again under signature 2. */
  const CLOSED_TWICE := Row(L0, 5.0, 0, Closed, Some(9), Some(2), Some(6.0),
                            Meta(Some(0), Some(2), Some(Manual), Some(QuoteEstimate), None))

  const FAILED_TX: Reply<Option<TxMeta>> := Ok(Some(TxMeta(true, [], [])))

  function Reopened(): Row {
    CLOSED_ONCE.(status := Confirmed, closedAt := None, closeTxHash := None, proceeds := None,
                 meta := CLOSED_ONCE.meta.(closeSig := None, closeReason := None, proceedsSource := None))
  }

  /** ABA with two sweepers or more. Two of them list the close of signature 1; the second one finds it failed and
      reopens the bet; the user closes it again under signature 2; the first sweeper then applies the stale failure of
      signature 1 and reopens the bet a second time. The user's close is lost. */
  lemma TwoSweepersLoseAClose(w: World, run: seq<Label>)
    requires w == World([CLOSED_ONCE], map[], w.sweeps, map[]) && TwoIdle(w.sweeps)
    requires run == [ListQueue(0, [0]), ListQueue(1, [0]), Verify(1, FAILED_TX, 5), Load(3, Close, 0),
                     CasClose(3, 2, Some(6.0), Manual, 9), Verify(0, FAILED_TX, 10)]
    ensures Legal(w, run[..5]) && After(w, run[..5]).rows == [CLOSED_TWICE] && Enabled(After(w, run[..5]), run[5])
    ensures After(w, run[..5]).sweeps[0] == Verifying([Snap(0, CLOSED_ONCE)])
    ensures Step(After(w, run[..5]), run[5]).rows == [Reopened()]
    ensures Legal(w, run) && After(w, run).rows == [Reopened()]
  {
    var stale, done := Verifying([Snap(0, CLOSED_ONCE)]), Verifying([]);
    var both := w.sweeps[0 := stale][1 := stale];
    var w1 := w.(sweeps := w.sweeps[0 := stale]);
    var w2 := w.(sweeps := both);
    var w3 := World([Reopened()], map[], both[1 := done], map[]);
    var w4 := w3.(posts := map[3 := Loaded(Close, 0, Reopened().meta)]);
    var w5 := w3.(rows := [CLOSED_TWICE], posts := map[3 := Owes(2, Close, Fill(0, Some(6.0), QuoteEstimate))]);
    var w6 := w5.(rows := [Reopened()], sweeps := both[1 := done][0 := done]);
    hide Enabled, Step;
    BothList(w, w1, w2);
    StaleFailure(w2, 1, 5);
    StaleFailure(w5, 0, 10);
    UserCloses(w3, 3, Reopened(), 2, Some(6.0), 9);
    assert CloseConfirmed(Reopened(), 2, Some(6.0), Manual, 9, Reopened().meta) == CLOSED_TWICE;
    PathRuns([w, w1, w2, w3, w4, w5, w6], run);
    PathRuns([w, w1, w2, w3, w4, w5], run[..5]);
  }

  predicate TwoIdle(sweeps: seq<Sweep>) { |sweeps| >= 2 && sweeps[0].Idle? && sweeps[1].Idle? }

  lemma BothList(w: World, w1: World, w2: World)
    requires w == World([CLOSED_ONCE], map[], w.sweeps, map[]) && TwoIdle(w.sweeps)
    requires w1 == w.(sweeps := w.sweeps[0 := Verifying([Snap(0, CLOSED_ONCE)])])
    requires w2 == w1.(sweeps := w1.sweeps[1 := Verifying([Snap(0, CLOSED_ONCE)])])
    ensures Enabled(w, ListQueue(0, [0])) && Step(w, ListQueue(0, [0])) == w1
    ensures Enabled(w1, ListQueue(1, [0])) && Step(w1, ListQueue(1, [0])) == w2
  {
    assert SnapsOf(w.rows, [0]) == [Snap(0, CLOSED_ONCE)];
  }

  predicate SweepWrites(l: Label) { l.Verify? || l.Expire? }

  /** The step changes nothing but the listed bet, and that only while its row is the listed version. */
  ghost predicate ActsOnListed(w: World, l: Label)
    requires Enabled(w, l) && SweepWrites(l)
  {
    forall b :: 0 <= b < |w.rows| ==> OnListed(w, l, b)
  }

  ghost predicate OnListed(w: World, l: Label, b: BetId)
    requires Enabled(w, l) && SweepWrites(l) && b < |w.rows|
  {
    var after, snap := Step(w, l), w.sweeps[l.k].todo[0];
    |after.rows| == |w.rows| && (after.rows[b] != w.rows[b] ==> b == snap.bet && w.rows[b] == snap.row)
  }

  ghost predicate StartedWith(w: World, n: nat) { |w.sweeps| == n && forall k :: 0 <= k < n ==> w.sweeps[k].Idle? }

  lemma {:induction false} SweepersStay(w: World, run: seq<Label>)
    requires Legal(w, run)
    ensures |After(w, run).sweeps| == |w.sweeps|
    decreases |run|
  {
    if |run| > 0 { SweepersStay(Step(w, run[0]), run[1..]); }
  }

  /** A sweep step after a run of n sweepers that all start idle. */
  ghost predicate Sweeps(n: nat, w: World, run: seq<Label>, l: Label) {
    StartedWith(w, n) && Legal(w, run) && Enabled(After(w, run), l) && SweepWrites(l)
  }

  /** Exactly how many sweepers are safe: every sweep step of every run acts on the listed version, for any interleaving
      with postbacks, if and only if there is at most one. */
  lemma OneSweeperExactly(n: nat)
    ensures (forall w, run, l :: Sweeps(n, w, run, l) ==> ActsOnListed(After(w, run), l)) <==> n <= 1
  {
    if n <= 1 {
      forall w, run, l | Sweeps(n, w, run, l) ensures ActsOnListed(After(w, run), l) {
        SweepersStay(w, run);
        FewSweepersSafe(w, run, l);
      }
    } else {
      var w := World([CLOSED_ONCE], map[], seq(n, i => Idle), map[]);
      var run := [ListQueue(0, [0]), ListQueue(1, [0]), Verify(1, FAILED_TX, 5), Load(3, Close, 0),
                  CasClose(3, 2, Some(6.0), Manual, 9), Verify(0, FAILED_TX, 10)];
      TwoSweepersLoseAClose(w, run);
      hide Enabled, Step, Legal, After, ActsOnListed;
      LosesAClose(After(w, run[..5]), run[5]);
      assert Sweeps(n, w, run[..5], run[5]);
    }
  }

  lemma FewSweepersSafe(w: World, run: seq<Label>, l: Label)
    requires |w.sweeps| <= 1 && StartedWith(w, |w.sweeps|) && Legal(w, run) && |After(w, run).sweeps| == |w.sweeps|
    requires Enabled(After(w, run), l) && SweepWrites(l)
    ensures ActsOnListed(After(w, run), l)
  {
    var before := After(w, run);
    forall b | 0 <= b < |before.rows| ensures OnListed(before, l, b) { SweepActsOnListedVersion(w, run, l, b); }
  }

  lemma LosesAClose(w: World, l: Label)
    requires w.rows == [CLOSED_TWICE] && l == Verify(0, FAILED_TX, 10) && Enabled(w, l)
    requires w.sweeps[0] == Verifying([Snap(0, CLOSED_ONCE)]) && Step(w, l).rows == [Reopened()]
    ensures !ActsOnListed(w, l)
  {
    assert !OnListed(w, l, 0);
  }

  /** A sweeper that listed the close of signature 1 learns that it failed: it reopens whatever close it finds. */
  lemma StaleFailure(w: World, k: nat, now: int)
    requires k < |w.sweeps| && w.sweeps[k] == Verifying([Snap(0, CLOSED_ONCE)]) && w.fills == map[]
    requires |w.rows| == 1 && w.rows[0].status == Closed && w.rows[0].lineage == L0 && w.rows[0].stake == 5.0
        && w.rows[0].createdAt == 0
    ensures Enabled(w, Verify(k, FAILED_TX, now))
    ensures Step(w, Verify(k, FAILED_TX, now)) == World([Reopened()], map[], w.sweeps[k := Verifying([])], w.posts)
  {
    var snap := Snap(0, CLOSED_ONCE);
    var t := Truth(0, Close, 1, None, true, CLOSED_ONCE.meta, now);
    assert TruthOf(snap, FAILED_TX, now) == Some(t);
    assert [snap][1..] == [];
    assert FillsAfter(w.fills, t) == map[];
    assert Apply(w.rows, ApplyTruth(t)) == [Reopened()];
  }

  /** A user's close goes through undisturbed. */
  lemma UserCloses(w: World, p: nat, row: Row, sig: Sig, est: Option<real>, now: int)
    requires w.rows == [row] && row.status == Confirmed && p !in w.posts
    ensures var loaded := w.(posts := w.posts[p := Loaded(Close, 0, row.meta)]);
            && Enabled(w, Load(p, Close, 0)) && Step(w, Load(p, Close, 0)) == loaded
            && Enabled(loaded, CasClose(p, sig, est, Manual, now))
            && Step(loaded, CasClose(p, sig, est, Manual, now)) ==
                 w.(rows := [CloseConfirmed(row, sig, est, Manual, now, row.meta)],
                    posts := w.posts[p := Owes(sig, Close, Fill(0, est, QuoteEstimate))])
  {
    var loaded := w.(posts := w.posts[p := Loaded(Close, 0, row.meta)]);
    assert Apply(w.rows, ConfirmClose(0, sig, est, Manual, now, row.meta))
        == [CloseConfirmed(row, sig, est, Manual, now, row.meta)];
    assert loaded.posts[p := Owes(sig, Close, Fill(0, est, QuoteEstimate))]
        == w.posts[p := Owes(sig, Close, Fill(0, est, QuoteEstimate))];
  }

  ghost predicate Path(ws: seq<World>, run: seq<Label>) {
    |ws| == |run| + 1 && forall i :: 0 <= i < |run| ==> Enabled(ws[i], run[i]) && Step(ws[i], run[i]) == ws[i + 1]
  }

  lemma {:induction false} PathRuns(ws: seq<World>, run: seq<Label>)
    requires Path(ws, run)
    ensures Legal(ws[0], run) && After(ws[0], run) == ws[|run|]
    decreases |run|
  {
    hide Enabled, Step;
    if |run| > 0 {
      assert Enabled(ws[0], run[0]) && Step(ws[0], run[0]) == ws[1];
      PathRuns(ws[1..], run[1..]);
    }
  }

  /** A bet that is open and chain-verified. */
  const OPEN_BET := Row(L0, 5.0, 0, Confirmed, None, None, None, Meta(Some(0), None, None, None, Some(0)))

  /** The fill of a failed close can outlive the reconcile that dropped it: the postback updates the row first and
      inserts the fill last, so a sweep that verifies the close in between finds no fill to delete. */
  lemma LateFillSurvives(w: World, run: seq<Label>)
    requires w == World([OPEN_BET], map[], [Idle], map[])
    requires run == [Load(3, Close, 0), CasClose(3, 1, Some(4.0), Manual, 1), ListQueue(0, [0]),
        Verify(0, FAILED_TX, 2), InsertFill(3)]
    ensures Legal(w, run) && After(w, run).rows == [OPEN_BET]
    ensures After(w, run).fills == map[(1, Close) := Fill(0, Some(4.0), QuoteEstimate)]
  {
    var closed := CloseConfirmed(OPEN_BET, 1, Some(4.0), Manual, 1, OPEN_BET.meta);
    var snap, owes := Snap(0, closed), Owes(1, Close, Fill(0, Some(4.0), QuoteEstimate));
    var w1 := w.(posts := map[3 := Loaded(Close, 0, OPEN_BET.meta)]);
    var w2 := w.(rows := [closed], posts := map[3 := owes]);
    var w3 := w2.(sweeps := [Verifying([snap])]);
    var w4 := World([OPEN_BET], map[], [Verifying([])], map[3 := owes]);
    var w5 := w4.(fills := map[(1, Close) := owes.fill], posts := map[]);
    hide Enabled, Step;
    UserCloses(w, 3, OPEN_BET, 1, Some(4.0), 1);
    LateListing(w2, closed);
    LateVerify(w3, closed);
    LateInsert(w4, owes);
    assert w4.posts - {3} == map[];
    PathRuns([w, w1, w2, w3, w4, w5], run);
  }

  lemma LateListing(w: World, closed: Row)
    requires closed == CloseConfirmed(OPEN_BET, 1, Some(4.0), Manual, 1, OPEN_BET.meta)
    requires w.rows == [closed] && w.sweeps == [Idle]
    ensures Enabled(w, ListQueue(0, [0])) && Step(w, ListQueue(0, [0])) == w.(sweeps := [Verifying([Snap(0, closed)])])
  {
    assert SnapsOf(w.rows, [0]) == [Snap(0, closed)];
  }

  lemma LateInsert(w: World, owes: Post)
    requires owes == Owes(1, Close, Fill(0, Some(4.0), QuoteEstimate))
    requires w.posts == map[3 := owes] && w.fills == map[]
    ensures Enabled(w, InsertFill(3))
    ensures Step(w, InsertFill(3)) == w.(fills := map[(1, Close) := owes.fill], posts := w.posts - {3})
  {
  }

  lemma LateVerify(w: World, closed: Row)
    requires closed == CloseConfirmed(OPEN_BET, 1, Some(4.0), Manual, 1, OPEN_BET.meta)
    requires w.rows == [closed] && w.fills == map[] && w.sweeps == [Verifying([Snap(0, closed)])]
    ensures Enabled(w, Verify(0, FAILED_TX, 2))
    ensures Step(w, Verify(0, FAILED_TX, 2)) == World([OPEN_BET], map[], [Verifying([])], w.posts)
  {
    var t := Truth(0, Close, 1, None, true, closed.meta, 2);
    assert TruthOf(Snap(0, closed), FAILED_TX, 2) == Some(t);
    assert [Snap(0, closed)][1..] == [];
    assert FillsAfter(w.fills, t) == map[];
    assert Apply(w.rows, ApplyTruth(t)) == [OPEN_BET];
  }
}
