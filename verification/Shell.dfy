/** The deterministic risk shell (lib/autopilot/shell.ts). Times are epoch milliseconds. */
module Shell {
  import opened Base
  import opened Tiers

  const TILT_LOSS_STREAK := 2
  const TILT_WINDOW_MS := 5 * 60 * 1000

  datatype SessionState = SessionState(budgetUsd: real, realizedPnlUsd: real, tier: TierName)
  datatype RecentClose = RecentClose(pnlUsd: real, closedAt: int)
  datatype Phase = Active | Exhausted | Target

  datatype DenyReason = SessionOver(phase: Phase) | MaxConcurrent | TiltCooldown | BelowMinimum | ExceedsRemaining
  datatype Verdict =
    | Allow(stakeUsdc: real, leverage: real, mode: Mode, slRoiPct: int, tpRoiPct: int, maxHoldMin: int)
    | Deny(reason: DenyReason)

  function LossBudgetRemaining(s: SessionState): real { s.budgetUsd + MinR(s.realizedPnlUsd, 0.0) }

  function SessionPhase(s: SessionState): Phase {
    if s.realizedPnlUsd >= s.budgetUsd then Target
    else if LossBudgetRemaining(s) <= 0.0 then Exhausted
    else Active
  }

  // ---------------------------------------------------------------- tilt guard

  /** Inserts in front of every close that is not newer: a stable newest-first sort, like Array.sort. */
  function InsertNewest(c: RecentClose, s: seq<RecentClose>): seq<RecentClose> {
    if |s| == 0 then [c]
    else if s[0].closedAt > c.closedAt then [s[0]] + InsertNewest(c, s[1..])
    else [c] + s
  }

  function NewestFirst(s: seq<RecentClose>): seq<RecentClose> {
    if |s| == 0 then [] else InsertNewest(s[0], NewestFirst(s[1..]))
  }

  function Newest(s: seq<RecentClose>, k: nat): seq<RecentClose> {
    var sorted := NewestFirst(s);
    if |sorted| <= k then sorted else sorted[..k]
  }

  predicate IsTiltCooldown(closes: seq<RecentClose>, now: int) {
    if |closes| < TILT_LOSS_STREAK then false
    else
      var newest := Newest(closes, TILT_LOSS_STREAK);
      (forall c <- newest :: c.pnlUsd < 0.0)
      && |newest| > 0 && now - newest[0].closedAt <= TILT_WINDOW_MS
  }

  ghost predicate Sorted(s: seq<RecentClose>) {
    forall i, j :: 0 <= i < j < |s| ==> s[i].closedAt >= s[j].closedAt
  }

  /** No two closes share a time. Stated on the bag of closes, so it does not depend on their order. */
  ghost predicate DistinctTimes(m: multiset<RecentClose>) {
    && (forall c <- m :: m[c] == 1)
    && (forall c <- m, d <- m :: c.closedAt == d.closedAt ==> c == d)
  }

  lemma {:induction false} InsertNewestBag(c: RecentClose, s: seq<RecentClose>)
    ensures multiset(InsertNewest(c, s)) == multiset{c} + multiset(s)
  {
    if |s| > 0 {
      InsertNewestBag(c, s[1..]);
      assert s == [s[0]] + s[1..];
    }
  }

  lemma OlderThanHead(head: RecentClose, c: RecentClose, tail: seq<RecentClose>, rest: seq<RecentClose>)
    requires Sorted([head] + tail) && Sorted(rest) && head.closedAt > c.closedAt
    requires multiset(rest) == multiset{c} + multiset(tail)
    ensures Sorted([head] + rest)
  {
    forall j | 0 <= j < |rest| ensures head.closedAt >= rest[j].closedAt {
      assert rest[j] in multiset(rest);
      if rest[j] != c {
        assert rest[j] in multiset(tail);
        var k :| 0 <= k < |tail| && tail[k] == rest[j];
        assert ([head] + tail)[0] == head && ([head] + tail)[k + 1] == rest[j];
      }
    }
  }

  lemma {:induction false} InsertNewestSorts(c: RecentClose, s: seq<RecentClose>)
    requires Sorted(s)
    ensures Sorted(InsertNewest(c, s))
    ensures multiset(InsertNewest(c, s)) == multiset{c} + multiset(s)
  {
    InsertNewestBag(c, s);
    if |s| > 0 && s[0].closedAt > c.closedAt {
      InsertNewestSorts(c, s[1..]);
      assert s == [s[0]] + s[1..];
      OlderThanHead(s[0], c, s[1..], InsertNewest(c, s[1..]));
    }
  }

  lemma {:induction false} NewestFirstSorts(s: seq<RecentClose>)
    ensures Sorted(NewestFirst(s)) && multiset(NewestFirst(s)) == multiset(s) && |NewestFirst(s)| == |s|
  {
    if |s| > 0 {
      NewestFirstSorts(s[1..]);
      InsertNewestSorts(s[0], NewestFirst(s[1..]));
      assert s == [s[0]] + s[1..];
    }
    assert |multiset(NewestFirst(s))| == |multiset(s)|;
  }

  lemma HeadIsNewest(s: seq<RecentClose>, c: RecentClose)
    requires Sorted(s) && c in multiset(s)
    ensures |s| > 0 && s[0].closedAt >= c.closedAt
  {
    assert c in s;
  }

  /** Two listings of the same closes, both newest first, no two closes sharing a time. */
  ghost predicate SameListing(a: seq<RecentClose>, b: seq<RecentClose>) {
    Sorted(a) && Sorted(b) && multiset(a) == multiset(b) && DistinctTimes(multiset(a))
  }

  lemma SameHead(a: seq<RecentClose>, b: seq<RecentClose>)
    requires SameListing(a, b) && |a| > 0
    ensures |b| > 0 && a[0] == b[0]
  {
    var m := multiset(a);
    assert a[0] in m;
    HeadIsNewest(b, a[0]);
    assert b[0] in m;
    HeadIsNewest(a, b[0]);
  }

  lemma SameTails(a: seq<RecentClose>, b: seq<RecentClose>)
    requires SameListing(a, b) && |a| > 0 && |b| > 0 && a[0] == b[0]
    ensures SameListing(a[1..], b[1..])
  {
    SplitHead(a);
    SplitHead(b);
  }

  lemma SameLength(a: seq<RecentClose>, b: seq<RecentClose>)
    requires multiset(a) == multiset(b)
    ensures |a| == |b|
  {
    assert |multiset(a)| == |multiset(b)|;
  }

  lemma SameBag(a: seq<RecentClose>, b: seq<RecentClose>)
    requires SameListing(a, b)
    ensures multiset(a) == multiset(b)
  {
  }

  /** Two newest-first listings of the same closes are the same list when no two closes share a time. */
  lemma {:induction false} SortedUnique(a: seq<RecentClose>, b: seq<RecentClose>)
    requires SameListing(a, b)
    ensures a == b
  {
    hide SameListing, Sorted, DistinctTimes;
    assert multiset(a) == multiset(b) by { SameBag(a, b); }
    SameLength(a, b);
    if |a| > 0 {
      SameHead(a, b);
      SameTails(a, b);
      SortedUnique(a[1..], b[1..]);
      assert a == [a[0]] + a[1..] && b == [b[0]] + b[1..];
    }
  }

  lemma SplitHead(s: seq<RecentClose>)
    requires |s| > 0
    ensures multiset(s[1..]) == multiset(s) - multiset{s[0]}
  {
    assert s == [s[0]] + s[1..];
  }

  lemma {:induction false} SortedIsFixed(s: seq<RecentClose>)
    requires Sorted(s)
    ensures NewestFirst(s) == s
  {
    if |s| > 0 {
      SortedIsFixed(s[1..]);
      assert s == [s[0]] + s[1..];
    }
  }

  /** Order independence: any reordering of a history with distinct close times has the same verdict. */
  lemma TiltOrderIndependent(a: seq<RecentClose>, b: seq<RecentClose>, now: int)
    requires multiset(a) == multiset(b) && DistinctTimes(multiset(a))
    ensures IsTiltCooldown(a, now) == IsTiltCooldown(b, now)
  {
    NewestFirstSorts(a);
    NewestFirstSorts(b);
    SortedUnique(NewestFirst(a), NewestFirst(b));
  }

  /** The engine hands the guard only the newest `k >= 2` closes; that decides exactly like the whole history. */
  lemma TiltTruncated(history: seq<RecentClose>, k: nat, now: int)
    requires k >= TILT_LOSS_STREAK
    ensures IsTiltCooldown(Newest(history, k), now) == IsTiltCooldown(history, now)
  {
    NewestFirstSorts(history);
    SortedIsFixed(Newest(history, k));
  }

  /** With tied close times the verdict depends on the order the history comes in. */
  lemma TiltTieMatters(win: RecentClose, loss: RecentClose)
    requires win == RecentClose(1.0, 0) && loss == RecentClose(-1.0, 0)
    ensures multiset([loss, loss, win]) == multiset([win, loss, loss])
    ensures IsTiltCooldown([loss, loss, win], 0) && !IsTiltCooldown([win, loss, loss], 0)
  {
    TiltSorted([loss, loss, win], 0);
    TiltSorted([win, loss, loss], 0);
  }

  /** What the guard asks of a history that is already newest first: its two newest closes lost, and the newest of
      them is at most five minutes old. Through `TiltOrderIndependent` this decides every history with distinct
      close times. */
  lemma TiltSorted(s: seq<RecentClose>, now: int)
    requires Sorted(s)
    ensures IsTiltCooldown(s, now) <==>
              |s| >= 2 && s[0].pnlUsd < 0.0 && s[1].pnlUsd < 0.0 && now - s[0].closedAt <= 300_000
  {
    SortedIsFixed(s);
    if |s| >= 2 {
      var two := s[..2];
      assert Newest(s, 2) == two && two == [s[0], s[1]];
      assert s[0] in two && s[1] in two;
    }
  }

  // ---------------------------------------------------------------- exactly when the order of a history matters

  function CountIf(s: seq<RecentClose>, p: RecentClose -> bool): nat {
    if |s| == 0 then 0 else CountIf(s[..|s| - 1], p) + if p(s[|s| - 1]) then 1 else 0
  }

  lemma {:induction false} CountSplits(a: seq<RecentClose>, b: seq<RecentClose>, p: RecentClose -> bool)
    ensures CountIf(a + b, p) == CountIf(a, p) + CountIf(b, p)
  {
    if |b| == 0 {
      assert a + b == a;
    } else {
      CountSplits(a, b[..|b| - 1], p);
      assert (a + b)[..|a + b| - 1] == a + b[..|b| - 1];
    }
  }

  lemma CountOne(c: RecentClose, p: RecentClose -> bool)
    ensures CountIf([c], p) == if p(c) then 1 else 0
  {
    assert [c][..0] == [];
  }

  lemma CountWithout(s: seq<RecentClose>, i: nat, p: RecentClose -> bool)
    requires i < |s|
    ensures CountIf(s, p) == CountIf(s[..i] + s[i + 1..], p) + if p(s[i]) then 1 else 0
    ensures multiset(s) == multiset(s[..i] + s[i + 1..]) + multiset{s[i]}
  {
    assert s == s[..i] + ([s[i]] + s[i + 1..]);
    CountSplits(s[..i], [s[i]] + s[i + 1..], p);
    CountSplits([s[i]], s[i + 1..], p);
    CountSplits(s[..i], s[i + 1..], p);
    CountOne(s[i], p);
  }

  lemma CancelOne(m: multiset<RecentClose>, n: multiset<RecentClose>, c: RecentClose)
    requires m + multiset{c} == n + multiset{c}
    ensures m == n
  {
    assert m == (m + multiset{c}) - multiset{c};
    assert n == (n + multiset{c}) - multiset{c};
  }

  lemma {:induction false} CountPermutes(a: seq<RecentClose>, b: seq<RecentClose>, p: RecentClose -> bool)
    requires multiset(a) == multiset(b)
    ensures CountIf(a, p) == CountIf(b, p)
    decreases |a|
  {
    SameLength(a, b);
    if |a| > 0 {
      assert a[0] in multiset(b);
      var i :| 0 <= i < |b| && b[i] == a[0];
      CountWithout(a, 0, p);
      CountWithout(b, i, p);
      var rest := b[..i] + b[i + 1..];
      assert a[..0] + a[1..] == a[1..];
      CancelOne(multiset(a[1..]), multiset(rest), a[0]);
      CountPermutes(a[1..], rest, p);
    }
  }

  lemma {:induction false} CountFinds(s: seq<RecentClose>, p: RecentClose -> bool)
    ensures CountIf(s, p) > 0 <==> exists i :: 0 <= i < |s| && p(s[i])
  {
    if |s| > 0 {
      var init := s[..|s| - 1];
      CountFinds(init, p);
      if i :| 0 <= i < |s| && p(s[i]) && i < |init| { assert p(init[i]); }
      if i :| 0 <= i < |init| && p(init[i]) { assert p(s[i]); }
    }
  }

  /** In a newest-first list only the first element can be newer than the second. */
  lemma NewerThanSecond(s: seq<RecentClose>, c: RecentClose)
    requires Sorted(s) && |s| >= 2 && c in s && c.closedAt > s[1].closedAt
    ensures c == s[0]
  {
  }

  lemma CountTop(s: seq<RecentClose>, p: RecentClose -> bool)
    requires |s| >= 2
    ensures CountIf(s, p) >= (if p(s[0]) then 1 else 0) + if p(s[1]) then 1 else 0
    ensures (forall i :: 1 <= i < |s| ==> !p(s[i])) ==> CountIf(s, p) <= 1
  {
    assert s == [s[0]] + ([s[1]] + s[2..]);
    CountSplits([s[0]], [s[1]] + s[2..], p);
    CountSplits([s[1]], s[2..], p);
    CountOne(s[0], p);
    CountOne(s[1], p);
    CountFinds(s[2..], p);
  }

  /** The two newest close times do not depend on how ties are broken. */
  lemma SameTimes(a: seq<RecentClose>, b: seq<RecentClose>)
    requires Sorted(a) && Sorted(b) && multiset(a) == multiset(b) && |a| >= 2
    ensures |b| == |a| && a[0].closedAt == b[0].closedAt && a[1].closedAt == b[1].closedAt
  {
    SameLength(a, b);
    assert a[0] in multiset(b) && b[0] in multiset(a);
    HeadIsNewest(b, a[0]);
    HeadIsNewest(a, b[0]);
    NoNewerSecond(a, b);
    NoNewerSecond(b, a);
  }

  lemma NoNewerSecond(a: seq<RecentClose>, b: seq<RecentClose>)
    requires Sorted(a) && Sorted(b) && multiset(a) == multiset(b) && |a| >= 2 && |b| >= 2
    ensures a[1].closedAt <= b[1].closedAt
  {
    var p := (c: RecentClose) => c.closedAt > b[1].closedAt;
    CountPermutes(a, b, p);
    CountTop(a, p);
    CountTop(b, p);
  }

  predicate LossAt(c: RecentClose, t: int) { c.closedAt == t && c.pnlUsd < 0.0 }

  function LossesAt(s: seq<RecentClose>, t: int): nat { CountIf(s, c => LossAt(c, t)) }

  /** The newest close is within the window, every close newer than the second-newest time is a loss, the closes at that
      time can fill the streak with losses, and one of them is not a loss. */
  ghost predicate OrderMatters(s: seq<RecentClose>, now: int) {
    |s| >= TILT_LOSS_STREAK &&
    var t1, t2 := NewestTime(s, 0), NewestTime(s, 1);
    && now - t1 <= TILT_WINDOW_MS
    && (forall c <- s :: c.closedAt > t2 ==> c.pnlUsd < 0.0)
    && LossesAt(s, t2) >= (if t1 > t2 then 1 else 2)
    && exists c <- s :: c.closedAt == t2 && c.pnlUsd >= 0.0
  }

  /** The k-th newest close time. */
  function NewestTime(s: seq<RecentClose>, k: nat): int
    requires k < |s|
  {
    NewestFirstSorts(s);
    NewestFirst(s)[k].closedAt
  }
  /** The verdict, read off any newest-first arrangement of the history. */
  predicate Tilted(s: seq<RecentClose>, now: int)
    requires |s| >= 2
  {
    s[0].pnlUsd < 0.0 && s[1].pnlUsd < 0.0 && now - s[0].closedAt <= TILT_WINDOW_MS
  }

  lemma TiltReads(s: seq<RecentClose>, now: int)
    ensures |NewestFirst(s)| == |s|
    ensures IsTiltCooldown(s, now) <==> |s| >= 2 && Tilted(NewestFirst(s), now)
  {
    NewestFirstSorts(s);
    hide NewestFirst, Sorted;
    if |s| >= 2 {
      var two := NewestFirst(s)[..2];
      assert two == [NewestFirst(s)[0], NewestFirst(s)[1]];
      assert Newest(s, TILT_LOSS_STREAK) == two;
    }
  }

  /** Two arrangements with different verdicts meet the condition. */
  lemma DifferenceIsAmbiguous(s: seq<RecentClose>, yes: seq<RecentClose>, no: seq<RecentClose>, now: int)
    requires multiset(s) == multiset(yes) == multiset(no) && Sorted(yes) && Sorted(no) && |yes| >= 2 && |no| >= 2
    requires Tilted(yes, now) && !Tilted(no, now)
    ensures OrderMatters(s, now)
  {
    var l := NewestFirst(s);
    NewestFirstSorts(s);
    SameLength(s, yes);
    SameTimes(yes, no);
    SameTimes(yes, l);
    var t1, t2 := yes[0].closedAt, yes[1].closedAt;
    forall c <- s | c.closedAt > t2 ensures c.pnlUsd < 0.0 {
      assert c in multiset(yes);
      NewerThanSecond(yes, c);
    }
    var p := c => LossAt(c, t2);
    CountPermutes(s, yes, p);
    CountTop(yes, p);
    assert LossesAt(s, t2) == CountIf(s, p);
    assert t1 > t2 ==> no[0] == yes[0] by {
      assert no[0] in multiset(yes);
      if t1 > t2 { NewerThanSecond(yes, no[0]); }
    }
    var k := if no[0].pnlUsd >= 0.0 then 0 else 1;
    assert no[k] in multiset(s);
  }

  /** A close put first is sorted in front of its ties. */
  lemma PutFirst(c: RecentClose, rest: seq<RecentClose>)
    requires |rest| >= 1
    ensures var l := NewestFirst([c] + rest);
            && |l| == |rest| + 1 && multiset(l) == multiset([c] + rest) && Sorted(l)
            && (l[0].closedAt == c.closedAt ==> l[0] == c)
            && (l[0].closedAt > c.closedAt == l[1].closedAt ==> l[1] == c)
  {
    var u := NewestFirst(rest);
    NewestFirstSorts(rest);
    NewestFirstSorts([c] + rest);
    assert ([c] + rest)[1..] == rest;
    assert NewestFirst([c] + rest) == InsertNewest(c, u);
    if u[0].closedAt > c.closedAt {
      assert InsertNewest(c, u) == [u[0]] + InsertNewest(c, u[1..]);
    }
  }

  /** Some reordering puts c as far in front as its time allows. */
  lemma Bring(s: seq<RecentClose>, c: RecentClose) returns (b: seq<RecentClose>)
    requires |s| >= 2 && c in s
    ensures multiset(b) == multiset(s) && |b| == |s|
    ensures var l := NewestFirst(b);
            && |l| == |s| && Sorted(l) && multiset(l) == multiset(s)
            && (l[0].closedAt == c.closedAt ==> l[0] == c)
            && (l[0].closedAt > c.closedAt == l[1].closedAt ==> l[1] == c)
  {
    var i :| 0 <= i < |s| && s[i] == c;
    var rest := s[..i] + s[i + 1..];
    CountWithout(s, i, x => true);
    b := [c] + rest;
    assert multiset(b) == multiset{c} + multiset(rest);
    PutFirst(c, rest);
  }
  lemma PutNewest(c: RecentClose, rest: seq<RecentClose>)
    requires forall d <- rest :: d.closedAt <= c.closedAt
    ensures NewestFirst([c] + rest) == [c] + NewestFirst(rest)
  {
    var u := NewestFirst(rest);
    NewestFirstSorts(rest);
    assert |u| > 0 ==> u[0] in multiset(rest);
    assert ([c] + rest)[1..] == rest;
  }

  lemma TakeLoss(s: seq<RecentClose>, t: int) returns (c: RecentClose, rest: seq<RecentClose>)
    requires LossesAt(s, t) > 0
    ensures LossAt(c, t) && LossesAt(rest, t) == LossesAt(s, t) - 1
    ensures multiset(s) == multiset(rest) + multiset{c} && forall d <- rest :: d in s
  {
    var p := c => LossAt(c, t);
    assert LossesAt(s, t) == CountIf(s, p);
    CountFinds(s, p);
    var i :| 0 <= i < |s| && p(s[i]);
    CountWithout(s, i, p);
    c, rest := s[i], s[..i] + s[i + 1..];
    assert LossesAt(rest, t) == CountIf(rest, p);
  }

  /** Two closes at the newest time can be brought to the front together. */
  lemma BringTwo(s: seq<RecentClose>, t: int) returns (b: seq<RecentClose>)
    requires LossesAt(s, t) >= 2 && forall c <- s :: c.closedAt <= t
    ensures multiset(b) == multiset(s) && |NewestFirst(b)| >= 2
    ensures LossAt(NewestFirst(b)[0], t) && LossAt(NewestFirst(b)[1], t)
  {
    hide LossesAt;
    var y, one := TakeLoss(s, t);
    var z, rest := TakeLoss(one, t);
    PutNewest(z, rest);
    PutNewest(y, [z] + rest);
    hide NewestFirst;
    b := [y] + ([z] + rest);
    assert multiset(b) == multiset(rest) + multiset{z} + multiset{y};
  }

  /** A reordering with an unfavourable tie in front, when there is one. */
  lemma BringsWin(s: seq<RecentClose>, now: int) returns (b: seq<RecentClose>)
    requires OrderMatters(s, now)
    ensures multiset(b) == multiset(s) && !IsTiltCooldown(b, now)
  {
    var t2 := NewestTime(s, 1);
    var win :| win in s && win.closedAt == t2 && win.pnlUsd >= 0.0;
    b := Bring(s, win);
    NewestFirstSorts(s);
    SameTimes(NewestFirst(s), NewestFirst(b));
    TiltReads(b, now);
  }

  /** A reordering with losses in front, when there are enough. */
  lemma BringsLosses(s: seq<RecentClose>, now: int) returns (b: seq<RecentClose>)
    requires OrderMatters(s, now)
    ensures multiset(b) == multiset(s) && IsTiltCooldown(b, now)
  {
    var t1, t2, l := NewestTime(s, 0), NewestTime(s, 1), NewestFirst(s);
    var p := c => LossAt(c, t2);
    NewestFirstSorts(s);
    if t1 > t2 {
      assert LossesAt(s, t2) == CountIf(s, p);
      CountFinds(s, p);
      var i :| 0 <= i < |s| && p(s[i]);
      b := Bring(s, s[i]);
    } else {
      forall c <- s ensures c.closedAt <= t2 { HeadIsNewest(l, c); }
      b := BringTwo(s, t2);
    }
    NewestFirstSorts(b);
    SameTimes(l, NewestFirst(b));
    assert NewestFirst(b)[0] in multiset(s);
    TiltReads(b, now);
  }

  /** Exactly when the order of a history matters: some reordering of it has a different verdict if and only if the
      newest close is within the window, everything newer than the second-newest time is a loss, and the closes at
      that time both can and need not complete the streak. Distinct close times rule that out. */
  lemma TiltExactly(s: seq<RecentClose>, now: int)
    ensures (exists b :: multiset(b) == multiset(s) && IsTiltCooldown(b, now) != IsTiltCooldown(s, now))
       <==> OrderMatters(s, now)
  {
    if OrderMatters(s, now) {
      var win := BringsWin(s, now);
      var losses := BringsLosses(s, now);
      assert IsTiltCooldown(win, now) != IsTiltCooldown(losses, now);
    }
    if b :| multiset(b) == multiset(s) && IsTiltCooldown(b, now) != IsTiltCooldown(s, now) {
      TiltDiffers(s, b, now);
    }
  }

  lemma TiltDiffers(s: seq<RecentClose>, b: seq<RecentClose>, now: int)
    requires multiset(b) == multiset(s) && IsTiltCooldown(b, now) != IsTiltCooldown(s, now)
    ensures OrderMatters(s, now)
  {
    SameLength(s, b);
    TiltReads(s, now);
    TiltReads(b, now);
    NewestFirstSorts(s);
    NewestFirstSorts(b);
    if IsTiltCooldown(s, now) {
      DifferenceIsAmbiguous(s, NewestFirst(s), NewestFirst(b), now);
    } else {
      DifferenceIsAmbiguous(s, NewestFirst(b), NewestFirst(s), now);
    }
  }

  // ---------------------------------------------------------------- verdict

  /** `openStakesUsd` is reserved against the budget before a stake is computed. */
  function Remaining(s: SessionState, openStakesUsd: real): real {
    LossBudgetRemaining(s) - MaxR(0.0, openStakesUsd)
  }

  function EvaluateShell(s: SessionState, openCount: nat, openStakesUsd: real, closes: seq<RecentClose>, now: int)
    : Verdict
  {
    var tier := GetTier(s.tier);
    var phase := SessionPhase(s);
    if phase != Active then Deny(SessionOver(phase))
    else if openCount >= tier.maxConcurrent then Deny(MaxConcurrent)
    else if IsTiltCooldown(closes, now) then Deny(TiltCooldown)
    else
      var remaining := Remaining(s, openStakesUsd);
      if remaining < tier.stakeUsdMin then Deny(BelowMinimum)
      else
        var stake := Stake(tier.name, remaining);
        if stake.None? then Deny(BelowMinimum)
        else if stake.value > remaining then Deny(ExceedsRemaining)
        else Allow(stake.value, MinR(tier.leverage, tier.maxLeverage), tier.mode, tier.slRoiPct, tier.tpRoiPct,
            tier.maxHoldMin)
  }

  /** The shell's verdict off the session's numbers, branch by branch and in the guard's own order: a session at its
      target or out of budget is over, then the position limit, the tilt guard and the dollar minimum deny, and what is
      left is allowed at the tier's stake and parameters. The trailing denial never fires. */
  lemma ShellExact(s: SessionState, openCount: nat, openStakesUsd: real, closes: seq<RecentClose>, now: int)
    ensures var v := EvaluateShell(s, openCount, openStakesUsd, closes, now);
            var tier, left := GetTier(s.tier), s.budgetUsd + MinR(s.realizedPnlUsd, 0.0) - MaxR(0.0, openStakesUsd);
            var over := s.realizedPnlUsd >= s.budgetUsd || s.realizedPnlUsd <= -s.budgetUsd;
            && (v == Deny(SessionOver(Target)) <==> s.realizedPnlUsd >= s.budgetUsd)
            && (v == Deny(SessionOver(Exhausted)) <==>
                  s.realizedPnlUsd <= -s.budgetUsd && s.realizedPnlUsd < s.budgetUsd)
            && v != Deny(SessionOver(Active))
            && (v == Deny(MaxConcurrent) <==> !over && openCount >= tier.maxConcurrent)
            && (v == Deny(TiltCooldown) <==>
                  !over && openCount < tier.maxConcurrent && IsTiltCooldown(closes, now))
            && (v == Deny(BelowMinimum) <==>
                  !over && openCount < tier.maxConcurrent && !IsTiltCooldown(closes, now) && left < 1.0)
            && (v.Allow? <==>
                  !over && openCount < tier.maxConcurrent && !IsTiltCooldown(closes, now) && left >= 1.0)
            && (v.Allow? ==>
                  && IsStake(tier, left, v.stakeUsdc)
                  && v.stakeUsdc * v.leverage >= FLASH_MIN_NOTIONAL_USD
                  && v == Allow(v.stakeUsdc, tier.leverage, tier.mode, tier.slRoiPct, tier.tpRoiPct, tier.maxHoldMin)
                  && v.slRoiPct < 0)
            && v != Deny(ExceedsRemaining)
  {
    hide IsTiltCooldown, IdealStake;
    StakeSound(s.tier, Remaining(s, openStakesUsd));
  }
}
