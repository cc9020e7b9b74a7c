/** What a checkpoint request can lead to.  A safe one is harmless; a late one makes the follower skip its
    snapshot for ever; and where the master outlives its snapshots, a late one can make the follower
    assert, and one too soon after the previous one can lose a snapshot as well. */
module Requests {
  import opened Messages
  import opened Machine
  import opened Barrier
  import opened Conservation
  import opened Checkpoint
  import opened Exit
  import opened Orderly
  import opened Progress
  import opened Continuations

  // ----- What can go wrong

  /** The node has left a requested round without a snapshot of it. */
  ghost predicate Skipped(me: Side, requests: seq<nat>) {
    exists k :: 0 <= k < |requests| && requests[k] < me.bar.round && !Snapped(me, requests[k])
  }

  /** A checkpoint has failed: a node asserts that its round is passed, or has skipped one. */
  ghost predicate Failed(s: Sys) {
    || s.m.fault == Some(CheckpointPassed) || s.f.fault == Some(CheckpointPassed)
    || Skipped(s.m, s.m.ck.requests) || Skipped(s.f, s.m.ck.requests)
  }

  /** The record of snapshots grows with a snapshot only, which is of the present round. */
  lemma SnapsGrow(q: nat, me: Side, peerSent: Log, a: Action)
    requires Enabled(me, peerSent, a)
    ensures Next(q, me, peerSent, a).ck.snaps
         == me.ck.snaps + if a.SnapshotNow? then [Snapshot(me.bar.round, me.recv)] else []
  {
    hide ThreadStep, FirstDue, CanStop, NotifyEnd, Receive, TakeSnapshot;
    match a
    case Step(t) => ThreadRequests(q, me, t);
    case Poll => ReceiptSnaps(me, peerSent[me.recv]);
    case CallCanStop => CanStopRequests(me);
    case CallNotify(t) => NotifyRequests(me, t, Idle);
    case TakeExit => NotifyRequests(me, Main, Quit);
    case SnapshotNow => SnapshotTouches(me);
    case Check => if me.ck.needs {} else {}
    case _ =>
  }

  lemma ReceiptSnaps(me: Side, m: Message)
    ensures Receive(me, m).ck.snaps == me.ck.snaps
  {
    match m.body
    case Sync(_) =>
    case Packet(_) =>
    case _ =>
  }

  /** A round left behind without a snapshot stays without one, whatever the node does. */
  lemma UnsnappedStep(q: nat, me: Side, peerSent: Log, a: Action, round: nat)
    requires Enabled(me, peerSent, a) && round < me.bar.round && !Snapped(me, round)
    ensures var next := Next(q, me, peerSent, a); round < next.bar.round && !Snapped(next, round)
  {
    hide Next, Enabled;
    SnapsGrow(q, me, peerSent, a);
    RoundGrows(q, me, peerSent, a);
    var next := Next(q, me, peerSent, a);
    forall p | 0 <= p < |next.ck.snaps| ensures next.ck.snaps[p].round != round {
      if p < |me.ck.snaps| { assert next.ck.snaps[p] == me.ck.snaps[p]; }
    }
  }

  /** A round once skipped is skipped for ever: no continuation, within the rules or not, makes up for it. */
  lemma {:induction false} SkippedForEver(q: nat, s: Sys, labels: seq<Label>, t: Sys)
    requires Follows(q, s, labels, t) && Skipped(s.f, s.m.ck.requests)
    ensures Skipped(t.f, t.m.ck.requests)
    decreases |labels|
  {
    if labels != [] {
      hide CanStep, NextSys, Snapped;
      var l := labels[0];
      SkippedStep(q, s, l);
      SkippedForEver(q, NextSys(q, s, l), labels[1..], t);
    }
  }

  lemma SkippedStep(q: nat, s: Sys, l: Label)
    requires CanStep(s, l) && Skipped(s.f, s.m.ck.requests)
    ensures Skipped(NextSys(q, s, l).f, NextSys(q, s, l).m.ck.requests)
  {
    hide Snapped, Next, Enabled;
    var next := Next(q, Mine(s, l.who), Peers(s, l.who).sent, l.act);
    NextSysIs(q, s, l, next);
    var k :| 0 <= k < |s.m.ck.requests| && s.m.ck.requests[k] < s.f.bar.round && !Snapped(s.f, s.m.ck.requests[k]);
    if l.who == Master {
      RequestsGrow(q, s.m, s.f.sent, l.act);
      assert next.ck.requests[k] == s.m.ck.requests[k];
    } else {
      UnsnappedStep(q, s.f, s.m.sent, l.act, s.m.ck.requests[k]);
    }
  }

  // ----- A safe request

  lemma AgreedSkipsNone(me: Side, requests: seq<nat>)
    requires Agreed(SnapRounds(me.ck.snaps), requests, me.bar.round)
    ensures !Skipped(me, requests)
  {
    forall k | 0 <= k < |requests| && requests[k] < me.bar.round ensures Snapped(me, requests[k]) {
      SnapRoundsLength(me.ck.snaps);
      SnapRoundsAt(me.ck.snaps, k);
      assert me.ck.snaps[k].round == requests[k];
    }
  }

  lemma AllInvFailsNot(q: nat, s: Sys)
    requires AllInv(q, s)
    ensures !Failed(s)
  {
    hide Half, SnapsFit, MasterFits, FollowerFits, ExInv, Conserved, Agreed, Skipped, FullFrames, HaltFits;
    MasterAgrees(s.m);
    FollowerAgrees(q, s.f, s.m);
    AgreedSkipsNone(s.m, s.m.ck.requests);
    AgreedSkipsNone(s.f, s.m.ck.requests);
  }

  /** After a safe request nothing fails, however the run goes on within the rules. */
  lemma SafeRequestIsHarmless(q: nat, s: Sys, a: Action, t: Sys)
    requires AllInv(q, s) && RoundsFit(s) && CanStep(s, Label(Master, a)) && AsksNow(s.m, s.f.sent, a)
    requires Safe(s.m, s.f) && Leads(q, NextSys(q, s, Label(Master, a)), t)
    ensures !Failed(t)
  {
    hide AllInv, Safe, Leads, NextSys, CanStep, RoundsFit, Failed;
    StepKeepsAll(q, s, Label(Master, a));
    LeadsKeepsAll(q, NextSys(q, s, Label(Master, a)), t);
    AllInvFailsNot(q, t);
  }

  // ----- The moment after a request

  /** Both nodes are alive and in their event loops, and the rounds are clear of the sync table's span. */
  ghost predicate Calm(q: nat, s: Sys) {
    && AllInv(q, s) && Live(s.m) && Live(s.f) && MainIdle(s.m) && MainIdle(s.f)
    && s.m.bar.round + 3 < KEY_SPAN
  }

  /** A request touches nothing but the checkpoint record. */
  lemma RequestEffect(q: nat, me: Side, peerSent: Log, a: Action)
    requires Enabled(me, peerSent, a) && AsksNow(me, peerSent, a)
    ensures var next := Next(q, me, peerSent, a);
            && next.bar == me.bar && next.sent == me.sent && next.main == me.main
            && next.fault == me.fault && next.halted == me.halted && SameBuild(me, next)
            && next.flex == me.flex
            && next.ck == RequestCheckpoint(me).ck.(initFlag := next.ck.initFlag, masterInit := next.ck.masterInit)
            && next.ck.initFlag >= 1
  {
    match a
    case Initiate =>
    case Poll => InitStepAsks(me, peerSent[me.recv]);
  }

  lemma InitStepAsks(me: Side, m: Message)
    requires me.master && m.body.InitStep? && me.ck.masterInit && me.ck.initFlag == 0
    ensures Receive(me, m) == RequestCheckpoint(me.(ck := me.ck.(initFlag := 1)))
  {
  }

  lemma AfterRequest(q: nat, s: Sys, a: Action) returns (t: Sys)
    requires Calm(q, s) && CanStep(s, Label(Master, a)) && AsksNow(s.m, s.f.sent, a)
    ensures t == NextSys(q, s, Label(Master, a)) && CoreInv(q, t) && t.f == s.f && Live(t.m) && MainIdle(t.m)
    ensures t.m.bar == s.m.bar && t.m.sent == s.m.sent && SameBuild(s.m, t.m) && t.m.flex == s.m.flex
    ensures t.m.ck == RequestCheckpoint(s.m).ck.(initFlag := t.m.ck.initFlag, masterInit := t.m.ck.masterInit)
    ensures t.m.ck.initFlag >= 1
    ensures RoundsFit(t)
  {
    hide CoreInv, AllInv, Next, Enabled, AsksNow, RequestCheckpoint;
    t := NextSys(q, s, Label(Master, a));
    AllIsCore(q, s);
    CalmFits(q, s);
    RequestEffect(q, s.m, s.f.sent, a);
    LawfulRequest(s.m, s.f.sent, a);
    StepKeepsCore(q, s, Label(Master, a));
  }

  lemma LawfulRequest(me: Side, peerSent: Log, a: Action)
    requires AsksNow(me, peerSent, a)
    ensures Lawful(me, a)
  {
  }

  lemma CalmFits(q: nat, s: Sys)
    requires Calm(q, s)
    ensures RoundsFit(s) && s.f.bar.round <= s.m.bar.round + 1 && s.m.bar.round <= s.f.bar.round + 1
  {
    hide CkInv, ExInv, Conserved, SideFits, LogFits, TableFits, ClockFits, NoneLate;
    Chain(s.m, s.f);
  }

  // ----- The follower moves on to the master's next round

  /** The follower's log of drains says that what is pending is not behind. */
  lemma PendingAhead(q: nat, s: Sys)
    requires AllInv(q, s) && s.f.ck.needs
    ensures s.f.bar.round <= s.f.ck.ckRound
    ensures exists k :: 0 <= k < |s.m.ck.requests| && s.m.ck.requests[k] == s.f.ck.ckRound
    ensures s.f.ck.ckRound <= s.m.bar.round
  {
    hide Half, ExInv, Conserved, SideFits, SnapsFit, ScheduleFits, AllDrained, CloseServed;
    DrainsAreTold(s.m.sent, s.f.recv);
    var seen := Drains(s.m.sent, s.f.recv);
    assert seen[|seen| - 1] == s.f.ck.ckRound == s.m.ck.requests[|seen| - 1];
  }

  /** With the peer's sync at hand the follower leaves its round, taking a due snapshot first. */
  lemma FollowerLeaves(q: nat, s: Sys) returns (t: Sys)
    requires AllInv(q, s) && Attentive(q, s, Follower) && s.f.bar.checkArmed && !Waiting(s.f.bar)
    ensures Gets(q, Follower, s, t) && AllInv(q, t)
    ensures t.f.bar.round == s.f.bar.round + 1
  {
    hide AllInv, CoreInv, LeadsBy, Waiting, Noticed;
    if s.f.ck.needs { PendingAhead(q, s); }
    if s.f.ck.needs && s.f.ck.ckRound == s.f.bar.round {
      var mid := Save(q, s, Follower);
      t := Leave(q, mid, Follower);
      GetsChain(q, Follower, s, mid, t);
    } else {
      t := Leave(q, s, Follower);
    }
    ByIsLeads(q, Follower, s, t);
    LeadsKeepsAll(q, s, t);
  }

  /** Closing the quantum if that is still to be done, and taking everything in the channel. */
  lemma CatchUp(q: nat, s: Sys) returns (t: Sys)
    requires CoreInv(q, s) && Attentive(q, s, Follower)
    ensures Gets(q, Follower, s, t) && t.f.bar.round == s.f.bar.round && t.f.bar.checkArmed
    ensures t.f.recv == |s.m.sent|
    ensures var closed := if s.f.bar.checkArmed then s.f else Noticed(s.f);
            t.f.ck == CkOver(closed.ck, false, s.m.sent, s.f.recv, |s.m.sent|)
  {
    hide CoreInv, LeadsBy, CkOver, Half, ExFits;
    NodeHalf(q, s, Follower);
    assert s.f.recv <= |s.m.sent| by { HalfRecv(q, s.f, s.m); }
    if s.f.bar.checkArmed {
      t := PollTo(q, s, Follower, |s.m.sent|);
    } else {
      var mid := CloseQuantum(q, s, Follower);
      t := PollTo(q, mid, Follower, |s.m.sent|);
      GetsChain(q, Follower, s, mid, t);
    }
  }

  /** A node that has taken its peer's whole log, in which there is a sync of its round, waits no more. */
  lemma CaughtUp(q: nat, me: Side, peer: Side)
    requires Half(q, me, peer) && Half(q, peer, me) && me.recv == |peer.sent| && me.bar.round < KEY_SPAN
    requires me.bar.round < peer.bar.round + if peer.bar.checkArmed then 1 else 0
    ensures !Waiting(me.bar)
  {
    hide LogFits, ClockFits, NoneLate;
    assert SyncCountGet(me.bar.counts, me.bar.round) == 1;
  }

  /** The follower reaches the round after the waiting master's, and takes all that was sent. */
  lemma {:induction false} FollowerUp(q: nat, s: Sys) returns (t: Sys)
    requires AllInv(q, s) && Attentive(q, s, Follower) && s.m.bar.checkArmed && s.m.bar.round + 1 < KEY_SPAN
    ensures Gets(q, Follower, s, t) && AllInv(q, t) && t.f.recv == |s.m.sent|
    ensures t.f.bar.round == s.m.bar.round + 1
    decreases s.m.bar.round + 1 - s.f.bar.round
  {
    hide AllInv, CoreInv, LeadsBy, Waiting, Half, ExFits, CkOver;
    AllIsCore(q, s);
    CoreRounds(q, s);
    var mid := CatchUp(q, s);
    ByIsLeads(q, Follower, s, mid);
    LeadsKeepsAll(q, s, mid);
    if s.f.bar.round == s.m.bar.round + 1 {
      t := mid;
    } else {
      NodeHalf(q, mid, Follower);
      CaughtUp(q, mid.f, mid.m);
      var left := FollowerLeaves(q, mid);
      t := FollowerUp(q, left);
      GetsChain(q, Follower, s, mid, left);
      GetsChain(q, Follower, s, left, t);
    }
  }

  // ----- What polling leaves of the checkpoint record

  lemma {:induction false} CkOverKeeps(ck: Ck, master: bool, log: Log, i: nat, n: nat)
    requires i <= n <= |log|
    ensures var r := CkOver(ck, master, log, i, n);
            && r.snaps == ck.snaps && r.scheduled == ck.scheduled && r.requests == ck.requests
            && r.notified == ck.notified
            && r.initFlag >= ck.initFlag
            && (master ==> r.needs == ck.needs && r.ckRound == ck.ckRound)
    decreases n - i
  {
    if i < n { CkOverKeeps(CkStep(ck, master, log[i]), master, log, i + 1, n); }
  }

  /** The last drain notice decides. */
  lemma {:induction false} CkOverDrain(ck: Ck, log: Log, i: nat, p: nat, n: nat, round: nat)
    requires i <= p < n <= |log| && log[p].body == DrainStart(round)
    requires forall j :: p < j < n ==> !log[j].body.DrainStart?
    ensures CkOver(ck, false, log, i, n).needs && CkOver(ck, false, log, i, n).ckRound == round
    decreases p - i
  {
    if i == p {
      CkOverQuiet(CkStep(ck, false, log[i]), log, i + 1, n);
    } else {
      CkOverDrain(CkStep(ck, false, log[i]), log, i + 1, p, n, round);
    }
  }

  lemma {:induction false} CkOverQuiet(ck: Ck, log: Log, i: nat, n: nat)
    requires i <= n <= |log|
    requires forall j :: i <= j < n ==> !log[j].body.DrainStart?
    ensures CkOver(ck, false, log, i, n).needs == ck.needs && CkOver(ck, false, log, i, n).ckRound == ck.ckRound
    decreases n - i
  {
    if i < n { CkOverQuiet(CkStep(ck, false, log[i]), log, i + 1, n); }
  }

  // ----- A late request: the follower moves on without the snapshot

  /** The follower goes on as if nothing had been asked for: into the round after the master's. */
  lemma FollowerGoesOn(q: nat, s: Sys, after: Sys) returns (t: Sys)
    requires Calm(q, s) && s.m.bar.checkArmed && CoreInv(q, after)
    requires after.f == s.f && after.m.bar == s.m.bar && after.m.sent == s.m.sent
    ensures LeadsBy(q, Follower, after, t) && CoreInv(q, t) && t.m == after.m && Live(t.f) && MainIdle(t.f)
    ensures t.f.bar.round == s.m.bar.round + 1 && t.f.recv == |s.m.sent| && !t.f.ck.needs
    ensures SnapRounds(t.f.ck.snaps) <= s.m.ck.requests
  {
    hide AllInv, CoreInv, LeadsBy, SnapRounds;
    AllIsCore(q, s);
    CalmFits(q, s);
    var u := FollowerUp(q, s);
    if u.f.ck.needs { PendingAhead(q, u); }
    SnapsAreRequested(q, u);
    MasterRole(q, s);
    ReplayLeads(q, s, u, after.m);
    t := Sys(after.m, u.f);
    assert after == Sys(after.m, s.f);
    ByIsLeads(q, Follower, after, t);
    LeadsKeepsCore(q, after, t);
  }

  lemma SnapsAreRequested(q: nat, s: Sys)
    requires AllInv(q, s)
    ensures SnapRounds(s.f.ck.snaps) <= s.m.ck.requests
  {
    hide Half, SnapsFit, MasterFits, FollowerFits, ExInv, Conserved, FullFrames, HaltFits;
    FollowerAgrees(q, s.f, s.m);
  }

  lemma NotRequested(me: Side, requests: seq<nat>, round: nat)
    requires SnapRounds(me.ck.snaps) <= requests && round !in requests
    ensures !Snapped(me, round)
  {
    SnapRoundsLength(me.ck.snaps);
    forall p | 0 <= p < |me.ck.snaps| ensures me.ck.snaps[p].round != round {
      SnapRoundsAt(me.ck.snaps, p);
      assert requests[p] == me.ck.snaps[p].round;
    }
  }

  /** A request for a new round, first seen when the sync of that round is out: from every such state the
      follower can go on into the next round without the snapshot, and then no continuation at all ever
      gives it one. */
  lemma LateRequestSkips(q: nat, s: Sys, a: Action) returns (t: Sys)
    requires Calm(q, s) && CanStep(s, Label(Master, a)) && AsksNow(s.m, s.f.sent, a) && !Timely(s.m)
    requires s.m.bar.round !in s.m.ck.requests
    ensures LeadsBy(q, Follower, NextSys(q, s, Label(Master, a)), t) && CoreInv(q, t)
        && t.f.bar.round == s.m.bar.round + 1
    ensures t.m.ck.requests == s.m.ck.requests + [s.m.bar.round] && !Snapped(t.f, s.m.bar.round)
    ensures Skipped(t.f, t.m.ck.requests)
    ensures forall labels, u :: Follows(q, t, labels, u) ==> Skipped(u.f, u.m.ck.requests)
  {
    hide AllInv, CoreInv, LeadsBy, CanStep, AsksNow, NextSys, Snapped, Skipped, Follows, SnapRounds;
    var s1 := AfterRequest(q, s, a);
    t := FollowerGoesOn(q, s, s1);
    NotRequested(t.f, s.m.ck.requests, s.m.bar.round);
    SkipsAt(t.f, t.m.ck.requests, |s.m.ck.requests|);
    forall labels, u | Follows(q, t, labels, u) ensures Skipped(u.f, u.m.ck.requests) {
      SkippedForEver(q, t, labels, u);
    }
  }

  // ----- Where the master outlives its snapshots, a late request is fatal

  ghost predicate LastDrainAt(log: Log, p: nat, round: nat)
    requires p < |log|
  {
    log[p].body == DrainStart(round) && forall j :: p < j < |log| ==> !log[j].body.DrainStart?
  }

  /** Behind an older log stands the notice of the round, and no notice after it. */
  ghost predicate ToldOf(was: Log, now: Log, round: nat) {
    was <= now && exists p :: |was| <= p < |now| && LastDrainAt(now, p, round)
  }

  lemma ToldLater(was: Log, told: Log, now: Log, round: nat)
    requires ToldOf(was, told, round) && told <= now
    requires forall j :: |told| <= j < |now| ==> !now[j].body.DrainStart?
    ensures ToldOf(was, now, round)
  {
    var p :| |was| <= p < |told| && LastDrainAt(told, p, round);
    assert LastDrainAt(now, p, round);
  }

  lemma ToldEarlier(was: Log, mid: Log, now: Log, round: nat)
    requires was <= mid && ToldOf(mid, now, round)
    ensures ToldOf(was, now, round)
  {
    var p :| |mid| <= p < |now| && LastDrainAt(now, p, round);
    assert |was| <= p;
  }

  lemma ToldNow(was: Log, m: Message)
    requires m.body.DrainStart?
    ensures ToldOf(was, was + [m], m.body.ckRound)
  {
    assert LastDrainAt(was + [m], |was|, m.body.ckRound);
  }

  /** Polling everything behind the older log, a follower ends up with the round it is told of. */
  lemma ToldIsTaken(ck: Ck, was: Log, now: Log, i: nat, round: nat)
    requires ToldOf(was, now, round) && i <= |was|
    ensures CkOver(ck, false, now, i, |now|).needs && CkOver(ck, false, now, i, |now|).ckRound == round
  {
    var p :| |was| <= p < |now| && LastDrainAt(now, p, round);
    CkOverDrain(ck, now, i, p, |now|, round);
  }

  /** The master saves, leaves its round and closes the next one. */
  lemma MasterSaves(q: nat, s: Sys) returns (t: Sys)
    requires Attentive(q, s, Master) && s.m.bar.checkArmed && !Waiting(s.m.bar) && s.m.bar.round + 2 < KEY_SPAN
    requires s.m.ck.needs && !s.m.ck.notified && s.m.ck.ckRound == s.m.bar.round
    requires !s.m.warm
    ensures Gets(q, Master, s, t) && t.m.bar.round == s.m.bar.round + 1 && t.m.bar.checkArmed
    ensures ToldOf(s.m.sent, t.m.sent, s.m.bar.round)
  {
    hide CoreInv, LeadsBy, Waiting, ToldOf;
    var a := Save(q, s, Master);
    ToldNow(s.m.sent, NoticeOf(s.m)[0]);
    assert a.m.sent == s.m.sent + [NoticeOf(s.m)[0]];
    var b := Leave(q, a, Master);
    GetsChain(q, Master, s, a, b);
    t := CloseQuantum(q, b, Master);
    GetsChain(q, Master, s, b, t);
    ToldLater(s.m.sent, a.m.sent, b.m.sent, s.m.bar.round);
    ToldLater(s.m.sent, b.m.sent, t.m.sent, s.m.bar.round);
  }

  /** The master waits for its peer, tells it, saves, and closes its next round. */
  lemma MasterGoesOn(q: nat, s: Sys) returns (t: Sys)
    requires Attentive(q, s, Master) && s.m.bar.checkArmed && s.m.bar.round + 2 < KEY_SPAN
    requires s.m.ck.needs && !s.m.ck.notified && s.m.ck.ckRound == s.m.bar.round && s.m.ck.initFlag >= 1
    requires s.f.bar.round == s.m.bar.round + 1
    requires !s.m.warm
    ensures Gets(q, Master, s, t) && t.m.bar.round == s.m.bar.round + 1 && t.m.bar.checkArmed
    ensures ToldOf(s.m.sent, t.m.sent, s.m.bar.round)
  {
    hide CoreInv, LeadsBy, Waiting, Half, ExFits, CkOver, ToldOf;
    NodeHalf(q, s, Master);
    HalfRecv(q, s.m, s.f);
    var a := PollTo(q, s, Master, |s.f.sent|);
    CkOverKeeps(s.m.ck, true, s.f.sent, s.m.recv, |s.f.sent|);
    NodeHalf(q, a, Master);
    CaughtUp(q, a.m, a.f);
    t := MasterSaves(q, a);
    GetsChain(q, Master, s, a, t);
    ToldEarlier(s.m.sent, a.m.sent, t.m.sent, s.m.bar.round);
  }

  /** The follower, one round past the one it is told of, asserts at its next check. */
  lemma FollowerAsserts(q: nat, s: Sys, was: Log) returns (t: Sys)
    requires Attentive(q, s, Follower) && !s.f.ck.needs && s.f.recv == |was|
    requires s.f.bar.round == s.m.bar.round > 0
    requires ToldOf(was, s.m.sent, s.m.bar.round - 1) && s.m.bar.checkArmed
    ensures LeadsBy(q, Follower, s, t) && t.f.fault == Some(CheckpointPassed)
  {
    hide CoreInv, LeadsBy, Waiting, Half, ExFits, CkOver, ToldOf;
    var a := CatchUp(q, s);
    ToldIsTaken(s.f.ck, was, s.m.sent, s.f.recv, s.m.bar.round - 1);
    NodeHalf(q, a, Follower);
    CaughtUp(q, a.f, a.m);
    t := Take(q, a, Follower, Check);
    ThenBy(q, Follower, s, a, t);
    CheckAsserts(a.f);
  }

  lemma CheckAsserts(me: Side)
    requires me.ck.needs && me.ck.ckRound < me.bar.round
    ensures SyncCheck(me).fault == Some(CheckpointPassed)
  {
  }

  /** Under a name whose master goes on behind its snapshot: from every state with the sync of its round
      out, a request can be followed by the assertion that the checkpoint round is passed. */
  lemma LateRequestIsFatal(q: nat, s: Sys, a: Action) returns (t: Sys)
    requires Calm(q, s) && CanStep(s, Label(Master, a)) && AsksNow(s.m, s.f.sent, a) && !Timely(s.m)
    requires !s.m.warm
    ensures Leads(q, NextSys(q, s, Label(Master, a)), t) && t.f.fault == Some(CheckpointPassed)
  {
    hide AllInv, CoreInv, LeadsBy, Leads, CanStep, AsksNow, NextSys, ToldOf;
    var s1 := AfterRequest(q, s, a);
    var s2 := FollowerGoesOn(q, s, s1);
    ByIsLeads(q, Follower, s1, s2);
    var s3 := MasterGoesOn(q, s2);
    Onwards(q, Master, s1, s2, s3);
    t := FollowerAsserts(q, s3, s2.m.sent);
    Onwards(q, Follower, s1, s3, t);
  }

  // ----- A close request

  /** The follower has not yet taken the snapshot of the round before: it still waits in that round. */
  lemma FollowerLags(q: nat, s: Sys)
    requires AllInv(q, s) && RoundsFit(s) && Close(s.m) && !Snapped(s.f, s.m.bar.round - 1)
    ensures !s.m.ck.needs && s.f.bar.round == s.m.bar.round - 1 && s.f.bar.checkArmed
  {
    hide ExInv, Conserved, SideFits, LogFits, TableFits, ClockFits, NoneLate, SnapsFit, ScheduleFits, AllDrained;
    hide CloseServed, Drains;
    Chain(s.m, s.f);
    Chain(s.f, s.m);
    CountMono(s.f.sent, s.m.recv, |s.f.sent|, KSync);
    var last := |s.m.ck.requests| - 1;
    if s.m.bar.round <= s.f.bar.round {
      FollowerWasTold(q, s.f, s.m, last);
      SnapRoundsLength(s.f.ck.snaps);
      SnapRoundsAt(s.f.ck.snaps, last);
    }
  }

  lemma SnapsBehind(q: nat, s: Sys)
    requires AllInv(q, s) && !s.m.ck.needs && !s.m.bar.checkArmed && s.m.ck.requests != []
    ensures !Snapped(s.f, s.m.bar.round)
  {
    hide Half, ExInv, Conserved, SideFits, SnapsFit, ScheduleFits, AllDrained, CloseServed;
    DrainsAreTold(s.m.sent, s.f.recv);
    SnapRoundsLength(s.f.ck.snaps);
    forall p | 0 <= p < |s.f.ck.snaps| ensures s.f.ck.snaps[p].round != s.m.bar.round {
      SnapRoundsAt(s.f.ck.snaps, p);
      assert SnapRounds(s.f.ck.snaps)[p] == s.m.ck.requests[p];
    }
  }

  lemma SyncTailTells(me: Side, now: Log)
    requires me.ck.needs && !me.ck.notified && me.sent <= now && SyncTail(me, now[|me.sent|..])
    ensures ToldOf(me.sent, now, me.bar.round)
  {
    var tail := now[|me.sent|..];
    assert now[|me.sent|] == tail[0] && now[|me.sent| + 1] == tail[1];
    assert LastDrainAt(now, |me.sent|, me.bar.round);
  }

  /** The master closes the round of its request, and the follower takes all of it while it still
      waits one round back. */
  lemma OvertakenNotice(q: nat, s: Sys, a: Action) returns (t: Sys)
    requires Calm(q, s) && CanStep(s, Label(Master, a)) && AsksNow(s.m, s.f.sent, a)
    requires Timely(s.m) && Close(s.m) && !Snapped(s.f, s.m.bar.round - 1)
    ensures Leads(q, NextSys(q, s, Label(Master, a)), t) && CoreInv(q, t)
    ensures Attentive(q, t, Follower) && t.f.bar.round == s.m.bar.round - 1 && t.f.bar.checkArmed && !Waiting(t.f.bar)
    ensures t.f.recv == |t.m.sent| && t.m.bar.round == s.m.bar.round && t.m.bar.checkArmed
    ensures t.f.ck.needs && t.f.ck.ckRound == s.m.bar.round && t.f.ck.snaps == s.f.ck.snaps
    ensures t.f.ck.scheduled == s.f.ck.scheduled && !s.m.ck.needs
    ensures t.m.ck.requests == s.m.ck.requests + [s.m.bar.round]
  {
    hide AllInv, CoreInv, LeadsBy, Leads, CanStep, AsksNow, NextSys, ToldOf, Waiting, Half, ExFits, CkOver, Snapped;
    CalmFits(q, s);
    FollowerLags(q, s);
    AllIsCore(q, s);
    NodeHalf(q, s, Follower);
    HalfRecv(q, s.f, s.m);
    var s1 := AfterRequest(q, s, a);
    var s2 := CloseQuantum(q, s1, Master);
    SyncTailTells(s1.m, s2.m.sent);
    ByIsLeads(q, Master, s1, s2);
    t := CatchUp(q, s2);
    Onwards(q, Follower, s1, s2, t);
    ToldIsTaken(s.f.ck, s.m.sent, s2.m.sent, s.f.recv, s.m.bar.round);
    CkOverKeeps(s.f.ck, false, s2.m.sent, s.f.recv, |s2.m.sent|);
    NodeHalf(q, t, Follower);
    CaughtUp(q, t.f, t.m);
  }

  /** The snapshot that was already scheduled is taken and clears the newer request. */
  lemma ClearsNewer(q: nat, s: Sys) returns (t: Sys)
    requires Attentive(q, s, Follower) && s.f.bar.checkArmed && !Waiting(s.f.bar) && s.f.bar.round + 2 < KEY_SPAN
    requires s.f.ck.scheduled && s.f.ck.needs && s.f.recv == |s.m.sent|
    requires s.m.bar.round == s.f.bar.round + 1 && s.m.bar.checkArmed
    ensures Gets(q, Follower, s, t) && t.f.bar.round == s.f.bar.round + 2
    ensures t.f.ck.snaps == s.f.ck.snaps + [Snapshot(s.f.bar.round, s.f.recv)]
  {
    hide CoreInv, LeadsBy, Waiting, Half, ExFits;
    MasterRole(q, s);
    var a := Take(q, s, Follower, SnapshotNow);
    assert Gets(q, Follower, s, a);
    var b := Leave(q, a, Follower);
    GetsChain(q, Follower, s, a, b);
    var c := CloseQuantum(q, b, Follower);
    GetsChain(q, Follower, s, b, c);
    NodeHalf(q, c, Follower);
    CaughtUp(q, c.f, c.m);
    t := Leave(q, c, Follower);
    GetsChain(q, Follower, s, c, t);
  }

  lemma SkipsAt(me: Side, requests: seq<nat>, k: nat)
    requires k < |requests| && requests[k] < me.bar.round && !Snapped(me, requests[k])
    ensures Skipped(me, requests)
  {
  }

  lemma SnappedOneMore(me: Side, next: Side, s: Snapshot, round: nat)
    requires next.ck.snaps == me.ck.snaps + [s] && s.round != round && !Snapped(me, round)
    ensures !Snapped(next, round)
  {
    forall p | 0 <= p < |next.ck.snaps| ensures next.ck.snaps[p].round != round {
      if p < |me.ck.snaps| { assert next.ck.snaps[p] == me.ck.snaps[p]; }
    }
  }

  /** A timely request one round after one that the follower has not served: from every such state the
      follower can be driven past a requested round without a snapshot of it. */
  lemma CloseRequestSkips(q: nat, s: Sys, a: Action) returns (t: Sys)
    requires Calm(q, s) && CanStep(s, Label(Master, a)) && AsksNow(s.m, s.f.sent, a)
    requires Timely(s.m) && Close(s.m) && !Snapped(s.f, s.m.bar.round - 1)
    ensures Leads(q, NextSys(q, s, Label(Master, a)), t) && Skipped(t.f, t.m.ck.requests)
  {
    hide AllInv, CoreInv, LeadsBy, Leads, CanStep, AsksNow, NextSys, Waiting, Snapped, Skipped;
    var s1 := NextSys(q, s, Label(Master, a));
    var u := OvertakenNotice(q, s, a);
    var last := |s.m.ck.requests| - 1;
    if s.f.ck.scheduled {
      SnapsBehind(q, s);
      t := ClearsNewer(q, u);
      SameSnapped(u.f, s.f, s.m.bar.round);
      SnappedOneMore(u.f, t.f, Snapshot(u.f.bar.round, u.f.recv), s.m.bar.round);
      SkipsAt(t.f, t.m.ck.requests, last + 1);
    } else {
      t := Leave(q, u, Follower);
      SameSnapped(t.f, s.f, s.m.bar.round - 1);
      SkipsAt(t.f, t.m.ck.requests, last);
    }
    Onwards(q, Follower, s1, u, t);
  }

  lemma SameSnapped(a: Side, b: Side, round: nat)
    requires a.ck.snaps == b.ck.snaps
    ensures Snapped(a, round) <==> Snapped(b, round)
  {
  }

  // ----- Exactly

  /** Between checkpoints the last request lies behind, so it is either far or close. */
  lemma FarOrClose(q: nat, s: Sys)
    requires AllInv(q, s) && Timely(s.m)
    ensures s.m.ck.needs || Far(s.m) || Close(s.m)
  {
    hide Half, ExInv, Conserved, SideFits, SnapsFit, ScheduleFits, AllDrained, Drains, FollowerFits;
  }

  /** Where the master goes on, and the previous request is out of the way: a request can drive the
      follower into its assertion if and only if it is late. */
  lemma LateExact(q: nat, s: Sys, a: Action)
    requires Calm(q, s) && CanStep(s, Label(Master, a)) && AsksNow(s.m, s.f.sent, a)
    requires s.m.ck.needs || Far(s.m) || (Close(s.m) && Snapped(s.f, s.m.bar.round - 1))
    requires !s.m.warm
    ensures (exists t :: Leads(q, NextSys(q, s, Label(Master, a)), t) && t.f.fault == Some(CheckpointPassed))
       <==> !Timely(s.m)
  {
    hide AllInv, Leads, CanStep, AsksNow, NextSys, Skipped, Far, Close, Snapped;
    CalmFits(q, s);
    if Timely(s.m) {
      forall t | Leads(q, NextSys(q, s, Label(Master, a)), t) ensures t.f.fault != Some(CheckpointPassed) {
        SafeRequestIsHarmless(q, s, a, t);
      }
    } else {
      var t := LateRequestIsFatal(q, s, a);
    }
  }

  /** And a timely request one round after the previous one can lose a snapshot if and only if the
      follower has not taken that of the previous one. */
  lemma CloseExact(q: nat, s: Sys, a: Action)
    requires Calm(q, s) && CanStep(s, Label(Master, a)) && AsksNow(s.m, s.f.sent, a)
    requires Timely(s.m) && Close(s.m)
    ensures (exists t :: Leads(q, NextSys(q, s, Label(Master, a)), t) && Skipped(t.f, t.m.ck.requests))
       <==> !Snapped(s.f, s.m.bar.round - 1)
  {
    hide AllInv, Leads, CanStep, AsksNow, NextSys, Skipped, Far, Snapped;
    CalmFits(q, s);
    if Snapped(s.f, s.m.bar.round - 1) {
      forall t | Leads(q, NextSys(q, s, Label(Master, a)), t) ensures !Skipped(t.f, t.m.ck.requests) {
        SafeRequestIsHarmless(q, s, a, t);
      }
    } else {
      var t := CloseRequestSkips(q, s, a);
    }
  }
}
