/** Checkpoint requests under the name the program makes them under, "init_warmed": behind its snapshot
    the master ends.  So it makes one request at most, and a late one leaves the follower without its
    snapshot, in the round after, waiting for ever for a master that is gone. */
module WarmRequests {
  import opened Messages
  import opened Machine
  import opened Barrier
  import opened Conservation
  import opened Checkpoint
  import opened Exit
  import opened Orderly
  import opened Progress
  import opened Continuations
  import opened Requests

  // ----- One request at most

  /** A master still in its event loop has taken no snapshot, so it has asked at most for the present one. */
  lemma AsksOnce(q: nat, s: Sys)
    requires AllInv(q, s) && s.m.warm && Live(s.m) && MainIdle(s.m)
    ensures s.m.ck.snaps == [] && s.m.ck.requests == if s.m.ck.needs then [s.m.bar.round] else []
    ensures s.m.ck.needs ==> s.m.ck.ckRound == s.m.bar.round
  {
    hide Half, SnapsFit, AllDrained, Drains, FollowerFits, Conserved, SideFits, EndFits, MasterExit, FollowerExit;
    hide ExitLog, FlagsFit;
    assert !Warmed(s.m);
    assert Served(s.m.ck) == [];
  }

  /** So no request follows another one by a single round, and a request is safe exactly when it is in time. */
  lemma SafeIsTimely(q: nat, s: Sys)
    requires AllInv(q, s) && s.m.warm && Live(s.m) && MainIdle(s.m)
    ensures !Close(s.m) && (Safe(s.m, s.f) <==> Timely(s.m))
  {
    hide AllInv;
    AsksOnce(q, s);
  }

  // ----- The master's last round

  /** The master is in round c with its sync out, and will take a snapshot there and end, or has taken it. */
  predicate LastRound(me: Side, c: nat) {
    && me.master && me.warm && me.bar.round == c && me.bar.checkArmed && !Closing(me)
    && (Warmed(me) || (me.ck.needs && me.ck.ckRound == c))
  }

  ghost predicate NoticesOf(log: Log, c: nat) {
    forall i :: 0 <= i < |log| && log[i].body.DrainStart? ==> log[i].body.ckRound == c
  }

  predicate NeedsOnly(me: Side, c: nat) {
    me.ck.needs ==> me.ck.ckRound == c
  }

  predicate PassesNone(me: Side) {
    me.fault != Some(CheckpointPassed)
  }

  ghost predicate Ending(q: nat, s: Sys, c: nat) {
    && CoreInv(q, s) && LastRound(s.m, c) && NoticesOf(s.m.sent, c) && NeedsOnly(s.f, c)
    && PassesNone(s.m) && PassesNone(s.f)
  }

  lemma IdleIsUnwarmed(me: Side)
    requires OwnExit(me) && Live(me) && MainIdle(me)
    ensures !Warmed(me)
  {
    hide EndFits, MasterExit, FollowerExit;
  }

  lemma LastCheck(me: Side, c: nat)
    requires LastRound(me, c) && !Warmed(me) && me.fault.None?
    ensures LastRound(SyncCheck(me), c) && PassesNone(SyncCheck(me))
  {
    if me.ck.notified {} else {}
  }

  lemma LastSnapshot(me: Side, c: nat)
    requires LastRound(me, c) && PassesNone(me)
    ensures LastRound(TakeSnapshot(me), c) && PassesNone(TakeSnapshot(me))
  {
    if me.ex.notifiedExit {} else {}
  }

  lemma LastReceipt(me: Side, m: Message, c: nat)
    requires LastRound(me, c) && me.fault.None?
    ensures LastRound(Receive(me, m), c)
  {
    hide SyncCountIncrement, ValidRound, Universal, Repeats;
    match m.body
    case Sync(_) =>
    case Packet(_) =>
    case InitStep =>
    case EndOfEmulation => if me.ex.permitted {} else {}
    case _ =>
  }

  lemma LastThread(q: nat, me: Side, t: Thread, c: nat)
    requires LastRound(me, c) && PcOf(me, t).at != Idle && FlexusFits(me)
    ensures LastRound(ThreadStep(q, me, t), c)
  {
    match PcOf(me, t).at
    case EndRead => if me.ex.permitted {} else {}
    case EndSwap => if me.ex.endSent {} else {}
    case _ => if t == Main {} else {}
  }

  lemma LastCalls(q: nat, me: Side, peerSent: Log, a: Action, c: nat)
    requires LastRound(me, c) && Enabled(me, peerSent, a) && (a.CallCanStop? || a.CallNotify? || a.TakeExit?)
    ensures LastRound(Next(q, me, peerSent, a), c)
  {
    match a
    case CallCanStop =>
    case CallNotify(t) => if t == Main {} else {}
    case TakeExit => if me.ex.permitted {} else {}
  }

  lemma LastStep(q: nat, me: Side, peer: Side, a: Action, c: nat)
    requires LastRound(me, c) && Enabled(me, peer.sent, a) && OwnExit(me) && FlexusFits(me)
    ensures LastRound(Next(q, me, peer.sent, a), c) && PassesNone(Next(q, me, peer.sent, a))
  {
    hide OwnExit, ThreadStep, SyncCheck, TakeSnapshot, Receive, FirstDue, CanStop, NotifyEnd, ExitBranch;
    hide RequestCheckpoint;
    if a != Check { OnlyCheckPasses(q, me, peer.sent, a); }
    match a
    case Check =>
      IdleIsUnwarmed(me);
      LastCheck(me, c);
    case SnapshotNow => LastSnapshot(me, c);
    case Poll => LastReceipt(me, peer.sent[me.recv], c);
    case Step(t) => LastThread(q, me, t, c);
    case CallCanStop | CallNotify(_) | TakeExit => LastCalls(q, me, peer.sent, a, c);
    case Initiate => LastRequest(me, c);
    case _ =>
  }

  lemma LastRequest(me: Side, c: nat)
    requires LastRound(me, c)
    ensures LastRound(InitiateCheckpoint(me), c)
  {
    hide Repeats;
  }

  lemma LastTail(q: nat, me: Side, a: Action, c: nat)
    requires me.bar.round == c
    ensures NoticesOf(Tail(q, me, a), c)
  {
    match a
    case Step(t) =>
    case _ =>
  }

  lemma NoticesJoin(a: Log, b: Log, c: nat)
    requires NoticesOf(a, c) && NoticesOf(b, c)
    ensures NoticesOf(a + b, c)
  {
  }

  // ----- The follower meanwhile

  lemma FollowerNeeds(q: nat, me: Side, peerSent: Log, a: Action, c: nat)
    requires Enabled(me, peerSent, a) && !me.master && NoticesOf(peerSent, c) && NeedsOnly(me, c)
    ensures NeedsOnly(Next(q, me, peerSent, a), c)
  {
    hide ThreadStep, FirstDue, CanStop, NotifyEnd, Receive;
    match a
    case Step(t) => ThreadRequests(q, me, t);
    case Poll => ReceiptEffect(me, peerSent[me.recv]);
    case CallCanStop => CanStopRequests(me);
    case CallNotify(t) => NotifyRequests(me, t, Idle);
    case TakeExit => NotifyRequests(me, Main, Quit);
    case SnapshotNow => SnapshotTouches(me);
    case Check => if me.ck.needs {} else {}
    case _ =>
  }

  /** The master's last sync is that of round c: the follower gets into the next round and no further. */
  lemma FollowerWaits(q: nat, s: Sys, c: nat)
    requires CoreInv(q, s) && LastRound(s.m, c) && c + 1 < KEY_SPAN
    ensures s.f.bar.round <= c + 1 && RoundsFit(s) && (s.f.bar.round == c + 1 ==> Waiting(s.f.bar))
  {
    hide ExInv, Conserved, CoreSide, LogFits, ClockFits, NoneLate;
    Chain(s.f, s.m);
    CountMono(s.m.sent, s.f.recv, |s.m.sent|, KSync);
    assert SyncCountGet(s.f.bar.counts, s.f.bar.round) == if s.f.bar.round < SyncsSeen(s.f, s.m) then 1 else 0;
  }

  lemma FollowerPassesNone(q: nat, s: Sys, a: Action, c: nat)
    requires Ending(q, s, c) && c + 1 < KEY_SPAN && Enabled(s.f, s.m.sent, a)
    ensures PassesNone(Next(q, s.f, s.m.sent, a))
  {
    hide CoreInv, Waiting;
    FollowerWaits(q, s, c);
    if a == Check {
      if s.f.ck.needs {} else {}
    } else {
      OnlyCheckPasses(q, s.f, s.m.sent, a);
    }
  }

  lemma EndingStep(q: nat, s: Sys, l: Label, c: nat)
    requires Ending(q, s, c) && c + 1 < KEY_SPAN && CanStep(s, l) && Lawful(Mine(s, l.who), l.act)
    ensures Ending(q, NextSys(q, s, l), c)
  {
    hide CoreInv, LastRound, NoticesOf, NeedsOnly, PassesNone, Enabled, Next, Lawful, RoundsFit;
    FollowerWaits(q, s, c);
    StepKeepsCore(q, s, l);
    var next := Next(q, Mine(s, l.who), Peers(s, l.who).sent, l.act);
    NextSysIs(q, s, l, next);
    MasterRole(q, s);
    if l.who == Master {
      MasterOwn(q, s);
      LastStep(q, s.m, s.f, l.act, c);
      LogGrows(q, s.m, s.f.sent, l.act);
      LastIs(s.m, c);
      LastTail(q, s.m, l.act, c);
      NoticesJoin(s.m.sent, Tail(q, s.m, l.act), c);
    } else {
      FollowerNeeds(q, s.f, s.m.sent, l.act, c);
      FollowerPassesNone(q, s, l.act, c);
    }
  }

  lemma MasterOwn(q: nat, s: Sys)
    requires CoreInv(q, s)
    ensures OwnExit(s.m) && FlexusFits(s.m)
  {
    hide OwnExit, ExitLog, FlagsFit, Conserved, CoreSide, CountersFit, TableFits, LogFits, ClockFits, NoneLate;
  }

  lemma LastIs(me: Side, c: nat)
    requires LastRound(me, c)
    ensures me.bar.round == c && !Timely(me)
  {
  }

  lemma {:induction false} EndingPath(q: nat, s: Sys, labels: seq<Label>, t: Sys, c: nat)
    requires Ending(q, s, c) && c + 1 < KEY_SPAN && Path(q, s, labels, t)
    ensures Ending(q, t, c)
    decreases |labels|
  {
    if labels != [] {
      hide Ending, RoundsFit, CanStep, Paced, Lawful, NextSys;
      EndingStep(q, s, labels[0], c);
      EndingPath(q, NextSys(q, s, labels[0]), labels[1..], t, c);
    }
  }

  lemma {:induction false} NoticeIsListed(log: Log, n: nat, i: nat)
    requires i < n <= |log| && log[i].body.DrainStart?
    ensures log[i].body.ckRound in Drains(log, n)
  {
    if i < n - 1 { NoticeIsListed(log, n - 1, i); }
  }

  lemma LateIsEnding(q: nat, s: Sys, a: Action)
    requires Calm(q, s) && CanStep(s, Label(Master, a)) && AsksNow(s.m, s.f.sent, a) && !Timely(s.m) && s.m.warm
    ensures Ending(q, NextSys(q, s, Label(Master, a)), s.m.bar.round)
  {
    hide AllInv, CoreInv, CanStep, AsksNow, NextSys;
    AsksOnce(q, s);
    var s1 := AfterRequest(q, s, a);
    NoticesSoFar(q, s);
    if s.f.ck.needs { PendingAhead(q, s); }
    MasterRole(q, s1);
    MasterOwn(q, s1);
  }

  lemma NoticesSoFar(q: nat, s: Sys)
    requires AllInv(q, s) && s.m.warm && Live(s.m) && MainIdle(s.m)
    ensures NoticesOf(s.m.sent, s.m.bar.round)
  {
    hide Half, SnapsFit, AllDrained, Drains, FollowerFits, Conserved, SideFits, ExInv;
    AsksOnce(q, s);
    forall i | 0 <= i < |s.m.sent| && s.m.sent[i].body.DrainStart? ensures s.m.sent[i].body.ckRound == s.m.bar.round {
      NoticeIsListed(s.m.sent, |s.m.sent|, i);
    }
  }

  /** After a late request nobody ever asserts: the master stays in its round and ends there, and the
      follower, once in the next round, waits for ever. */
  lemma LateRequestWaits(q: nat, s: Sys, a: Action, t: Sys)
    requires Calm(q, s) && CanStep(s, Label(Master, a)) && AsksNow(s.m, s.f.sent, a) && !Timely(s.m) && s.m.warm
    requires Leads(q, NextSys(q, s, Label(Master, a)), t)
    ensures PassesNone(t.m) && PassesNone(t.f) && t.m.bar.round == s.m.bar.round && t.f.bar.round <= s.m.bar.round + 1
    ensures t.f.bar.round == s.m.bar.round + 1 ==> Waiting(t.f.bar)
  {
    hide AllInv, CoreInv, CanStep, AsksNow, NextSys, Path, Waiting;
    LateIsEnding(q, s, a);
    var s1 := NextSys(q, s, Label(Master, a));
    var labels :| Path(q, s1, labels, t);
    EndingPath(q, s1, labels, t, s.m.bar.round);
    FollowerWaits(q, t, s.m.bar.round);
  }

  // ----- A request repeated late

  /** The notice of round c stands in the log before the sync of its round. */
  predicate ToldInTime(log: Log, p: nat, c: nat) {
    p < |log| && log[p].body == DrainStart(c) && Count(log, p, KSync) == c
  }

  /** A node that is told of round c at position p of its peer's log serves it before it leaves the round. */
  ghost predicate Serves(me: Side, p: nat, c: nat) {
    && (p < me.recv ==> me.ck.needs || Snapped(me, c))
    && (me.ck.scheduled ==> me.ck.needs && me.bar.round == c && !Closing(me))
    && (c < me.bar.round || (me.bar.round == c && Closing(me)) ==> Snapped(me, c))
  }

  lemma ServesQuiet(me: Side, next: Side, p: nat, c: nat)
    requires Serves(me, p, c) && next.ck.snaps == me.ck.snaps && next.bar.round == me.bar.round
    requires (me.ck.needs ==> next.ck.needs) && next.ck.scheduled == me.ck.scheduled
    requires next.recv == me.recv && (Closing(next) ==> Closing(me))
    ensures Serves(next, p, c)
  {
  }

  lemma ServesPoll(me: Side, m: Message, next: Side, p: nat, c: nat)
    requires Serves(me, p, c) && !me.master && MainIdle(me) && me.main.after == Idle
    requires Received(me, m, next) && next.recv == me.recv + 1 && (me.recv == p ==> m.body == DrainStart(c))
    ensures Serves(next, p, c)
  {
    SameSnapped(me, next, c);
  }

  lemma ServesCheck(me: Side, peer: Side, p: nat, c: nat)
    requires Serves(me, p, c) && NeedsOnly(me, c) && Enabled(me, peer.sent, Check) && me.main.after == Idle
    requires me.recv <= |peer.sent| && ToldInTime(peer.sent, p, c) && me.bar.round < KEY_SPAN
    requires TableFits(me.bar.counts, SyncsSeen(me, peer))
    ensures Serves(SyncCheck(me), p, c)
  {
    hide ToldInTime;
    assert SyncCountGet(me.bar.counts, me.bar.round) == if me.bar.round < SyncsSeen(me, peer) then 1 else 0;
    if me.bar.round == c { SyncIsBehind(me, peer, p, c); }
    SameSnapped(me, SyncCheck(me), c);
    if me.ck.needs {} else {}
  }

  lemma SyncIsBehind(me: Side, peer: Side, p: nat, c: nat)
    requires me.recv <= |peer.sent| && ToldInTime(peer.sent, p, c) && c < SyncsSeen(me, peer)
    ensures p < me.recv
  {
    if me.recv <= p { CountMono(peer.sent, me.recv, p, KSync); }
  }

  lemma ServesSnapshot(me: Side, p: nat, c: nat)
    requires Serves(me, p, c) && me.ck.scheduled && !me.master
    ensures Serves(TakeSnapshot(me), p, c)
  {
    var next := TakeSnapshot(me);
    assert next.ck.snaps[|me.ck.snaps|].round == c;
  }

  lemma ServesAdvance(q: nat, me: Side, p: nat, c: nat)
    requires Serves(me, p, c) && me.main.at == Advance
    ensures Serves(ThreadStep(q, me, Main), p, c)
  {
    SameSnapped(me, ThreadStep(q, me, Main), c);
  }

  lemma ServesStep(q: nat, me: Side, peer: Side, a: Action, p: nat, c: nat)
    requires Half(q, me, peer) && !me.master && (me.main.at == Idle ==> me.main.after == Idle)
        && me.bar.round < KEY_SPAN
    requires Enabled(me, peer.sent, a) && ToldInTime(peer.sent, p, c) && NeedsOnly(me, c) && Serves(me, p, c)
    ensures Serves(Next(q, me, peer.sent, a), p, c)
  {
    hide LogFits, ClockFits, NoneLate, TableFits, ThreadStep, SyncCheck, TakeSnapshot, Receive, Serves, NeedsOnly;
    var next := Next(q, me, peer.sent, a);
    if IsCkQuiet(me, a) {
      CkQuietSteps(q, me, peer.sent, a);
      ServesQuiet(me, next, p, c);
    } else {
      match a {
        case SendSync | Initiate => ServesQuiet(me, next, p, c);
        case Check => ServesCheck(me, peer, p, c);
        case Poll =>
          ReceiptEffect(me, peer.sent[me.recv]);
          ServesPoll(me, peer.sent[me.recv], next, p, c);
        case SnapshotNow => ServesSnapshot(me, p, c);
        case Step(t) => ServesAdvance(q, me, p, c);
        case _ =>
      }
    }
  }

  /** The master ends in round c, the only one it has asked for, and the follower serves it. */
  ghost predicate EndingServed(q: nat, s: Sys, p: nat, c: nat) {
    Ending(q, s, c) && s.m.ck.requests == [c] && ToldInTime(s.m.sent, p, c) && Serves(s.f, p, c)
  }

  lemma ToldStays(log: Log, more: Log, p: nat, c: nat)
    requires ToldInTime(log, p, c)
    ensures ToldInTime(log + more, p, c)
  {
    CountExtend(log, more, p, KSync);
  }

  lemma NotAsked(me: Side, peer: Side, a: Action)
    requires Paced(me, peer, a) && !Timely(me)
    ensures !AsksNow(me, peer.sent, a)
  {
  }

  lemma FollowerOwn(q: nat, s: Sys)
    requires CoreInv(q, s)
    ensures Half(q, s.f, s.m) && (s.f.main.at == Idle ==> s.f.main.after == Idle)
  {
    hide EndFits, FollowerExit, MasterExit, FinishFits, ExitLog, FlagsFit, Conserved, CoreSide, Half;
  }

  lemma EndingServedStep(q: nat, s: Sys, l: Label, p: nat, c: nat)
    requires EndingServed(q, s, p, c) && c + 1 < KEY_SPAN && CanStep(s, l)
        && Keeps(Mine(s, l.who), Peers(s, l.who), l.act)
    ensures EndingServed(q, NextSys(q, s, l), p, c)
  {
    hide Ending, ToldInTime, Serves, Enabled, Next, Lawful, Paced;
    EndingStep(q, s, l, c);
    var next := Next(q, Mine(s, l.who), Peers(s, l.who).sent, l.act);
    NextSysIs(q, s, l, next);
    EndingIs(q, s, c);
    if l.who == Master {
      NotAsked(s.m, s.f, l.act);
      RequestsGrow(q, s.m, s.f.sent, l.act);
      LogGrows(q, s.m, s.f.sent, l.act);
      ToldStays(s.m.sent, Tail(q, s.m, l.act), p, c);
    } else {
      ServesStep(q, s.f, s.m, l.act, p, c);
    }
  }

  lemma EndingIs(q: nat, s: Sys, c: nat)
    requires Ending(q, s, c) && c + 1 < KEY_SPAN
    ensures Half(q, s.f, s.m) && (s.f.main.at == Idle ==> s.f.main.after == Idle) && !s.f.master
    ensures s.f.bar.round <= c + 1 && NeedsOnly(s.f, c) && s.m.bar.round == c && !Timely(s.m) && s.m.master
  {
    hide CoreInv, Half, Waiting;
    FollowerWaits(q, s, c);
    FollowerOwn(q, s);
    MasterRole(q, s);
  }

  lemma {:induction false} EndingServedPath(q: nat, s: Sys, labels: seq<Label>, t: Sys, p: nat, c: nat)
    requires EndingServed(q, s, p, c) && c + 1 < KEY_SPAN && Path(q, s, labels, t)
    ensures EndingServed(q, t, p, c)
    decreases |labels|
  {
    if labels != [] {
      hide EndingServed, RoundsFit, CanStep, Keeps, NextSys;
      EndingServedStep(q, s, labels[0], p, c);
      EndingServedPath(q, NextSys(q, s, labels[0]), labels[1..], t, p, c);
    }
  }

  lemma ServedNeverSkips(q: nat, s: Sys, p: nat, c: nat)
    requires EndingServed(q, s, p, c) && c + 1 < KEY_SPAN
    ensures !Failed(s)
  {
    hide CoreInv, Snapped;
    EndingIs(q, s, c);
  }

  /** At the moment of the repetition the first notice is out, and the follower serves it. */
  lemma RepeatIsServed(q: nat, s: Sys) returns (p: nat)
    requires Calm(q, s) && s.m.warm && s.m.ck.needs && s.m.bar.checkArmed
    ensures ToldInTime(s.m.sent, p, s.m.bar.round) && Serves(s.f, p, s.m.bar.round)
  {
    hide ExInv, Conserved, SideFits, LogFits, TableFits, ClockFits, NoneLate, SnapsFit, CloseServed, Waiting;
    AsksOnce(q, s);
    var c := s.m.bar.round;
    assert Drains(s.m.sent, |s.m.sent|) == [c];
    p := NthDrain(s.m.sent, |s.m.sent|, 0);
    assert WellDrained(s.m.sent, p);
    if p < s.f.recv {
      DrainsMono(s.m.sent, p + 1, s.f.recv);
      DrainsAreTold(s.m.sent, s.f.recv);
      assert Drains(s.m.sent, s.f.recv) == [c];
      FirstSnapshot(s.f);
    }
    if s.f.ck.needs { PendingAhead(q, s); }
    if c < s.f.bar.round {
      FollowerWasTold(q, s.f, s.m, 0);
      FirstSnapshot(s.f);
    }
  }

  lemma FirstSnapshot(me: Side)
    ensures SnapRounds(me.ck.snaps) != [] ==> Snapped(me, SnapRounds(me.ck.snaps)[0])
  {
    SnapRoundsLength(me.ck.snaps);
    if me.ck.snaps != [] {
      SnapRoundsAt(me.ck.snaps, 0);
      assert me.ck.snaps[0].round == SnapRounds(me.ck.snaps)[0];
    }
  }

  /** Asking again for the pending round, though late, does no harm: the first notice was in time. */
  lemma RepeatIsHarmless(q: nat, s: Sys, a: Action, t: Sys)
    requires Calm(q, s) && CanStep(s, Label(Master, a)) && AsksNow(s.m, s.f.sent, a) && !Timely(s.m)
    requires s.m.warm && s.m.ck.needs && Leads(q, NextSys(q, s, Label(Master, a)), t)
    ensures !Failed(t)
  {
    hide AllInv, CoreInv, CanStep, AsksNow, NextSys, Path, Serves, ToldInTime, Failed;
    var c := s.m.bar.round;
    LateIsEnding(q, s, a);
    AsksOnce(q, s);
    var s1 := AfterRequest(q, s, a);
    var p := RepeatIsServed(q, s);
    var labels :| Path(q, s1, labels, t);
    EndingServedPath(q, s1, labels, t, p, c);
    ServedNeverSkips(q, t, p, c);
  }

  // ----- Exactly

  /** A request can end in a passed or skipped checkpoint if and only if it is not safe; only a late
      repetition of the request still pending is harmless too where the master ends with its snapshot. */
  lemma RequestExact(q: nat, s: Sys, a: Action)
    requires Calm(q, s) && CanStep(s, Label(Master, a)) && AsksNow(s.m, s.f.sent, a)
    ensures (exists t :: Leads(q, NextSys(q, s, Label(Master, a)), t) && Failed(t))
       <==> !Safe(s.m, s.f) && !(s.m.warm && s.m.ck.needs)
  {
    hide AllInv, Leads, LeadsBy, CanStep, AsksNow, NextSys, Skipped, Far, Close, Snapped, CoreInv, Follows;
    var s1 := NextSys(q, s, Label(Master, a));
    CalmFits(q, s);
    if Safe(s.m, s.f) {
      forall t | Leads(q, s1, t) ensures !Failed(t) {
        SafeRequestIsHarmless(q, s, a, t);
      }
    } else if s.m.warm {
      WarmExact(q, s, a);
      SafeIsTimely(q, s);
    } else if !Timely(s.m) {
      var t := LateRequestIsFatal(q, s, a);
      assert Failed(t);
    } else {
      FarOrClose(q, s);
      var t := CloseRequestSkips(q, s, a);
      assert Failed(t);
    }
  }

  /** Under the name the program uses: a request can end in a skipped checkpoint if and only if it is late
      and not the repetition of one still pending. */
  lemma WarmExact(q: nat, s: Sys, a: Action)
    requires Calm(q, s) && CanStep(s, Label(Master, a)) && AsksNow(s.m, s.f.sent, a) && s.m.warm
    ensures (exists t :: Leads(q, NextSys(q, s, Label(Master, a)), t) && Failed(t)) <==> !Timely(s.m) && !s.m.ck.needs
  {
    hide AllInv, Leads, LeadsBy, CanStep, AsksNow, NextSys, Skipped, Far, Close, Snapped, CoreInv, Follows;
    var s1 := NextSys(q, s, Label(Master, a));
    CalmFits(q, s);
    SafeIsTimely(q, s);
    AsksOnce(q, s);
    if Timely(s.m) {
      forall t | Leads(q, s1, t) ensures !Failed(t) {
        SafeRequestIsHarmless(q, s, a, t);
      }
    } else if s.m.ck.needs {
      forall t | Leads(q, s1, t) ensures !Failed(t) {
        RepeatIsHarmless(q, s, a, t);
      }
    } else {
      var t := LateRequestSkips(q, s, a);
      ByIsLeads(q, Follower, s1, t);
      assert Failed(t);
    }
  }
}
