/** The INTENT / PERMISSION / END handshake under all interleavings of the four threads. */
module Exit {
  import opened Messages
  import opened Machine
  import opened Barrier

  // ----- What a node must keep to

  function OtherThread(t: Thread): Thread {
    if t == Main then Flexus else Main
  }

  /** Thread t is about to see the permission flag before the PERMISSION message is out. */
  predicate Overtakes(me: Side, t: Thread) {
    me.master && PcOf(me, t).at == EndRead && me.ex.permitted && Total(me.sent, KPermission) == 0
  }

  /** The grant is not overtaken by a concurrent `notify_neighbours_of_end`. */
  predicate GrantUncut(me: Side, a: Action) {
    a.Step? ==> !Overtakes(me, a.t)
  }

  predicate InEndCode(pc: Pc) {
    pc.at == EndRead || pc.at == EndSwap || pc.at == EndSend
  }

  /** One thread ends the process only when the other is not in the middle of sending END. */
  predicate EndsCleanly(me: Side, a: Action) {
    && (a.Stop? ==> !InEndCode(me.main))
    && (a == Step(Main) && me.main.at == Quit ==> !InEndCode(me.flex))
  }

  // ----- The invariant: one node's threads and flags

  predicate PcsFit(me: Side) {
    && me.main.at !in {Ready, Return}
    && me.main.after in {Idle, Advance, Quit}
    && me.flex.at !in {Advance, Quit}
    && me.flex.after in {Idle, Ready}
    && (me.main.at in {GrantSet, GrantSend} ==> me.main.after == Advance && me.master)
    && (me.flex.at in {GrantSet, GrantSend} ==> me.flex.after == Ready && me.master)
    && (me.main.at in {Idle, Advance, Quit} ==> me.main.after == Idle)
    && (me.flex.at in {Idle, Ready, Return} ==> me.flex.after == Idle)
  }

  predicate AnyAt(me: Side, p: Point) {
    me.main.at == p || me.flex.at == p
  }

  /** END is emitted at most once, by the thread that won the swap, and only when permitted. */
  predicate EndFits(me: Side) {
    && Total(me.sent, KEnd) == (if me.ex.endSent && !AnyAt(me, EndSend) then 1 else 0)
    && (AnyAt(me, EndSend) ==> me.ex.endSent)
    && !(me.main.at == EndSend && me.flex.at == EndSend)
    && (me.ex.endSent || AnyAt(me, EndSwap) ==> me.ex.permitted)
  }

  /** Between a PERMISSION and the swap there is always a thread that still has to try the swap. */
  predicate SwapPending(me: Side) {
    || (me.main.at in {EndRead, EndSwap} && me.main.after == Advance)
    || (me.flex.at in {EndRead, EndSwap} && me.flex.after == Ready)
  }

  predicate MasterExit(me: Side) {
    && Total(me.sent, KIntent) == 0
    && (Total(me.sent, KPermission) >= 1 || AnyAt(me, GrantSend) ==> me.ex.permitted)
    && (me.ex.permitted ==> Total(me.sent, KPermission) >= 1 || AnyAt(me, GrantSend))
    && (me.ex.endSent || AnyAt(me, EndSwap) ==> Total(me.sent, KPermission) >= 1)
    && (me.ex.permitted || AnyAt(me, GrantSet) ==> me.ex.readyNeighbors >= 1 && me.ex.asked)
    && (Total(me.sent, KPermission) >= 1 ==> me.ex.endSent || SwapPending(me))
    && (me.ex.ready ==> me.ex.asked)
    && (me.flex.at in {GrantSet, GrantSend, Ready, Return} ==> me.ex.asked)
    && (me.flex.after == Ready ==> me.ex.asked)
  }

  predicate FollowerExit(me: Side) {
    && Total(me.sent, KPermission) == 0
    && Total(me.sent, KIntent) == (if me.ex.intentSent then 1 else 0)
    && (me.ex.permitted ==> me.ex.endSent || me.main.at in {EndRead, EndSwap})
  }

  predicate FinishFits(me: Side) {
    && (me.ex.pairFinished ==> me.ex.permitted && me.main.after != Advance)
    && (me.ex.pairFinished ==> me.ex.endSent || (me.flex.at in {EndRead, EndSwap} && me.flex.after == Ready))
    && (me.main.after == Quit || me.main.at == Quit ==> me.ex.pairFinished || Warmed(me))
    && (me.ex.stopOk ==> me.ex.permitted && me.ex.pairFinished && me.ex.endSent)
    && me.fault != Some(EndTooEarly)
    && (Warmed(me) ==> Leaving(me) || me.halted)
  }

  predicate OwnExit(me: Side) {
    PcsFit(me) && EndFits(me) && (if me.master then MasterExit(me) else FollowerExit(me)) && FinishFits(me)
  }

  /** On the master's channel no END precedes the first PERMISSION. */
  predicate EndAfterPermission(log: Log, i: nat)
    requires i < |log|
  {
    log[i].body.EndOfEmulation? ==> Count(log, i, KPermission) >= 1
  }

  ghost predicate ExitLog(me: Side) {
    me.master ==> forall i :: 0 <= i < |me.sent| ==> EndAfterPermission(me.sent, i)
  }

  // ----- The invariant: flags against the peer's log

  predicate FlagsFit(me: Side, peer: Side) {
    && me.recv <= |peer.sent|
    && (me.master ==> me.ex.readyNeighbors == Count(peer.sent, me.recv, KIntent))
    && (!me.master ==> (me.ex.permitted <==> Count(peer.sent, me.recv, KPermission) >= 1))
    && (me.ex.pairFinished <==> Count(peer.sent, me.recv, KEnd) >= 1)
  }

  ghost predicate ExFits(me: Side, peer: Side) {
    OwnExit(me) && ExitLog(me) && FlagsFit(me, peer)
  }

  ghost predicate ExInv(s: Sys) {
    && s.m.master && !s.f.master
    && ExFits(s.m, s.f) && ExFits(s.f, s.m)
  }

  // ----- Logs

  lemma ExitAppend(me: Side, next: Side, m: Message)
    requires ExitLog(me) && next.master == me.master && next.sent == me.sent + [m]
    requires me.master && m.body.EndOfEmulation? ==> Total(me.sent, KPermission) >= 1
    ensures ExitLog(next)
  {
    if me.master {
      forall i | 0 <= i < |next.sent| ensures EndAfterPermission(next.sent, i) {
        CountExtend(me.sent, [m], i, KPermission);
        assert i < |me.sent| ==> EndAfterPermission(me.sent, i);
      }
    }
  }

  lemma FlagsPeerGrows(me: Side, peer: Side, next: Side, tail: Log)
    requires FlagsFit(me, peer) && next.sent == peer.sent + tail
    ensures FlagsFit(me, next)
  {
    CountExtend(peer.sent, tail, me.recv, KIntent);
    CountExtend(peer.sent, tail, me.recv, KPermission);
    CountExtend(peer.sent, tail, me.recv, KEnd);
  }

  lemma TotalsAppend(log: Log, m: Message)
    ensures Total(log + [m], KIntent) == Total(log, KIntent) + if m.body.Intent? then 1 else 0
    ensures Total(log + [m], KPermission) == Total(log, KPermission) + if m.body.Permission? then 1 else 0
    ensures Total(log + [m], KEnd) == Total(log, KEnd) + if m.body.EndOfEmulation? then 1 else 0
  {
    TotalAppend(log, m, KIntent);
    TotalAppend(log, m, KPermission);
    TotalAppend(log, m, KEnd);
  }

  // ----- Thread steps

  lemma GrantSetKeeps(q: nat, me: Side, t: Thread)
    requires OwnExit(me) && ExitLog(me) && PcOf(me, t).at == GrantSet && me.fault.None?
    ensures OwnExit(ThreadStep(q, me, t)) && ExitLog(ThreadStep(q, me, t))
  {
    if t == Main {} else {}
  }

  lemma GrantSendKeeps(q: nat, me: Side, t: Thread)
    requires OwnExit(me) && ExitLog(me) && PcOf(me, t).at == GrantSend
    ensures OwnExit(ThreadStep(q, me, t)) && ExitLog(ThreadStep(q, me, t))
  {
    var m := Message(Universal(me.bar), Permission);
    TotalsAppend(me.sent, m);
    ExitAppend(me, ThreadStep(q, me, t), m);
    if t == Main {} else {}
  }

  /** At the gates of the END code: the permission test and the swap. */
  predicate AtGate(me: Side, t: Thread) {
    PcOf(me, t).at in {EndRead, EndSwap} && !Overtakes(me, t)
  }

  /** The thread goes on to the next gate, to the send, or back to where it came from. */
  predicate GateMoves(me: Side, next: Side, t: Thread) {
    && next.master == me.master && PcOf(next, OtherThread(t)) == PcOf(me, OtherThread(t))
    && (|| PcOf(next, t) == Pc(EndSwap, PcOf(me, t).after)
        || PcOf(next, t) == Pc(EndSend, PcOf(me, t).after)
        || PcOf(next, t) == Pc(PcOf(me, t).after, Idle))
  }

  lemma GateStep(q: nat, me: Side, t: Thread)
    requires AtGate(me, t)
    ensures GateMoves(me, ThreadStep(q, me, t), t)
  {
    if t == Main {} else {}
  }

  lemma GateThreads(me: Side, next: Side, t: Thread)
    requires PcsFit(me) && PcOf(me, t).at in {EndRead, EndSwap} && GateMoves(me, next, t)
    ensures PcsFit(next)
  {
    if t == Main {} else {}
  }

  lemma GateEnds(q: nat, me: Side, t: Thread)
    requires PcsFit(me) && EndFits(me) && AtGate(me, t)
    ensures EndFits(ThreadStep(q, me, t))
  {
    if PcOf(me, t).at == EndRead {
      if t == Main {} else {}
    } else {
      if t == Main {} else {}
    }
  }

  lemma GateMaster(q: nat, me: Side, t: Thread)
    requires PcsFit(me) && EndFits(me) && MasterExit(me) && AtGate(me, t) && me.master
    ensures MasterExit(ThreadStep(q, me, t))
  {
    if PcOf(me, t).at == EndRead {
      if t == Main {} else {}
    } else {
      if t == Main {} else {}
    }
  }

  lemma GateFollower(q: nat, me: Side, t: Thread)
    requires PcsFit(me) && EndFits(me) && FollowerExit(me) && AtGate(me, t)
    ensures FollowerExit(ThreadStep(q, me, t))
  {
    if PcOf(me, t).at == EndRead {
      if t == Main {} else {}
    } else {
      if t == Main {} else {}
    }
  }

  lemma GateFinishes(q: nat, me: Side, t: Thread)
    requires PcsFit(me) && EndFits(me) && FinishFits(me) && AtGate(me, t)
    ensures FinishFits(ThreadStep(q, me, t))
  {
    if PcOf(me, t).at == EndRead {
      if t == Main {} else {}
    } else {
      if t == Main {} else {}
    }
  }

  lemma GateKeeps(q: nat, me: Side, t: Thread)
    requires OwnExit(me) && ExitLog(me) && AtGate(me, t)
    ensures OwnExit(ThreadStep(q, me, t)) && ExitLog(ThreadStep(q, me, t))
  {
    hide PcsFit, EndFits, MasterExit, FollowerExit, FinishFits;
    GateStep(q, me, t);
    GateThreads(me, ThreadStep(q, me, t), t);
    GateEnds(q, me, t);
    if me.master { GateMaster(q, me, t); } else { GateFollower(q, me, t); }
    GateFinishes(q, me, t);
    if PcOf(me, t).at == EndRead {} else {}
  }

  lemma EndSendKeeps(q: nat, me: Side, t: Thread)
    requires OwnExit(me) && ExitLog(me) && PcOf(me, t).at == EndSend
    ensures OwnExit(ThreadStep(q, me, t)) && ExitLog(ThreadStep(q, me, t))
  {
    var m := Message(Universal(me.bar), EndOfEmulation);
    TotalsAppend(me.sent, m);
    ExitAppend(me, ThreadStep(q, me, t), m);
    if t == Main {} else {}
  }

  lemma FlexusKeeps(q: nat, me: Side)
    requires OwnExit(me) && ExitLog(me) && me.flex.at in {Ready, Return}
    ensures OwnExit(ThreadStep(q, me, Flexus)) && ExitLog(ThreadStep(q, me, Flexus))
  {
    if me.flex.at == Ready {} else {}
  }

  lemma MainKeeps(q: nat, me: Side)
    requires OwnExit(me) && ExitLog(me) && me.main.at in {Advance, Quit}
    ensures OwnExit(ThreadStep(q, me, Main)) && ExitLog(ThreadStep(q, me, Main))
  {
    if me.main.at == Advance {} else {}
  }

  lemma ThreadKeeps(q: nat, me: Side, t: Thread)
    requires OwnExit(me) && ExitLog(me) && PcOf(me, t).at != Idle && !Overtakes(me, t) && me.fault.None?
    ensures OwnExit(ThreadStep(q, me, t)) && ExitLog(ThreadStep(q, me, t))
  {
    match PcOf(me, t).at
    case GrantSet => GrantSetKeeps(q, me, t);
    case GrantSend => GrantSendKeeps(q, me, t);
    case EndRead | EndSwap => GateKeeps(q, me, t);
    case EndSend => EndSendKeeps(q, me, t);
    case Ready | Return => FlexusKeeps(q, me);
    case _ => MainKeeps(q, me);
  }

  // ----- Calls

  lemma CanStopKeeps(me: Side)
    requires OwnExit(me) && ExitLog(me) && me.flex.at == Idle && me.fault.None?
    ensures OwnExit(CanStop(me)) && ExitLog(CanStop(me))
  {
    if !me.master && !me.ex.intentSent {
      var m := Message(Universal(me.bar), Intent);
      TotalsAppend(me.sent, m);
      ExitAppend(me, CanStop(me), m);
    } else if me.master {
      if me.ex.readyNeighbors >= 1 && !me.ex.permitted {} else {}
    }
  }

  lemma NotifyFlexus(me: Side)
    requires OwnExit(me) && ExitLog(me) && me.flex.at == Idle && me.fault.None?
    ensures OwnExit(NotifyEnd(me, Flexus, Idle)) && ExitLog(NotifyEnd(me, Flexus, Idle))
  {
    if me.ex.notifiedExit {} else {}
  }

  lemma NotifyMain(me: Side, after: Point)
    requires OwnExit(me) && ExitLog(me) && me.main.at == Idle && me.fault.None?
    requires after == Idle || (after == Quit && me.ex.pairFinished)
    ensures OwnExit(NotifyEnd(me, Main, after)) && ExitLog(NotifyEnd(me, Main, after))
  {
    if me.ex.notifiedExit {} else {}
  }

  lemma NotifyKeeps(me: Side, t: Thread, after: Point)
    requires OwnExit(me) && ExitLog(me) && PcOf(me, t).at == Idle && me.fault.None?
    requires after == Idle || (t == Main && after == Quit && me.ex.pairFinished)
    ensures OwnExit(NotifyEnd(me, t, after)) && ExitLog(NotifyEnd(me, t, after))
  {
    hide OwnExit, ExitLog, NotifyEnd;
    if t == Main {
      NotifyMain(me, after);
    } else {
      NotifyFlexus(me);
    }
  }

  lemma ProceedKeeps(me: Side)
    requires OwnExit(me) && ExitLog(me) && MainIdle(me) && me.fault.None?
    ensures OwnExit(Proceed(me)) && ExitLog(Proceed(me))
  {
    if MayGrantAtBarrier(me) {} else {}
  }

  // ----- Steps outside the handshake

  predicate NoExitMessage(b: Body) {
    b.Sync? || b.Packet? || b.DrainStart? || b.InitStep? || b.Notice?
  }

  /** The handshake is untouched; what is sent is no message of the handshake. */
  predicate ExQuiet(me: Side, next: Side, tail: Log) {
    && next.ex == me.ex && next.main == me.main && next.flex == me.flex && next.master == me.master
    && next.recv == me.recv && next.sent == me.sent + tail && next.fault != Some(EndTooEarly)
    && Warmed(next) == Warmed(me) && (me.halted ==> next.halted)
    && forall i :: 0 <= i < |tail| ==> NoExitMessage(tail[i].body)
  }

  lemma {:induction false} QuietLog(me: Side, next: Side, tail: Log)
    requires ExQuiet(me, next, tail) && OwnExit(me) && ExitLog(me)
    ensures OwnExit(next) && ExitLog(next)
    decreases |tail|
  {
    if tail != [] {
      var mid := me.(sent := me.sent + [tail[0]]);
      TotalsAppend(me.sent, tail[0]);
      ExitAppend(me, mid, tail[0]);
      assert ExQuiet(mid, next, tail[1..]) by { assert me.sent + tail == me.sent + [tail[0]] + tail[1..]; }
      QuietLog(mid, next, tail[1..]);
    } else {
      assert next.sent == me.sent;
    }
  }

  predicate IsExQuiet(a: Action) {
    match a
    case Step(_) | CallCanStop | CallNotify(_) | TakeExit | Check | Poll | SnapshotNow | Stop => false
    case _ => true
  }

  lemma ExQuietSteps(q: nat, me: Side, peerSent: Log, a: Action)
    requires Enabled(me, peerSent, a) && IsExQuiet(a)
    ensures ExQuiet(me, Next(q, me, peerSent, a), Tail(q, me, a))
  {
    hide FirstDue, Universal, RequestCheckpoint;
    match a
    case SendSync => if me.ck.needs {} else {}
    case FireDelivery =>
    case Initiate => InitiateIsQuiet(me);
    case _ =>
  }

  lemma InitiateIsQuiet(me: Side)
    requires me.fault.None?
    ensures ExQuiet(me, InitiateCheckpoint(me), WithMessage([], ControlOf(me, Initiate)))
  {
    hide Repeats;
  }

  lemma CheckKeepsExit(q: nat, me: Side, peerSent: Log)
    requires OwnExit(me) && ExitLog(me) && Enabled(me, peerSent, Check)
    ensures OwnExit(SyncCheck(me)) && ExitLog(SyncCheck(me))
  {
    hide OwnExit, ExitLog;
    var noticed := Noticed(me);
    assert ExQuiet(me, noticed, NoticeOf(me));
    QuietLog(me, noticed, NoticeOf(me));
    ProceedKeeps(noticed);
    if me.ck.needs {
      if me.bar.round < me.ck.ckRound {
        assert SyncCheck(me) == Proceed(noticed);
      } else if me.bar.round == me.ck.ckRound {
        QuietLog(noticed, SyncCheck(me), []);
      } else {
        QuietLog(noticed, SyncCheck(me), []);
      }
    } else {
      assert SyncCheck(me) == Proceed(me);
    }
  }

  lemma SnapshotKeepsExit(me: Side)
    requires OwnExit(me) && ExitLog(me) && MainIdle(me) && me.fault.None?
    ensures OwnExit(TakeSnapshot(me)) && ExitLog(TakeSnapshot(me))
  {
    if me.master && me.warm {
      WarmSnapshot(me);
    } else {
      hide OwnExit, ExitLog, NotifyEnd;
      QuietLog(me, TakeSnapshot(me), []);
    }
  }

  lemma WarmSnapshot(me: Side)
    requires OwnExit(me) && ExitLog(me) && MainIdle(me) && me.fault.None? && me.master && me.warm
    ensures OwnExit(NotifyEnd(Recorded(me), Main, Quit)) && ExitLog(NotifyEnd(Recorded(me), Main, Quit))
  {
    if me.ex.notifiedExit {} else {}
  }

  // ----- Receiving

  /** END reaches only a node that is permitted to exit: the handshake's assert cannot fire. */
  lemma EndFindsPermission(me: Side, peer: Side)
    requires me.master != peer.master && ExFits(me, peer) && ExFits(peer, me)
    requires me.recv < |peer.sent| && peer.sent[me.recv].body.EndOfEmulation?
    ensures me.ex.permitted && (me.master ==> Total(me.sent, KPermission) >= 1)
  {
    CountSeen(peer.sent, me.recv, KEnd);
    if me.master {
      CountMono(me.sent, peer.recv, |me.sent|, KPermission);
    } else {
      assert EndAfterPermission(peer.sent, me.recv);
    }
  }

  lemma TakeEnd(me: Side)
    requires OwnExit(me) && ExitLog(me) && MainIdle(me) && me.ex.permitted && me.fault.None?
    requires me.master ==> Total(me.sent, KPermission) >= 1
    ensures var next := me.(ex := me.ex.(pairFinished := true)).(recv := me.recv + 1); OwnExit(next) && ExitLog(next)
  {
    if me.master {} else {}
  }

  lemma TakePermission(me: Side)
    requires OwnExit(me) && ExitLog(me) && MainIdle(me) && !me.master && me.fault.None?
    ensures var next := me.(ex := me.ex.(permitted := true), main := Pc(EndRead, Idle)).(recv := me.recv + 1);
            OwnExit(next) && ExitLog(next)
  {
  }

  lemma PollEnd(q: nat, me: Side, peer: Side)
    requires me.master != peer.master && ExFits(me, peer) && ExFits(peer, me)
    requires Enabled(me, peer.sent, Poll) && peer.sent[me.recv].body.EndOfEmulation?
    ensures ExFits(Next(q, me, peer.sent, Poll), peer)
  {
    hide OwnExit, ExitLog;
    EndFindsPermission(me, peer);
    TakeEnd(me);
    CountSeen(peer.sent, me.recv, KEnd);
  }

  lemma PollPermission(q: nat, me: Side, peer: Side)
    requires me.master != peer.master && ExFits(me, peer) && ExFits(peer, me)
    requires Enabled(me, peer.sent, Poll) && peer.sent[me.recv].body.Permission?
    ensures ExFits(Next(q, me, peer.sent, Poll), peer)
  {
    hide EndFits, MasterExit, FinishFits, PcsFit, ExitLog;
    CountSeen(peer.sent, me.recv, KPermission);
    TakePermission(me);
  }

  predicate OtherReceipt(me: Side, m: Message, next: Side) {
    && next.main == me.main && next.flex == me.flex && next.master == me.master
    && next.sent == me.sent && next.fault != Some(EndTooEarly) && Warmed(next) == Warmed(me) && next.halted == me.halted
    && next.ex == if m.body.Intent? && me.master then me.ex.(readyNeighbors := me.ex.readyNeighbors + 1) else me.ex
  }

  lemma OtherReceiptEffect(me: Side, m: Message)
    requires me.fault.None? && !m.body.Permission? && !m.body.EndOfEmulation?
    ensures OtherReceipt(me, m, Receive(me, m))
  {
    match m.body
    case Intent => if me.master {} else {}
    case Sync(_) =>
    case Packet(_) =>
    case DrainStart(_) =>
    case _ =>
  }

  lemma PollOther(me: Side, next: Side, peer: Side)
    requires me.master != peer.master && ExFits(me, peer) && me.recv < |peer.sent|
    requires !peer.sent[me.recv].body.Permission? && !peer.sent[me.recv].body.EndOfEmulation?
    requires OtherReceipt(me, peer.sent[me.recv], next) && next.recv == me.recv + 1
    ensures ExFits(next, peer)
  {
    hide EndFits, PcsFit, OtherReceipt;
    assert OwnExit(next) && ExitLog(next) by { OtherKeepsOwn(me, peer.sent[me.recv], next); }
    OtherFlags(me, peer.sent[me.recv], next);
  }

  lemma OtherFlags(me: Side, m: Message, next: Side)
    requires OtherReceipt(me, m, next)
    ensures next.master == me.master && next.ex.permitted == me.ex.permitted
    ensures next.ex.pairFinished == me.ex.pairFinished
    ensures next.ex.readyNeighbors == me.ex.readyNeighbors + if m.body.Intent? && me.master then 1 else 0
  {
  }

  lemma OtherKeepsOwn(me: Side, m: Message, next: Side)
    requires OtherReceipt(me, m, next) && OwnExit(me) && ExitLog(me)
    ensures OwnExit(next) && ExitLog(next)
  {
    if next.ex != me.ex {} else {}
  }

  lemma PollKeepsExit(q: nat, me: Side, peer: Side)
    requires me.master != peer.master && ExFits(me, peer) && ExFits(peer, me) && Enabled(me, peer.sent, Poll)
    ensures ExFits(Next(q, me, peer.sent, Poll), peer) && Next(q, me, peer.sent, Poll).master == me.master
  {
    hide OwnExit, ExitLog, FlagsFit;
    match peer.sent[me.recv].body
    case EndOfEmulation => PollEnd(q, me, peer);
    case Permission => PollPermission(q, me, peer);
    case _ =>
      OtherReceiptEffect(me, peer.sent[me.recv]);
      PollOther(me, Next(q, me, peer.sent, Poll), peer);
  }

  // ----- Every step keeps the invariant

  lemma OwnExitStep(q: nat, me: Side, peer: Side, a: Action)
    requires me.master != peer.master && ExFits(me, peer) && ExFits(peer, me)
    requires Enabled(me, peer.sent, a) && GrantUncut(me, a) && FlexusFits(me)
    ensures ExFits(Next(q, me, peer.sent, a), peer) && Next(q, me, peer.sent, a).master == me.master
  {
    hide EndFits, MasterExit, FollowerExit, FinishFits, EndAfterPermission;
    if IsExQuiet(a) {
      ExQuietSteps(q, me, peer.sent, a);
      QuietLog(me, Next(q, me, peer.sent, a), Tail(q, me, a));
    } else {
      match a {
        case Step(t) =>
          ThreadKeeps(q, me, t);
          ThreadLeavesFlags(q, me, t);
        case Poll => PollKeepsExit(q, me, peer);
        case _ => CallStep(q, me, peer, a);
      }
    }
  }

  lemma KnowsWhenPermitted(me: Side)
    requires OwnExit(me)
    ensures me.ex.pairFinished ==> me.ex.permitted
  {
  }

  lemma CallStep(q: nat, me: Side, peer: Side, a: Action)
    requires ExFits(me, peer) && Enabled(me, peer.sent, a)
    requires !IsExQuiet(a) && !a.Step? && !a.Poll?
    ensures ExFits(Next(q, me, peer.sent, a), peer) && Next(q, me, peer.sent, a).master == me.master
  {
    hide OwnExit, ExitLog;
    CallLeavesFlags(q, me, peer.sent, a);
    match a
    case CallCanStop => CanStopKeeps(me);
    case CallNotify(t) => NotifyKeeps(me, t, Idle);
    case TakeExit =>
      KnowsWhenPermitted(me);
      NotifyKeeps(me, Main, Quit);
    case Check => CheckKeepsExit(q, me, peer.sent);
    case SnapshotNow => SnapshotKeepsExit(me);
    case Stop => QuietLog(me, me.(halted := true), []);
    case _ =>
  }

  /** What a call leaves of the flags the peer's messages set. */
  lemma CallLeavesFlags(q: nat, me: Side, peerSent: Log, a: Action)
    requires Enabled(me, peerSent, a) && !IsExQuiet(a) && !a.Step? && !a.Poll?
    ensures SameFlags(me, Next(q, me, peerSent, a))
  {
    hide CanStop, NotifyEnd, TakeSnapshot, SyncCheck;
    match a
    case CallCanStop => AskLeavesFlags(me);
    case CallNotify(t) => NotifyLeavesFlags(me, t, Idle);
    case TakeExit => if me.ex.permitted { NotifyLeavesFlags(me, Main, Quit); } else {}
    case Check => CheckLeavesFlags(me);
    case SnapshotNow => SnapshotLeavesFlags(me);
    case Stop =>
  }

  /** The flags that only the peer's messages and the master's grant change. */
  predicate SameFlags(me: Side, next: Side) {
    && next.master == me.master && next.recv == me.recv
    && next.ex.readyNeighbors == me.ex.readyNeighbors && next.ex.pairFinished == me.ex.pairFinished
    && next.ex.permitted == me.ex.permitted
  }

  lemma AskLeavesFlags(me: Side)
    ensures SameFlags(me, CanStop(me))
  {
    if me.master {} else if me.ex.intentSent {} else {}
  }

  lemma NotifyLeavesFlags(me: Side, t: Thread, after: Point)
    ensures SameFlags(me, NotifyEnd(me, t, after))
  {
    if t == Main {} else {}
  }

  lemma CheckLeavesFlags(me: Side)
    ensures SameFlags(me, SyncCheck(me))
  {
    hide MayGrantAtBarrier;
    if me.ck.needs {} else {}
  }

  lemma SnapshotLeavesFlags(me: Side)
    ensures SameFlags(me, TakeSnapshot(me))
  {
    if me.master && me.warm {} else {}
  }

  /** A thread step changes none of the flags the peer's messages set, but the master's grant. */
  lemma ThreadLeavesFlags(q: nat, me: Side, t: Thread)
    requires PcOf(me, t).at != Idle && PcsFit(me)
    ensures var next := ThreadStep(q, me, t);
            && next.master == me.master && next.recv == me.recv
            && next.ex.readyNeighbors == me.ex.readyNeighbors && next.ex.pairFinished == me.ex.pairFinished
            && (!me.master ==> next.ex.permitted == me.ex.permitted)
  {
    match PcOf(me, t).at
    case GrantSet =>
    case EndRead => if me.ex.permitted {} else {}
    case EndSwap => if me.ex.endSent {} else {}
    case GrantSend | EndSend =>
    case _ =>
  }

  lemma StepKeepsExInv(q: nat, s: Sys, l: Label)
    requires ExInv(s) && CanStep(s, l) && GrantUncut(Mine(s, l.who), l.act)
    ensures ExInv(NextSys(q, s, l))
  {
    var me, peer := Mine(s, l.who), Peers(s, l.who);
    var next := Next(q, me, peer.sent, l.act);
    OwnExitStep(q, me, peer, l.act);
    LogGrows(q, me, peer.sent, l.act);
    FlagsPeerGrows(peer, me, next, Tail(q, me, l.act));
    NextSysIs(q, s, l, next);
  }

  // ----- Over every run with an uncut grant

  ghost predicate UncutRun(q: nat, states: seq<Sys>, labels: seq<Label>) {
    && IsRun(q, states, labels) && AllFit(states)
    && forall i :: 0 <= i < |labels| ==> GrantUncut(Mine(states[i], labels[i].who), labels[i].act)
  }

  ghost predicate UncutReachable(q: nat, s: Sys) {
    exists states, labels :: UncutRun(q, states, labels) && states[|states| - 1] == s
  }

  lemma InitialExInv(s: Sys)
    requires Init(s)
    ensures ExInv(s)
  {
  }

  lemma {:induction false} UncutRunInv(q: nat, states: seq<Sys>, labels: seq<Label>, i: nat)
    requires UncutRun(q, states, labels) && i < |states|
    ensures ExInv(states[i])
  {
    hide ExInv, Inv;
    if i == 0 {
      InitialExInv(states[0]);
    } else {
      UncutRunInv(q, states, labels, i - 1);
      RunInv(q, states, labels, i - 1);
      assert GrantUncut(Mine(states[i - 1], labels[i - 1].who), labels[i - 1].act);
      StepKeepsExInv(q, states[i - 1], labels[i - 1]);
    }
  }

  lemma UncutReachableInv(q: nat, s: Sys)
    requires UncutReachable(q, s)
    ensures Inv(q, s) && RoundsFit(s) && ExInv(s)
  {
    var states, labels :| UncutRun(q, states, labels) && states[|states| - 1] == s;
    UncutRunInv(q, states, labels, |states| - 1);
    RunInv(q, states, labels, |states| - 1);
  }

  /** Exit-flag safety.  No node takes END, or knows that its peer has ended, while it is not itself
      permitted to exit; and permission exists only after the follower's INTENT and the master's own
      request to stop. */
  lemma ExitFlagSafety(q: nat, s: Sys, w: Who)
    requires UncutReachable(q, s)
    ensures Mine(s, w).fault != Some(EndTooEarly)
    ensures Mine(s, w).ex.pairFinished ==> Mine(s, w).ex.permitted
    ensures (Mine(s, w).recv < |Peers(s, w).sent| && Peers(s, w).sent[Mine(s, w).recv].body.EndOfEmulation?) ==>
              Mine(s, w).ex.permitted
    ensures s.m.ex.permitted || s.f.ex.permitted ==>
              s.m.ex.asked && exists p :: 0 <= p < s.m.recv && p < |s.f.sent| && s.f.sent[p].body.Intent?
  {
    hide Half, EndFits, PcsFit, ExitLog;
    UncutReachableInv(q, s);
    var me, peer := Mine(s, w), Peers(s, w);
    if me.recv < |peer.sent| && peer.sent[me.recv].body.EndOfEmulation? {
      EndFindsPermission(me, peer);
    }
    if s.m.ex.permitted || s.f.ex.permitted {
      if s.f.ex.permitted { CountMono(s.m.sent, s.f.recv, |s.m.sent|, KPermission); }
      var p := CountWitness(s.f.sent, 0, s.m.recv, KIntent);
    }
  }

  /** Each side emits at most one END, whoever of the racing threads sends it, and only when permitted. */
  lemma EndOnce(q: nat, s: Sys, w: Who)
    requires UncutReachable(q, s)
    ensures Total(Mine(s, w).sent, KEnd) <= 1
    ensures Total(Mine(s, w).sent, KEnd) == 1 ==> Mine(s, w).ex.permitted
    ensures s.m.master && Total(s.m.sent, KEnd) == 1 ==>
              exists p :: 0 <= p < |s.m.sent| && s.m.sent[p].body.EndOfEmulation?
                  && Count(s.m.sent, p, KPermission) >= 1
  {
    hide Half, FlagsFit, PcsFit;
    UncutReachableInv(q, s);
    if Total(s.m.sent, KEnd) == 1 {
      var p := CountWitness(s.m.sent, 0, |s.m.sent|, KEnd);
      assert EndAfterPermission(s.m.sent, p);
    }
  }

  lemma StopEnd(me: Side)
    requires OwnExit(me)
    ensures me.flex.at == Return && me.ex.permitted && me.ex.pairFinished ==>
              (Total(me.sent, KEnd) == 1 <==> me.main.at != EndSend)
  {
    hide MasterExit, FollowerExit;
  }

  lemma QuitEnd(me: Side)
    requires OwnExit(me) && me.main.at == Quit
    ensures me.ex.pairFinished || Warmed(me)
    ensures me.ex.pairFinished ==>
              (Total(me.sent, KEnd) == 1 <==>
                me.flex.at != EndSend && (me.flex.at in {EndRead, EndSwap} ==> me.ex.endSent))
    ensures !me.ex.pairFinished && !InEndCode(me.flex) ==>
        (Total(me.sent, KEnd) == 1 <==> Total(me.sent, KPermission) >= 1)
  {
  }

  /** When `can_stop` returns true, this node's END is in the channel unless the main thread holds it
      between its swap and its send.  When the main thread ends the process through the exit branch,
      likewise for the Flexus thread, which may also still have its swap to come; when it does so behind
      the master's last snapshot, the END is out exactly if the PERMISSION is. */
  lemma StopMeansEndSent(q: nat, s: Sys, w: Who)
    requires UncutReachable(q, s)
    ensures var me := Mine(s, w);
            && (me.flex.at == Return && me.ex.permitted && me.ex.pairFinished ==>
                  (Total(me.sent, KEnd) == 1 <==> me.main.at != EndSend))
            && (me.main.at == Quit && me.ex.pairFinished ==>
                  (Total(me.sent, KEnd) == 1 <==>
                    me.flex.at != EndSend && (me.flex.at in {EndRead, EndSwap} ==> me.ex.endSent)))
            && (me.main.at == Quit && !me.ex.pairFinished ==> Warmed(me))
            && (me.main.at == Quit && !me.ex.pairFinished && !InEndCode(me.flex) ==>
                  (Total(me.sent, KEnd) == 1 <==> Total(me.sent, KPermission) >= 1))
  {
    hide OwnExit, UncutReachable, Half, ExitLog, FlagsFit;
    UncutReachableInv(q, s);
    StopEnd(Mine(s, w));
    if Mine(s, w).main.at == Quit { QuitEnd(Mine(s, w)); }
  }
}
