/** One node as an object: the functions of net/pdes-wwt.c and net/pdes-engine.c as methods that update
    its fields in place, each specified by a function on the record of Machine.  Calls shows that every
    such call is a sequence of the machine's atomic steps, so that all that is proved of the machine's
    runs holds of any program made of these calls. */
module Node {
  import opened Messages
  import opened Machine
  import SyncCounts

  // ----- Specifications: a whole call, uninterrupted on its own node

  /** `_send_end_if_handshake_complete`. */
  function SendEnd(me: Side): Side {
    if !me.ex.permitted || me.ex.endSent then me
    else Post(me.(ex := me.ex.(endSent := true)), EndOfEmulation)
  }

  function Grant(me: Side): Side {
    SendEnd(Post(me.(ex := me.ex.(permitted := true)), Permission))
  }

  /** `process_message`. */
  function Process(me: Side, m: Message): Side {
    if m.body.Permission? then SendEnd(me.(ex := me.ex.(permitted := true))) else Receive(me, m)
  }

  /** `pdes_engine_poll`: until the channel is empty or an assertion fires. */
  function PollAll(me: Side, log: Log): (r: Side)
    requires me.recv <= |log|
    ensures r.recv <= |log|
    decreases |log| - me.recv
  {
    if me.recv == |log| || me.fault.Some? then me
    else
      var next := Process(me, log[me.recv]).(recv := me.recv + 1);
      PollAll(next, log)
  }

  /** `quanta_sync`. */
  function QuantaSyncAll(me: Side, log: Log): Side
    requires me.recv <= |log|
  {
    var polled := PollAll(FinishQuantum(me), log);
    if polled.fault.Some? then polled else SyncOut(polled)
  }

  /** What the waiting loop of `wwt_sync_check` came to. */
  datatype Wait = Asserted | SyncHere | PeerEnded | StillWaiting

  /** What the peer sends during one turn of the waiting loop: before the poll of the loop, and before
      the poll of the next test. */
  datatype Turn = Turn(first: Log, second: Log)

  /** The waiting loop: poll and test for the sync; then, while it is missing, poll and test for the
      peer's END, poll and test for the sync again. */
  function WaitFor(me: Side, log: Log, turns: seq<Turn>): (r: (Side, Log, Wait))
    requires me.recv <= |log|
    ensures r.0.recv <= |r.1|
    ensures r.2 == Asserted <==> r.0.fault.Some?
    decreases |turns|
  {
    var polled := PollAll(me, log);
    if polled.fault.Some? then (polled, log, Asserted)
    else if !Waiting(polled.bar) then (polled, log, SyncHere)
    else if turns == [] then (polled, log, StillWaiting)
    else
      var again := PollAll(polled, log + turns[0].first);
      if again.fault.Some? then (again, log + turns[0].first, Asserted)
      else if again.ex.pairFinished then (again, log + turns[0].first, PeerEnded)
      else WaitFor(again, log + turns[0].first + turns[0].second, turns[1..])
  }

  /** The rest of `wwt_sync_check` once the peer's sync is here. */
  function CompleteCheck(q: nat, me: Side): Side {
    if !me.ck.needs then OpenRound(q, me) else
    var noticed := if me.ck.notified then me else NotifyDrain(me);
    if me.bar.round < me.ck.ckRound then OpenRound(q, noticed)
    else if me.bar.round == me.ck.ckRound then noticed.(ck := noticed.ck.(scheduled := true))
    else Fail(noticed, CheckpointPassed)
  }

  function OpenRound(q: nat, me: Side): Side {
    AdvanceRound(q, if MayGrantAtBarrier(me) then Grant(me) else me)
  }

  /** The exit branch of the waiting loop, up to the end of the process. */
  function LeaveWait(me: Side): Side {
    if !me.ex.permitted then Fail(me, EndTooEarly)
    else NotifyAll(me).(halted := true)
  }

  /** `wwt_sync_check`. */
  function CheckAll(q: nat, me: Side, log: Log, turns: seq<Turn>): (Side, Log, Wait)
    requires me.recv <= |log|
  {
    var (waited, log', outcome) := WaitFor(me, log, turns);
    match outcome
    case SyncHere => (CompleteCheck(q, waited), log', outcome)
    case PeerEnded => (LeaveWait(waited), log', outcome)
    case _ => (waited, log', outcome)
  }

  /** `notify_neighbours_of_end`. */
  function NotifyAll(me: Side): Side {
    if me.ex.notifiedExit then me else SendEnd(me.(ex := me.ex.(notifiedExit := true)))
  }

  /** `create_checkpoint_bh`; behind "init_warmed" the master's process ends. */
  function SaveAll(me: Side): Side {
    if !me.ck.needs then me
    else if me.master && me.warm then NotifyAll(Recorded(me)).(halted := true)
    else Recorded(me)
  }

  /** `can_stop`, up to the ready flag. */
  function Ask(me: Side): Side {
    if me.master then
      if me.ex.readyNeighbors >= 1 && !me.ex.permitted then Grant(me.(ex := me.ex.(asked := true)))
      else me.(ex := me.ex.(asked := true))
    else if me.ex.intentSent then me.(ex := me.ex.(asked := true))
    else Post(me, Intent).(ex := me.ex.(asked := true, intentSent := true))
  }

  /** `can_stop`; the node may exit now if it is permitted and its peer has finished. */
  function CanStopAll(me: Side): Side {
    var spoken := Ask(me);
    spoken.(ex := spoken.ex.(ready := true,
                             stopOk := spoken.ex.stopOk || (spoken.ex.permitted && spoken.ex.pairFinished)))
  }

  // ----- The object

  /** A one-way channel: what is under way, and for the specification all that was ever sent. */
  class Channel {
    var queue: seq<Message>
    ghost var log: Log
    var taken: nat // how many messages have been taken so far

    ghost predicate Valid()
      reads this
    {
      taken <= |log| && queue == log[taken..]
    }

    constructor ()
      ensures Valid() && log == [] && taken == 0
    {
      queue, log, taken := [], [], 0;
    }

    method Push(m: Message)
      requires Valid()
      modifies this
      ensures Valid() && log == old(log) + [m] && taken == old(taken)
    {
      queue := queue + [m];
      log := log + [m];
    }

    method Pop() returns (m: Option<Message>)
      requires Valid()
      modifies this
      ensures Valid() && log == old(log)
      ensures old(taken) == |log| ==> m == None && taken == old(taken)
      ensures old(taken) < |log| ==> m == Some(log[old(taken)]) && taken == old(taken) + 1
    {
      if queue == [] {
        return None;
      }
      m := Some(queue[0]);
      queue := queue[1..];
      taken := taken + 1;
    }
  }

  class PdesNode {
    const master: bool
    const warm: bool // requests are made under the name "init_warmed"
    const quantumNs: nat
    const outbox: Channel
    const inbox: Channel
    var bar: Bar // the fields of PDESWWT
    var ck: Ck   // the checkpoint fields of PDESEngine
    var ex: Ex   // its exit fields
    // an assertion that fired, and the end of the process
    var fault: Option<Fault>
    var halted: bool

    ghost predicate Valid()
      reads this, outbox, inbox
    {
      outbox != inbox && outbox.Valid() && inbox.Valid()
    }

    ghost function View(): Side
      reads this, outbox, inbox
    {
      Side(master, warm, bar, ck, ex, Pc(Idle, Idle), Pc(Idle, Idle), fault, halted, outbox.log, inbox.taken)
    }

    /** `pdes_engine_wwt_create` and `setup_wwt`. */
    constructor (master: bool, warm: bool, quantumNs: nat, now: int, outbox: Channel, inbox: Channel)
      requires outbox != inbox && outbox.Valid() && inbox.Valid() && outbox.log == [] && inbox.taken == 0
      ensures Valid() && this.quantumNs == quantumNs && this.outbox == outbox && this.inbox == inbox
      ensures View() == InitialSide(master, warm, now)
    {
      this.master, this.warm, this.quantumNs := master, warm, quantumNs;
      this.outbox, this.inbox := outbox, inbox;
      bar := Bar(now, now, 0, false, false, 0, map[], [], []);
      ck := Ck(false, false, 0, false, [], [], 0, false);
      ex := Ex(0, false, false, false, false, false, false, false, false);
      fault, halted := None, false;
    }

    method GetUniversalVirtualTime() returns (t: int)
      ensures t == Universal(bar)
    {
      t := bar.clock - bar.firstSync;
    }

    method Transmit(body: Body)
      requires Valid()
      modifies outbox
      ensures Valid() && View() == Post(old(View()), body)
    {
      var now := GetUniversalVirtualTime();
      outbox.Push(Message(now, body));
    }

    method WwtSend(data: seq<Byte>)
      requires Valid() && |data| <= MAX_MSG_SIZE
      modifies outbox
      ensures Valid()
      ensures View() == old(View()).(sent := old(View()).sent + [Message(Universal(bar) + quantumNs, Packet(data))])
    {
      var now := GetUniversalVirtualTime();
      var scheduledTime := now + quantumNs;
      outbox.Push(Message(scheduledTime, Packet(data)));
    }

    /** `wwt_recivied_callback`. */
    method ReceiveCallback(m: Message)
      requires Valid() && fault.None? && (m.body.Sync? || m.body.Packet?)
      modifies this`fault, this`bar
      ensures Valid() && View() == Receive(old(View()), m)
    {
      match m.body
      case Sync(msgRound) =>
        var validRound := msgRound == bar.round || (bar.finished && msgRound == bar.round + 1);
        if !validRound {
          fault := Some(WrongRound);
          return;
        }
        var counts := SyncCounts.CountUp(bar.counts, msgRound);
        bar := bar.(counts := counts);
      case Packet(data) =>
        var now := GetUniversalVirtualTime();
        if m.ts < now {
          fault := Some(PastPacket);
          return;
        }
        bar := bar.(deliveries := bar.deliveries + [Delivery(m.ts + bar.firstSync, data)]);
      case _ =>
    }

    method SendEndIfHandshakeComplete()
      requires Valid()
      modifies this`ex, outbox
      ensures Valid() && View() == SendEnd(old(View()))
    {
      if !ex.permitted {
        return;
      }
      var was := ex.endSent;
      ex := ex.(endSent := true);
      if was {
        return;
      }
      Transmit(EndOfEmulation);
    }

    /** `set_checkpoint_values_for_master`; what is on record is the rounds asked for. */
    method SetCheckpointValues()
      requires Valid()
      modifies this`ck
      ensures Valid() && View() == RequestCheckpoint(old(View()))
    {
      var pending := ck.needs && ck.ckRound == bar.round && ck.requests != []
          && ck.requests[|ck.requests| - 1] == bar.round;
      ck := ck.(notified := false, needs := true, ckRound := bar.round,
                requests := if pending then ck.requests else ck.requests + [bar.round]);
    }

    /** The CHECKPOINT_INIT_STEP arm of `process_message`. */
    method CountInitStep()
      requires Valid()
      modifies this`ck
      ensures Valid() && View() == CountInit(old(View()))
    {
      ck := ck.(initFlag := ck.initFlag + 1);
      if master && ck.initFlag == 1 && ck.masterInit {
        SetCheckpointValues();
      }
    }

    /** `finish_initiate_checkpoint`. */
    method FinishInitiateCheckpoint()
      requires Valid()
      modifies this`ck, outbox
      ensures Valid() && View() == InitiateCheckpoint(old(View()))
    {
      if master {
        ck := ck.(masterInit := true);
        if ck.initFlag >= 1 {
          SetCheckpointValues();
        }
      } else {
        Transmit(InitStep);
      }
    }

    /** `process_message`. */
    method ProcessMessage(m: Message)
      requires Valid() && fault.None?
      modifies this`fault, this`bar, this`ck, this`ex, outbox
      ensures Valid() && View() == Process(old(View()), m)
    {
      hide SendEnd, CountInit, SyncCountIncrement, ValidRound, Universal;
      match m.body
      case Sync(_) | Packet(_) => ReceiveCallback(m);
      case Intent =>
        if master {
          ex := ex.(readyNeighbors := ex.readyNeighbors + 1);
        }
      case Permission =>
        ex := ex.(permitted := true);
        SendEndIfHandshakeComplete();
      case EndOfEmulation =>
        if !ex.permitted {
          fault := Some(EndTooEarly);
        } else {
          ex := ex.(pairFinished := true);
        }
      case DrainStart(quantumRound) =>
        if !master {
          ck := ck.(needs := true, ckRound := quantumRound);
        }
      case InitStep => CountInitStep();
      case Notice =>
    }

    /** `pdes_engine_poll`. */
    method Poll()
      requires Valid() && fault.None?
      modifies this`fault, this`bar, this`ck, this`ex, outbox, inbox
      ensures Valid() && inbox.log == old(inbox.log)
      ensures View() == PollAll(old(View()), inbox.log)
    {
      while true
        invariant Valid() && fault.None? && inbox.log == old(inbox.log)
        invariant PollAll(View(), inbox.log) == PollAll(old(View()), inbox.log)
        decreases |inbox.log| - inbox.taken
      {
        ghost var before := View();
        var m := inbox.Pop();
        if m.None? {
          break;
        }
        ProcessMessage(m.value);
        assert View() == Process(before, m.value).(recv := before.recv + 1) by {
          ProcessIgnoresRecv(before, m.value);
        }
        if fault.Some? {
          break;
        }
      }
    }

    method NotifyNeighborsForDrain()
      requires Valid()
      modifies this`ck, outbox
      ensures Valid() && View() == NotifyDrain(old(View()))
    {
      ck := ck.(notified := true);
      Transmit(DrainStart(bar.round));
    }

    /** `quanta_sync`. */
    method QuantaSync()
      requires Valid() && fault.None? && !bar.checkArmed
      modifies this`fault, this`bar, this`ck, this`ex, outbox, inbox
      ensures Valid() && inbox.log == old(inbox.log)
      ensures View() == QuantaSyncAll(old(View()), inbox.log)
    {
      bar := bar.(finished := true);
      Poll();
      if fault.Some? {
        return;
      }
      if ck.needs && !ck.notified {
        NotifyNeighborsForDrain();
      }
      Transmit(Sync(bar.round));
      bar := bar.(checkArmed := true);
    }

    /** The grant, at either of its two sites. */
    method GrantExit()
      requires Valid()
      modifies this`ex, outbox
      ensures Valid() && View() == Grant(old(View()))
    {
      ex := ex.(permitted := true);
      Transmit(Permission);
      SendEndIfHandshakeComplete();
    }

    method NotifyNeighboursOfEnd()
      requires Valid()
      modifies this`ex, outbox
      ensures Valid() && View() == NotifyAll(old(View()))
    {
      var was := ex.notifiedExit;
      ex := ex.(notifiedExit := true);
      if was {
        return;
      }
      SendEndIfHandshakeComplete();
    }

    /** The peer's side of the channel. */
    method Arrive(more: Log)
      requires Valid()
      modifies inbox
      ensures Valid() && inbox.log == old(inbox.log) + more && inbox.taken == old(inbox.taken)
    {
      for k := 0 to |more|
        invariant Valid() && inbox.log == old(inbox.log) + more[..k] && inbox.taken == old(inbox.taken)
      {
        inbox.Push(more[k]);
      }
    }

    /** `is_waiting_for_quanta`. */
    method IsWaitingForQuanta() returns (waiting: bool)
      requires Valid() && fault.None?
      modifies this`fault, this`bar, this`ck, this`ex, outbox, inbox
      ensures Valid() && inbox.log == old(inbox.log)
      ensures View() == PollAll(old(View()), inbox.log)
      ensures waiting <==> fault.None? && Waiting(bar)
    {
      Poll();
      waiting := fault.None? && SyncCountGet(bar.counts, bar.round) < 1;
    }

    /** The waiting loop of `wwt_sync_check`, for as many turns as are given. */
    method AwaitSync(turns: seq<Turn>) returns (outcome: Wait)
      requires Valid() && fault.None?
      modifies this`fault, this`bar, this`ck, this`ex, outbox, inbox
      ensures Valid()
      ensures (View(), inbox.log, outcome) == WaitFor(old(View()), old(inbox.log), turns)
    {
      hide PollAll, Waiting;
      var i := 0;
      ghost var start, log := View(), inbox.log;
      var waiting := IsWaitingForQuanta();
      while waiting
        invariant Valid() && i <= |turns| && start.recv <= |log|
        invariant log == inbox.log && View() == PollAll(start, log)
        invariant waiting <==> fault.None? && Waiting(bar)
        invariant WaitFor(start, log, turns[i..]) == WaitFor(old(View()), old(inbox.log), turns)
        decreases |turns| - i, waiting
      {
        if i == |turns| {
          return StillWaiting;
        }
        Arrive(turns[i].first);
        Poll();
        if fault.Some? {
          return Asserted;
        }
        if ex.pairFinished {
          return PeerEnded;
        }
        start, log := View(), inbox.log + turns[i].second;
        Arrive(turns[i].second);
        assert turns[i..][1..] == turns[i + 1..];
        i := i + 1;
        waiting := IsWaitingForQuanta();
      }
      outcome := if fault.Some? then Asserted else SyncHere;
    }

    method StartRound()
      requires Valid()
      modifies this`ex, this`bar, outbox
      ensures Valid() && View() == OpenRound(quantumNs, old(View()))
    {
      if master && ex.readyNeighbors >= 1 && ex.ready && !ex.permitted {
        GrantExit();
      }
      bar := bar.(round := bar.round + 1, finished := false, checkArmed := false);
      var nextQuantumTime := bar.round * quantumNs;
      bar := bar.(deadline := nextQuantumTime + bar.firstSync);
    }

    /** `wwt_sync_check`. */
    method WwtSyncCheck(turns: seq<Turn>) returns (outcome: Wait)
      requires Valid() && fault.None?
      modifies this`fault, this`bar, this`ck, this`ex, this`halted, outbox, inbox
      ensures Valid()
      ensures (View(), inbox.log, outcome) == CheckAll(quantumNs, old(View()), old(inbox.log), turns)
    {
      outcome := AwaitSync(turns);
      if outcome == PeerEnded {
        if !ex.permitted {
          fault := Some(EndTooEarly);
          return;
        }
        NotifyNeighboursOfEnd();
        halted := true;
      } else if outcome == SyncHere {
        FinishCheck();
      }
    }

    /** `wwt_sync_check` after the waiting loop: the checkpoint, the grant, the next round. */
    method FinishCheck()
      requires Valid() && fault.None?
      modifies this`fault, this`bar, this`ck, this`ex, outbox
      ensures Valid() && View() == CompleteCheck(quantumNs, old(View()))
    {
      if ck.needs {
        if !ck.notified {
          NotifyNeighborsForDrain();
        }
        if bar.round == ck.ckRound {
          ck := ck.(scheduled := true);
          return;
        } else if bar.round > ck.ckRound {
          fault := Some(CheckpointPassed);
          return;
        }
      }
      StartRound();
    }

    /** `create_checkpoint_bh`. */
    method CreateCheckpoint()
      requires Valid()
      modifies this`ck, this`ex, this`halted, outbox
      ensures Valid() && View() == SaveAll(old(View()))
    {
      if !ck.needs {
        return;
      }
      ck := ck.(needs := false, notified := false, ckRound := 0, scheduled := false,
                snaps := ck.snaps + [Snapshot(bar.round, inbox.taken)]);
      if warm && master {
        NotifyNeighboursOfEnd();
        halted := true;
      }
    }

    method AskToStop()
      requires Valid()
      modifies this`ex, outbox
      ensures Valid() && View() == Ask(old(View()))
    {
      ex := ex.(asked := true);
      if !master {
        if !ex.intentSent {
          Transmit(Intent);
          ex := ex.(intentSent := true);
        }
      } else if ex.readyNeighbors >= 1 && !ex.permitted {
        GrantExit();
      }
    }

    /** `can_stop`. */
    method CanStop() returns (mayExit: bool)
      requires Valid()
      modifies this`ex, outbox
      ensures Valid() && View() == CanStopAll(old(View()))
      ensures mayExit <==> ex.permitted && ex.pairFinished
    {
      AskToStop();
      ex := ex.(ready := true);
      mayExit := ex.permitted && ex.pairFinished;
      ex := ex.(stopOk := ex.stopOk || mayExit);
    }
  }

  /** Receiving does not look at how much was received before. */
  lemma ProcessIgnoresRecv(me: Side, m: Message)
    ensures Process(me.(recv := me.recv + 1), m) == Process(me, m).(recv := me.recv + 1)
  {
    hide Receive;
    if m.body.Permission? {
      if me.ex.endSent {} else {}
    } else {
      ReceiveIgnoresRecv(me, m);
    }
  }

  lemma ReceiveIgnoresRecv(me: Side, m: Message)
    requires !m.body.Permission?
    ensures Receive(me.(recv := me.recv + 1), m) == Receive(me, m).(recv := me.recv + 1)
  {
    hide CountInit, SyncCountIncrement, ValidRound, Universal;
    match m.body
    case Sync(round) => if ValidRound(me.bar, round) {} else {}
    case Packet(_) => if m.ts < Universal(me.bar) {} else {}
    case DrainStart(_) => if me.master {} else {}
    case Intent => if me.master {} else {}
    case EndOfEmulation => if me.ex.permitted {} else {}
    case InitStep => CountInitIgnoresRecv(me);
    case _ =>
  }

  lemma CountInitIgnoresRecv(me: Side)
    ensures CountInit(me.(recv := me.recv + 1)) == CountInit(me).(recv := me.recv + 1)
  {
    if Repeats(me) {} else {}
  }
}
