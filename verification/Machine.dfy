/** One node of the two-node simulation, as a record, and the atomic steps its threads take.
    The main thread runs the barrier (net/pdes-wwt.c), the polling (net/pdes-engine.c) and one side
    of the exit grant; the Flexus thread runs `can_stop`.  Every shared-memory access of the exit
    handshake is a step of its own. */
module Machine {
  import opened Messages

  // ----- The round-indexed table, keyed by the low 32 bits of the round

  const KEY_SPAN: nat := 0x1_0000_0000

  type SyncTable = map<nat, int>

  function SyncCountGet(table: SyncTable, round: nat): int {
    if round % KEY_SPAN in table then table[round % KEY_SPAN] else 0
  }

  function SyncCountIncrement(table: SyncTable, round: nat): SyncTable {
    table[round % KEY_SPAN := SyncCountGet(table, round) + 1]
  }

  // ----- State

  datatype Delivery = Delivery(at: int, data: seq<Byte>)

  /** The barrier part.  `clock`, `deadline` and delivery times are on the node's local virtual
      clock; `checkArmed` says that this round's sync is out and the sync-check timer exists. */
  datatype Bar = Bar(
    clock: int,
    firstSync: int,
    round: nat,
    finished: bool,
    checkArmed: bool,
    deadline: int,
    counts: SyncTable,
    deliveries: seq<Delivery>,
    delivered: seq<Delivery>)

  datatype Snapshot = Snapshot(round: nat, received: nat)

  /** The checkpoint part.  `initFlag` counts the CHECKPOINT_INIT_STEP messages received, `masterInit`
      says that the master itself wants a checkpoint; `requests` and `snaps` record the rounds
      asked for and the snapshots taken. */
  datatype Ck = Ck(
    needs: bool,
    notified: bool,
    ckRound: nat,
    scheduled: bool,
    requests: seq<nat>,
    snaps: seq<Snapshot>,
    initFlag: nat,
    masterInit: bool)

  /** Where a thread stands in the exit code. */
  datatype Point = Idle | GrantSet | GrantSend | EndRead | EndSwap | EndSend | Ready | Return | Advance | Quit

  /** `after` is where the thread goes once its attempt to send END is over. */
  datatype Pc = Pc(at: Point, after: Point)

  datatype Ex = Ex(
    readyNeighbors: nat,
    permitted: bool,
    ready: bool,
    endSent: bool,
    intentSent: bool,
    pairFinished: bool,
    notifiedExit: bool,
    asked: bool,
    stopOk: bool)

  datatype Fault = PastPacket | WrongRound | EmptyDelivery | CheckpointPassed | EndTooEarly

  /** `warm` says under which name this build requests checkpoints: "init_warmed", as the program does,
      whose master ends with its snapshot; or another one, after which the master goes on. */
  datatype Side = Side(
    master: bool,
    warm: bool,
    bar: Bar,
    ck: Ck,
    ex: Ex,
    main: Pc,
    flex: Pc,
    fault: Option<Fault>,
    halted: bool,
    sent: Log,
    recv: nat)

  datatype Thread = Main | Flexus

  function PcOf(me: Side, t: Thread): Pc {
    if t == Main then me.main else me.flex
  }

  function WithPc(me: Side, t: Thread, pc: Pc): Side {
    if t == Main then me.(main := pc) else me.(flex := pc)
  }

  function Universal(b: Bar): int {
    b.clock - b.firstSync
  }

  function Waiting(b: Bar): bool {
    SyncCountGet(b.counts, b.round) < 1
  }

  function Post(me: Side, body: Body): Side {
    me.(sent := me.sent + [Message(Universal(me.bar), body)])
  }

  function Fail(me: Side, why: Fault): Side {
    me.(fault := Some(why))
  }

  function InitialSide(master: bool, warm: bool, clock: int): Side {
    Side(master, warm,
         Bar(clock, clock, 0, false, false, 0, map[], [], []),
         Ck(false, false, 0, false, [], [], 0, false),
         Ex(0, false, false, false, false, false, false, false, false),
         Pc(Idle, Idle), Pc(Idle, Idle),
         None, false, [], 0)
  }

  // ----- Receiving one message

  function ValidRound(b: Bar, round: nat): bool {
    round == b.round || (b.finished && round == b.round + 1)
  }

  /** The same round has been asked for already, and its snapshot is still to come. */
  predicate Repeats(me: Side) {
    && me.ck.needs && me.ck.ckRound == me.bar.round
    && me.ck.requests != [] && me.ck.requests[|me.ck.requests| - 1] == me.bar.round
  }

  /** `set_checkpoint_values_for_master`; asking again for a pending round puts nothing new on record. */
  function RequestCheckpoint(me: Side): Side {
    me.(ck := me.ck.(needs := true, notified := false, ckRound := me.bar.round,
                     requests := if Repeats(me) then me.ck.requests else me.ck.requests + [me.bar.round]))
  }

  /** CHECKPOINT_INIT_STEP: the first one makes a master that waits for it request the checkpoint. */
  function CountInit(me: Side): Side {
    var counted := me.(ck := me.ck.(initFlag := me.ck.initFlag + 1));
    if me.master && counted.ck.initFlag == 1 && me.ck.masterInit then RequestCheckpoint(counted) else counted
  }

  /** `finish_initiate_checkpoint`. */
  function InitiateCheckpoint(me: Side): Side {
    if !me.master then Post(me, InitStep) else
    var wanted := me.(ck := me.ck.(masterInit := true));
    if me.ck.initFlag >= 1 then RequestCheckpoint(wanted) else wanted
  }

  function Receive(me: Side, m: Message): Side {
    match m.body
    case Sync(round) =>
      if ValidRound(me.bar, round)
      then me.(bar := me.bar.(counts := SyncCountIncrement(me.bar.counts, round)))
      else Fail(me, WrongRound)
    case Packet(data) =>
      if m.ts < Universal(me.bar)
      then Fail(me, PastPacket)
      else me.(bar := me.bar.(deliveries := me.bar.deliveries + [Delivery(m.ts + me.bar.firstSync, data)]))
    case DrainStart(round) =>
      if me.master then me else me.(ck := me.ck.(needs := true, ckRound := round))
    case Intent =>
      if me.master then me.(ex := me.ex.(readyNeighbors := me.ex.readyNeighbors + 1)) else me
    case Permission =>
      me.(ex := me.ex.(permitted := true), main := Pc(EndRead, Idle))
    case EndOfEmulation =>
      if me.ex.permitted then me.(ex := me.ex.(pairFinished := true)) else Fail(me, EndTooEarly)
    case InitStep => CountInit(me)
    case Notice => me
  }

  // ----- The barrier

  /** `quanta_sync` up to the poll. */
  function FinishQuantum(me: Side): Side {
    me.(bar := me.bar.(finished := true))
  }

  function NotifyDrain(me: Side): Side {
    Post(me, DrainStart(me.bar.round)).(ck := me.ck.(notified := true))
  }

  /** `quanta_sync` after the poll: the drain notice, if one is due, then this round's sync. */
  function SyncOut(me: Side): Side {
    var noticed := if me.ck.needs && !me.ck.notified then NotifyDrain(me) else me;
    Post(noticed, Sync(me.bar.round)).(bar := me.bar.(checkArmed := true))
  }

  function MayGrantAtBarrier(me: Side): bool {
    me.master && me.ex.readyNeighbors >= 1 && me.ex.ready && !me.ex.permitted
  }

  function Proceed(me: Side): Side {
    me.(main := if MayGrantAtBarrier(me) then Pc(GrantSet, Advance) else Pc(Advance, Idle))
  }

  /** `wwt_sync_check` once the peer's sync is here. */
  function SyncCheck(me: Side): Side {
    if !me.ck.needs then Proceed(me) else
    var noticed := if me.ck.notified then me else NotifyDrain(me);
    if me.bar.round < me.ck.ckRound then Proceed(noticed)
    else if me.bar.round == me.ck.ckRound then noticed.(ck := noticed.ck.(scheduled := true))
    else Fail(noticed, CheckpointPassed)
  }

  function AdvanceRound(q: nat, me: Side): Side {
    me.(bar := me.bar.(round := me.bar.round + 1,
                       finished := false,
                       checkArmed := false,
                       deadline := (me.bar.round + 1) * q + me.bar.firstSync))
  }

  function Recorded(me: Side): Side {
    me.(ck := me.ck.(needs := false, notified := false, ckRound := 0, scheduled := false,
                     snaps := me.ck.snaps + [Snapshot(me.bar.round, me.recv)]))
  }

  /** `create_checkpoint_bh`: behind its "init_warmed" snapshot the master notifies its peer and ends. */
  function TakeSnapshot(me: Side): Side {
    if me.master && me.warm then NotifyEnd(Recorded(me), Main, Quit) else Recorded(me)
  }

  /** The main thread is on its way out of the process. */
  predicate Leaving(me: Side) {
    me.main.at == Quit || me.main.after == Quit
  }

  /** The master has taken the snapshot it ends with. */
  predicate Warmed(me: Side) {
    me.master && me.warm && me.ck.snaps != []
  }

  // ----- Deliveries

  /** The delivery timer that fires next among those due now: the first in arrival order. */
  function FirstDue(ds: seq<Delivery>, now: int): (i: nat)
    ensures i <= |ds|
    ensures i < |ds| ==> ds[i].at == now
    ensures forall j :: 0 <= j < i ==> ds[j].at != now
  {
    if ds == [] then 0
    else if ds[0].at == now then 0
    else 1 + FirstDue(ds[1..], now)
  }

  function Fire(me: Side): Side
    requires FirstDue(me.bar.deliveries, me.bar.clock) < |me.bar.deliveries|
  {
    var i := FirstDue(me.bar.deliveries, me.bar.clock);
    var d := me.bar.deliveries[i];
    if d.data == [] then Fail(me, EmptyDelivery)
    else me.(bar := me.bar.(deliveries := me.bar.deliveries[..i] + me.bar.deliveries[i + 1..],
                            delivered := me.bar.delivered + [d]))
  }

  // ----- The exit handshake, one shared access at a time

  function Goto(me: Side, t: Thread, p: Point): Side {
    WithPc(me, t, Pc(p, PcOf(me, t).after))
  }

  function Resume(me: Side, t: Thread): Side {
    WithPc(me, t, Pc(PcOf(me, t).after, Idle))
  }

  function Done(me: Side, t: Thread): Side {
    WithPc(me, t, Pc(Idle, Idle))
  }

  function ThreadStep(q: nat, me: Side, t: Thread): Side
    requires PcOf(me, t).at != Idle
  {
    match PcOf(me, t).at
    case GrantSet => Goto(me.(ex := me.ex.(permitted := true)), t, GrantSend)
    case GrantSend => Goto(Post(me, Permission), t, EndRead)
    case EndRead => if me.ex.permitted then Goto(me, t, EndSwap) else Resume(me, t)
    case EndSwap => if me.ex.endSent then Resume(me, t) else Goto(me.(ex := me.ex.(endSent := true)), t, EndSend)
    case EndSend => Resume(Post(me, EndOfEmulation), t)
    case Ready => Goto(me.(ex := me.ex.(ready := true)), t, Return)
    case Return =>
      Done(me.(ex := me.ex.(stopOk := me.ex.stopOk || (me.ex.permitted && me.ex.pairFinished))), t)
    case Advance => Done(AdvanceRound(q, me), t)
    case Quit => me.(halted := true)
  }

  function CanStop(me: Side): Side {
    var asked := me.(ex := me.ex.(asked := true));
    if me.master then
      asked.(flex := if me.ex.readyNeighbors >= 1 && !me.ex.permitted then Pc(GrantSet, Ready) else Pc(Ready, Idle))
    else if me.ex.intentSent then
      asked.(flex := Pc(Ready, Idle))
    else
      Post(asked, Intent).(ex := asked.ex.(intentSent := true), flex := Pc(Ready, Idle))
  }

  function NotifyEnd(me: Side, t: Thread, after: Point): Side {
    if me.ex.notifiedExit then WithPc(me, t, Pc(after, Idle))
    else WithPc(me.(ex := me.ex.(notifiedExit := true)), t, Pc(EndRead, after))
  }

  /** The exit branch of the barrier's waiting loop. */
  function ExitBranch(me: Side): Side {
    if me.ex.permitted then NotifyEnd(me, Main, Quit) else Fail(me, EndTooEarly)
  }

  // ----- Steps

  datatype Action =
    | Run(d: nat)               // the virtual clock advances
    | FireDelivery              // a delivery timer runs
    | SendPacket(data: seq<Byte>) // wwt_send
    | SendNotice                // DRAIN_END
    | QuantumTimer              // quanta_sync, first half
    | SendSync                  // quanta_sync, second half
    | Poll                      // one message
    | Check                     // wwt_sync_check, the peer's sync being here
    | TakeExit                  // wwt_sync_check, its waiting loop having seen that the peer has ended
    | SnapshotNow               // create_checkpoint_bh
    | Initiate                  // finish_initiate_checkpoint
    | Step(t: Thread)           // next shared access of a thread in the exit code
    | CallCanStop               // can_stop
    | CallNotify(t: Thread)     // notify_neighbours_of_end
    | Stop                      // the process ends after can_stop returned true

  function Live(me: Side): bool {
    me.fault.None? && !me.halted
  }

  function MainIdle(me: Side): bool {
    me.main.at == Idle
  }

  predicate Enabled(me: Side, peerSent: Log, a: Action) {
    Live(me) &&
    match a
    case Run(d) =>
      && !me.bar.finished
      && me.bar.clock + d <= me.bar.deadline
      && forall i :: 0 <= i < |me.bar.deliveries| ==> me.bar.clock + d <= me.bar.deliveries[i].at
    case FireDelivery => FirstDue(me.bar.deliveries, me.bar.clock) < |me.bar.deliveries|
    case SendPacket(data) => |data| <= MAX_MSG_SIZE
    case SendNotice => true
    case QuantumTimer => MainIdle(me) && !me.bar.finished && me.bar.deadline <= me.bar.clock
    case SendSync => MainIdle(me) && me.bar.finished && !me.bar.checkArmed
    case Poll => MainIdle(me) && me.recv < |peerSent|
    case Check => MainIdle(me) && me.bar.checkArmed && !Waiting(me.bar)
    case TakeExit => MainIdle(me) && me.bar.checkArmed && me.ex.pairFinished
    case SnapshotNow => MainIdle(me) && me.ck.scheduled && me.ck.needs
    case Initiate => true
    case Step(t) => PcOf(me, t).at != Idle
    case CallCanStop => me.flex.at == Idle
    case CallNotify(t) => PcOf(me, t).at == Idle
    case Stop => me.ex.stopOk && me.flex.at == Idle
  }

  function Next(q: nat, me: Side, peerSent: Log, a: Action): Side
    requires Enabled(me, peerSent, a)
  {
    match a
    case Run(d) => me.(bar := me.bar.(clock := me.bar.clock + d))
    case FireDelivery => Fire(me)
    case SendPacket(data) => me.(sent := me.sent + [Message(Universal(me.bar) + q, Packet(data))])
    case SendNotice => Post(me, Notice)
    case QuantumTimer => FinishQuantum(me)
    case SendSync => SyncOut(me)
    case Poll => Receive(me, peerSent[me.recv]).(recv := me.recv + 1)
    case Check => SyncCheck(me)
    case TakeExit => ExitBranch(me)
    case SnapshotNow => TakeSnapshot(me)
    case Initiate => InitiateCheckpoint(me)
    case Step(t) => ThreadStep(q, me, t)
    case CallCanStop => CanStop(me)
    case CallNotify(t) => NotifyEnd(me, t, Idle)
    case Stop => me.(halted := true)
  }

  /** The step is a request: the master initiates when its peer is ready, or takes its peer's first
      CHECKPOINT_INIT_STEP when it has been waiting for it. */
  predicate AsksNow(me: Side, peerSent: Log, a: Action) {
    me.master &&
    match a
    case Initiate => me.ck.initFlag >= 1
    case Poll =>
      me.recv < |peerSent| && peerSent[me.recv].body.InitStep? && me.ck.masterInit && me.ck.initFlag == 0
    case _ => false
  }

  // ----- The two nodes

  datatype Who = Master | Follower

  datatype Sys = Sys(m: Side, f: Side)

  datatype Label = Label(who: Who, act: Action)

  function Other(w: Who): Who {
    if w == Master then Follower else Master
  }

  function Mine(s: Sys, w: Who): Side {
    if w == Master then s.m else s.f
  }

  function Peers(s: Sys, w: Who): Side {
    if w == Master then s.f else s.m
  }

  predicate CanStep(s: Sys, l: Label) {
    Enabled(Mine(s, l.who), Peers(s, l.who).sent, l.act)
  }

  function NextSys(q: nat, s: Sys, l: Label): Sys
    requires CanStep(s, l)
  {
    var me := Next(q, Mine(s, l.who), Peers(s, l.who).sent, l.act);
    if l.who == Master then Sys(me, s.f) else Sys(s.m, me)
  }

  function Initial(warm: bool, clockM: int, clockF: int): Sys {
    Sys(InitialSide(true, warm, clockM), InitialSide(false, warm, clockF))
  }

  /** Both nodes start at any non-negative local clock, with the same name for their checkpoints. */
  ghost predicate Init(s: Sys) {
    exists warm, c, d :: 0 <= c && 0 <= d && s == Initial(warm, c, d)
  }

  /** A finite run: any interleaving of the steps of the two nodes. */
  ghost predicate IsRun(q: nat, states: seq<Sys>, labels: seq<Label>) {
    && |states| == |labels| + 1
    && Init(states[0])
    && forall i :: 0 <= i < |labels| ==>
         CanStep(states[i], labels[i]) && states[i + 1] == NextSys(q, states[i], labels[i])
  }
}
