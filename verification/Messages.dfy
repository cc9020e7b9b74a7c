/** Messages exchanged by the two nodes, and counting in the log of everything one node ever sent.
    A one-way channel is the suffix of the sender's log that the receiver has not taken yet. */
module Messages {
  type Byte = b: int | 0 <= b < 256

  const MAX_MSG_SIZE: nat := 2048
  const RING_SIZE: nat := 8192

  datatype Option<+T> = None | Some(value: T)

  /** `InitStep` is CHECKPOINT_INIT_STEP.  `Notice` stands for DRAIN_END: no branch of the barrier, of
      the checkpoint or of the exit handshake depends on receiving one. */
  datatype Body =
    | Packet(data: seq<Byte>)
    | Sync(round: nat)
    | DrainStart(ckRound: nat)
    | Intent
    | Permission
    | EndOfEmulation
    | InitStep
    | Notice

  datatype Message = Message(ts: int, body: Body)

  datatype Kind = KPacket | KSync | KDrain | KIntent | KPermission | KEnd | KInit | KNotice

  function KindOf(m: Message): Kind {
    match m.body
    case Packet(_) => KPacket
    case Sync(_) => KSync
    case DrainStart(_) => KDrain
    case Intent => KIntent
    case Permission => KPermission
    case EndOfEmulation => KEnd
    case InitStep => KInit
    case Notice => KNotice
  }

  /** The sizes of include/net/pdes-communicator.h. */
  lemma SizesAre()
    ensures MAX_MSG_SIZE == 2048 && RING_SIZE == 8192
  {
  }

  type Log = seq<Message>

  /** How many of the first n messages of the log are of kind k. */
  function Count(log: Log, n: nat, k: Kind): nat
    requires n <= |log|
  {
    if n == 0 then 0
    else Count(log, n - 1, k) + if KindOf(log[n - 1]) == k then 1 else 0
  }

  function Total(log: Log, k: Kind): nat {
    Count(log, |log|, k)
  }

  /** Later messages change no count of an earlier prefix. */
  lemma {:induction false} CountExtend(log: Log, more: Log, n: nat, k: Kind)
    requires n <= |log|
    ensures Count(log + more, n, k) == Count(log, n, k)
  {
    if n > 0 {
      CountExtend(log, more, n - 1, k);
      assert (log + more)[n - 1] == log[n - 1];
    }
  }

  lemma TotalAppend(log: Log, m: Message, k: Kind)
    ensures Total(log + [m], k) == Total(log, k) + if KindOf(m) == k then 1 else 0
  {
    CountExtend(log, [m], |log|, k);
    assert (log + [m])[|log|] == m;
  }

  lemma {:induction false} CountMono(log: Log, i: nat, j: nat, k: Kind)
    requires i <= j <= |log|
    ensures Count(log, i, k) <= Count(log, j, k)
    decreases j - i
  {
    if i < j {
      CountMono(log, i, j - 1, k);
    }
  }

  /** A message seen at position i is one of the counted ones. */
  lemma CountSeen(log: Log, i: nat, k: Kind)
    requires i < |log| && KindOf(log[i]) == k
    ensures Count(log, i, k) + 1 == Count(log, i + 1, k) <= Total(log, k)
  {
    CountMono(log, i + 1, |log|, k);
  }

  /** Conversely, a count that grew between two positions exhibits the first such message. */
  lemma {:induction false} CountWitness(log: Log, i: nat, j: nat, k: Kind) returns (p: nat)
    requires i <= j <= |log| && Count(log, i, k) < Count(log, j, k)
    ensures i <= p < j && KindOf(log[p]) == k && Count(log, p, k) == Count(log, i, k)
    decreases j - i
  {
    if KindOf(log[i]) == k {
      p := i;
    } else {
      assert Count(log, i + 1, k) == Count(log, i, k);
      p := CountWitness(log, i + 1, j, k);
    }
  }
}
