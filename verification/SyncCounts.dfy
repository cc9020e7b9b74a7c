/** The table of syncs received per round: its keys are the low 32 bits of the round. */
module SyncCounts {
  import opened Machine

  /** One more at the key of the round. */
  method CountUp(table: SyncTable, round: nat) returns (counted: SyncTable)
    ensures counted == SyncCountIncrement(table, round)
  {
    var key := round % KEY_SPAN;
    var count := if key in table then table[key] else 0;
    counted := table[key := count + 1];
  }

  class SyncCountTable {
    var table: SyncTable

    constructor ()
      ensures table == map[]
    {
      table := map[];
    }

    method Increment(round: nat)
      modifies this
      ensures table == SyncCountIncrement(old(table), round)
    {
      table := CountUp(table, round);
    }

    method Get(round: nat) returns (count: int)
      ensures count == SyncCountGet(table, round)
    {
      var key := round % KEY_SPAN;
      count := 0;
      if key in table {
        count := table[key];
      }
    }
  }

  // ----- The width of the keys

  /** The table tells any two rounds below 2^32 apart: counting one leaves the count of the other. */
  lemma CountsApart(table: SyncTable, a: nat, b: nat)
    requires a < 0x1_0000_0000 && b < 0x1_0000_0000
    ensures SyncCountGet(SyncCountIncrement(table, a), b) == SyncCountGet(table, b) + if a == b then 1 else 0
  {
  }

  /** And it tells no two rounds apart that differ by 2^32. */
  lemma CountsAlias(table: SyncTable, round: nat)
    ensures SyncCountGet(table, round + 0x1_0000_0000) == SyncCountGet(table, round)
    ensures SyncCountIncrement(table, round + 0x1_0000_0000) == SyncCountIncrement(table, round)
  {
    assert (round + KEY_SPAN) % KEY_SPAN == round % KEY_SPAN;
  }

  /** The table after the given rounds were counted, in this order. */
  function Counted(rounds: seq<nat>): SyncTable {
    if rounds == [] then map[]
    else SyncCountIncrement(Counted(rounds[..|rounds| - 1]), rounds[|rounds| - 1])
  }

  /** What a map keyed by the whole 64-bit round would answer. */
  function Occurrences(rounds: seq<nat>, round: nat): nat {
    if rounds == [] then 0
    else Occurrences(rounds[..|rounds| - 1], round) + if rounds[|rounds| - 1] == round then 1 else 0
  }

  predicate Alias(a: nat, b: nat) {
    a != b && a % 0x1_0000_0000 == b % 0x1_0000_0000
  }

  ghost predicate HasAlias(rounds: seq<nat>, round: nat) {
    exists i :: 0 <= i < |rounds| && Alias(rounds[i], round)
  }

  lemma {:induction false} NeverUnder(rounds: seq<nat>, round: nat)
    ensures SyncCountGet(Counted(rounds), round) >= Occurrences(rounds, round)
    ensures HasAlias(rounds, round) ==> SyncCountGet(Counted(rounds), round) > Occurrences(rounds, round)
  {
    if rounds != [] {
      var front := rounds[..|rounds| - 1];
      NeverUnder(front, round);
      assert HasAlias(rounds, round) ==> HasAlias(front, round) || Alias(rounds[|rounds| - 1], round) by {
        if i :| 0 <= i < |rounds| && Alias(rounds[i], round) {
          assert i < |front| ==> Alias(front[i], round);
        }
      }
    }
  }

  lemma {:induction false} ExactWithoutAlias(rounds: seq<nat>, round: nat)
    requires !HasAlias(rounds, round)
    ensures SyncCountGet(Counted(rounds), round) == Occurrences(rounds, round)
  {
    if rounds != [] {
      var front := rounds[..|rounds| - 1];
      forall i | 0 <= i < |front| ensures !Alias(front[i], round) {
        assert front[i] == rounds[i];
      }
      ExactWithoutAlias(front, round);
      assert !Alias(rounds[|rounds| - 1], round);
    }
  }

  /** The truncated table answers exactly as a map keyed by the whole round if and only if no counted
      round shares its low 32 bits with the round asked for. */
  lemma TruncationIsExact(rounds: seq<nat>, round: nat)
    ensures SyncCountGet(Counted(rounds), round) == Occurrences(rounds, round) <==> !HasAlias(rounds, round)
  {
    NeverUnder(rounds, round);
    if !HasAlias(rounds, round) { ExactWithoutAlias(rounds, round); }
  }

  /** In particular as long as every round used is below 2^32. */
  lemma ExactBelowSpan(rounds: seq<nat>, round: nat)
    requires round < 0x1_0000_0000 && forall i :: 0 <= i < |rounds| ==> rounds[i] < 0x1_0000_0000
    ensures SyncCountGet(Counted(rounds), round) == Occurrences(rounds, round)
  {
    assert !HasAlias(rounds, round);
    TruncationIsExact(rounds, round);
  }

  /** At round 2^32 the barrier opens on the count of round 0: one sync for round 0 is enough to make
      a node in round 2^32 believe that its peer has closed that round. */
  lemma BarrierAliases()
    ensures SyncCountGet(Counted([0]), 0x1_0000_0000) == 1 && Occurrences([0], 0x1_0000_0000) == 0
  {
    assert [0][..0] == [];
    assert Counted([0]) == SyncCountIncrement(map[], 0);
  }
}
