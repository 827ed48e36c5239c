/** The turns a player has asked for and not yet taken, and what becomes of them in the player's snake. */
module TurnQueues {
  import opened Geometry
  import opened Definitions

  /** Turns waiting for their ticks, and the direction after the last of them. The direction is None
      after a reset: the code stores the end marker of the enumeration there, which differs from
      every direction and whose lowest bit flipped gives no direction either. */
  datatype TurnQueue = TurnQueue(nominal: Option<Direction>, pending: seq<Direction>) {
    function Queue(d: Direction): TurnQueue {
      if nominal.Some? && nominal.value.SameAxis(d) then this else TurnQueue(Some(d), pending + [d])
    }

    function Front(): Option<Direction> {
      if pending == [] then None else Some(pending[0])
    }

    function Rest(): TurnQueue {
      if pending == [] then this else this.(pending := pending[1..])
    }
  }

  const NO_TURNS: TurnQueue := TurnQueue(None, [])

  class RemotePlayer {
    const id: PlayerId
    const name: string
    const client: nat
    var nominalDirection: Option<Direction>
    var turnQueue: seq<Direction>

    constructor (id: PlayerId, name: string, client: nat)
      ensures this.id == id && this.name == name && this.client == client && Turns() == NO_TURNS
    {
      this.id, this.name, this.client := id, name, client;
      nominalDirection, turnQueue := None, [];
    }

    function Turns(): TurnQueue
      reads this
    {
      TurnQueue(nominalDirection, turnQueue)
    }

    method QueueTurn(dir: Direction)
      modifies this
      ensures Turns() == old(Turns()).Queue(dir)
    {
      if nominalDirection == Some(dir) || (nominalDirection.Some? && dir == nominalDirection.value.Opposite()) {
        return;
      }
      nominalDirection := Some(dir);
      turnQueue := turnQueue + [dir];
    }

    method Dequeue() returns (next: Option<Direction>)
      modifies this`turnQueue
      ensures next == old(Turns()).Front() && Turns() == old(Turns()).Rest()
    {
      if turnQueue == [] {
        return None;
      }
      next := Some(turnQueue[0]);
      turnQueue := turnQueue[1..];
    }

    method Reset()
      modifies this
      ensures Turns() == NO_TURNS
    {
      turnQueue := [];
      nominalDirection := None;
    }
  }

  // ---------------------------------------------------------------- turns taken and turns waiting

  /** Each turn is perpendicular to the one before. */
  predicate Perpendicular(turns: seq<Direction>) {
    forall k :: 0 < k < |turns| ==> !turns[k - 1].SameAxis(turns[k])
  }

  /** The turns that have left the front of a queue since it was last reset, when it goes from before to after. */
  function TakenBy(taken: seq<Direction>, before: TurnQueue, after: TurnQueue): seq<Direction> {
    if after == NO_TURNS then []
    else if before.pending != [] && after.pending == before.pending[1..] then taken + [before.pending[0]]
    else taken
  }

  /** All turns since the last reset, taken or waiting, are perpendicular; the nominal direction is the
      last of them. */
  predicate Aligned(taken: seq<Direction>, q: TurnQueue) {
    var all := taken + q.pending;
    && Perpendicular(all)
    && q.nominal == (if all == [] then None else Some(all[|all| - 1]))
  }

  lemma {:induction false} QueueingAligns(taken: seq<Direction>, q: TurnQueue, d: Direction)
    requires Aligned(taken, q)
    ensures TakenBy(taken, q, q.Queue(d)) == taken && Aligned(taken, q.Queue(d))
  {
    if q.Queue(d) != q {
      assert taken + (q.pending + [d]) == taken + q.pending + [d];
    }
  }

  lemma {:induction false} TakingAligns(taken: seq<Direction>, q: TurnQueue)
    requires Aligned(taken, q)
    ensures
      var next := TakenBy(taken, q, q.Rest());
      && next == (if q.pending == [] then taken else taken + [q.pending[0]])
      && Aligned(next, q.Rest())
  {
    if q.pending != [] {
      assert taken + [q.pending[0]] + q.pending[1..] == taken + q.pending;
    }
  }

  /** A turn that waits behind a taken one is perpendicular to it. */
  lemma {:induction false} NextIsPerpendicular(taken: seq<Direction>, q: TurnQueue)
    requires Aligned(taken, q) && taken != [] && q.pending != []
    ensures !taken[|taken| - 1].SameAxis(q.pending[0])
  {
    var all := taken + q.pending;
    assert all[|taken| - 1] == taken[|taken| - 1] && all[|taken|] == q.pending[0];
  }
}
