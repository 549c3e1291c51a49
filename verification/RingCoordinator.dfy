/**
 The token ring that decides when all replicas of a stage have processed what upstream
 declared (src/common/eof/ring.go): what a coordinator answers for one client, and the
 class that keeps the clients apart.
 */
module RingCoordination {
  import opened Common

  type ClientID = string

  datatype Phase = Collecting | Closing

  datatype Token = Token(initiator: nat, matched: U64, notMatched: U64, phase: Phase)

  datatype RingState = RingState(isInitiator: bool, upstreamTotal: U32, phase: Phase, localMatched: U64, localNotMatched: U64)

  datatype Action =
    | NoAction
    | ForwardToken(token: Token)
    | EmitEOFs
    | EmitEOFsAndForwardToken(token: Token)
    | ReenqueueUpstreamEOF

  datatype Totals = Totals(matched: U64, notMatched: U64)

  datatype Ring = Ring(replicaID: nat, nReplicas: nat, broadcast: bool)

  /** The client's state after a call, the action asked for, and the totals that go with it. */
  datatype Reply = Reply(state: Option<RingState>, action: Action, result: Option<Totals>)

  const ZERO_STATE := RingState(false, 0, Collecting, 0, 0)

  function TryFinalize(ring: Ring, state: RingState, matched: U64, notMatched: U64): Reply {
    if Low32(Wrap64(matched + notMatched)) != state.upstreamTotal then
      Reply(None, ReenqueueUpstreamEOF, None)
    else if ring.broadcast && ring.nReplicas > 1 then
      Reply(Some(state.(phase := Closing)), ForwardToken(Token(ring.replicaID, matched, notMatched, Closing)), None)
    else
      Reply(None, EmitEOFs, Some(Totals(matched, notMatched)))
  }

  function UpstreamEOF(ring: Ring, state: Option<RingState>, total: U32, matched: U64, notMatched: U64): Reply {
    var before := if state.Some? then state.value else ZERO_STATE;
    var mine := RingState(true, total, before.phase, matched, notMatched);
    if ring.nReplicas <= 1 then TryFinalize(ring, mine, matched, notMatched)
    else
      Reply(Some(mine.(phase := Collecting)), ForwardToken(Token(ring.replicaID, matched, notMatched, Collecting)), None)
  }

  function RingToken(ring: Ring, state: Option<RingState>, t: Token, matched: U64, notMatched: U64): Reply {
    if t.phase == Closing then
      if t.initiator == ring.replicaID then Reply(None, EmitEOFs, Some(Totals(t.matched, t.notMatched)))
      else Reply(state, EmitEOFsAndForwardToken(t), Some(Totals(t.matched, t.notMatched)))
    else if t.initiator == ring.replicaID then
      if state.None? || !state.value.isInitiator then Reply(state, NoAction, None)
      else TryFinalize(ring, state.value, t.matched, t.notMatched)
    else
      var more := t.(matched := Wrap64(t.matched + matched), notMatched := Wrap64(t.notMatched + notMatched));
      Reply(state, ForwardToken(more), None)
  }

  /**
   A checkpoint of a client without ring state stores the zero state, and restoring it
   leaves an entry behind; no later call can tell that entry from none.
   */
  lemma RestoredZeroIsAbsent(ring: Ring, t: Token, total: U32, matched: U64, notMatched: U64)
    ensures UpstreamEOF(ring, Some(ZERO_STATE), total, matched, notMatched) == UpstreamEOF(ring, None, total, matched, notMatched)
    ensures var a := RingToken(ring, Some(ZERO_STATE), t, matched, notMatched);
      var b := RingToken(ring, None, t, matched, notMatched);
      && a.action == b.action && a.result == b.result
      && (a.state == b.state || (a.state == Some(ZERO_STATE) && b.state == None))
  {
  }

  class RingCoordinator {
    const ring: Ring
    var state: map<ClientID, RingState>

    constructor (replicaID: nat, nReplicas: nat, broadcast: bool)
      ensures ring == Ring(replicaID, nReplicas, broadcast) && state == map[]
    {
      ring, state := Ring(replicaID, nReplicas, broadcast), map[];
    }

    function StateOf(client: ClientID): Option<RingState>
      reads this
    {
      if client in state then Some(state[client]) else None
    }

    twostate predicate OthersKept(client: ClientID)
      reads this
    {
      forall c :: c != client ==> StateOf(c) == old(StateOf(c))
    }

    method OnUpstreamEOF(client: ClientID, total: U32, matched: U64, notMatched: U64)
      returns (action: Action, result: Option<Totals>)
      modifies this
      ensures Reply(StateOf(client), action, result) == UpstreamEOF(ring, old(StateOf(client)), total, matched, notMatched)
      ensures OthersKept(client)
    {
      if client !in state {
        state := state[client := ZERO_STATE];
      }
      state := state[client := state[client].(isInitiator := true, upstreamTotal := total, localMatched := matched, localNotMatched := notMatched)];
      if ring.nReplicas <= 1 {
        action, result := Finalize(client, matched, notMatched);
        return;
      }
      state := state[client := state[client].(phase := Collecting)];
      action, result := ForwardToken(Token(ring.replicaID, matched, notMatched, Collecting)), None;
    }

    method OnRingToken(client: ClientID, token: Token, matched: U64, notMatched: U64)
      returns (action: Action, result: Option<Totals>)
      modifies this
      ensures Reply(StateOf(client), action, result) == RingToken(ring, old(StateOf(client)), token, matched, notMatched)
      ensures OthersKept(client)
    {
      if token.phase == Closing {
        action, result := OnClosingToken(client, token);
      } else if token.initiator == ring.replicaID {
        if client !in state || !state[client].isInitiator {
          return NoAction, None;
        }
        action, result := Finalize(client, token.matched, token.notMatched);
      } else {
        var more := token;
        more := more.(matched := Wrap64(more.matched + matched));
        more := more.(notMatched := Wrap64(more.notMatched + notMatched));
        action, result := ForwardToken(more), None;
      }
    }

    method OnClosingToken(client: ClientID, token: Token)
      returns (action: Action, result: Option<Totals>)
      requires token.phase == Closing
      modifies this
      ensures forall m: U64, nm: U64 ::
        Reply(StateOf(client), action, result) == RingToken(ring, old(StateOf(client)), token, m, nm)
      ensures OthersKept(client)
    {
      result := Some(Totals(token.matched, token.notMatched));
      if token.initiator == ring.replicaID {
        state := state - {client};
        action := EmitEOFs;
      } else {
        action := EmitEOFsAndForwardToken(token);
      }
    }

    /** tryFinalize; too many and too few items both send the upstream EOF round again. */
    method Finalize(client: ClientID, matched: U64, notMatched: U64)
      returns (action: Action, result: Option<Totals>)
      requires client in state
      modifies this
      ensures Reply(StateOf(client), action, result) == TryFinalize(ring, old(state[client]), matched, notMatched)
      ensures OthersKept(client)
    {
      var total := Low32(Wrap64(matched + notMatched));
      if total > state[client].upstreamTotal {
        state := state - {client};
        return ReenqueueUpstreamEOF, None;
      }
      if total < state[client].upstreamTotal {
        state := state - {client};
        return ReenqueueUpstreamEOF, None;
      }
      if ring.broadcast && ring.nReplicas > 1 {
        state := state[client := state[client].(phase := Closing)];
        return ForwardToken(Token(ring.replicaID, matched, notMatched, Closing)), None;
      }
      state := state - {client};
      action, result := EmitEOFs, Some(Totals(matched, notMatched));
    }

    method GetClientRingState(client: ClientID) returns (snap: RingState, found: bool)
      ensures found <==> StateOf(client).Some?
      ensures snap == if found then StateOf(client).value else ZERO_STATE
    {
      found := client in state;
      snap := if client in state then state[client] else ZERO_STATE;
    }

    method RestoreClientRingState(client: ClientID, snap: RingState)
      modifies this
      ensures StateOf(client) == Some(snap) && OthersKept(client)
    {
      state := state[client := snap];
    }

    method CleanupClient(client: ClientID)
      modifies this
      ensures StateOf(client) == None && OthersKept(client)
    {
      state := state - {client};
    }
  }
}
