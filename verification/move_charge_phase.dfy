/**
 * The charging turn of a two-turn move (Dig, Solar Beam, ...).
 *
 * A `MoveChargePhase` tags its user as CHARGING and then, when it ends, either
 * resolves the attack at once (instant charge: the user's pending move-end
 * phase is dropped and a move phase goes to the front of the phase queue) or
 * defers it (the move is appended to the user's move queue for next turn).
 * Either way one move-history record with result OTHER is written.
 *
 * The phase queue, the user's battler tags, move queue and move history are
 * mutable state, so Pokemon, the phase manager and the phase are classes. The
 * pure functions `StartSpec` and `EndSpec` say what one call does to a
 * snapshot of that state; the methods are proved to follow them.
 */
module MoveChargePhase {
  import opened Wrappers

  /** A move as the phase sees it: its id and whether it is a two-turn move. */
  datatype PokemonMove = PokemonMove(moveId: nat, isChargingMove: bool)

  datatype MoveResult = Pending | Success | Fail | Miss | Other

  /** An entry of a Pokemon's deferred-move queue. */
  datatype QueuedMove = QueuedMove(move: nat, targets: seq<int>)

  /** An entry of a Pokemon's move history. */
  datatype MoveRecord = MoveRecord(move: nat, targets: seq<int>, result: MoveResult)

  datatype BattlerTagType = Charging | OtherTag(name: string)

  datatype BattlerTag = BattlerTag(tagType: BattlerTagType, turnCount: nat, sourceMove: nat, sourceId: nat)

  /** The parts of a combatant that the charging protocol reads or writes. */
  class Pokemon {
    const id: nat
    const battlerIndex: int
    var tags: seq<BattlerTag>
    var moveQueue: seq<QueuedMove>
    var moveHistory: seq<MoveRecord>

    constructor (id: nat, battlerIndex: int)
      ensures this.id == id && this.battlerIndex == battlerIndex
      ensures tags == [] && moveQueue == [] && moveHistory == []
    {
      this.id := id;
      this.battlerIndex := battlerIndex;
      tags, moveQueue, moveHistory := [], [], [];
    }

    /** Adds a battler tag (the tag's own add/overlap rules are not part of this model). */
    method AddTag(tagType: BattlerTagType, turnCount: nat, sourceMove: nat, sourceId: nat)
      modifies this
      ensures tags == old(tags) + [BattlerTag(tagType, turnCount, sourceMove, sourceId)]
      ensures moveQueue == old(moveQueue) && moveHistory == old(moveHistory)
    {
      tags := tags + [BattlerTag(tagType, turnCount, sourceMove, sourceId)];
    }

    method PushMoveHistory(record: MoveRecord)
      modifies this
      ensures moveHistory == old(moveHistory) + [record]
      ensures tags == old(tags) && moveQueue == old(moveQueue)
    {
      moveHistory := moveHistory + [record];
    }
  }

  /** The queued phases the protocol distinguishes. */
  datatype Phase =
    | MoveEndPhase(pokemon: Pokemon)
    | MovePhase(pokemon: Pokemon, targets: seq<int>, move: PokemonMove, followUp: bool)
    | OtherPhase(name: string)

  /** The predicate handed to `tryRemovePhase`: a move-end phase whose Pokemon is `user`. */
  function IsMoveEndPhaseOf(user: Pokemon): Phase -> bool
  {
    (p: Phase) => p.MoveEndPhase? && p.pokemon == user
  }

  /** Index of the first element satisfying `pred`, or `|s|` when there is none. */
  function FirstMatch<T>(s: seq<T>, pred: T -> bool): (i: nat)
    ensures i <= |s|
    ensures i < |s| ==> pred(s[i])
    ensures forall j :: 0 <= j < i ==> !pred(s[j])
  {
    if s == [] then 0
    else if pred(s[0]) then 0
    else 1 + FirstMatch(s[1..], pred)
  }

  /**
   * `s` without its first element that satisfies `pred` (unchanged when none
   * does): the phase manager's `tryRemovePhase`, which splices out the index
   * `findIndex` returns.
   */
  function RemoveFirst<T>(s: seq<T>, pred: T -> bool): (r: seq<T>)
    ensures FirstMatch(s, pred) == |s| ==> r == s
    ensures FirstMatch(s, pred) < |s| ==>
              |r| == |s| - 1 &&
              (forall k :: 0 <= k < FirstMatch(s, pred) ==> r[k] == s[k]) &&
              (forall k :: FirstMatch(s, pred) <= k < |r| ==> r[k] == s[k + 1])
  {
    var i := FirstMatch(s, pred);
    if i < |s| then s[..i] + s[i + 1..] else s
  }

  /**
   * Removing the first match takes away one element, a match, when there is
   * one, and keeps every element that does not match, as often as it occurred.
   */
  lemma {:induction false} RemoveFirstKeepsOthers<T>(s: seq<T>, pred: T -> bool)
    ensures (exists j :: 0 <= j < |s| && pred(s[j])) ==>
              |RemoveFirst(s, pred)| == |s| - 1
              && multiset(s) == multiset(RemoveFirst(s, pred)) + multiset{s[FirstMatch(s, pred)]}
    ensures (forall j :: 0 <= j < |s| ==> !pred(s[j])) ==> RemoveFirst(s, pred) == s
    ensures multiset(RemoveFirst(s, pred)) <= multiset(s)
    ensures forall x :: x in multiset(s) && !pred(x) ==> multiset(RemoveFirst(s, pred))[x] == multiset(s)[x]
  {
    var i := FirstMatch(s, pred);
    var r := RemoveFirst(s, pred);
    if i < |s| {
      assert s == s[..i] + [s[i]] + s[i + 1..];
      assert r == s[..i] + s[i + 1..];
      calc {
        multiset(s);
        multiset(s[..i] + [s[i]] + s[i + 1..]);
        multiset(s[..i]) + multiset{s[i]} + multiset(s[i + 1..]);
        multiset(r) + multiset{s[i]};
      }
    } else {
      assert r == s;
    }
  }

  /** A snapshot of everything one charge phase may change. */
  datatype ChargeState = ChargeState(
    queue: seq<Phase>,
    tags: seq<BattlerTag>,
    moveQueue: seq<QueuedMove>,
    history: seq<MoveRecord>,
    ended: bool)

  /** Number of elements of `s` satisfying `pred`. */
  function Count<T>(s: seq<T>, pred: T -> bool): nat
  {
    if s == [] then 0 else (if pred(s[0]) then 1 else 0) + Count(s[1..], pred)
  }

  /**
   * What `end` does: for a charging move, exactly one of "resolve now" (drop
   * the user's first move-end phase, put a move phase at the front) and
   * "defer" (append to the move queue) happens, and one OTHER record is
   * written; for any other move only the base `end` runs.
   */
  function EndSpec(s: ChargeState, user: Pokemon, move: PokemonMove, targetIndex: int, instantCharge: bool): (r: ChargeState)
    ensures r.ended && r.tags == s.tags
    ensures !move.isChargingMove ==> r == s.(ended := true)
    ensures move.isChargingMove ==>
              r.history == s.history + [MoveRecord(move.moveId, [targetIndex], Other)]
    ensures move.isChargingMove && !instantCharge ==>
              r.queue == s.queue && r.moveQueue == s.moveQueue + [QueuedMove(move.moveId, [targetIndex])]
    ensures move.isChargingMove && instantCharge ==>
              && r.moveQueue == s.moveQueue
              && |r.queue| > 0 && r.queue[0] == MovePhase(user, [targetIndex], move, false)
              && r.queue[1..] == RemoveFirst(s.queue, IsMoveEndPhaseOf(user))
              && multiset(r.queue[1..]) <= multiset(s.queue)
              && (forall p :: p in multiset(s.queue) && !IsMoveEndPhaseOf(user)(p) ==>
                    multiset(r.queue[1..])[p] == multiset(s.queue)[p])
              && |r.queue| == |s.queue| + 1 - (if Count(s.queue, IsMoveEndPhaseOf(user)) > 0 then 1 else 0)
  {
    if move.isChargingMove then
      var record := MoveRecord(move.moveId, [targetIndex], Other);
      if instantCharge then
        var rest := RemoveFirst(s.queue, IsMoveEndPhaseOf(user));
        CountPositive(s.queue, IsMoveEndPhaseOf(user));
        RemoveFirstKeepsOthers(s.queue, IsMoveEndPhaseOf(user));
        assert ([MovePhase(user, [targetIndex], move, false)] + rest)[1..] == rest;
        s.(queue := [MovePhase(user, [targetIndex], move, false)] + rest,
           history := s.history + [record],
           ended := true)
      else
        s.(moveQueue := s.moveQueue + [QueuedMove(move.moveId, [targetIndex])],
           history := s.history + [record],
           ended := true)
    else
      s.(ended := true)
  }

  /** `Count` is positive exactly when some element satisfies the predicate. */
  lemma {:induction false} CountPositive<T>(s: seq<T>, pred: T -> bool)
    ensures Count(s, pred) > 0 <==> exists j :: 0 <= j < |s| && pred(s[j])
  {
    if s != [] {
      CountPositive(s[1..], pred);
      if !pred(s[0]) && exists j :: 0 <= j < |s| && pred(s[j]) {
        var j :| 0 <= j < |s| && pred(s[j]);
        assert pred(s[1..][j - 1]);
      }
    }
  }

  /**
   * What `start` does, the charge animation's callback running synchronously:
   * with no target or a move that is not a charging move the phase just ends;
   * otherwise the user is tagged CHARGING for one turn and `end` runs.
   */
  function StartSpec(s: ChargeState, user: Pokemon, move: PokemonMove, targetIndex: int,
                     target: Option<Pokemon>, instantCharge: bool): (r: ChargeState)
    ensures r.ended
    ensures target.None? || !move.isChargingMove ==>
              r.queue == s.queue && r.tags == s.tags && r.moveQueue == s.moveQueue && r.history == s.history
    ensures target.Some? && move.isChargingMove ==>
              && r.tags == s.tags + [BattlerTag(Charging, 1, move.moveId, user.id)]
              && r.history == s.history + [MoveRecord(move.moveId, [targetIndex], Other)]
              && (instantCharge <==> r.moveQueue == s.moveQueue)
  {
    if target.None? || !move.isChargingMove then
      s.(ended := true)
    else
      EndSpec(s.(tags := s.tags + [BattlerTag(Charging, 1, move.moveId, user.id)]), user, move, targetIndex, instantCharge)
  }

  /**
   * `getTargetPokemon`: the first active Pokemon on the field whose battler
   * index is the phase's target index.
   */
  function GetTargetPokemon(field: seq<Pokemon>, targetIndex: int): (r: Option<Pokemon>)
    ensures r.None? <==> forall k :: 0 <= k < |field| ==> field[k].battlerIndex != targetIndex
    ensures r.Some? ==> exists k :: 0 <= k < |field| && field[k] == r.value
                          && field[k].battlerIndex == targetIndex
                          && forall j :: 0 <= j < k ==> field[j].battlerIndex != targetIndex
  {
    if field == [] then None
    else if field[0].battlerIndex == targetIndex then Some(field[0])
    else
      var r := GetTargetPokemon(field[1..], targetIndex);
      if r.Some? then
        var k :| 0 <= k < |field[1..]| && field[1..][k] == r.value
                 && field[1..][k].battlerIndex == targetIndex
                 && forall j :: 0 <= j < k ==> field[1..][j].battlerIndex != targetIndex;
        assert field[k + 1] == r.value;
        r
      else
        r
  }

  /** The shared phase queue (only the two operations the protocol uses). */
  class PhaseManager {
    var queue: seq<Phase>

    constructor (queue: seq<Phase>)
      ensures this.queue == queue
    {
      this.queue := queue;
    }

    /** Removes the first queued phase matching `pred`; reports whether one was found. */
    method TryRemovePhase(pred: Phase -> bool) returns (removed: bool)
      modifies this
      ensures queue == RemoveFirst(old(queue), pred)
      ensures removed <==> exists j :: 0 <= j < |old(queue)| && pred(old(queue)[j])
    {
      var i := 0;
      while i < |queue| && !pred(queue[i])
        invariant 0 <= i <= |queue|
        invariant forall j :: 0 <= j < i ==> !pred(queue[j])
      {
        i := i + 1;
      }
      assert FirstMatch(queue, pred) == i;
      removed := i < |queue|;
      if removed {
        queue := queue[..i] + queue[i + 1..];
      }
    }

    /** Puts `phase` at the front of the queue. */
    method UnshiftNew(phase: Phase)
      modifies this
      ensures queue == [phase] + old(queue)
    {
      queue := [phase] + queue;
    }
  }

  /** The charging turn of a two-turn move, for one user, target and move. */
  class MoveChargePhase {
    /** The user, as `getUserPokemon` resolves it from the phase's side and field index. */
    const user: Pokemon
    const targetIndex: int
    const move: PokemonMove
    var ended: bool

    constructor (user: Pokemon, targetIndex: int, move: PokemonMove)
      ensures this.user == user && this.targetIndex == targetIndex && this.move == move
      ensures !ended
    {
      this.user := user;
      this.targetIndex := targetIndex;
      this.move := move;
      ended := false;
    }

    /** The state this phase may change, as one value. */
    function State(pm: PhaseManager): ChargeState
      reads this, user, pm
    {
      ChargeState(pm.queue, user.tags, user.moveQueue, user.moveHistory, ended)
    }

    /**
     * `start`. The field (the active Pokemon) and the outcome of the move's
     * instant-charge attributes are inputs.
     */
    method Start(field: seq<Pokemon>, pm: PhaseManager, instantCharge: bool)
      modifies this, user, pm
      ensures State(pm) == StartSpec(old(State(pm)), user, move, targetIndex,
                                     GetTargetPokemon(field, targetIndex), instantCharge)
    {
      var target := GetTargetPokemon(field, targetIndex);
      if target.None? || !move.isChargingMove {
        ended := true;
        return;
      }
      user.AddTag(Charging, 1, move.moveId, user.id);
      End(pm, instantCharge);
    }

    /** `end`: the instant-charge check, then the base end. */
    method End(pm: PhaseManager, instantCharge: bool)
      modifies this, user, pm
      ensures State(pm) == EndSpec(old(State(pm)), user, move, targetIndex, instantCharge)
    {
      if move.isChargingMove {
        if instantCharge {
          var _ := pm.TryRemovePhase(IsMoveEndPhaseOf(user));
          pm.UnshiftNew(MovePhase(user, [targetIndex], move, false));
        } else {
          user.moveQueue := user.moveQueue + [QueuedMove(move.moveId, [targetIndex])];
        }
        user.PushMoveHistory(MoveRecord(move.moveId, [targetIndex], Other));
      }
      ended := true;
    }
  }
}
