/**
  Waiting for a card: KeycardFlow.connect together with the loop of runFlow around it.  The timer, the reader and the
  client race, and what becomes of the run depends on nothing but the order in which they come.
 */
module Races {
  import opened Wrappers
  import opened FlowTypes

  /** What the client may call while a run is going. */
  datatype Call = Resume | Cancel

  /** The run's state, whether a wake-up token is on offer, and whether the timer of this attempt is still to fire. */
  datatype Race = Race(state: RunState, token: bool, timer: bool)

  datatype Move = Client(call: Call) | TakeToken | Timer | ReaderError | CardFound

  /** A card was found, with or without a CardInserted for it, or the race has ended without one. */
  datatype Outcome = On(race: Race) | Found(state: RunState, token: bool, announced: bool) | GaveUp | Panicked

  /** One move, unless it cannot be made: a client whose token nobody has taken is still in its last call. */
  function Next(r: Race, move: Move): Option<Outcome> {
    match move
    case Client(Resume) =>
      if r.state == Paused && !r.token then Some(On(Race(Resuming, true, r.timer))) else None
    case Client(Cancel) =>
      if r.state != Idle && !r.token then Some(On(Race(Cancelling, r.state == Paused, r.timer))) else None
    case TakeToken =>
      if !r.token then None else if r.state == Cancelling then Some(GaveUp) else Some(Panicked)
    case Timer =>
      if r.timer then Some(On(Race(Paused, r.token, false))) else None
    case ReaderError =>
      Some(On(Race(r.state, r.token, true)))    // a restart: the next attempt has a timer of its own
    case CardFound =>
      Some(Found(if r.state == Paused then Running else r.state, r.token, r.state == Paused))
  }

  function Follow(r: Race, moves: seq<Move>): Option<Outcome>
    decreases |moves|
  {
    if moves == [] then Some(On(r))
    else
      match Next(r, moves[0])
      case None => None
      case Some(On(next)) => Follow(next, moves[1..])
      case Some(end) => if |moves| == 1 then Some(end) else None
  }

  lemma {:induction false} FollowOn(r: Race, moves: seq<Move>, move: Move)
    requires Follow(r, moves).Some? && Follow(r, moves).value.On?
    ensures Follow(r, moves + [move]) == Next(Follow(r, moves).value.race, move)
    decreases |moves|
  {
    if moves == [] {
      assert moves + [move] == [move];
    } else {
      assert (moves + [move])[1..] == moves[1..] + [move];
      FollowOn(Next(r, moves[0]).value.race, moves[1..], move);
    }
  }

  function Words(move: Move): seq<Call> {
    if move.Client? then [move.call] else []
  }

  function Spoken(moves: seq<Move>): seq<Call> {
    if moves == [] then [] else Words(moves[0]) + Spoken(moves[1..])
  }

  lemma {:induction false} SpokenOn(moves: seq<Move>, move: Move)
    ensures Spoken(moves + [move]) == Spoken(moves) + Words(move)
  {
    hide Words;
    if moves == [] {
      assert moves + [move] == [move];
      assert Spoken([]) == [] && Words(move) + [] == Words(move);
    } else {
      assert (moves + [move])[1..] == moves[1..] + [move];
      SpokenOn(moves[1..], move);
      assert Words(moves[0]) + (Spoken(moves[1..]) + Words(move)) == Spoken(moves) + Words(move);
    }
  }

  function Cost(move: Move): nat {
    if move == ReaderError then 1 else 0
  }

  function Errors(moves: seq<Move>): nat {
    if moves == [] then 0 else Cost(moves[0]) + Errors(moves[1..])
  }

  lemma {:induction false} ErrorsOn(moves: seq<Move>, move: Move)
    ensures Errors(moves + [move]) == Errors(moves) + Cost(move)
  {
    if moves == [] {
      assert moves + [move] == [move];
    } else {
      assert (moves + [move])[1..] == moves[1..] + [move];
      ErrorsOn(moves[1..], move);
    }
  }

  // ---------------------------------------------------------------------------------------------
  // When waiting for a card can end in a panic
  // ---------------------------------------------------------------------------------------------

  /** InsertCard prompts that may still come. */
  function Prompts(r: Race, faults: nat): nat {
    faults + if r.timer then 1 else 0
  }

  /**
    A token that is on offer is fatal unless the run is cancelled and no prompt can overwrite that.  Otherwise it takes
    a call during a prompt: a Resume, or a Cancel that another prompt overwrites.
   */
  predicate MayPanic(r: Race, calls: seq<Call>, faults: nat) {
    if r.token then r.state != Cancelling || Prompts(r, faults) > 0
    else if r.state == Paused then calls != [] && (calls[0] == Resume || Prompts(r, faults) > 0)
    else Prompts(r, faults) > 0 && (Resume in calls || (calls != [] && Prompts(r, faults) > 1))
  }

  /** In this order of events, with calls the client makes and failures the reader has left, the engine panics. */
  predicate PanicsOn(r: Race, calls: seq<Call>, faults: nat, moves: seq<Move>) {
    Spoken(moves) <= calls && Errors(moves) <= faults && Follow(r, moves) == Some(Panicked)
  }

  lemma {:induction false} PanicsOnlyIf(r: Race, calls: seq<Call>, faults: nat, moves: seq<Move>)
    requires r.state != Idle && PanicsOn(r, calls, faults, moves)
    ensures MayPanic(r, calls, faults)
    decreases |moves|
  {
    var step := Next(r, moves[0]).value;
    if !step.On? {
    } else {
      var rest := if moves[0].Client? then calls[1..] else calls;
      assert moves[0].Client? ==> calls[0] == Spoken(moves)[0];
      assert moves[0].Client? ==> Spoken(moves)[1..] == Spoken(moves[1..]);
      PanicsOnlyIf(step.race, rest, faults - Cost(moves[0]), moves[1..]);
    }
  }

  /** The move that leads to the panic. */
  function Fatal(r: Race, calls: seq<Call>, faults: nat): Move
    requires MayPanic(r, calls, faults)
  {
    if r.token && r.state != Cancelling then TakeToken
    else if !r.token && (r.state == Paused || (calls[0] == Cancel && Prompts(r, faults) == 1)) then Client(calls[0])
    else if r.timer then Timer
    else ReaderError
  }

  lemma {:induction false} PanicsIf(r: Race, calls: seq<Call>, faults: nat) returns (moves: seq<Move>)
    requires r.state != Idle && MayPanic(r, calls, faults)
    ensures PanicsOn(r, calls, faults, moves)
    decreases |calls|, 2 * faults + if r.timer then 1 else 0
  {
    var move := Fatal(r, calls, faults);
    var step := Next(r, move).value;
    if step == Panicked {
      moves := [move];
    } else {
      var rest := PanicsIf(step.race, if move.Client? then calls[1..] else calls, faults - Cost(move));
      moves := [move] + rest;
      assert moves[1..] == rest;
    }
  }

  /**
    For every position, every list of calls and every number of reader failures: some order of events makes the engine
    panic while it waits for a card exactly when `MayPanic` says so.
   */
  lemma CanPanicIff(r: Race, calls: seq<Call>, faults: nat)
    requires r.state != Idle
    ensures (exists moves :: PanicsOn(r, calls, faults, moves)) <==> MayPanic(r, calls, faults)
  {
    if MayPanic(r, calls, faults) {
      var moves := PanicsIf(r, calls, faults);
    }
    forall moves | PanicsOn(r, calls, faults, moves) ensures MayPanic(r, calls, faults) {
      PanicsOnlyIf(r, calls, faults, moves);
    }
  }

  /** At the start of a run: any Resume can do it, and any Cancel if the reader may fail. */
  lemma FreshRunCanPanicIff(calls: seq<Call>, faults: nat)
    ensures (exists moves :: PanicsOn(Race(Running, false, true), calls, faults, moves)) <==>
            Resume in calls || (calls != [] && faults > 0)
  {
    CanPanicIff(Race(Running, false, true), calls, faults);
  }

  // ---------------------------------------------------------------------------------------------
  // Calls that the reader overtakes
  // ---------------------------------------------------------------------------------------------

  /** While the client is silent only a prompt changes the state: it makes the run forget that it was cancelled. */
  lemma {:induction false} SilentRace(r: Race, moves: seq<Move>)
    requires Spoken(moves) == [] && Follow(r, moves).Some? && Follow(r, moves).value.Found?
    ensures Follow(r, moves) ==
      if r.state == Paused || Timer in moves then Some(Found(Running, r.token, true))
      else Some(Found(r.state, r.token, false))
    decreases |moves|
  {
    var step := Next(r, moves[0]).value;
    if step.Found? {
    } else {
      SilentRace(step.race, moves[1..]);
    }
  }

  /** A cancelled run goes on with the card it finds exactly when it has prompted for one after the cancellation. */
  lemma CancelIsForgottenIff(r: Race, moves: seq<Move>)
    requires Spoken(moves) == [] && r.state == Cancelling
    requires Follow(r, moves).Some? && Follow(r, moves).value.Found?
    ensures Follow(r, moves).value.state != Cancelling <==> Timer in moves
  {
    SilentRace(r, moves);
  }

  /**
    A call made during a prompt and overtaken by the reader: its token is still on offer when the card is found.
    CardInserted is sent exactly when another prompt came in between, which also makes the run forget the call.
   */
  lemma OvertakenCall(r: Race, call: Call, moves: seq<Move>)
    requires r.state == Paused && !r.token && Spoken(moves) == []
    requires var end := Follow(r, [Client(call)] + moves); end.Some? && end.value.Found?
    ensures Follow(r, [Client(call)] + moves) ==
      if Timer in moves then Some(Found(Running, true, true))
      else Some(Found(if call == Resume then Resuming else Cancelling, true, false))
  {
    assert ([Client(call)] + moves)[1..] == moves;
    SilentRace(Next(r, Client(call)).value.race, moves);
  }

  /** A Resume, and a Cancel before a reader failure, that make the engine panic; a Cancel that is forgotten. */
  lemma FailingRaces()
    ensures var start := Race(Running, false, true);
      && Follow(start, [Timer, Client(Resume), TakeToken]) == Some(Panicked)
      && Follow(start, [Timer, Client(Cancel), ReaderError, Timer, TakeToken]) == Some(Panicked)
      && Follow(start, [Client(Cancel), Timer, CardFound]) == Some(Found(Running, false, true))
      && Follow(start, [Timer, Client(Cancel), CardFound]) == Some(Found(Cancelling, true, false))
  {
    var start := Race(Running, false, true);
    hide Follow;
    FollowThree(start, Timer, Client(Resume), TakeToken);
    FollowThree(start, Client(Cancel), Timer, CardFound);
    FollowThree(start, Timer, Client(Cancel), CardFound);
    var cancelled := Race(Cancelling, true, false);
    FollowThree(cancelled, ReaderError, Timer, TakeToken);
    FollowFrom(start, Timer, [Client(Cancel), ReaderError, Timer, TakeToken]);
    FollowFrom(Race(Paused, false, false), Client(Cancel), [ReaderError, Timer, TakeToken]);
    assert [Client(Cancel), ReaderError, Timer, TakeToken] == [Client(Cancel)] + [ReaderError, Timer, TakeToken];
    assert [Timer, Client(Cancel), ReaderError, Timer, TakeToken] ==
           [Timer] + [Client(Cancel), ReaderError, Timer, TakeToken];
  }

  lemma FollowThree(r: Race, first: Move, second: Move, last: Move)
    requires Next(r, first).Some? && Next(r, first).value.On?
    requires var r1 := Next(r, first).value.race;
      Next(r1, second).Some? && Next(r1, second).value.On? &&
      var end := Next(Next(r1, second).value.race, last); end.Some? && !end.value.On?
    ensures Follow(r, [first, second, last]) == Next(Next(Next(r, first).value.race, second).value.race, last)
  {
    hide Next;
    var r1 := Next(r, first).value.race;
    FollowFrom(r, first, [second, last]);
    FollowFrom(r1, second, [last]);
    assert [first, second, last] == [first] + [second, last] && [second, last] == [second] + [last];
  }

  lemma FollowFrom(r: Race, move: Move, moves: seq<Move>)
    requires Next(r, move).Some? && Next(r, move).value.On?
    ensures Follow(r, [move] + moves) == Follow(Next(r, move).value.race, moves)
  {
    assert ([move] + moves)[1..] == moves;
  }
}
