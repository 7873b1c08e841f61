/**
  The Flow engine of pkg/flow: a run executes one flow against whatever card is inserted, prompts the user for
  what is missing, and starts over with a new connection whenever it has to.
 */
module Flows {
  import opened Wrappers
  import opened FlowTypes
  import opened Histories
  import Cards
  import FlowLaws
  import Hex
  import Links
  import Metadatas
  import Pairing
  import Paths
  import Races

  /** Go's error values.  `Suspended` and `Crashed` stand for a goroutine that waits for ever or panics. */
  datatype Err =
    | NoError
    | Restart
    | GiveUp
    | Inauthentic
    | Failure(message: string)
    | Suspended
    | Crashed

  datatype UserAction = Resuming(params: Params) | Cancelling

  datatype CardStatus = CardStatus(
    instanceUID: string,
    keyUID: string,
    freeSlots: int,
    pinRetries: int,
    pukRetries: int,
    version: int)

  const UNKNOWN := CardStatus("", "", -1, -1, -1, 0)

  /** How a run ends: with a state the client sees, waiting for the user for ever, or in a panic. */
  datatype RunEnd = Finished | Waiting | Panicked

  function Pending(params: Params): nat {
    2 * Count(IsSet(params, FactoryReset)) + Count(NewPIN in params)
  }

  class KeycardFlow {
    var flowType: FlowType
    var state: RunState
    var wakeUp: bool               // a client call is blocked handing over its wake-up token
    var params: Params
    var cardInfo: CardStatus
    var script: seq<UserAction>    // what the user is still going to do
    const link: Links.Link
    const pairings: Pairing.PairingStore
    const knownCA: seq<string>

    constructor (link: Links.Link, pairings: Pairing.PairingStore, knownCA: seq<string>, script: seq<UserAction>)
      ensures this.link == link && this.pairings == pairings && this.knownCA == knownCA && this.script == script
      ensures state == Idle && !wakeUp && params == map[]
    {
      this.link, this.pairings, this.knownCA, this.script := link, pairings, knownCA, script;
      flowType, state, wakeUp, params, cardInfo := GetAppInfo, Idle, false, map[], UNKNOWN;
    }

    // -------------------------------------------------------------------------------------------
    // Invariants
    // -------------------------------------------------------------------------------------------

    /** A run is going, and its recording is lawful. */
    ghost predicate Going()
      reads this, link
    {
      && link.Valid()
      && Lawful(knownCA, link.log) && RunPhase(link.log) == Live && state != Idle
      && (CancelPending(link.log) ==> state == RunState.Cancelling)
      && (AwaitingCard(link.log) ==> state == Paused)
    }

    /** Between prompts a wake-up token is on offer only if the client has spoken during an InsertCard prompt. */
    ghost predicate Core()
      reads this, link
    {
      Going() && (wakeUp ==> Intruded(link.log))
    }

    /** The run may be left, or the client may cancel it, in this state. */
    ghost predicate Settled()
      reads this, link
    {
      state == Paused ==> Intruded(link.log) || AwaitingCard(link.log)
    }

    /** The run waits for the client, which has nothing more to say or has not answered an InsertCard prompt. */
    ghost predicate Waits()
      reads this, link
    {
      state == Paused && !wakeUp && (script == [] || AwaitingCard(link.log))
    }

    /** A type assertion of this flow fails, or the master key that it asks for was not exported. */
    ghost predicate Mistaken(flow: FlowType)
      reads this, link
    {
      IllTyped(flow, params) || (AsksForMaster(flow, params) && MasterExportFailed(link.log))
    }

    ghost predicate Paid()
      reads this, link
    {
      Accounted(link.log, params)
    }

    ghost predicate Awake()
      reads this
    {
      state == Running || state == RunState.Cancelling || state == RunState.Resuming
    }

    ghost predicate Identified()
      reads this, link
    {
      cardInfo.freeSlots != -1 ==>
        && cardInfo.instanceUID == link.card.app.Selected().instanceUID
        && cardInfo.keyUID == link.card.app.Selected().keyUID
        && cardInfo.version == link.card.app.Selected().version
    }

    /** The cached card status agrees with the card, the slot count up to the pairings made since selection. */
    ghost predicate Cached()
      reads this, link
    {
      && Identified()
      && (cardInfo.freeSlots != -1 ==>
            cardInfo.freeSlots == link.card.app.Selected().freeSlots + PairedSince(link.log))
      && (cardInfo.pinRetries != -1 ==>
            cardInfo.pinRetries == link.card.pinRetries && cardInfo.pukRetries == link.card.pukRetries)
    }

    /** The card may be paired with. */
    ghost predicate Trusting()
      reads this, link
    {
      Trusted(knownCA, link.log, cardInfo.instanceUID)
    }

    ghost predicate Ready()
      reads this, link
    {
      Core() && Paid() && Awake() && Cached() && link.alive && Admission(link.log).Some?
    }

    ghost predicate Opened()
      reads this, link
    {
      && link.card.channel.Some? && cardInfo.pinRetries != -1 && cardInfo.freeSlots != -1
    }

    // -------------------------------------------------------------------------------------------
    // The client
    // -------------------------------------------------------------------------------------------

    /** What drives the run: every new connection of a run uses some of it up. */
    function Fuel(): nat
      reads this, link
    {
      4 * |script| + 4 * link.faults + Pending(params)
    }

    /** What holds however a part of a run ends.  It panics only if it is given a reason to. */
    twostate predicate Ends(err: Err, reason: bool := false)
      reads this, link
    {
      && Core() && Paid() && Fuel() <= old(Fuel())
      && (err == Restart ==> Awake() && Fuel() < old(Fuel()))
      && (err != Restart ==> Identified())
      && (if err == Suspended then Waits() else Settled())
      && (err == Crashed ==> reason)
      && (err.Failure? ==> err.message != ERROR_OK)
      && Connections(link.log) == old(Connections(link.log))
    }

    /** What every step of a connected flow leaves behind, depending on how it ends. */
    twostate predicate Outcome(err: Err, reason: bool := false)
      reads this, link
    {
      && Ends(err, reason)
      && (err == NoError ==> Awake() && Cached() && link.alive && Admission(link.log).Some?)
    }

    /** Identity, keys, slots, stored data and the open channel are as they were. */
    twostate predicate SameHoldings()
      reads this, link
    {
      && link.card.app == old(link.card.app) && link.card.channel == old(link.card.channel)
      && cardInfo == old(cardInfo).(pinRetries := cardInfo.pinRetries, pukRetries := cardInfo.pukRetries)
      && link.appInfo == old(link.appInfo) && link.pairing == old(link.pairing)
      && Admission(link.log) == old(Admission(link.log)) && PairedSince(link.log) == old(PairedSince(link.log))
    }

    /** The same card with the same content, apart from pairing slots, counters and the channel. */
    twostate predicate SameIdentity()
      reads this, link
    {
      && link.card.app == old(link.card.app).(pairings := link.card.app.pairings)
      && cardInfo == old(cardInfo).(pinRetries := cardInfo.pinRetries, pukRetries := cardInfo.pukRetries)
      && Admission(link.log) == old(Admission(link.log))
    }

    twostate predicate Unaffected()
      reads this, link
    {
      && link.card == old(link.card) && cardInfo == old(cardInfo)
      && link.appInfo == old(link.appInfo) && link.pairing == old(link.pairing)
      && Admission(link.log) == old(Admission(link.log)) && PairedSince(link.log) == old(PairedSince(link.log))
      && Connections(link.log) == old(Connections(link.log))
    }

    twostate predicate SameCard()
      reads this, link
    {
      && Unaffected() && link.alive == old(link.alive) && link.faults == old(link.faults)
      && (old(Trusting()) ==> Trusting())
    }

    method Resume(more: Params) returns (accepted: bool)
      requires link.Valid() && Lawful(knownCA, link.log)
      requires state == Paused ==> RunPhase(link.log) == Live && !wakeUp
      modifies `params, `state, `wakeUp, link`log
      ensures accepted <==> old(state) == Paused
      ensures accepted ==> state == RunState.Resuming && wakeUp && params == old(params) + more
      ensures accepted ==> link.log == Then(old(link.log), Resumed(more)) && Lawful(knownCA, link.log) && link.Valid()
      ensures !accepted ==> unchanged(this) && unchanged(link)
    {
      if state != Paused {
        return false;
      }
      params := params + more;
      state := RunState.Resuming;
      wakeUp := true;
      link.Note(Resumed(more));
      return true;
    }

    method Cancel() returns (accepted: bool)
      requires link.Valid() && Lawful(knownCA, link.log)
      requires state != Idle ==> RunPhase(link.log) == Live && !wakeUp
      modifies `state, `wakeUp, link`log
      ensures accepted <==> old(state) != Idle
      ensures accepted ==> state == RunState.Cancelling && wakeUp == (old(state) == Paused)
      ensures accepted ==> link.log == Then(old(link.log), CancelRequested) && Lawful(knownCA, link.log) && link.Valid()
      ensures !accepted ==> unchanged(this) && unchanged(link)
    {
      if state == Idle {
        return false;
      }
      wakeUp := state == Paused;
      state := RunState.Cancelling;
      link.Note(CancelRequested);
      return true;
    }

    /** The client makes its next call. */
    method ClientActs()
      requires Core() && Paid() && state != Idle && !wakeUp
      requires script != [] && (script[0].Resuming? ==> state == Paused)
      modifies `state, `script, `wakeUp, `params, link`log
      ensures Going() && Paid() && SameCard() && state != Paused
      ensures old(AwaitingCard(link.log) || Intruded(link.log)) ==> Intruded(link.log)
      ensures |script| == |old(script)| - 1
      ensures script == old(script[1..])
      ensures old(script[0].Resuming?) ==>
        state == RunState.Resuming && wakeUp && params == old(params + script[0].params)
      ensures old(script[0].Cancelling?) ==>
        state == RunState.Cancelling && wakeUp == (old(state) == Paused) && params == old(params) &&
        link.log == Then(old(link.log), CancelRequested)
    {
      var action := script[0];
      script := script[1..];
      match action {
        case Resuming(more) =>
          ResumeIsPaidFor(link.log, params, more);
          var _ := Resume(more);
        case Cancelling =>
          EventIsFree(link.log, params, CancelRequested);
          var _ := Cancel();
      }
    }

    /** A cancellation may come before a command, a prompt or the result. */
    method Preempt()
      requires Core() && Paid() && Settled()
      modifies `state, `script, `wakeUp, `params, link`log
      ensures Core() && Paid() && SameCard() && Settled() && params == old(params) && (old(Awake()) ==> Awake())
      ensures old(state) == RunState.Cancelling ==> state == RunState.Cancelling && wakeUp == old(wakeUp)
      ensures |script| <= |old(script)| && (old(Trusting()) ==> Trusting())
      ensures
        || (state == old(state) && link.log == old(link.log))
        || (state == RunState.Cancelling && link.log == Then(old(link.log), CancelRequested))
    {
      var now := *;
      if now && script != [] && script[0].Cancelling? && !wakeUp {
        ClientActs();
      }
    }

    // -------------------------------------------------------------------------------------------
    // Prompts
    // -------------------------------------------------------------------------------------------

    function Report(msg: string, extra: Status): Status
      reads this
    {
      var named := if cardInfo.freeSlots == -1 then extra[ErrorKey := Text(msg)] else
        extra[ErrorKey := Text(msg)]
          [InstanceUID := Text(cardInfo.instanceUID)]
          [KeyUID := Text(cardInfo.keyUID)]
          [FreeSlots := Number(cardInfo.freeSlots)];
      if cardInfo.pinRetries == -1 then named else
        named[PINRetries := Number(cardInfo.pinRetries)][PUKRetries := Number(cardInfo.pukRetries)]
    }

    lemma ReportIsTruthful(msg: string, extra: Status)
      requires Cached() && (forall k :: k in extra ==> k == MnemonicIdxs)
      ensures Truthful(link.log, Report(msg, extra), link.card)
    {
    }

    method Pause(action: Signal, msg: string, extra: Status)
      requires Core() && Paid() && action != CardInserted
      requires action == InsertCard ||
        (state != RunState.Cancelling && Cached() && (forall k :: k in extra ==> k == MnemonicIdxs))
      modifies `state, link`log
      ensures Core() && Paid() && state == Paused && SameCard()
      ensures link.log == Then(old(link.log), Signalled(action, old(Report(msg, extra)), link.card))
    {
      hide Accounted, ChannelOpen, Verified;
      if action != InsertCard {
        ReportIsTruthful(msg, extra);
      }
      EventIsFree(link.log, params, Signalled(action, Report(msg, extra), link.card));
      link.Note(Signalled(action, Report(msg, extra), link.card));
      state := Paused;
    }

    method PauseAndWaitWithStatus(action: Signal, msg: string, extra: Status) returns (err: Err)
      requires Core() && Paid() && Awake() && Cached()
      requires action != InsertCard && action != CardInserted && (forall k :: k in extra ==> k == MnemonicIdxs)
      modifies `state, `script, `wakeUp, `params, link`log
      ensures Core() && Paid() && SameCard() && Fuel() <= old(Fuel())
      ensures err == NoError ==> state == Running && Fuel() < old(Fuel())
      ensures err == NoError || err == GiveUp || err == Suspended
      ensures if err == Suspended then Waits() else Settled()
      ensures old(state) == RunState.Cancelling ==>
        err == GiveUp && wakeUp == old(wakeUp) &&
        (link.log == old(link.log) || link.log == Then(old(link.log), CancelRequested))
    {
      hide Accounted, ChannelOpen, Verified;
      Preempt();
      if state == RunState.Cancelling {
        return GiveUp;
      }
      Pause(action, msg, extra);
      if !wakeUp {
        if script == [] {
          return Suspended;
        }
        ClientActs();
      }
      err := WakeUp();
    }

    /** The wake-up token is taken; the run goes on if the client resumed it. */
    method WakeUp() returns (err: Err)
      requires Going() && Paid() && !AwaitingCard(link.log) && Settled()
      modifies `state, `wakeUp
      ensures Core() && Paid() && SameCard() && Settled() && Fuel() == old(Fuel())
      ensures if old(state) == RunState.Resuming then err == NoError && state == Running
              else err == GiveUp && unchanged(`state)
    {
      wakeUp := false;
      if state == RunState.Resuming {
        state := Running;
        return NoError;
      }
      return GiveUp;
    }

    method PauseAndWait(action: Signal, msg: string) returns (err: Err)
      requires Core() && Paid() && Awake() && Cached()
      requires action != InsertCard && action != CardInserted
      modifies `state, `script, `wakeUp, `params, link`log
      ensures Core() && Paid() && SameCard() && Fuel() <= old(Fuel())
      ensures err == NoError ==> state == Running && Fuel() < old(Fuel())
      ensures err == NoError || err == GiveUp || err == Suspended
      ensures if err == Suspended then Waits() else Settled()
    {
      err := PauseAndWaitWithStatus(action, msg, map[]);
    }

    method PauseAndRestart(action: Signal, msg: string) returns (err: Err)
      requires Core() && Paid() && Awake() && Cached()
      requires action != InsertCard && action != CardInserted
      modifies `state, `script, `wakeUp, `params, link`log
      ensures Core() && Paid() && SameCard() && Fuel() <= old(Fuel())
      ensures err == Restart ==> Awake() && Fuel() < old(Fuel())
      ensures err == Restart || err == GiveUp || err == Suspended
      ensures if err == Suspended then Waits() else Settled()
    {
      err := PauseAndWait(action, msg);
      if err == NoError {
        err := Restart;
      }
    }

    // -------------------------------------------------------------------------------------------
    // Commands
    // -------------------------------------------------------------------------------------------

    /** Go's delete on the parameters. */
    method Drop(k: Key)
      requires Core() && Paid()
      modifies `params
      ensures Core() && Paid() && params == Without(old(params), k) && Fuel() <= old(Fuel())
      ensures k == FactoryReset && old(IsSet(params, k)) ==> Fuel() < old(Fuel())
    {
      DroppingIsFree(link.log, params, k);
      params := Without(params, k);
    }

    /** Sends one command; the client may cancel just before it. */
    method Exec(cmd: Cards.Command) returns (r: Cards.Reply)
      requires Core() && Paid() && Awake() && LawfulCommand(knownCA, link.log, cmd, link.card)
      modifies `state, `script, `wakeUp, `params, link
      ensures Core() && Awake() && params == old(params) && cardInfo == old(cardInfo)
      ensures |script| <= |old(script)| && link.faults <= old(link.faults)
      ensures link.log.Then? && link.log.last == Sent(cmd, r, old(link.card))
      ensures Cards.Answers(old(link.card), cmd, r, link.card) && old(link.card).Valid() && link.card.Valid()
      ensures !r.Wrong? ==> Paid()
      ensures r.Wrong? && cmd.VerifyPin? && Holds(params, PIN, Text(cmd.pin)) ==>
        Accounted(link.log, Without(params, PIN))
      ensures r.Wrong? && cmd.UnblockPin? && Holds(params, PUK, Text(cmd.puk)) ==>
        Accounted(link.log, Without(params, PUK))
      ensures Admission(link.log) ==
        if Rewrites(Sent(cmd, r, old(link.card))) then None else old(Admission(link.log))
      ensures Connections(link.log) == old(Connections(link.log))
      ensures old(Trusting()) && !Rewrites(Sent(cmd, r, old(link.card))) ==> Trusting()
      ensures PairedSince(link.log) ==
        if r.Success? && ClosesChannel(Sent(cmd, r, old(link.card))) then 0
        else old(PairedSince(link.log)) + Count(cmd.Pair? && r.Success?)
      ensures link.alive == (old(link.alive) && !r.Fault?)
      ensures old(link.alive) && Links.Link.Charged(old(link.card), cmd, r) ==> link.faults < old(link.faults)
      ensures link.appInfo == if cmd.Select? && r.Success? then r.data.info else old(link.appInfo)
      ensures cmd.OpenChannel? ==> link.pairing == Some(Pairing.Info(cmd.key, cmd.index))
      ensures cmd.Pair? && r.Success? ==> link.pairing == Some(r.data.pairing)
      ensures !cmd.OpenChannel? && !(cmd.Pair? && r.Success?) ==> link.pairing == old(link.pairing)
    {
      hide ChannelOpen, Verified, LoginKeys, RecoverKeys, RequestedKeys, SignedAsAsked, RequestedMetadata;
      hide ReportedMetadata, Accounted;
      Preempt();
      ghost var h := link.log;
      r := link.Send(cmd);
      CommandAccounts(h, params, Sent(cmd, r, old(link.card)));
    }

    /** Most commands are lawful on an admitted card that is authorized where it has to be. */
    lemma MaySend(cmd: Cards.Command)
      requires Core() && Awake() && !cmd.VerifyPin? && !cmd.UnblockPin? && !cmd.LoadSeed?
      requires NeedsAdmission(cmd) ==> Admission(link.log).Some?
      requires Cards.Privileged(cmd) ==> link.card.authenticated
      requires cmd.Pair? ==> Trusted(knownCA, link.log, link.card.app.Selected().instanceUID)
      ensures LawfulCommand(knownCA, link.log, cmd, link.card)
    {
    }

    /** The cached card status is brought up to date. */
    method Learn(info: CardStatus)
      requires Core() && Paid()
      modifies `cardInfo
      ensures Core() && Paid() && Fuel() == old(Fuel()) && cardInfo == info
    {
      cardInfo := info;
    }

    // -------------------------------------------------------------------------------------------
    // Credentials
    // -------------------------------------------------------------------------------------------

    /** The card accepted PUK and new PIN. */
    method NoteUnblocked()
      requires Core() && Paid() && NewPIN in params && params[NewPIN].Text?
      modifies `params, `cardInfo
      ensures Core() && Paid() && Fuel() < old(Fuel())
      ensures Holds(params, PIN, old(params[NewPIN])) && NewPIN !in params && PUK !in params
      ensures cardInfo ==
        old(cardInfo).(pinRetries := Cards.MAX_PIN_RETRIES, pukRetries := Cards.MAX_PUK_RETRIES)
    {
      hide Accounted, UnblockedParams, Without;
      cardInfo := cardInfo.(pinRetries := Cards.MAX_PIN_RETRIES, pukRetries := Cards.MAX_PUK_RETRIES);
      Unblocked(link.log, params);
      params := UnblockedParams(params);
    }

    /** The card rejected a secret: it is dropped, and the attempts left are noted. */
    method NoteRejected(k: Key, counted: CardStatus)
      requires Core() && Accounted(link.log, Without(params, k)) && (k == PIN || k == PUK)
      modifies `params, `cardInfo
      ensures Core() && Paid() && Fuel() == old(Fuel())
      ensures params == Without(old(params), k) && k !in params && cardInfo == counted
    {
      cardInfo := counted;
      DroppingKeepsPending(params, k);
      params := Without(params, k);
    }

    method SendUnblock(puk: string, newPin: string) returns (r: Cards.Reply)
      requires Ready() && Opened() && cardInfo.pinRetries == 0 && cardInfo.pukRetries != 0
      requires NewPIN in params && Holds(params, PUK, Text(puk)) && params[NewPIN] == Text(newPin)
      modifies `state, `script, `wakeUp, `params, link
      ensures Core() && Awake() && SameHoldings() && params == old(params) && cardInfo == old(cardInfo)
      ensures Connections(link.log) == old(Connections(link.log)) && link.alive == !r.Fault?
      ensures |script| <= |old(script)| && link.faults <= old(link.faults)
      ensures r.Fault? ==> link.faults < old(link.faults)
      ensures !r.Wrong? ==> Paid()
      ensures r.Wrong? ==>
        Accounted(link.log, Without(params, PUK)) && link.card.pukRetries == r.left &&
        link.card == old(link.card).(pukRetries := link.card.pukRetries)
      ensures r.Success? ==>
        link.card.authenticated && link.card.pin == newPin &&
        link.card.pinRetries == Cards.MAX_PIN_RETRIES && link.card.pukRetries == Cards.MAX_PUK_RETRIES
      ensures r.Refused? || r.Fault? ==> link.card == old(link.card)
    {
      hide Core, Paid, Admission, PairedSince, Connections, Trusted, Pending, LawfulCommand, Accounted;
      UnblockIsLawful();
      r := Exec(Cards.UnblockPin(puk, newPin));
      Cards.ChecksOnlyCount(old(link.card), Cards.UnblockPin(puk, newPin), r, link.card);
    }

    /** The attempt at the heart of `unblockPIN`: `rejected` when the card did not accept the PUK. */
    method TryUnblock() returns (err: Err, rejected: bool)
      requires Ready() && Opened() && cardInfo.pinRetries == 0 && cardInfo.pukRetries != 0
      requires NewPIN in params && PUK in params
      modifies `state, `script, `wakeUp, `params, `cardInfo, link
      ensures Outcome(err, BadSecrets(params)) && SameHoldings()
      ensures err == Crashed <==> old(NotText(params, PUK) || NotText(params, NewPIN))
      ensures err == NoError ==> Opened()
      ensures err == NoError && !rejected ==> link.card.authenticated && Holds(params, PIN, Text(link.card.pin))
      ensures err == NoError && rejected ==> cardInfo.pinRetries == 0 && PUK !in params
    {
      hide Core, Paid, Admission, PairedSince, Connections, Trusted, Pending, Accounted, Without;
      if !params[PUK].Text? || !params[NewPIN].Text? {
        return Crashed, false;
      }
      var r := SendUnblock(params[PUK].text, params[NewPIN].text);
      match r {
        case Success(_) =>
          NoteUnblocked();
          return NoError, false;
        case Fault =>
          return Restart, false;
        case Wrong(left) =>
          NoteRejected(PUK, cardInfo.(pukRetries := left));
          return NoError, true;
        case Refused(_) =>
          return Failure("unblock"), false;
      }
    }

    method UnblockPIN() returns (err: Err)
      requires Ready() && Opened() && cardInfo.pinRetries == 0
      modifies `state, `script, `wakeUp, `params, `cardInfo, link
      ensures Outcome(err, BadSecrets(params)) && SameHoldings()
      ensures err == NoError ==> Opened() && link.card.authenticated && Holds(params, PIN, Text(link.card.pin))
      decreases Fuel()
    {
      if cardInfo.pukRetries == 0 {
        err := PauseAndRestart(SwapCard, "puk-retries");
        return;
      }
      var pukError := "";
      if NewPIN in params && PUK in params {
        var rejected;
        err, rejected := TryUnblock();
        if err != NoError || !rejected {
          return;
        }
        pukError := "puk";
      }
      if cardInfo.pukRetries == 0 {
        err := PauseAndRestart(SwapCard, "puk-retries");
        return;
      }
      if PUK !in params {
        err := PauseAndWait(EnterPUK, pukError);
      } else {
        err := PauseAndWait(EnterNewPIN, ERROR_UNBLOCKING);
      }
      if err == NoError {
        err := UnblockPIN();
      }
    }

    lemma UnblockIsLawful()
      requires Ready() && Opened() && cardInfo.pinRetries == 0 && cardInfo.pukRetries != 0
      requires NewPIN in params && PUK in params && params[PUK].Text? && params[NewPIN].Text?
      ensures LawfulCommand(knownCA, link.log, Cards.UnblockPin(params[PUK].text, params[NewPIN].text), link.card)
    {
    }

    method SendVerify(pin: string) returns (r: Cards.Reply)
      requires Ready() && Opened() && cardInfo.pinRetries != 0 && Holds(params, PIN, Text(pin))
      modifies `state, `script, `wakeUp, `params, link
      ensures Core() && Awake() && SameHoldings() && params == old(params) && cardInfo == old(cardInfo)
      ensures Connections(link.log) == old(Connections(link.log)) && link.alive == !r.Fault?
      ensures |script| <= |old(script)| && link.faults <= old(link.faults)
      ensures r.Fault? ==> link.faults < old(link.faults)
      ensures !r.Wrong? ==> Paid()
      ensures r.Wrong? ==>
        Accounted(link.log, Without(params, PIN)) &&
        link.card.pinRetries == r.left == Cards.Less(old(link.card.pinRetries)) &&
        link.card == old(link.card).(pinRetries := r.left, authenticated := false)
      ensures r.Success? ==>
        link.card.authenticated && link.card.pin == pin && link.card.pinRetries == Cards.MAX_PIN_RETRIES &&
        link.card.pukRetries == old(link.card.pukRetries)
      ensures r.Refused? || r.Fault? ==> link.card == old(link.card)
    {
      hide Core, Paid, Admission, PairedSince, Connections, Trusted, Pending, LawfulCommand, Accounted;
      VerifyIsLawful();
      r := Exec(Cards.VerifyPin(pin));
      Cards.ChecksOnlyCount(old(link.card), Cards.VerifyPin(pin), r, link.card);
    }

    /** One VerifyPIN with the PIN held in the parameters: `accepted`, or else the reason to prompt again. */
    method TryPin() returns (err: Err, accepted: bool)
      requires Ready() && Opened() && cardInfo.pinRetries != 0 && PIN in params
      modifies `state, `script, `wakeUp, `params, `cardInfo, link
      ensures Outcome(err, BadSecrets(params)) && SameHoldings()
      ensures err == Crashed <==> old(NotText(params, PIN))
      ensures err == NoError ==> Opened()
      ensures err == NoError && accepted ==> link.card.authenticated && Holds(params, PIN, Text(link.card.pin))
      ensures err == NoError && !accepted ==>
        (params == old(params) && link.card == old(link.card)) ||
        (params == Without(old(params), PIN) && link.card.pinRetries == Cards.Less(old(link.card.pinRetries)))
    {
      hide Core, Paid, Admission, PairedSince, Connections, Trusted, Pending, Accounted, Without;
      if !params[PIN].Text? {
        return Crashed, false;
      }
      var r := SendVerify(params[PIN].text);
      match r {
        case Success(_) =>
          Learn(cardInfo.(pinRetries := Cards.MAX_PIN_RETRIES));
          return NoError, true;
        case Fault =>
          return Restart, false;
        case Wrong(left) =>
          NoteRejected(PIN, cardInfo.(pinRetries := left));
          return NoError, false;
        case Refused(_) =>
          return NoError, false;
      }
    }

    lemma VerifyIsLawful()
      requires Ready() && Opened() && cardInfo.pinRetries != 0 && PIN in params && params[PIN].Text?
      ensures LawfulCommand(knownCA, link.log, Cards.VerifyPin(params[PIN].text), link.card)
    {
    }

    /** On success the PIN counter is at its maximum, and the PIN for the next connection is in the parameters. */
    method Authenticate() returns (err: Err)
      requires Ready() && Opened()
      modifies `state, `script, `wakeUp, `params, `cardInfo, link
      ensures Outcome(err, BadSecrets(params)) && SameHoldings()
      ensures err == NoError ==> Opened() && link.card.authenticated && Holds(params, PIN, Text(link.card.pin))
      ensures err == NoError ==> cardInfo.pinRetries == Cards.MAX_PIN_RETRIES
      decreases Fuel()
    {
      if cardInfo.pinRetries == 0 {
        // a successful unblock leaves the card authenticated
        err := UnblockPIN();
        return;
      }
      var pinError := "";
      if PIN in params {
        var accepted;
        err, accepted := TryPin();
        if err != NoError || accepted {
          return;
        }
        pinError := "pin";
      }
      if cardInfo.pinRetries == 0 {
        err := UnblockPIN();
        return;
      }
      err := PauseAndWait(EnterPIN, pinError);
      if err == NoError {
        err := Authenticate();
      }
    }

    // -------------------------------------------------------------------------------------------
    // Initialization, pairing and the secure channel
    // -------------------------------------------------------------------------------------------

    /** A card that was initialized has the credentials that the parameters now hold for the next connection. */
    method InitCard() returns (err: Err)
      requires Ready()
      modifies `state, `script, `wakeUp, `params, `cardInfo, link
      ensures Outcome(err, BadPairing(params)) && err != NoError
      ensures link.card != old(link.card) ==>
        err == Restart && NewPIN !in params && NewPUK !in params && Holds(params, PIN, Text(link.card.pin)) &&
        Holds(params, PairingPass, Text(link.card.app.pairingPass))
      decreases Fuel()
    {
      hide Core, Paid, Admission, PairedSince, Connections, Trusted, Pending;
      if NewPIN !in params {
        err := PauseAndWait(EnterNewPIN, ERROR_REQUIRE_INIT);
        if err == NoError {
          err := InitCard();
        }
        return;
      }
      if NewPUK !in params {
        err := PauseAndWait(EnterNewPUK, ERROR_REQUIRE_INIT);
        if err == NoError {
          err := InitCard();
        }
        return;
      }
      err := SendInit();
    }

    /** The card took the new credentials. */
    method NoteInitialized(newPairing: Value)
      requires Core() && Paid() && NewPIN in params && params[NewPIN].Text? && newPairing.Text?
      modifies `params
      ensures Core() && Paid() && Fuel() < old(Fuel())
      ensures Holds(params, PIN, old(params[NewPIN])) && Holds(params, PairingPass, newPairing)
      ensures NewPIN !in params && NewPUK !in params
    {
      hide Accounted, NextParams, Without;
      Reinitialized(link.log, params, newPairing);
      params := NextParams(params, newPairing);
    }

    /** Init with the new credentials; on success they become the credentials of the next connection. */
    method SendInit() returns (err: Err)
      requires Ready() && NewPIN in params && NewPUK in params
      modifies `state, `script, `wakeUp, `params, link
      ensures Outcome(err, BadPairing(params)) && err != NoError
      ensures err == Crashed <==> old(NotText(params, NewPIN) || NotText(params, NewPUK) || NotText(params, NewPairing))
      ensures link.card != old(link.card) ==>
        err == Restart && old(params[NewPUK]) == Text(link.card.puk) && NewPIN !in params && NewPUK !in params &&
        Holds(params, PIN, Text(link.card.pin)) && Holds(params, PairingPass, Text(link.card.app.pairingPass))
    {
      hide Core, Paid, Admission, PairedSince, Connections, Trusted, Pending, LawfulCommand, Accounted, Without;
      var newPairing := if NewPairing in params then params[NewPairing] else Text(DEF_PAIRING);
      if !params[NewPIN].Text? || !params[NewPUK].Text? || !newPairing.Text? {
        return Crashed;
      }
      MaySend(Cards.Init(params[NewPIN].text, params[NewPUK].text, newPairing.text));
      var r := Exec(Cards.Init(params[NewPIN].text, params[NewPUK].text, newPairing.text));
      match r {
        case Success(_) =>
          NoteInitialized(newPairing);
          return Restart;
        case Fault =>
          return Restart;
        case _ =>
          return Failure("init");
      }
    }

    /** The store holds a pairing that the card knows. */
    ghost predicate Remembered()
      reads this, link, pairings
    {
      var uid := cardInfo.instanceUID;
      && uid in pairings.values && pairings.values[uid].index in link.card.app.pairings
      && link.card.app.pairings[pairings.values[uid].index] == pairings.values[uid].key
    }

    /** One attempt at pairing: `paired`, or refused by the card. */
    method TryPair(pass: string) returns (err: Err, paired: bool)
      requires Ready() && link.card.channel == None && cardInfo.freeSlots != -1 && Trusting()
      modifies `state, `script, `wakeUp, `params, link, pairings
      ensures Outcome(err) && cardInfo == old(cardInfo) && params == old(params) && Trusting()
      ensures link.card.channel == None && SameIdentity()
      ensures err == NoError && paired ==> link.card.app.Slots() < old(link.card.app.Slots()) && Remembered()
      ensures err == NoError && !paired ==> link.card == old(link.card)
    {
      hide Core, Paid, Admission, PairedSince, Connections, Trusted, Pending, Accounted;
      var info;
      err, info := SendPair(pass);
      if err != NoError || info == None {
        return err, false;
      }
      var saved := pairings.Store(cardInfo.instanceUID, info.value);
      return if saved then NoError else Failure("pairing store"), true;
    }

    method SendPair(pass: string) returns (err: Err, info: Option<Pairing.Info>)
      requires Ready() && link.card.channel == None && cardInfo.freeSlots != -1 && Trusting()
      modifies `state, `script, `wakeUp, `params, link
      ensures Outcome(err) && cardInfo == old(cardInfo) && params == old(params) && Trusting()
      ensures err == NoError || err == Restart
      ensures link.card.channel == None && SameIdentity()
      ensures err == NoError && info.Some? ==>
        && link.card.app.Slots() < old(link.card.app.Slots())
        && info.value.index in link.card.app.pairings && link.card.app.pairings[info.value.index] == info.value.key
      ensures err == NoError && info == None ==> link.card == old(link.card)
    {
      hide Core, Paid, Admission, PairedSince, Connections, Trusted, Pending, LawfulCommand, Accounted;
      MaySend(Cards.Pair(pass));
      var r := Exec(Cards.Pair(pass));
      if r.Success? {
        Cards.PairTakesSlot(old(link.card), pass, r.data, link.card);
        hide Cards.Answers;
        return NoError, Some(r.data.pairing);
      }
      return if r.Fault? then Restart else NoError, None;
    }

    method Pair() returns (err: Err)
      requires Ready() && link.card.channel == None && cardInfo.freeSlots != -1 && Trusting()
      modifies `state, `script, `wakeUp, `params, `cardInfo, link, pairings
      ensures Outcome(err, BadPairing(params))
      ensures err == NoError ==> SameIdentity() && Remembered()
      ensures err == NoError ==> link.card.channel == None
      ensures err == NoError && Fuel() == old(Fuel()) ==> link.card.app.Slots() < old(link.card.app.Slots())
      decreases Fuel()
    {
      hide Core, Paid, Admission, PairedSince, Connections, Trusted, Pending;
      if cardInfo.freeSlots == 0 {
        err := PauseAndRestart(SwapCard, "free-pairing-slots");
        return;
      }
      var pass := if PairingPass in params then params[PairingPass] else Text(DEF_PAIRING);
      if !pass.Text? {
        return Crashed;
      }
      var paired;
      err, paired := TryPair(pass.text);
      if err != NoError || paired {
        return;
      }
      err := AskForPairing();
      if err == NoError {
        err := Pair();
      }
    }

    /** The refused password is dropped and asked for again. */
    method AskForPairing() returns (err: Err)
      requires Ready()
      modifies `state, `script, `wakeUp, `params, link`log
      ensures Outcome(err) && SameCard()
      ensures err == NoError ==> Fuel() < old(Fuel())
    {
      hide Core, Paid, Admission, PairedSince, Connections, Trusted, Pending, Without, Accounted;
      Drop(PairingPass);
      err := PauseAndWait(EnterPairing, ERROR_PAIRING);
    }

    method VerifyAuthenticity() returns (err: Err)
      requires Ready()
      modifies `state, `script, `wakeUp, `params, link
      ensures Outcome(err) && SameHoldings()
      ensures err == NoError || err == Inauthentic
      ensures err == NoError ==> link.card == old(link.card) && Trusting()
    {
      hide Core, Admission, PairedSince, Connections, Pending, LawfulCommand;
      if |knownCA| == 0 {
        return NoError;
      }
      if Holds(params, SkipAuthUID, Text(cardInfo.instanceUID)) {
        MergedIsExempted(link.log, cardInfo.instanceUID);
        return NoError;
      }
      MaySend(Cards.Identify);
      var r := Exec(Cards.Identify);
      if !r.Success? || r.data.ca !in knownCA {
        return Inauthentic;
      }
      return NoError;
    }

    /** The open channel uses the slot the command set remembers, and the card still has that slot. */
    ghost predicate Bound()
      reads link
    {
      && link.card.channel.Some? && link.card.channel.value in link.card.app.pairings
      && link.pairing.Some? && link.pairing.value.index == link.card.channel.value
    }

    /** Nothing but the secret counters, the PIN state and the channel has changed. */
    twostate predicate SameApplet()
      reads this, link
    {
      && link.card.app == old(link.card.app) && link.appInfo == old(link.appInfo)
      && cardInfo == old(cardInfo).(pinRetries := cardInfo.pinRetries, pukRetries := cardInfo.pukRetries)
      && Admission(link.log) == old(Admission(link.log)) && PairedSince(link.log) == old(PairedSince(link.log))
    }

    method SendOpen(info: Pairing.Info) returns (err: Err, granted: bool)
      requires Ready() && link.card.channel == None && cardInfo.freeSlots != -1
      modifies `state, `script, `wakeUp, `params, link
      ensures Outcome(err) && cardInfo == old(cardInfo) && (err == NoError || err == Restart)
      ensures link.card.app == old(link.card.app) && link.appInfo == old(link.appInfo)
      ensures Admission(link.log) == old(Admission(link.log)) && PairedSince(link.log) == old(PairedSince(link.log))
      ensures err == NoError && granted ==> Bound() && link.pairing == Some(info)
      ensures err == NoError && !granted ==> link.card == old(link.card)
    {
      hide Core, Paid, Admission, PairedSince, Connections, Trusted, Pending, LawfulCommand, Accounted;
      MaySend(Cards.OpenChannel(info.index, info.key));
      var r := Exec(Cards.OpenChannel(info.index, info.key));
      return if r.Fault? then Restart else NoError, r.Success?;
    }

    /** Opens the channel with a stored pairing and reads the counters; `usable` unless the card refused. */
    method TryOpen(info: Pairing.Info) returns (err: Err, usable: bool)
      requires Ready() && link.card.channel == None && cardInfo.freeSlots != -1
      modifies `state, `script, `wakeUp, `params, `cardInfo, link
      ensures Outcome(err) && SameApplet()
      ensures err == NoError || err == Restart
      ensures err == NoError && usable ==> Opened() && Bound() && link.pairing == Some(info)
      ensures err == NoError && !usable ==> link.card == old(link.card)
    {
      hide Core, Paid, Admission, PairedSince, Connections, Trusted, Pending, LawfulCommand, Accounted;
      var granted;
      err, granted := SendOpen(info);
      if err != NoError || !granted {
        return err, false;
      }
      MaySend(Cards.GetStatus);
      var r := Exec(Cards.GetStatus);
      if !r.Success? {
        // reading the status can only fail for connection errors
        return Restart, false;
      }
      Learn(cardInfo.(pinRetries := r.data.status.pinRetries, pukRetries := r.data.status.pukRetries));
      return NoError, true;
    }

    method OpenSC(giveup: bool) returns (err: Err)
      requires Ready() && link.card.channel == None && cardInfo.freeSlots != -1
      modifies `state, `script, `wakeUp, `params, `cardInfo, link, pairings
      ensures Outcome(err, !giveup && BadPairing(params))
      ensures err == NoError ==> Opened() && Bound() && SameIdentity()
      ensures err == NoError ==> pairings.Get(cardInfo.instanceUID) == link.pairing
      ensures giveup ==> SameApplet()
      ensures giveup && err == GiveUp ==> pairings.Get(cardInfo.instanceUID) == None
      decreases Fuel(), link.card.app.Slots()
    {
      hide Core, Paid, Admission, PairedSince, Connections, Trusted, Pending;
      if !link.appInfo.initialized && !giveup {
        err := InitCard();
        return;
      }
      var stored := pairings.Get(cardInfo.instanceUID);
      if stored.Some? {
        var usable;
        err, usable := TryOpen(stored.value);
        if err != NoError || usable {
          return;
        }
        pairings.Delete(cardInfo.instanceUID);
      }
      err := VerifyAuthenticity();
      if err != NoError {
        return;
      }
      if giveup {
        return GiveUp;
      }
      err := Pair();
      if err == NoError {
        err := OpenSC(giveup);
      }
    }

    method OpenSCAndAuthenticate(giveup: bool) returns (err: Err)
      requires Ready() && link.card.channel == None && cardInfo.freeSlots != -1
      modifies `state, `script, `wakeUp, `params, `cardInfo, link, pairings
      ensures Outcome(err, BadSecrets(params) || (!giveup && BadPairing(params)))
      ensures err == NoError ==> Opened() && Bound() && SameIdentity() && link.card.authenticated
      ensures giveup ==> SameApplet()
    {
      hide Core, Paid, Admission, PairedSince, Connections, Trusted, Pending;
      err := OpenSC(giveup);
      if err == NoError {
        err := Authenticate();
      }
    }

    // -------------------------------------------------------------------------------------------
    // Commands of an authenticated connection
    // -------------------------------------------------------------------------------------------

    ghost predicate Secure()
      reads this, link
    {
      Ready() && Opened() && Bound() && link.card.authenticated
    }

    /** The last command was this one, and it succeeded unless there is an error. */
    ghost predicate Asked(cmd: Cards.Command, err: Err)
      reads link
    {
      && link.log.Then? && link.log.last.Sent? && link.log.last.cmd == cmd
      && (if link.log.last.reply.Success? then err == NoError else err == Restart || err.Failure?)
    }

    method ExportKeyExtended(path: string, kind: Cards.ExportKind) returns (key: Cards.KeyPair, err: Err)
      requires Secure()
      modifies `state, `script, `wakeUp, `params, link
      ensures Outcome(err) && params == old(params) && link.card == old(link.card) && cardInfo == old(cardInfo)
      ensures err == NoError ==> Secure() && Unaffected()
      ensures err == NoError ==> Paths.Decode(path).Ok? && OneKey(key) == Exported(link.card, path, kind)
      ensures if Paths.Decode(path).Err? then link.log == old(link.log) && err.Failure?
              else Asked(Cards.ExportKey(Told(path), kind), err)
    {
      hide Core, Paid, Admission, PairedSince, Connections, Trusted, Pending, LawfulCommand, Accounted;
      key := Cards.KeyPair("", Told(path), kind);
      if Paths.Decode(path).Err? {
        return key, Failure("path");
      }
      MaySend(Cards.ExportKey(Told(path), kind));
      var r := Exec(Cards.ExportKey(Told(path), kind));
      match r {
        case Success(data) => return data.pair, NoError;
        case Fault => return key, Restart;
        case _ => return key, Failure("export");
      }
    }

    method ExportKey(path: string, onlyPublic: bool) returns (key: Cards.KeyPair, err: Err)
      requires Secure()
      modifies `state, `script, `wakeUp, `params, link
      ensures Outcome(err) && params == old(params) && link.card == old(link.card) && cardInfo == old(cardInfo)
      ensures err == NoError ==> Secure() && Unaffected()
      ensures err == NoError ==>
        Paths.Decode(path).Ok? &&
        OneKey(key) == Exported(link.card, path, if onlyPublic then Cards.PublicOnly else Cards.PrivateAndPublic)
      ensures Paths.Decode(path).Ok? ==>
        Asked(Cards.ExportKey(Told(path), if onlyPublic then Cards.PublicOnly else Cards.PrivateAndPublic), err)
    {
      key, err := ExportKeyExtended(path, if onlyPublic then Cards.PublicOnly else Cards.PrivateAndPublic);
    }

    /** The keys for a list of paths, in order. */
    method ExportAll(paths: seq<Value>, onlyPublic: bool) returns (keys: seq<Cards.KeyPair>, err: Err)
      requires Secure()
      modifies `state, `script, `wakeUp, `params, link
      ensures Outcome(err, !AllTexts(paths)) && params == old(params) && cardInfo == old(cardInfo)
      ensures err == NoError ==> Secure() && Unaffected()
      ensures err == NoError ==> |keys| == |paths| && forall i :: 0 <= i < |paths| ==>
        paths[i].Text? && Paths.Decode(paths[i].text).Ok? &&
        OneKey(keys[i]) ==
          Exported(link.card, paths[i].text, if onlyPublic then Cards.PublicOnly else Cards.PrivateAndPublic)
    {
      hide Core, Paid, Admission, PairedSince, Connections, Trusted, Pending;
      keys := [];
      for i := 0 to |paths|
        invariant Secure() && Unaffected() && Fuel() <= old(Fuel())
        invariant params == old(params) && cardInfo == old(cardInfo)
        invariant |keys| == i && forall j :: 0 <= j < i ==>
          paths[j].Text? && Paths.Decode(paths[j].text).Ok? &&
          OneKey(keys[j]) ==
            Exported(link.card, paths[j].text, if onlyPublic then Cards.PublicOnly else Cards.PrivateAndPublic)
      {
        if !paths[i].Text? {
          return keys, Crashed;
        }
        var key;
        key, err := ExportKey(paths[i].text, onlyPublic);
        if err != NoError {
          return;
        }
        keys := keys + [key];
      }
      err := NoError;
    }

    method ExportBIP44Key() returns (exported: Value, err: Err)
      requires Secure()
      modifies `state, `script, `wakeUp, `params, link
      ensures Outcome(err, BadPaths(params))
      ensures err == NoError ==> Secure() && Unaffected() && RequestedKeys(params, exported, link.card)
      decreases Fuel(), BIP44Path in params
    {
      hide Core, Paid, Admission, PairedSince, Connections, Trusted, Pending;
      if BIP44Path in params {
        if ExportPriv in params && !params[ExportPriv].Flag? {
          return ManyKeys([]), Crashed;
        }
        if params[BIP44Path].Text? || params[BIP44Path].Items? {
          exported, err := ExportRequested();
          return;
        }
        Drop(BIP44Path);
        exported, err := ExportBIP44Key();
        return;
      }
      exported := ManyKeys([]);
      err := PauseAndWait(EnterPath, ERROR_EXPORTING);
      if err == NoError {
        exported, err := ExportBIP44Key();
      }
    }

    method ExportRequested() returns (exported: Value, err: Err)
      requires Secure() && BIP44Path in params && (params[BIP44Path].Text? || params[BIP44Path].Items?)
      modifies `state, `script, `wakeUp, `params, link
      ensures Outcome(err, BadPaths(params))
      ensures err == NoError ==> Secure() && Unaffected() && RequestedKeys(params, exported, link.card)
    {
      hide Core, Paid, Admission, PairedSince, Connections, Trusted, Pending;
      var onlyPublic := !IsSet(params, ExportPriv);
      if params[BIP44Path].Text? {
        var key;
        key, err := ExportKey(params[BIP44Path].text, onlyPublic);
        exported := OneKey(key);
      } else {
        var keys;
        keys, err := ExportAll(params[BIP44Path].items, onlyPublic);
        exported := ManyKeys(keys);
      }
    }

    /** Loading a seed is lawful on a card without keys, or when overwriting was allowed at selection. */
    ghost predicate MayLoad()
      reads this, link
    {
      && Admission(link.log).Some?
      && (link.card.app.keyUID == "" || IsSet(Admission(link.log).value.params, Overwrite))
    }

    /** The last command loaded the seed of the mnemonic in the parameters. */
    ghost predicate SeedLoaded()
      reads this, link
    {
      && link.card.app.keyUID != ""
      && Mnemonic in params && params[Mnemonic].Text? && link.log.Then? && link.log.last.Sent?
      && link.log.last.cmd == Cards.LoadSeed(params[Mnemonic].text, "")
      && link.log.last.reply == Cards.Success(Cards.KeyUID(link.card.app.keyUID))
    }

    method LoadKeys() returns (err: Err)
      requires Secure() && MayLoad()
      modifies `state, `script, `wakeUp, `params, `cardInfo, link
      ensures Outcome(err, NotText(params, Mnemonic))
      ensures err == NoError ==> Secure() && SeedLoaded()
      ensures err == NoError ==> link.card.app == old(link.card.app).(keyUID := link.card.app.keyUID)
      decreases Fuel()
    {
      hide Core, Paid, Admission, PairedSince, Connections, Trusted, Pending;
      if Mnemonic in params {
        err := SendSeed();
        return;
      }
      var words;
      words, err := GenerateWords(Quotient(MnemonicLength(params), 3));
      if err != NoError {
        return;
      }
      err := PauseAndWaitWithStatus(EnterMnemonic, ERROR_LOADING, map[MnemonicIdxs := Words(words)]);
      if err == NoError {
        err := LoadKeys();
      }
    }

    /** Words for a new mnemonic, for checksum sizes from 4 to 8. */
    method GenerateWords(checksumSize: int) returns (words: seq<int>, err: Err)
      requires Secure()
      modifies `state, `script, `wakeUp, `params, link
      ensures Outcome(err) && params == old(params) && cardInfo == old(cardInfo)
      ensures err == NoError ==> Secure() && Unaffected() && 4 <= checksumSize <= 8
    {
      hide Core, Paid, Admission, PairedSince, Connections, Trusted, Pending, LawfulCommand, Accounted;
      words := [];
      if !(4 <= checksumSize <= 8) {
        return words, Failure("bad checksum size");
      }
      MaySend(Cards.GenerateMnemonic(checksumSize));
      var r := Exec(Cards.GenerateMnemonic(checksumSize));
      match r {
        case Success(data) => return data.indexes, NoError;
        case Fault => return words, Restart;
        case _ => return words, Failure("generate mnemonic");
      }
    }

    method SendSeed() returns (err: Err)
      requires Secure() && MayLoad() && Mnemonic in params
      modifies `state, `script, `wakeUp, `params, `cardInfo, link
      ensures Outcome(err, NotText(params, Mnemonic))
      ensures err == Crashed <==> old(NotText(params, Mnemonic))
      ensures err == NoError ==> Secure() && SeedLoaded()
      ensures err == NoError ==> link.card.app == old(link.card.app).(keyUID := link.card.app.keyUID)
    {
      hide Core, Paid, Admission, PairedSince, Connections, Trusted, Pending, LawfulCommand, Accounted;
      if !params[Mnemonic].Text? {
        return Crashed;
      }
      LoadIsLawful();
      var r := Exec(Cards.LoadSeed(params[Mnemonic].text, ""));
      if r.Fault? {
        return Restart;
      }
      if !r.Success? {
        return Failure("load seed");
      }
      Learn(cardInfo.(keyUID := r.data.uid));
      return NoError;
    }

    lemma LoadIsLawful()
      requires Secure() && MayLoad() && Mnemonic in params && params[Mnemonic].Text?
      ensures LawfulCommand(knownCA, link.log, Cards.LoadSeed(params[Mnemonic].text, ""), link.card)
    {
    }

    /** The commands that replace a credential end the flow, so the cached counters are not refreshed. */
    method SendChange(cmd: Cards.Command) returns (err: Err)
      requires Secure() && (cmd.ChangePin? || cmd.ChangePuk? || cmd.ChangePairing?)
      modifies `state, `script, `wakeUp, `params, link
      ensures Ends(err) && params == old(params) && cardInfo == old(cardInfo)
      ensures err == NoError ==> Cards.Performs(old(link.card), cmd, Cards.Nothing, link.card)
    {
      hide Core, Paid, Admission, PairedSince, Connections, Trusted, Pending, LawfulCommand, Accounted;
      MaySend(cmd);
      var r := Exec(cmd);
      if r.Fault? {
        return Restart;
      }
      if !r.Success? {
        return Failure("change");
      }
      return NoError;
    }

    method ChangePin() returns (err: Err)
      requires Secure()
      modifies `state, `script, `wakeUp, `params, link
      ensures Ends(err, NotText(params, NewPIN)) && cardInfo == old(cardInfo)
      ensures err == NoError ==> link.card.app == old(link.card.app) && Holds(params, NewPIN, Text(link.card.pin))
      decreases Fuel()
    {
      hide Core, Paid, Admission, PairedSince, Connections, Trusted, Pending;
      if NewPIN in params {
        if !params[NewPIN].Text? {
          return Crashed;
        }
        err := SendChange(Cards.ChangePin(params[NewPIN].text));
        return;
      }
      err := PauseAndWait(EnterNewPIN, ERROR_CHANGING);
      if err == NoError {
        err := ChangePin();
      }
    }

    method ChangePuk() returns (err: Err)
      requires Secure()
      modifies `state, `script, `wakeUp, `params, link
      ensures Ends(err, NotText(params, NewPUK)) && cardInfo == old(cardInfo)
      ensures err == NoError ==> link.card.app == old(link.card.app) && Holds(params, NewPUK, Text(link.card.puk))
      decreases Fuel()
    {
      hide Core, Paid, Admission, PairedSince, Connections, Trusted, Pending;
      if NewPUK in params {
        if !params[NewPUK].Text? {
          return Crashed;
        }
        err := SendChange(Cards.ChangePuk(params[NewPUK].text));
        return;
      }
      err := PauseAndWait(EnterNewPUK, ERROR_CHANGING);
      if err == NoError {
        err := ChangePuk();
      }
    }

    method ChangePairingPass() returns (err: Err)
      requires Secure()
      modifies `state, `script, `wakeUp, `params, link
      ensures Ends(err, NotText(params, NewPairing)) && cardInfo == old(cardInfo)
      ensures err == NoError ==>
        link.card.app == old(link.card.app).(pairingPass := link.card.app.pairingPass) &&
        Holds(params, NewPairing, Text(link.card.app.pairingPass))
      decreases Fuel()
    {
      hide Core, Paid, Admission, PairedSince, Connections, Trusted, Pending;
      if NewPairing in params {
        if !params[NewPairing].Text? {
          return Crashed;
        }
        err := SendChange(Cards.ChangePairing(params[NewPairing].text));
        return;
      }
      err := PauseAndWait(EnterNewPair, ERROR_CHANGING);
      if err == NoError {
        err := ChangePairingPass();
      }
    }

    method SignHash() returns (signature: Cards.Signature, err: Err)
      requires Secure()
      modifies `state, `script, `wakeUp, `params, link
      ensures Outcome(err, NotText(params, TXHash) || NotText(params, BIP44Path))
      ensures err == NoError ==> Secure() && Unaffected() && SignedAsAsked(params, signature, link.card)
      decreases Fuel()
    {
      hide Core, Paid, Admission, PairedSince, Connections, Trusted, Pending;
      signature := Cards.Signature("", [], []);
      if BIP44Path !in params {
        err := PauseAndWait(EnterPath, ERROR_SIGNING);
        if err == NoError {
          signature, err := SignHash();
        }
        return;
      }
      if TXHash in params && !params[TXHash].Text? {
        return signature, Crashed;
      }
      if TXHash !in params || Hex.Xtob(params[TXHash].text).Err? {
        err := PauseAndWait(EnterTXHash, ERROR_SIGNING);
        if err == NoError {
          signature, err := SignHash();
        }
        return;
      }
      if !params[BIP44Path].Text? {
        return signature, Crashed;
      }
      signature, err := SignWithPath(Hex.Xtob(params[TXHash].text).value, params[BIP44Path].text);
    }

    /** Nothing is sent for a hash that is not 32 bytes long, or a path text that the decoder refuses. */
    method SignWithPath(hash: Hex.bytes, path: string) returns (signature: Cards.Signature, err: Err)
      requires Secure()
      modifies `state, `script, `wakeUp, `params, link
      ensures Outcome(err) && params == old(params)
      ensures |hash| != 32 || Paths.Decode(path).Err? ==> err.Failure? && link.log == old(link.log)
      ensures err == NoError ==> Secure() && Unaffected()
      ensures err == NoError ==> signature == Cards.Signature(link.card.app.keyUID, Told(path).components, hash)
    {
      hide Core, Paid, Admission, PairedSince, Connections, Trusted, Pending, LawfulCommand, Accounted;
      signature := Cards.Signature("", [], []);
      if |hash| != 32 || Paths.Decode(path).Err? {
        return signature, Failure("sign");
      }
      MaySend(Cards.Sign(hash, Told(path).components));
      var r := Exec(Cards.Sign(hash, Told(path).components));
      match r {
        case Success(data) => return data.signature, NoError;
        case Fault => return signature, Restart;
        case _ => return signature, Failure("sign");
      }
    }

    /** The indexes of the wallet paths; the first path that cannot be accepted ends the flow. */
    method WalletIndexes(wallets: seq<Value>) returns (ps: seq<Paths.uint32>, err: Err)
      ensures err == NoError || err == Crashed || (err.Failure? && err.message != ERROR_OK)
      ensures err == NoError ==> AllTexts(wallets) && Paths.ParsePaths(Texts(wallets)) == Ok(ps)
      ensures err == Crashed ==> !AllTexts(wallets)
      ensures err.Failure? && AllTexts(wallets) ==> Paths.ParsePaths(Texts(wallets)).Err?
    {
      ps := [];
      for i := 0 to |wallets|
        invariant |ps| == i
        invariant forall j :: 0 <= j < i ==>
          wallets[j].Text? && Paths.ParsePath(wallets[j].text) == Ok(ps[j])
      {
        if !wallets[i].Text? {
          return ps, Crashed;
        }
        var path := wallets[i].text;
        if !Paths.HasPrefix(path, Paths.WALLET_ROOT) {
          Refused(wallets, i);
          return ps, Failure("path must start with the wallet root");
        }
        match Paths.Decode(path) {
          case Err(_) =>
            Refused(wallets, i);
            return ps, Failure("path");
          case Ok(d) =>
            Paths.RootComponents(path);
            ps := ps + [d.components[|d.components| - 1]];
        }
      }
      Paths.ParsedOneByOne(Texts(wallets), ps);
      err := NoError;
    }

    static lemma Refused(wallets: seq<Value>, i: nat)
      requires i < |wallets| && wallets[i].Text? && Paths.ParsePath(wallets[i].text).Err?
      requires forall j :: 0 <= j < i ==> wallets[j].Text? && Paths.ParsePath(wallets[j].text).Ok?
      ensures AllTexts(wallets) ==> Paths.ParsePaths(Texts(wallets)).Err?
    {
      if AllTexts(wallets) {
        Paths.StopsAt(Texts(wallets), i);
      }
    }

    method SetMetadata() returns (err: Err)
      requires Secure()
      modifies `state, `script, `wakeUp, `params, link
      ensures Outcome(err, NotText(params, CardName) || NotTexts(params, WalletPaths)) && cardInfo == old(cardInfo)
      ensures err == NoError ==> Secure() && RequestedMetadata(params, link.card.app.data)
      ensures err == NoError ==> link.card.app == old(link.card.app).(data := link.card.app.data)
      decreases Fuel()
    {
      hide Core, Paid, Admission, PairedSince, Connections, Trusted, Pending;
      if CardName !in params {
        err := PauseAndWait(EnterName, ERROR_STORE_META);
        if err == NoError {
          err := SetMetadata();
        }
        return;
      }
      if WalletPaths !in params {
        err := PauseAndWait(EnterWallets, ERROR_STORE_META);
        if err == NoError {
          err := SetMetadata();
        }
        return;
      }
      err := SendMetadata();
    }

    method SendMetadata() returns (err: Err)
      requires Secure() && CardName in params && WalletPaths in params
      modifies `state, `script, `wakeUp, `params, link
      ensures Outcome(err, NotText(params, CardName) || NotTexts(params, WalletPaths)) && cardInfo == old(cardInfo)
      ensures err == NoError ==> Secure() && RequestedMetadata(params, link.card.app.data)
      ensures err == NoError ==> link.card.app == old(link.card.app).(data := link.card.app.data)
    {
      hide Core, Paid, Admission, PairedSince, Connections, Trusted, Pending;
      if !params[WalletPaths].Items? {
        return Crashed;
      }
      var ps;
      ps, err := WalletIndexes(params[WalletPaths].items);
      if err != NoError {
        return;
      }
      if !params[CardName].Text? {
        return Crashed;
      }
      var m := Metadatas.NewMetadata(params[CardName].text, ps);
      if m.Err? {
        return Failure("metadata");
      }
      var data := Metadatas.Serialize(m.value);
      err := SendData(data);
    }

    method SendData(data: Hex.bytes) returns (err: Err)
      requires Secure()
      modifies `state, `script, `wakeUp, `params, link
      ensures Outcome(err) && cardInfo == old(cardInfo) && params == old(params)
      ensures err == NoError ==> Secure() && link.card.app == old(link.card.app).(data := data)
    {
      hide Core, Paid, Admission, PairedSince, Connections, Trusted, Pending, LawfulCommand, Accounted;
      MaySend(Cards.StoreData(data));
      var r := Exec(Cards.StoreData(data));
      Cards.StoringChangesDataOnly(old(link.card), data, r, link.card);
      hide Cards.Answers;
      if r.Fault? {
        return Restart;
      }
      if !r.Success? {
        return Failure("store metadata");
      }
      return NoError;
    }

    method FetchData() returns (data: Hex.bytes, err: Err)
      requires Ready()
      modifies `state, `script, `wakeUp, `params, link
      ensures Outcome(err) && params == old(params)
      ensures err == NoError ==> Unaffected() && data == link.card.app.data
    {
      hide Core, Paid, Admission, PairedSince, Connections, Trusted, Pending, LawfulCommand, Accounted;
      data := [];
      MaySend(Cards.GetData);
      var r := Exec(Cards.GetData);
      Cards.ReadingChangesNothing(old(link.card), r, link.card);
      match r {
        case Success(stored) => return stored.bytes, NoError;
        case Fault => return data, Restart;
        case Refused(reason) =>
          return data, Failure(if reason == Cards.BadResponse(0x6d00) then ERROR_NO_KEYS else "get data");
        case Wrong(_) => return data, Failure("get data");
      }
    }

    method ReadMetadata() returns (metadata: Metadatas.Metadata, err: Err)
      requires Ready()
      modifies `state, `script, `wakeUp, `params, link
      ensures Outcome(err) && params == old(params)
      ensures err == NoError ==> Unaffected() && Metadatas.ParseMetadata(link.card.app.data).Ok?
      ensures err == NoError ==> metadata == Metadatas.View(Metadatas.ParseMetadata(link.card.app.data).value)
    {
      hide Core, Paid, Admission, PairedSince, Connections, Trusted, Pending, Metadatas.ParseMetadata, Metadatas.View;
      metadata := Metadatas.Metadata("", []);
      var data;
      data, err := FetchData();
      if err != NoError {
        return;
      }
      var stored := Metadatas.Parse(data);
      if stored.Err? {
        return metadata, Failure(if stored.error == Metadatas.NoData then ERROR_NO_DATA else "parse metadata");
      }
      metadata := Metadatas.ToMetadata(stored.value);
    }

    method UnpairSlot(index: int) returns (err: Err)
      requires Core() && Paid() && Awake() && Identified() && link.alive && Admission(link.log).Some?
      requires link.card.authenticated
      modifies `state, `script, `wakeUp, `params, link
      ensures Ends(err) && params == old(params) && cardInfo == old(cardInfo)
      ensures err == NoError ==>
        link.card == old(link.card).(app := old(link.card.app).(pairings := link.card.app.pairings)) &&
        link.card.app.pairings == old(link.card.app.pairings) - {index} &&
        Awake() && link.alive && link.pairing == old(link.pairing) &&
        Admission(link.log) == old(Admission(link.log))
    {
      hide Core, Paid, Admission, PairedSince, Connections, Trusted, Pending, LawfulCommand, Accounted;
      MaySend(Cards.Unpair(index));
      var r := Exec(Cards.Unpair(index));
      if r.Fault? {
        return Restart;
      }
      if !r.Success? {
        return Failure("unpair");
      }
      return NoError;
    }

    /** Frees the slot in use.  One more slot is then free, on the card and in the cached status. */
    method UnpairCurrent() returns (err: Err)
      requires Secure()
      modifies `state, `script, `wakeUp, `params, `cardInfo, link
      ensures Ends(err)
      ensures err == NoError ==>
        cardInfo == old(cardInfo).(freeSlots := old(cardInfo.freeSlots) + 1) &&
        link.card.app.Free() == old(link.card.app.Free()) + 1 &&
        link.card.app == old(link.card.app).(pairings := link.card.app.pairings)
    {
      hide Core, Paid, Admission, PairedSince, Connections, Trusted, Pending;
      Cards.UnpairFreesSlot(link.card.app, link.pairing.value.index);
      err := UnpairSlot(link.pairing.value.index);
      if err == NoError {
        Learn(cardInfo.(freeSlots := cardInfo.freeSlots + 1));
      }
    }

    method RemoveKey() returns (err: Err)
      requires Secure()
      modifies `state, `script, `wakeUp, `params, `cardInfo, link
      ensures Outcome(err)
      ensures err == NoError ==>
        Secure() && link.card.app == old(link.card.app).(keyUID := "") && cardInfo == old(cardInfo).(keyUID := "")
    {
      hide Core, Paid, Admission, PairedSince, Connections, Trusted, Pending, LawfulCommand, Accounted;
      MaySend(Cards.RemoveKey);
      var r := Exec(Cards.RemoveKey);
      if r.Fault? {
        return Restart;
      }
      if !r.Success? {
        return Failure("remove key");
      }
      Learn(cardInfo.(keyUID := ""));
      return NoError;
    }

    // -------------------------------------------------------------------------------------------
    // Flows
    // -------------------------------------------------------------------------------------------

    /** A flow that ends without an error has a truthful result that keeps the flow's promise. */
    twostate predicate Delivers(flow: FlowType, result: Status, err: Err)
      reads this, link
    {
      && Ends(err, Mistaken(flow))
      && (err == NoError ==>
            TruthfulIdentity(result, link.card) &&
            (Failed(result) || Accomplished(flow, params, result, link.card)))
    }

    /** A selected card that has not been talked to yet. */
    ghost predicate Chosen()
      reads this, link
    {
      && Ready() && link.card.channel == None && cardInfo.freeSlots != -1
      && link.appInfo == link.card.app.Selected()
      && Admission(link.log).value.params == params && PairedSince(link.log) == 0
      && MeetsConstraints(link.card.app.Selected(), params)
    }

    method RequireKeys() returns (err: Err)
      requires Chosen()
      modifies `state, `script, `wakeUp, `params, link`log
      ensures Ends(err)
      ensures err == NoError ==> Chosen() && cardInfo.keyUID != "" && unchanged(this) && unchanged(link)
    {
      if cardInfo.keyUID != "" {
        return NoError;
      }
      err := PauseAndRestart(SwapCard, ERROR_NO_KEYS);
    }

    method RequireNoKeys() returns (err: Err)
      requires Chosen()
      modifies `state, `script, `wakeUp, `params, link`log
      ensures Ends(err, NotFlag(params, Overwrite))
      ensures err == NoError ==> Chosen() && MayLoad() && unchanged(this) && unchanged(link)
    {
      if cardInfo.keyUID == "" {
        return NoError;
      }
      if Overwrite in params {
        if !params[Overwrite].Flag? {
          return Crashed;
        }
        if params[Overwrite].flag {
          return NoError;
        }
      }
      err := PauseAndRestart(SwapCard, ERROR_HAS_KEYS);
    }

    function CardNames(): Status
      reads this
    {
      map[KeyUID := Text(cardInfo.keyUID), InstanceUID := Text(cardInfo.instanceUID)]
    }

    /** The cached names are those of the card, initialized or not. */
    lemma NamesAreTrue()
      requires Core() && Identified() && cardInfo.freeSlots != -1
      ensures NamesCard(CardNames(), link.card) && link.card.Valid()
    {
    }

    method GetAppInfoFlow() returns (result: Status, err: Err)
      requires Chosen()
      modifies `state, `script, `wakeUp, `params, `cardInfo, link, pairings
      ensures Delivers(GetAppInfo, result, err)
    {
      hide Core, Paid, Admission, PairedSince, Connections, Trusted, Pending;
      result := map[ErrorKey := Text(ERROR_OK), AppInfoKey := App(link.appInfo)];
      err := OpenSCAndAuthenticate(true);
      if err == NoError {
        result := result[PairedKey := Flag(true)];
        result := result[PINRetries := Number(cardInfo.pinRetries)];
        result := result[PUKRetries := Number(cardInfo.pukRetries)];
      } else if err == GiveUp {
        result := result[PairedKey := Flag(false)];
        err := NoError;
      }
    }

    /** Opens the channel for a flow that works on the keys of the card. */
    method OpenWithKeys() returns (err: Err)
      requires Chosen()
      modifies `state, `script, `wakeUp, `params, `cardInfo, link, pairings
      ensures Outcome(err, BadSecrets(params) || BadPairing(params))
      ensures err == NoError ==>
        Secure() && link.card.app.keyUID != "" && NamesCard(CardNames(), link.card) &&
        cardInfo.version == link.card.app.version
    {
      hide Core, Paid, Admission, PairedSince, Connections, Trusted, Pending;
      err := RequireKeys();
      if err == NoError {
        err := OpenSCAndAuthenticate(false);
      }
    }

    method ExportKeysFlow(recover: bool) returns (result: Status, err: Err)
      requires Chosen()
      modifies `state, `script, `wakeUp, `params, `cardInfo, link, pairings
      ensures Delivers(if recover then RecoverAccount else Login, result, err)
    {
      hide Core, Paid, Admission, PairedSince, Connections, Trusted, Pending, RequestedKeys;
      result := map[];
      err := OpenWithKeys();
      if err == NoError {
        result, err := CollectKeys(recover);
      }
    }

    method CollectKeys(recover: bool) returns (result: Status, err: Err)
      requires Secure() && NamesCard(CardNames(), link.card) && cardInfo.version == link.card.app.version
      modifies `state, `script, `wakeUp, `params, link
      ensures Outcome(err)
      ensures err == NoError ==> Unaffected() && NamesCard(result, link.card) && LoginKeys(result, link.card)
      ensures err == NoError && recover ==> RecoverKeys(result, link.card)
    {
      hide Core, Paid, Admission, PairedSince, Connections, Trusted, Pending;
      result := map[];
      var enc, whisper;
      enc, whisper, err := ExportLoginKeys();
      if err != NoError {
        return;
      }
      result := CardNames()[EncKey := OneKey(enc)][WhisperKey := OneKey(whisper)];
      if recover {
        result, err := ExportRecoverKeys(result);
      }
    }

    method ExportLoginKeys() returns (enc: Cards.KeyPair, whisper: Cards.KeyPair, err: Err)
      requires Secure()
      modifies `state, `script, `wakeUp, `params, link
      ensures Outcome(err) && cardInfo == old(cardInfo)
      ensures err == NoError ==> Secure() && Unaffected()
      ensures err == NoError ==>
        OneKey(enc) == KeyAt(link.card, ENCRYPTION_INDEXES, Cards.PrivateAndPublic) &&
        OneKey(whisper) == KeyAt(link.card, WHISPER_INDEXES, Cards.PrivateAndPublic)
    {
      hide Core, Paid, Admission, PairedSince, Connections, Trusted, Pending, Exported, Paths.Decode;
      FixedPathsExport(link.card, Cards.PrivateAndPublic);
      enc, err := ExportKey(ENCRYPTION_PATH, false);
      whisper := enc;
      if err != NoError {
        return;
      }
      whisper, err := ExportKey(WHISPER_PATH, false);
    }

    method ExportRecoverKeys(loginKeys: Status) returns (result: Status, err: Err)
      requires Secure() && cardInfo.version == link.card.app.version
      requires NamesCard(loginKeys, link.card) && LoginKeys(loginKeys, link.card)
      modifies `state, `script, `wakeUp, `params, link
      ensures Outcome(err)
      ensures err == NoError ==> Unaffected() && NamesCard(result, link.card) && RecoverKeys(result, link.card)
    {
      hide Core, Paid, Admission, PairedSince, Connections, Trusted, Pending;
      result := loginKeys;
      var eip1581, root, wallet, master;
      eip1581, root, err := ExportRoots();
      if err != NoError {
        return;
      }
      wallet, master, err := ExportWalletAndMaster();
      result := result
        [EIP1581Key := OneKey(eip1581)]
        [WalletRootKey := OneKey(root)]
        [WalletKey := OneKey(wallet)]
        [MasterKey := OneKey(master)];
    }

    method ExportRoots() returns (eip1581: Cards.KeyPair, root: Cards.KeyPair, err: Err)
      requires Secure() && cardInfo.version == link.card.app.version
      modifies `state, `script, `wakeUp, `params, link
      ensures Outcome(err) && cardInfo == old(cardInfo)
      ensures err == NoError ==> Secure() && Unaffected()
      ensures err == NoError ==>
        OneKey(eip1581) == KeyAt(link.card, EIP1581_INDEXES[..2], Cards.PublicOnly) &&
        OneKey(root) == KeyAt(link.card, WALLET_ROOT_INDEXES, WalletRootKind(link.card))
    {
      hide Core, Paid, Admission, PairedSince, Connections, Trusted, Pending, Exported, Paths.Decode, KeyAt;
      FixedPathsExport(link.card, Cards.PublicOnly);
      FixedPathsExport(link.card, Cards.ExtendedPublic);
      eip1581, err := ExportKey(EIP1581_PATH, true);
      root := eip1581;
      if err == NoError {
        root, err := ExportKeyExtended(Paths.WALLET_ROOT,
                                       if cardInfo.version < 0x310 then Cards.PublicOnly else Cards.ExtendedPublic);
      }
    }

    method ExportWalletAndMaster() returns (wallet: Cards.KeyPair, master: Cards.KeyPair, err: Err)
      requires Secure()
      modifies `state, `script, `wakeUp, `params, link
      ensures Outcome(err) && cardInfo == old(cardInfo)
      ensures err == NoError ==> Secure() && Unaffected()
      ensures err == NoError ==>
        OneKey(wallet) == KeyAt(link.card, WALLET_INDEXES, Cards.PublicOnly) &&
        OneKey(master) == KeyAt(link.card, MASTER_INDEXES, Cards.PublicOnly)
    {
      hide Core, Paid, Admission, PairedSince, Connections, Trusted, Pending, Exported, Paths.Decode;
      FixedPathsExport(link.card, Cards.PublicOnly);
      wallet, err := ExportKey(WALLET_PATH, true);
      master := wallet;
      if err == NoError {
        master, err := ExportKey(MASTER_PATH, true);
      }
    }

    /** The flag is not one, or the export that it asks for has failed. */
    ghost predicate MasterMissed()
      reads this, link
    {
      NotFlag(params, ExportMaster) || (IsSet(params, ExportMaster) && MasterExportFailed(link.log))
    }

    /** The master key's address; a failing export is dereferenced before its error is looked at. */
    method ExportMasterAddress() returns (master: Option<Cards.KeyPair>, err: Err)
      requires Secure()
      modifies `state, `script, `wakeUp, `params, link
      ensures Outcome(err, MasterMissed()) && cardInfo == old(cardInfo) && params == old(params)
      ensures err == if MasterMissed() then Crashed else NoError
      ensures err == NoError ==> Secure() && Unaffected()
      ensures err == NoError ==> master.Some? == IsSet(params, ExportMaster)
      ensures err == NoError && master.Some? ==>
        OneKey(master.value) == Exported(link.card, MASTER_PATH, Cards.PublicOnly)
    {
      hide Core, Paid, Admission, PairedSince, Connections, Trusted, Pending;
      master := None;
      if ExportMaster in params {
        if !params[ExportMaster].Flag? {
          return None, Crashed;
        }
        if params[ExportMaster].flag {
          MasterPathIsRead();
          var key;
          key, err := ExportKey(MASTER_PATH, true);
          if err != NoError {
            err := Crashed;
          }
          return Some(key), err;
        }
      }
      err := NoError;
    }

    method ExportPublicFlow() returns (result: Status, err: Err)
      requires Chosen()
      modifies `state, `script, `wakeUp, `params, `cardInfo, link, pairings
      ensures Delivers(ExportPublic, result, err)
    {
      hide Core, Paid, Admission, PairedSince, Connections, Trusted, Pending, RequestedKeys;
      result := map[];
      err := OpenWithKeys();
      if err == NoError {
        result, err := CollectPublicKeys();
      }
    }

    method CollectPublicKeys() returns (result: Status, err: Err)
      requires Secure() && NamesCard(CardNames(), link.card)
      modifies `state, `script, `wakeUp, `params, link
      ensures Outcome(err, MasterMissed() || BadPaths(params))
      ensures err == NoError ==>
        && Unaffected() && NamesCard(result, link.card) && ErrorKey !in result
        && ExportedKey in result && RequestedKeys(params, result[ExportedKey], link.card)
        && (MasterAddr in result ==> result[MasterAddr] == Exported(link.card, MASTER_PATH, Cards.PublicOnly))
    {
      hide Core, Paid, Admission, PairedSince, Connections, Trusted, Pending, RequestedKeys;
      result := CardNames();
      var master;
      master, err := ExportMasterAddress();
      if err != NoError {
        return;
      }
      if master.Some? {
        result := result[MasterAddr := OneKey(master.value)];
      }
      var exported;
      exported, err := ExportBIP44Key();
      if err == NoError {
        result := result[ExportedKey := exported];
      }
    }

    /** Opens the channel for loading a seed. */
    method OpenToLoad() returns (err: Err)
      requires Chosen()
      modifies `state, `script, `wakeUp, `params, `cardInfo, link, pairings
      ensures Outcome(err, BadSecrets(params) || BadPairing(params) || NotFlag(params, Overwrite))
      ensures err == NoError ==> Secure() && MayLoad()
    {
      hide Core, Paid, Admission, PairedSince, Connections, Trusted, Pending, BadSecrets, BadPairing, NotFlag;
      err := RequireNoKeys();
      if err == NoError {
        err := OpenSCAndAuthenticate(false);
      }
    }

    method LoadKeysFlow() returns (result: Status, err: Err)
      requires Chosen()
      modifies `state, `script, `wakeUp, `params, `cardInfo, link, pairings
      ensures Delivers(LoadAccount, result, err)
    {
      hide Core, Paid, Admission, PairedSince, Connections, Trusted, Pending, BadSecrets, BadPairing;
      result := map[];
      err := OpenToLoad();
      if err != NoError {
        return;
      }
      err := LoadKeys();
      if err == NoError {
        NamesAreTrue();
      }
      result := CardNames();
    }

    method SignFlow() returns (result: Status, err: Err)
      requires Chosen()
      modifies `state, `script, `wakeUp, `params, `cardInfo, link, pairings
      ensures Delivers(FlowType.Sign, result, err)
    {
      hide Core, Paid, Admission, PairedSince, Connections, Trusted, Pending, RequestedKeys;
      result := map[];
      err := OpenWithKeys();
      if err != NoError {
        return;
      }
      var signature;
      signature, err := SignHash();
      result := CardNames()[TXSignature := Sig(signature)];
    }

    method ChangePINFlow() returns (result: Status, err: Err)
      requires Chosen()
      modifies `state, `script, `wakeUp, `params, `cardInfo, link, pairings
      ensures Delivers(ChangePIN, result, err)
    {
      hide Core, Paid, Admission, PairedSince, Connections, Trusted, Pending;
      result := map[];
      err := OpenSCAndAuthenticate(false);
      if err != NoError {
        return;
      }
      NamesAreTrue();
      err := ChangePin();
      result := CardNames();
    }

    method ChangePUKFlow() returns (result: Status, err: Err)
      requires Chosen()
      modifies `state, `script, `wakeUp, `params, `cardInfo, link, pairings
      ensures Delivers(ChangePUK, result, err)
    {
      hide Core, Paid, Admission, PairedSince, Connections, Trusted, Pending, RequestedKeys;
      result := map[];
      err := OpenSCAndAuthenticate(false);
      if err != NoError {
        return;
      }
      NamesAreTrue();
      err := ChangePuk();
      result := CardNames();
    }

    method ChangePairingFlow() returns (result: Status, err: Err)
      requires Chosen()
      modifies `state, `script, `wakeUp, `params, `cardInfo, link, pairings
      ensures Delivers(FlowType.ChangePairing, result, err)
    {
      hide Core, Paid, Admission, PairedSince, Connections, Trusted, Pending;
      result := map[];
      err := OpenSCAndAuthenticate(false);
      if err != NoError {
        return;
      }
      NamesAreTrue();
      err := ChangePairingPass();
      result := CardNames();
    }

    method UnpairThisFlow() returns (result: Status, err: Err)
      requires Chosen()
      modifies `state, `script, `wakeUp, `params, `cardInfo, link, pairings
      ensures Delivers(UnpairThis, result, err)
    {
      hide Core, Paid, Admission, PairedSince, Connections, Trusted, Pending;
      result := map[];
      err := OpenSCAndAuthenticate(true);
      if err != NoError {
        return;
      }
      NamesAreTrue();
      err := UnpairCurrent();
      result := CardNames()[FreeSlots := Number(cardInfo.freeSlots)];
    }

    method UnpairOthersFlow() returns (result: Status, err: Err)
      requires Chosen()
      modifies `state, `script, `wakeUp, `params, `cardInfo, link, pairings
      ensures Delivers(UnpairOthers, result, err)
    {
      hide Core, Paid, Admission, PairedSince, Connections, Trusted, Pending;
      result := map[];
      err := OpenSCAndAuthenticate(true);
      if err != NoError {
        return;
      }
      NamesAreTrue();
      err := UnpairAllOthers();
      result := CardNames()[FreeSlots := Number(cardInfo.freeSlots)];
    }

    /** Afterwards the current slot is occupied and every other slot is free. */
    method UnpairAllOthers() returns (err: Err)
      requires Secure()
      modifies `state, `script, `wakeUp, `params, link
      ensures Ends(err) && cardInfo == old(cardInfo)
      ensures err == NoError ==>
        link.card.app == old(link.card.app).(pairings := link.card.app.pairings) && link.card.channel.Some? &&
        forall i :: i in link.card.app.pairings <==> i == link.card.channel.value
    {
      hide Core, Paid, Admission, PairedSince, Connections, Trusted, Pending;
      err := NoError;
      for i := 0 to Cards.MAX_FREE_SLOTS
        invariant err == NoError && Fuel() <= old(Fuel()) && cardInfo == old(cardInfo)
        invariant Connections(link.log) == old(Connections(link.log))
        invariant Core() && Paid() && Awake() && Identified()
        invariant link.alive && Admission(link.log).Some? && Bound() && link.card.authenticated
        invariant link.card == old(link.card).(app := old(link.card.app).(pairings := link.card.app.pairings))
        invariant forall j :: 0 <= j < i && j != link.card.channel.value ==> j !in link.card.app.pairings
      {
        if i == link.pairing.value.index {
          continue;
        }
        err := UnpairSlot(i);
        if err != NoError {
          return;
        }
      }
      NamesAreTrue();
    }

    method DeleteUnpairFlow() returns (result: Status, err: Err)
      requires Chosen()
      modifies `state, `script, `wakeUp, `params, `cardInfo, link, pairings
      ensures Delivers(DeleteAccountAndUnpair, result, err)
    {
      hide Core, Paid, Admission, PairedSince, Connections, Trusted, Pending, RequestedKeys;
      result := map[];
      err := OpenSCAndAuthenticate(true);
      if err != NoError {
        return;
      }
      NamesAreTrue();
      err := RemoveAndUnpair();
      result := CardNames()[FreeSlots := Number(cardInfo.freeSlots)];
    }

    method RemoveAndUnpair() returns (err: Err)
      requires Secure()
      modifies `state, `script, `wakeUp, `params, `cardInfo, link
      ensures Ends(err)
      ensures err == NoError ==>
        && cardInfo == old(cardInfo).(keyUID := "", freeSlots := old(cardInfo.freeSlots) + 1)
        && link.card.app.Free() == old(link.card.app.Free()) + 1
        && link.card.app == old(link.card.app).(keyUID := "", pairings := link.card.app.pairings)
    {
      hide Core, Paid, Admission, PairedSince, Connections, Trusted, Pending;
      err := RemoveKey();
      if err == NoError {
        err := UnpairCurrent();
      }
    }

    method StoreMetadataFlow() returns (result: Status, err: Err)
      requires Chosen()
      modifies `state, `script, `wakeUp, `params, `cardInfo, link, pairings
      ensures Delivers(StoreMetadata, result, err)
    {
      hide Core, Paid, Admission, PairedSince, Connections, Trusted, Pending;
      result := map[];
      err := OpenSCAndAuthenticate(false);
      if err != NoError {
        return;
      }
      NamesAreTrue();
      err := SetMetadata();
      result := CardNames();
    }

    method GetMetadataFlow() returns (result: Status, err: Err)
      requires Chosen()
      modifies `state, `script, `wakeUp, `params, `cardInfo, link, pairings
      ensures Delivers(GetMetadata, result, err)
    {
      hide Core, Paid, Admission, PairedSince, Connections, Trusted, Pending, Metadatas.ParseMetadata;
      result := map[];
      var m;
      m, err := ReadMetadata();
      if err == NoError {
        result, err := ReportMetadata(m.name, Unresolved(m.wallets));
      }
    }

    /** The metadata was read from the card; its wallets are resolved if that is asked for. */
    method ReportMetadata(name: string, unresolved: seq<Wallet>) returns (result: Status, err: Err)
      requires Chosen()
      requires var stored := Metadatas.ParseMetadata(link.card.app.data);
        && stored.Ok? && name == Hex.Text(stored.value.name) && |unresolved| == |stored.value.paths|
        && forall i :: 0 <= i < |unresolved| ==>
             unresolved[i] == Wallet(Paths.WalletPath(stored.value.paths[i]), None)
      modifies `state, `script, `wakeUp, `params, `cardInfo, link, pairings
      ensures Delivers(GetMetadata, result, err)
    {
      hide Core, Paid, Admission, PairedSince, Connections, Trusted, Pending, Metadatas.ParseMetadata, Told;
      hide Paths.WalletPath;
      NamesAreTrue();
      result := CardNames();
      var wallets := unresolved;
      if ResolveAddr in params && !params[ResolveAddr].Flag? {
        return result, Crashed;
      }
      if IsSet(params, ResolveAddr) {
        if cardInfo.keyUID == "" {
          result := result[ErrorKey := Text(ERROR_NO_KEYS)][CardMeta := Meta(name, wallets)];
          return result, NoError;
        }
        result, wallets, err := ResolveMetadata(wallets);
        if err != NoError {
          return;
        }
        ReadWalletsResolveToChildren(wallets, link.card);
      }
      return result[CardMeta := Meta(name, wallets)], NoError;
    }

    /** The part of the metadata flow that needs the PIN. */
    method ResolveMetadata(wallets: seq<Wallet>) returns (result: Status, resolved: seq<Wallet>, err: Err)
      requires Chosen() && cardInfo.keyUID != ""
      modifies `state, `script, `wakeUp, `params, `cardInfo, link, pairings
      ensures Ends(err, BadSecrets(params) || BadPairing(params) || MasterMissed())
      ensures err == NoError ==>
        NamesCard(result, link.card) && TruthfulIdentity(result, link.card) && ErrorKey !in result &&
        link.card.app.data == old(link.card.app.data) &&
        |resolved| == |wallets| && Resolved(resolved, |resolved|, link.card) &&
        forall i :: 0 <= i < |wallets| ==> resolved[i].path == wallets[i].path
    {
      hide Core, Paid, Admission, PairedSince, Connections, Trusted, Pending;
      result, resolved := map[], wallets;
      err := OpenSCAndAuthenticate(false);
      if err != NoError {
        return;
      }
      NamesAreTrue();
      result := CardNames();
      var master;
      master, err := ExportMasterAddress();
      if err != NoError {
        return;
      }
      if master.Some? {
        result := result[MasterAddr := OneKey(master.value)];
      }
      resolved, err := ResolveWallets(wallets);
    }

    function Unresolved(paths: seq<string>): seq<Wallet> {
      seq(|paths|, i requires 0 <= i < |paths| => Wallet(paths[i], None))
    }

    /** Exports the public key of every wallet into the list. */
    method ResolveWallets(wallets: seq<Wallet>) returns (resolved: seq<Wallet>, err: Err)
      requires Secure()
      modifies `state, `script, `wakeUp, `params, link
      ensures Outcome(err)
      ensures err == NoError ==>
        Unaffected() && |resolved| == |wallets| && Resolved(resolved, |resolved|, link.card) &&
        forall i :: 0 <= i < |wallets| ==> resolved[i].path == wallets[i].path
    {
      hide Core, Paid, Admission, PairedSince, Connections, Trusted, Pending;
      resolved := wallets;
      for i := 0 to |wallets|
        invariant Secure() && Unaffected() && Fuel() <= old(Fuel())
        invariant |resolved| == |wallets| && forall j :: 0 <= j < |wallets| ==> resolved[j].path == wallets[j].path
        invariant Resolved(resolved, i, link.card)
      {
        var key;
        key, err := ExportKey(resolved[i].path, true);
        if err != NoError {
          return;
        }
        resolved := resolved[i := Wallet(resolved[i].path, Some(key))];
      }
      err := NoError;
    }

    // -------------------------------------------------------------------------------------------
    // Runs
    // -------------------------------------------------------------------------------------------

    /** A freshly connected card of which nothing is known yet. */
    ghost predicate Fresh()
      reads this, link
    {
      && Core() && Paid() && Awake() && link.alive && cardInfo == UNKNOWN
      && link.card.channel == None && PairedSince(link.log) == 0 && Admission(link.log) == None
    }

    method SendReset() returns (r: Cards.Reply)
      requires Core() && Paid() && Awake() && link.alive && Admission(link.log) == None
      modifies `state, `script, `wakeUp, `params, link
      ensures Core() && Paid() && Awake() && params == old(params) && |script| <= |old(script)|
      ensures link.faults <= old(link.faults) && (r.Fault? ==> link.faults < old(link.faults))
      ensures r.Success? ==> link.card.app.installed && link.card.app.IsBlank()
      ensures Connections(link.log) == old(Connections(link.log))
    {
      Preempt();
      ghost var h := link.log;
      r := link.FactoryReset(true);
      Links.ResettingIsLawful(h, link.log);
      Links.ResettingKeepsLaws(knownCA, h, link.log);
    }

    method ResetCard() returns (err: Err)
      requires Fresh() && IsSet(params, FactoryReset)
      modifies `state, `script, `wakeUp, `params, link
      ensures Ends(err) && err != NoError
      ensures !IsSet(params, FactoryReset) ==> err == Restart && link.card.app.installed && link.card.app.IsBlank()
    {
      var r := SendReset();
      match r {
        case Success(_) =>
          Drop(FactoryReset);
          return Restart;
        case Fault => return Restart;
        case _ => return Failure("factory reset");
      }
    }

    method SelectKeycard() returns (err: Err)
      requires Fresh()
      modifies `state, `script, `wakeUp, `params, `cardInfo, link
      ensures Ends(err)
      ensures err == NoError ==> Chosen()
    {
      hide Core, Paid, Admission, PairedSince, Connections, Trusted, Pending, LawfulCommand, Accounted;
      MaySend(Cards.Select);
      var r := Exec(Cards.Select);
      if !r.Success? {
        return Restart;
      }
      var info := r.data.info;
      Cards.FreeIsNatural(link.card.app);
      Learn(cardInfo.(instanceUID := info.instanceUID, keyUID := info.keyUID,
                      freeSlots := info.freeSlots, version := info.version));
      err := AdmitCard(info);
    }

    /** The checks on a selected card: is it a Keycard, and is it the one asked for? */
    method AdmitCard(info: Cards.AppInfo) returns (err: Err)
      requires Core() && Paid() && Awake() && Cached() && link.alive && cardInfo.freeSlots != -1
      requires link.card.channel == None && PairedSince(link.log) == 0
      requires info == link.card.app.Selected() && link.appInfo == info
      modifies `state, `script, `wakeUp, `params, link`log
      ensures Ends(err)
      ensures err == NoError ==> Chosen()
    {
      if !info.installed {
        err := PauseAndRestart(SwapCard, ERROR_NOT_A_KEYCARD);
        return;
      }
      if InstanceUID in params && params[InstanceUID] != Text(info.instanceUID) {
        err := PauseAndRestart(SwapCard, "instance-uid");
        return;
      }
      if KeyUID in params && params[KeyUID] != Text(info.keyUID) {
        err := PauseAndRestart(SwapCard, "key-uid");
        return;
      }
      Admit(info);
      return NoError;
    }

    method Admit(info: Cards.AppInfo)
      requires Core() && Paid() && Awake() && Cached() && link.alive && cardInfo.freeSlots != -1
      requires link.card.channel == None && PairedSince(link.log) == 0
      requires info == link.card.app.Selected() && link.appInfo == info && MeetsConstraints(info, params)
      modifies link`log
      ensures Chosen() && Fuel() == old(Fuel()) && Connections(link.log) == old(Connections(link.log))
    {
      EventIsFree(link.log, params, Admitted(link.card, params));
      link.Note(Admitted(link.card, params));
    }

    /** Between connections the run is paused only while it waits for a card. */
    ghost predicate Steady()
      reads this, link
    {
      state != Idle && (state == Paused ==> AwaitingCard(link.log))
    }

    /** A card is found; the client is told if it was asked for one. */
    method CardArrives()
      requires Core() && Paid() && Steady() && cardInfo == UNKNOWN
      modifies `state, link
      ensures Fresh() && Fuel() == old(Fuel()) && Connections(link.log) == old(Connections(link.log)) + 1
      ensures state == if old(state) == Paused then Running else old(state)
      ensures link.log.Then? && link.log.last.Signalled? == (old(state) == Paused) && link.faults == old(link.faults)
    {
      EventIsFree(link.log, params, Connected);
      link.Connect();
      if state == Paused {
        state := Running;
        EventIsFree(link.log, params, Signalled(CardInserted, map[], link.card));
        link.Note(Signalled(CardInserted, map[], link.card));
      }
    }

    function Racing(timer: bool): Races.Race
      reads this
    {
      Races.Race(state, wakeUp, timer)
    }

    /** How far the race has come, or how it has ended. */
    ghost function RaceOutcome(err: Err, timer: bool): Races.Outcome
      reads this, link
    {
      match err
      case NoError =>
        Races.Found(state, wakeUp, link.log.Then? && link.log.last.Signalled?)
      case GiveUp => Races.GaveUp
      case Crashed => Races.Panicked
      case _ => Races.On(Racing(timer))
    }

    /** The moves of a race so far: the calls made, the failures spent, and where they have led. */
    twostate predicate Raced(moves: seq<Races.Move>, err: Err, timer: bool)
      reads this, link
    {
      && Races.Follow(old(Racing(true)), moves) == Some(RaceOutcome(err, timer))
      && CallsOf(old(script)) == Races.Spoken(moves) + CallsOf(script)
      && old(link.faults) == Races.Errors(moves) + link.faults
    }

    /** The client makes a call while the run waits for a card. */
    method ClientRaces(fired: bool) returns (ghost move: Races.Move)
      requires Core() && Paid() && Steady() && !wakeUp
      requires script != [] && (script[0].Resuming? ==> state == Paused)
      modifies `state, `script, `wakeUp, `params, link`log
      ensures Core() && Paid() && Steady() && SameCard() && |script| < |old(script)|
      ensures Races.Next(old(Racing(!fired)), move) == Some(Races.On(Racing(!fired)))
      ensures move.Client? && CallsOf(old(script)) == [move.call] + CallsOf(script)
    {
      hide CancelPending, Accounted, ChannelOpen, Verified, Connections;
      move := Races.Client(CallOf(script[0]));
      ClientActs();
    }

    /** The token on offer is taken; resuming is not expected during connection. */
    method TakeToken() returns (err: Err)
      requires Core() && Paid() && Steady() && wakeUp
      modifies `wakeUp
      ensures Core() && Paid() && SameCard() && Settled() && !wakeUp && Fuel() == old(Fuel()) && Intruded(link.log)
      ensures err == if state == RunState.Cancelling then GiveUp else Crashed
    {
      wakeUp := false;
      return if state == RunState.Cancelling then GiveUp else Crashed;
    }

    method AskForCard()
      requires Core() && Paid()
      modifies `state, link`log
      ensures Core() && Paid() && Steady() && SameCard() && state == Paused && Fuel() == old(Fuel())
    {
      Pause(InsertCard, ERROR_CONNECTION, map[]);
    }

    method FailReader()
      requires Core() && Paid() && Steady() && link.faults > 0
      modifies link`faults
      ensures Core() && Paid() && Steady() && Settled() && Fuel() < old(Fuel()) && link.faults == old(link.faults) - 1
    {
      link.faults := link.faults - 1;
    }

    /** What may happen while the run waits for a card; `over` when that ends this attempt. */
    method RaceGoesOn(fired: bool) returns (over: bool, err: Err, fires: bool, ghost move: Races.Move)
      requires Core() && Paid() && Steady() && cardInfo == UNKNOWN
      modifies `state, `script, `wakeUp, `params, link
      ensures Core() && Paid() && Fuel() <= old(Fuel()) && cardInfo == UNKNOWN
      ensures Connections(link.log) == old(Connections(link.log)) + Count(over && err == NoError)
      ensures over && err == NoError ==> Fresh()
      ensures (over && err != Restart) || Steady()
      ensures over ==> Settled() && (err == Restart ==> Fuel() < old(Fuel())) && (err == Crashed ==> Intruded(link.log))
      ensures over ==> err == NoError || err == Restart || err == GiveUp || err == Crashed
      ensures old(script == [] && !wakeUp) ==>
        script == [] && !wakeUp && params == old(params) && (over ==> err != Crashed)
      ensures !over ==> |script| < |old(script)| || (script == old(script) && wakeUp == old(wakeUp) && fires)
      ensures fires <==> !fired && move.Timer?
      ensures Races.Next(old(Racing(!fired)), move) ==
        Some(if over then RaceOutcome(err, true) else Races.On(Racing(!fired && !fires)))
      ensures CallsOf(old(script)) == (if move.Client? then [move.call] else []) + CallsOf(script)
      ensures old(link.faults) == Races.Cost(move) + link.faults
    {
      hide Core, Paid, Connections, IsAdmitted, Lawful, RunPhase;
      over, err, fires := true, NoError, false;
      var clientFirst, tokenFirst, timerFirst, readerFails := *, *, *, *;
      if clientFirst && !wakeUp && script != [] && (script[0].Cancelling? || state == Paused) {
        over := false;
        move := ClientRaces(fired);
      } else if tokenFirst && wakeUp {
        move := Races.TakeToken;
        err := TakeToken();
      } else if timerFirst && !fired {
        over, fires := false, true;
        move := Races.Timer;
        AskForCard();
      } else if readerFails && link.faults > 0 {
        FailReader();
        move := Races.ReaderError;
        err := Restart;
      } else {
        CardArrives();
        move := Races.CardFound;
      }
    }

    /** Waits for a card.  The timer, the client and the reader race; whoever comes first is chosen freely. */
    method Connect() returns (err: Err, ghost moves: seq<Races.Move>, ghost timer: bool)
      requires Core() && Paid() && Steady() && cardInfo == UNKNOWN
      modifies `state, `script, `wakeUp, `params, link
      ensures Core() && Paid() && Fuel() <= old(Fuel()) && cardInfo == UNKNOWN
      ensures Connections(link.log) == old(Connections(link.log)) + Count(err == NoError)
      ensures err == NoError ==> Fresh()
      ensures err == Restart ==> Steady() && Fuel() < old(Fuel())
      ensures if err == Suspended then Waits() else Settled()
      ensures err == Crashed ==> Intruded(link.log)
      ensures err.Failure? ==> err.message != ERROR_OK
      ensures old(script == [] && !wakeUp) ==> script == [] && !wakeUp && params == old(params) && err != Crashed
      ensures (err == Restart ==> timer) && Raced(moves, err, timer)
    {
      hide Fresh, CallsOf;
      hide Core, Paid, CancelPending, Accounted, ChannelOpen, Verified, Connections, Told, Races.Follow;
      hide Races.Spoken, Races.Errors, Races.Next, Lawful, RunPhase, Intruded;
      moves, timer := [], true;
      NothingHappened(Racing(true), script);
      var established := *;
      if !established {
        return Failure("no-pcsc"), moves, timer;
      }
      var fired := false;
      while true
        invariant Core() && Paid() && Steady() && Fuel() <= old(Fuel()) && cardInfo == UNKNOWN
        invariant Connections(link.log) == old(Connections(link.log))
        invariant old(script == [] && !wakeUp) ==> script == [] && !wakeUp && params == old(params)
        invariant Raced(moves, Suspended, !fired)
        decreases |script|, if wakeUp then 0 else 1, if fired then 0 else 1
      {
        var noCardComes := *;
        if noCardComes && fired && state == Paused && !wakeUp {
          return Suspended, moves, false;
        }
        var over, fires;
        ghost var move;
        over, err, fires, move := RaceGoesOn(fired);
        moves := OneMore(old(Racing(true)), moves, move);
        if over {
          return;
        }
        fired := fired || fires;
      }
    }

    /** A client that says nothing more has entered something else than a truth value under FactoryReset. */
    ghost predicate Hopeless()
      reads this
    {
      script == [] && !wakeUp && NotFlag(params, FactoryReset)
    }

    /** One connection of a run. */
    method ConnectedFlow() returns (result: Status, err: Err)
      requires Core() && Paid() && Steady() && cardInfo == UNKNOWN
      modifies `state, `script, `wakeUp, `params, `cardInfo, link, pairings
      ensures Core() && Paid() && Fuel() <= old(Fuel())
      ensures err != Restart ==> Identified()
      ensures Connections(link.log) <= old(Connections(link.log)) + 1
      ensures err == Restart ==> Steady() && Fuel() < old(Fuel())
      ensures if err == Suspended then Waits() else Settled()
      ensures err == Crashed ==> Mistaken(flowType) || Intruded(link.log)
      ensures err.Failure? ==> err.message != ERROR_OK
      ensures err == NoError ==>
        TruthfulIdentity(result, link.card) &&
        (Failed(result) || Accomplished(flowType, params, result, link.card))
      ensures old(Hopeless()) ==>
        (err == Restart ==> Hopeless() && Connections(link.log) == old(Connections(link.log))) &&
        (err == Crashed <==> Connections(link.log) > old(Connections(link.log)))
    {
      hide Accounted, ChannelOpen, Verified, LoginKeys, RecoverKeys, RequestedKeys, SignedAsAsked, RequestedMetadata;
      hide ReportedMetadata;
      result := map[];
      ghost var moves, timer;
      err, moves, timer := Connect();
      if err != NoError {
        return;
      }
      if FactoryReset in params && !params[FactoryReset].Flag? {
        return result, Crashed;
      }
      if IsSet(params, FactoryReset) {
        err := ResetCard();
        return;
      }
      err := SelectKeycard();
      if err == NoError {
        result, err := ChosenFlow();
      }
    }

    method ChosenFlow() returns (result: Status, err: Err)
      requires Chosen()
      modifies `state, `script, `wakeUp, `params, `cardInfo, link, pairings
      ensures Delivers(flowType, result, err)
    {
      match flowType {
        case GetAppInfo => result, err := GetAppInfoFlow();
        case RecoverAccount => result, err := ExportKeysFlow(true);
        case Login => result, err := ExportKeysFlow(false);
        case ExportPublic => result, err := ExportPublicFlow();
        case LoadAccount => result, err := LoadKeysFlow();
        case Sign => result, err := SignFlow();
        case ChangePIN => result, err := ChangePINFlow();
        case ChangePUK => result, err := ChangePUKFlow();
        case ChangePairing => result, err := ChangePairingFlow();
        case UnpairThis => result, err := UnpairThisFlow();
        case UnpairOthers => result, err := UnpairOthersFlow();
        case DeleteAccountAndUnpair => result, err := DeleteUnpairFlow();
        case StoreMetadata => result, err := StoreMetadataFlow();
        case GetMetadata => result, err := GetMetadataFlow();
        case UnknownFlow => result, err := map[], Failure(ERROR_UNKNOWN_FLOW);
      }
    }

    function ErrorText(err: Err): string {
      match err
      case Failure(message) => message
      case Inauthentic => "authenticity"
      case _ => "giveup"
    }

    /** The result of a run that failed: the error, and the card if one was selected. */
    function ErrorResult(err: Err): Status
      reads this
    {
      var status: Status := map[ErrorKey := Text(ErrorText(err))];
      if cardInfo.freeSlots == -1 then status else
        status[InstanceUID := Text(cardInfo.instanceUID)][KeyUID := Text(cardInfo.keyUID)]
    }

    /**
      A whole run.  It always comes to an end: finished and idle, waiting for the user, or in a panic; and it
      makes at most one connection more than the fuel it started with.
     */
    method RunFlow() returns (end: RunEnd)
      requires Core() && Paid() && state == Running
      modifies `state, `script, `wakeUp, `params, `cardInfo, link, pairings
      ensures link.Valid() && Lawful(knownCA, link.log) && Paid()
      ensures Connections(link.log) <= old(Connections(link.log)) + old(Fuel()) + 1
      ensures end == Finished ==> state == Idle && RunPhase(link.log) == Quiet && params == map[]
      ensures end != Finished ==> state != Idle && RunPhase(link.log) == Live
      ensures end == Waiting ==> Waits()
      ensures end == Panicked ==> Provoked(flowType, link.log)
      ensures old(Hopeless()) ==> (end == Panicked <==> Connections(link.log) > old(Connections(link.log)))
      ensures wakeUp ==> Intruded(link.log)
    {
      hide IsAdmitted, Admission, Lawful, RunPhase;
      var result: Status := map[];
      var err := Restart;
      while err == Restart
        invariant Core() && Paid()
        invariant err == Restart ==>
          Steady() && Connections(link.log) + Fuel() <= old(Connections(link.log)) + old(Fuel())
        invariant err != Restart ==>
          Identified() && Connections(link.log) <= old(Connections(link.log)) + old(Fuel()) + 1
        invariant err == Restart || (if err == Suspended then Waits() else Settled())
        invariant err == Crashed ==> Mistaken(flowType) || Intruded(link.log)
        invariant old(Hopeless()) ==>
          (err == Restart ==> Hopeless() && Connections(link.log) == old(Connections(link.log))) &&
          (err == Crashed <==> Connections(link.log) > old(Connections(link.log)))
        invariant err.Failure? ==> err.message != ERROR_OK
        invariant err == NoError ==>
          TruthfulIdentity(result, link.card) &&
          (Failed(result) || Accomplished(flowType, params, result, link.card))
        decreases if err == Restart then 1 else 0, Fuel()
      {
        cardInfo := UNKNOWN;
        result, err := ConnectedFlow();
      }
      if err == Suspended {
        return Waiting;
      }
      if err == Crashed {
        MistakesAreEntered(flowType, link.log, params);
        return Panicked;
      }
      if err != NoError {
        result := ErrorResult(err);
      }
      Conclude(result);
      return Finished;
    }

    /** Idle exactly between runs, with no secret kept. */
    ghost predicate AtRest()
      reads this, link
    {
      && link.Valid() && Lawful(knownCA, link.log) && Paid()
      && state == Idle && RunPhase(link.log) == Quiet && params == map[]
    }

    method Announce(result: Status)
      requires Core() && Paid() && state != RunState.Cancelling && TruthfulIdentity(result, link.card)
      requires Failed(result) || Accomplished(flowType, params, result, link.card)
      modifies link`log
      ensures link.Valid() && Lawful(knownCA, link.log) && Paid() && RunPhase(link.log) == Concluded
      ensures link.log == Then(old(link.log), Published(flowType, params, result, link.card))
    {
      hide ChannelOpen, Verified, Accounted, Accomplished;
      EventIsFree(link.log, params, Published(flowType, params, result, link.card));
      link.Note(Published(flowType, params, result, link.card));
    }

    /** The run is over: its parameters are forgotten. */
    method Rest()
      requires link.Valid() && Lawful(knownCA, link.log) && Paid() && RunPhase(link.log) != Quiet
      modifies `state, `params, link`log
      ensures AtRest() && link.log == Then(old(link.log), Ended) && Fuel() <= old(Fuel())
    {
      hide ChannelOpen, Verified, Accounted;
      EventIsFree(link.log, params, Ended);
      link.Note(Ended);
      ForgettingIsFree(link.log, params);
      params := map[];
      state := Idle;
    }

    /** Publishes the result unless the run was cancelled, and goes back to idle. */
    method Conclude(result: Status)
      requires Core() && Paid() && Settled() && TruthfulIdentity(result, link.card)
      requires Failed(result) || Accomplished(flowType, params, result, link.card)
      modifies `state, `script, `wakeUp, `params, link`log
      ensures link.Valid() && Lawful(knownCA, link.log) && Paid() && Fuel() <= old(Fuel())
      ensures Connections(link.log) == old(Connections(link.log))
      ensures state == Idle && RunPhase(link.log) == Quiet && params == map[]
      ensures link.log.Then? && link.log.last == Ended && (wakeUp ==> Intruded(link.log))
      ensures
        || (link.log.past == old(link.log) && old(state) == RunState.Cancelling)
        || link.log.past == Then(old(link.log), CancelRequested)
        || (link.log.past == Then(old(link.log), Published(flowType, old(params), result, link.card)) &&
            old(state) != RunState.Cancelling)
    {
      hide ChannelOpen, Verified, Accounted, Accomplished, Lawful;
      Preempt();
      if state != RunState.Cancelling {
        Announce(result);
      }
      Rest();
    }

    method Start(flow: FlowType, newParams: Params) returns (accepted: bool)
      requires !wakeUp && (state == Idle ==> AtRest())
      modifies `flowType, `state, `params, link`log
      ensures accepted <==> old(state) == Idle
      ensures !accepted ==> unchanged(this) && unchanged(link)
      ensures accepted ==>
        Core() && Paid() && state == Running && flowType == flow && params == newParams &&
        link.log == Then(old(link.log), Started(flow, newParams))
    {
      if state != Idle {
        return false;
      }
      StartIsPaidFor(link.log, flow, newParams);
      flowType, params, state := flow, newParams, Running;
      link.Note(Started(flow, newParams));
      return true;
    }

    /**
      Any number of runs, one after the other, as long as the client gets its turn again: a client whose wake-up token
      nobody takes is blocked in that call.
     */
    method Serve(requests: seq<(FlowType, Params)>) returns (served: nat, end: RunEnd)
      requires AtRest() && !wakeUp
      modifies this, link, pairings
      ensures link.Valid() && Lawful(knownCA, link.log)
      ensures served <= |requests| && (state == Idle <==> RunPhase(link.log) == Quiet)
      ensures match end
        case Finished => AtRest() && (if wakeUp then Intruded(link.log) else served == |requests|)
        case Waiting => Waits()
        case Panicked => state != Idle && Provoked(flowType, link.log)
      ensures FlowLaws.Results(link.log) <= FlowLaws.Starts(link.log)
      ensures forall secret ::
        && RejectedPins(link.log, secret) <= SuppliedPins(link.log, secret)
        && RejectedPuks(link.log, secret) <= SuppliedPuks(link.log, secret)
    {
      served, end := 0, Finished;
      for i := 0 to |requests|
        invariant AtRest() && !wakeUp && served == i && end == Finished
      {
        var _ := Start(requests[i].0, requests[i].1);
        end := RunFlow();
        if end != Finished || wakeUp {
          break;
        }
        served := i + 1;
      }
      FlowLaws.OneResultPerStart(knownCA, link.log);
      forall secret
        ensures RejectedPins(link.log, secret) <= SuppliedPins(link.log, secret)
        ensures RejectedPuks(link.log, secret) <= SuppliedPuks(link.log, secret)
      {
        FlowLaws.RejectionsAreSupplied(knownCA, link.log, secret);
      }
    }
  }

  // ---------------------------------------------------------------------------------------------
  // Races
  // ---------------------------------------------------------------------------------------------

  function CallOf(action: UserAction): Races.Call {
    if action.Resuming? then Races.Resume else Races.Cancel
  }

  function CallsOf(script: seq<UserAction>): seq<Races.Call> {
    seq(|script|, i requires 0 <= i < |script| => CallOf(script[i]))
  }

  lemma NothingHappened(r: Races.Race, script: seq<UserAction>)
    ensures Races.Follow(r, []) == Some(Races.On(r)) && Races.Errors([]) == 0
    ensures CallsOf(script) == Races.Spoken([]) + CallsOf(script)
  {
  }

  lemma OneMore(r: Races.Race, moves: seq<Races.Move>, move: Races.Move) returns (more: seq<Races.Move>)
    requires Races.Follow(r, moves).Some? && Races.Follow(r, moves).value.On?
    ensures more == moves + [move] && Races.Follow(r, more) == Races.Next(Races.Follow(r, moves).value.race, move)
    ensures Races.Spoken(more) == Races.Spoken(moves) + if move.Client? then [move.call] else []
    ensures Races.Errors(more) == Races.Errors(moves) + Races.Cost(move)
  {
    more := moves + [move];
    Races.FollowOn(r, moves, move);
    Races.SpokenOn(moves, move);
    Races.ErrorsOn(moves, move);
  }

  lemma ResumeIsPaidFor(h: History, params: Params, more: Params)
    requires Accounted(h, params)
    ensures Accounted(Then(h, Resumed(more)), params + more)
  {
  }

  /** A rejected secret is paid for by giving up the parameter that held it. */
  lemma CommandAccounts(h: History, params: Params, e: Event)
    requires Accounted(h, params) && e.Sent?
    ensures !RejectsPin(e) && !RejectsPuk(e) ==> Accounted(Then(h, e), params)
    ensures RejectsPin(e) && Holds(params, PIN, Text(e.cmd.pin)) ==> Accounted(Then(h, e), Without(params, PIN))
    ensures RejectsPuk(e) && Holds(params, PUK, Text(e.cmd.puk)) ==> Accounted(Then(h, e), Without(params, PUK))
  {
  }

  lemma DroppingKeepsPending(params: Params, k: Key)
    requires k != FactoryReset && k != NewPIN
    ensures Pending(Without(params, k)) == Pending(params) && k !in Without(params, k)
  {
  }

  lemma DroppingIsFree(h: History, params: Params, k: Key)
    requires Accounted(h, params)
    ensures Accounted(h, Without(params, k))
    ensures Pending(Without(params, k)) <= Pending(params)
  {
  }

  /** Using a new PIN turns it into the PIN. */
  function Moved(params: Params): Params
    requires NewPIN in params
  {
    Without(params[PIN := params[NewPIN]], NewPIN)
  }

  /** The parameters after a PIN has been unblocked: the new PIN is now the current one. */
  function UnblockedParams(params: Params): Params
    requires NewPIN in params
  {
    Without(Moved(params), PUK)
  }

  lemma Unblocked(h: History, params: Params)
    requires Accounted(h, params) && NewPIN in params && params[NewPIN].Text?
    ensures var next := UnblockedParams(params);
      && Accounted(h, next) && Pending(next) < Pending(params)
      && Holds(next, PIN, params[NewPIN]) && NewPIN !in next && PUK !in next
  {
  }

  /** The parameters after a card has been initialized: the new PIN and pairing password are now the current ones. */
  function NextParams(params: Params, newPairing: Value): Params
    requires NewPIN in params
  {
    Without(Without(Moved(params), NewPUK), NewPairing)[PairingPass := newPairing]
  }

  lemma Reinitialized(h: History, params: Params, newPairing: Value)
    requires Accounted(h, params) && NewPIN in params && params[NewPIN].Text? && newPairing.Text?
    ensures var next := NextParams(params, newPairing);
      && Accounted(h, next) && Pending(next) < Pending(params)
      && Holds(next, PIN, params[NewPIN]) && Holds(next, PairingPass, newPairing)
      && NewPIN !in next && NewPUK !in next
  {
  }

  /** Events that carry no secret and reject none leave the accounts as they are. */
  lemma EventIsFree(h: History, params: Params, e: Event)
    requires Accounted(h, params) && !e.Sent? && !e.Started? && !e.Resumed?
    ensures Accounted(Then(h, e), params)
  {
  }

  lemma ForgettingIsFree(h: History, params: Params)
    requires Accounted(h, params)
    ensures Accounted(h, map[])
  {
  }

  lemma StartIsPaidFor(h: History, flow: FlowType, params: Params)
    requires Accounted(h, map[])
    ensures Accounted(Then(h, Started(flow, params)), params)
  {
  }
}
