/**
  The session of internal/keycard_context_v2.go: monitoring of readers and cards, the commands clients call, and
  the status published to them.  A client command is one step, a detection pass is one step, and a pass may also
  run at the moment a failing command hands a scan request over to the watcher.
 */
module Sessions {
  import opened Wrappers
  import opened Histories
  import Cards
  import FlowLaws
  import FlowTypes
  import Hex
  import Links
  import Metadatas
  import Pairing
  import Paths

  datatype State =
    | UnknownReaderState
    | InternalError
    | WaitingForReader
    | WaitingForCard
    | ConnectingCard
    | ConnectionError
    | NotKeycard
    | EmptyKeycard
    | NoAvailablePairingSlots
    | PairingError
    | BlockedPIN
    | BlockedPUK
    | Ready
    | Authorized
    | FactoryResetting

  datatype Status = Status(
    state: State,
    appInfo: Option<Cards.AppInfo>,
    appStatus: Option<Cards.AppStatus>,
    metadata: Option<Metadatas.Metadata>)

  function ResetTo(state: State): Status {
    Status(state, None, None, None)
  }

  /** The states in which the session has a secure channel and knows the card's counters. */
  predicate Known(state: State) {
    state == Ready || state == Authorized || state == BlockedPIN || state == BlockedPUK
  }

  /** What the documentation of the states promises about the rest of the status. */
  predicate WellFormed(s: Status) {
    && (Known(s.state) ==> s.appInfo.Some? && s.appStatus.Some?)
    && (s.state == Ready || s.state == Authorized ==>
          s.appStatus.value.pinRetries > 0 && s.appStatus.value.pukRetries > 0)
    && (s.state == BlockedPIN ==> s.appStatus.value.pinRetries == 0 && s.appStatus.value.pukRetries > 0)
    && (s.state == BlockedPUK ==> s.appStatus.value.pukRetries == 0)
    && (s.state == ConnectingCard || s.state == EmptyKeycard ==> s.appInfo.Some?)
  }

  /** States reached by a pass that leaves an earlier connection behind without closing it. */
  predicate Abandoned(state: State) {
    state == WaitingForReader || state == InternalError
  }

  /** The state that follows from the counters: a blocked PUK hides a blocked PIN. */
  function StateOf(counters: Cards.AppStatus): State {
    if counters.pukRetries == 0 then BlockedPUK
    else if counters.pinRetries == 0 then BlockedPIN
    else Ready
  }

  function Refreshed(s: Status, counters: Cards.AppStatus): Status {
    s.(state := StateOf(counters), appStatus := Some(counters))
  }

  /** The status after a PIN or PUK command: refreshed, and authorized if the command said so and nothing is blocked. */
  function AfterInteraction(s: Status, counters: Cards.AppStatus, authorized: bool): Status {
    var refreshed := Refreshed(s, counters);
    if refreshed.state == Ready && authorized then refreshed.(state := Authorized) else refreshed
  }

  /** How stored bytes are shown: nothing stored is no metadata, and what cannot be parsed is an error. */
  function Shown(data: Hex.bytes): Result<Option<Metadatas.Metadata>, Metadatas.ReadError> {
    if data == [] then Ok(None)
    else
      match Metadatas.ParseMetadata(data)
      case Ok(m) => Ok(Some(Metadatas.View(m)))
      case Err(e) => Err(e)
  }

  function CountersOf(card: Cards.Card): Cards.AppStatus {
    Cards.AppStatus(card.pinRetries, card.pukRetries, card.app.keyUID != "")
  }

  lemma StoredIsShownIff(name: string, ps: seq<Paths.uint32>)
    ensures Metadatas.NewMetadata(name, ps).Ok? ==>
      var m := Metadatas.NewMetadata(name, ps).value;
      Shown(Metadatas.Serialized(m)) ==
        if Metadatas.AllSmall(Metadatas.Runs(m.paths)) then Ok(Some(Metadatas.View(m)))
        else Err(Metadatas.InvalidLength)
  {
    Metadatas.BuiltIsReadBackIff(name, ps);
  }

  // ---------------------------------------------------------------------------------------------
  // A detection pass, as a function of the status it starts from and what it meets
  // ---------------------------------------------------------------------------------------------

  /** How an attempt to read the metadata ends. */
  datatype Reading = Got(data: Hex.bytes) | NotRead | ReaderLost

  predicate Reads(reading: Reading) {
    reading.Got? && Shown(reading.data).Ok?
  }

  datatype Seen =
    | Unlisted                                           // the readers could not be listed
    | NoReader
    | NoCard
    | NotSelected                                        // connecting to the card or selecting the applet failed
    | NotAKeycard(info: Cards.AppInfo)
    | Blank(info: Cards.AppInfo)
    | NotPaired(info: Cards.AppInfo, error: State)
    | NotOpened(info: Cards.AppInfo)
    | NoCounters(info: Cards.AppInfo)
    | Opened(info: Cards.AppInfo, counters: Cards.AppStatus, reading: Reading)

  function ReadingOf(seen: Seen): Reading {
    if seen.Opened? then seen.reading else NotRead
  }

  function AfterReading(s: Status, reading: Reading): Status {
    match reading
    case Got(data) =>
      (match Shown(data)
       case Ok(metadata) => s.(metadata := metadata)
       case Err(_) => s.(state := ConnectionError))
    case NotRead => s.(state := ConnectionError)
    case ReaderLost => s
  }

  /** Metadata is only ever replaced: a pass that does not read it keeps what the status had. */
  function AfterPass(s: Status, seen: Seen): Status {
    match seen
    case Unlisted => ResetTo(InternalError)
    case NoReader => ResetTo(WaitingForReader)
    case NoCard => ResetTo(WaitingForCard)
    case NotSelected => s.(state := ConnectionError)
    case NotAKeycard(info) => s.(appInfo := Some(info), state := NotKeycard)
    case Blank(info) => s.(appInfo := Some(info), state := EmptyKeycard)
    case NotPaired(info, error) => s.(appInfo := Some(info), state := error)
    case NotOpened(info) => s.(appInfo := Some(info), state := ConnectionError)
    case NoCounters(info) => s.(appInfo := Some(info), state := ConnectionError, appStatus := None)
    case Opened(info, counters, reading) => AfterReading(Refreshed(s.(appInfo := Some(info)), counters), reading)
  }

  /** An applet was selected, and the rest of the pass depends on what the card answers. */
  predicate Contacted(seen: Seen) {
    seen.Blank? || seen.NotPaired? || seen.NotOpened? || seen.NoCounters? || seen.Opened?
  }

  lemma ContactOverrides(s: Status, info: Cards.AppInfo, seen: Seen)
    requires Contacted(seen)
    ensures AfterPass(s.(appInfo := Some(info), state := ConnectingCard), seen) == AfterPass(s, seen)
  {
  }

  /** What a pass met is true of the card it met. */
  predicate TrueOf(seen: Seen, card: Cards.Card) {
    seen.Opened? ==>
      && seen.info == card.app.Selected() && seen.counters == CountersOf(card)
      && (seen.reading.Got? ==> seen.reading.data == card.app.data)
  }

  /** By itself a pass leaves a known state only with the metadata read. */
  lemma PassKnowsMetadata(s: Status, seen: Seen)
    requires Known(AfterPass(s, seen).state) && (seen.NotPaired? ==> !Known(seen.error))
    ensures seen.Opened? && (Reads(seen.reading) || seen.reading == ReaderLost)
  {
  }

  /**
    A pass inside a failing PIN or PUK command is followed by the refresh of that command.  The session is then in a
    known state whatever became of the metadata, and shows the card's exactly when the pass has read it, or when the
    metadata it had before happens to be the card's.
   */
  lemma HandOverShowsCardMetadataIff(s: Status, seen: Seen, card: Cards.Card, authorized: bool)
    requires TrueOf(seen, card) && (seen.Opened? || seen.NoCounters?)
    ensures var t := AfterInteraction(AfterPass(s, seen), CountersOf(card), authorized);
      Known(t.state) &&
      (Shown(card.app.data) == Ok(t.metadata) <==>
       Reads(ReadingOf(seen)) || Shown(card.app.data) == Ok(s.metadata))
  {
  }

  /**
    A session that shows metadata of a card that is gone.  From the start: a pass meets card `a` and reads its
    metadata; VerifyPIN then meets a reader error and hands a scan over; the pass meets card `b`, which refuses to give
    its data; the refresh makes the session ready again.
   */
  lemma StaleMetadataRun() returns (a: Cards.Card, b: Cards.Card, first: Seen, second: Seen)
    ensures TrueOf(first, a) && TrueOf(second, b)
    ensures Exchanges(a, Cards.Success(Cards.Stored(a.app.data))) && Exchanges(b, Cards.Refused(Cards.OtherReason))
    ensures first == Opened(a.app.Selected(), CountersOf(a), Got(a.app.data))
    ensures second == Opened(b.app.Selected(), CountersOf(b), NotRead)
    ensures var s1 := AfterPass(ResetTo(UnknownReaderState), first);
      var s2 := AfterPass(s1, second);
      var s3 := AfterInteraction(s2, CountersOf(b), false);
      && s1.state == Ready && Shown(a.app.data) == Ok(s1.metadata) && s1.metadata.Some?
      && s2.state == ConnectionError
      && s3.state == Ready && s3.metadata == s1.metadata && Shown(b.app.data) == Ok(None)
  {
    hide Metadatas.Serialized;
    var app := Cards.Applet(true, true, true, 0x310, "a1", "k1", "", map[0 := []], [0x20]);
    a := Cards.Card(app, "000000", "000000000000", 3, 5, Some(0), false);
    b := a.(app := app.(instanceUID := "b1", data := []));
    first := Opened(a.app.Selected(), CountersOf(a), Got(a.app.data));
    second := Opened(b.app.Selected(), CountersOf(b), NotRead);
  }

  /** The card, on an open channel, got there by the exchanges of a pass and may answer GET DATA like this. */
  ghost predicate Exchanges(open: Cards.Card, reply: Cards.Reply) {
    var closed := open.Disconnected();
    && open.Valid() && open.channel.Some? && !open.authenticated
    && Cards.Answers(closed, Cards.Select, Cards.Success(Cards.Info(open.app.Selected())), closed)
    && open.channel.value in open.app.pairings
    && Cards.Answers(closed, Cards.OpenChannel(open.channel.value, open.app.pairings[open.channel.value]),
                     Cards.Success(Cards.Nothing), open)
    && Cards.Answers(open, Cards.GetStatus, Cards.Success(Cards.Status(CountersOf(open))), open)
    && Cards.Answers(open, Cards.GetData, reply, open)
  }

  /** The detection loop, the watcher of the active reader, or nobody looks after the readers. */
  datatype Mode = Detecting | Watching | Halted

  /** Everything that can happen to a session, in any order. */
  datatype Step =
    | DoVerifyPIN(pin: string)
    | DoChangePIN(pin: string)
    | DoUnblockPIN(puk: string, newPin: string)
    | DoChangePUK(puk: string)
    | DoGenerateMnemonic(length: int)
    | DoLoadMnemonic(mnemonic: string, password: string)
    | DoInitialize(pin: string, puk: string, pairingPass: string)
    | DoFactoryReset
    | DoGetMetadata
    | DoStoreMetadata(name: string, paths: seq<string>)
    | DoExportLoginKeys
    | DoExportRecoverKeys
    | Detection
    | Watch
    | PullCard

  datatype Error =
    | NoError
    | NotConnected
    | NotInitialized
    | NotReady
    | NotAuthorized
    | NotBlocked
    | NoKeys
    | BadArgument
    | CommandFailed
    | Blocked       // the call never returns

  // ---------------------------------------------------------------------------------------------
  // What the recording of a session says
  // ---------------------------------------------------------------------------------------------

  /** Privileged commands are sent only over an open channel on which the PIN has been verified. */
  ghost predicate Guarded(h: History) {
    h.Then? ==>
      && Guarded(h.past)
      && (h.last.Sent? && Cards.Privileged(h.last.cmd) ==> ChannelOpen(h.past) && Verified(h.past))
  }

  lemma {:induction false} GuardedAt(h: History, g: History)
    requires Guarded(h) && Extends(h, g)
    ensures Guarded(g)
  {
    if h == g {
    } else {
      GuardedAt(h.past, g);
    }
  }

  /** Every privileged command of a session came after a verification on the channel it was sent over. */
  lemma {:induction false} PrivilegedCommandsAreAuthorized(h: History, g: History) returns (v: History, o: History)
    requires Guarded(h) && Extends(h, g)
    requires g.Then? && g.last.Sent? && Cards.Privileged(g.last.cmd)
    ensures Extends(g.past, v) && FlowLaws.Undisturbed(g.past, v) && v.Then? && Verifies(v.last)
    ensures FlowLaws.SameChannel(v.past, o) && o.Then? && OpensChannel(o.last)
  {
    GuardedAt(h, g);
    v, o := FlowLaws.VerifiedOnThisChannel(g.past);
  }

  /** Commands after which the session does not count as authorized, without the card taking back the PIN state. */
  predicate Demotes(e: Event) {
    e.Sent? && (e.cmd.ChangePin? || e.cmd.ChangePuk? || e.cmd.VerifyPin?) && !Verifies(e) && !RejectsPin(e)
  }

  /** The PIN was verified on the channel in use, and since the last verification there was a demoting command. */
  ghost predicate Demoted(h: History) {
    h.Then? && !ClosesChannel(h.last) && !OpensChannel(h.last) && !RejectsPin(h.last) && !Verifies(h.last) &&
    ((Demotes(h.last) && Verified(h.past)) || Demoted(h.past))
  }

  lemma {:induction false} DemotedIsVerified(h: History)
    ensures Demoted(h) ==> Verified(h)
  {
    if h.Nothing? {
    } else {
      DemotedIsVerified(h.past);
    }
  }

  /** A session that is ready on a verified PIN has come there by a ChangePIN, a ChangePUK or a refused VerifyPIN. */
  lemma {:induction false} FindDemotion(h: History) returns (d: History)
    requires Demoted(h)
    ensures FlowLaws.Undisturbed(h, d) && d.Then? && Demotes(d.last) && Verified(d.past)
  {
    if Demotes(h.last) && Verified(h.past) {
      d := h;
    } else {
      d := FindDemotion(h.past);
    }
  }

  predicate Remakes(cmd: Cards.Command) {
    cmd.Init? || cmd.FactoryReset? || cmd.InstallApplet?
  }

  /** The last command that initialized or erased a card. */
  ghost function LastRewrite(h: History): Option<Cards.Command> {
    if h.Nothing? then None
    else if h.last.Sent? && Remakes(h.last.cmd) && h.last.reply.Success? then Some(h.last.cmd)
    else LastRewrite(h.past)
  }

  /** Successful pairings with the card of this instance UID. */
  ghost function PairsIssued(h: History, uid: string): nat {
    if h.Nothing? then 0
    else
      Count(h.last.Sent? && h.last.cmd.Pair? && h.last.reply.Success? && h.last.before.app.instanceUID == uid)
      + PairsIssued(h.past, uid)
  }

  /** One pairing for a card that is not in the store, none for one that is. */
  function Allowance(loaded: Pairing.Pairings, uid: string): nat {
    if uid in loaded then 0 else 1
  }

  /** No card absent from the store that was loaded is paired with twice, and what was paired is remembered. */
  ghost predicate Economical(h: History, loaded: Pairing.Pairings, values: Pairing.Pairings) {
    forall uid ::
      && PairsIssued(h, uid) <= Allowance(loaded, uid)
      && (uid in loaded || PairsIssued(h, uid) > 0 ==> uid in values)
  }

  lemma {:induction false} ResettingIsGuarded(g: History, h: History)
    requires Links.Resetting(g, h)
    ensures Guarded(g) ==> Guarded(h)
    ensures forall uid :: PairsIssued(h, uid) == PairsIssued(g, uid)
  {
    if h == g {
    } else {
      ResettingIsGuarded(g, h.past);
    }
  }

  class KeycardContextV2 {
    var status: Status
    var connected: bool                // cmdSet != nil
    var mode: Mode
    var hung: bool                     // a goroutine waits for ever to hand over a scan request
    const link: Links.Link
    const pairings: Pairing.PairingStore
    ghost const loaded: Pairing.Pairings
    ghost var published: seq<Status>
    ghost var reading: Reading         // the last attempt to read metadata on this connection
    ghost var inherited: Option<Metadatas.Metadata>    // the metadata shown before that attempt
    ghost var handedOver: bool         // this connection was made by a pass that ran inside a failing command

    constructor (link: Links.Link, pairings: Pairing.PairingStore)
      requires link.Valid() && link.log == Nothing
      ensures Valid() && this.link == link && this.pairings == pairings && loaded == pairings.values
      ensures mode == Detecting && !hung && published == []
    {
      status, connected, mode, hung := ResetTo(UnknownReaderState), false, Detecting, false;
      this.link, this.pairings, this.loaded, this.published := link, pairings, pairings.values, [];
      reading, inherited, handedOver := NotRead, None, false;
    }

    // -------------------------------------------------------------------------------------------
    // Invariants
    // -------------------------------------------------------------------------------------------

    /** A client waits for ever with the command set locked, and the detection loop behind it. */
    predicate Stuck()
      reads this
    {
      hung && connected
    }

    /** Cached counters are what asking the card again would give. */
    ghost predicate Agrees()
      reads this, link
    {
      connected && !Stuck() && Known(status.state) ==>
        && link.card.channel.Some?
        && status.appStatus == Some(CountersOf(link.card))
        && (Reads(reading) || handedOver)
    }

    /** While a channel is open the cached identity and slots are the card's; so is metadata, if it could be read. */
    ghost predicate Current()
      reads this, link
    {
      connected && link.card.channel.Some? && !Abandoned(status.state) ==>
        && status.appInfo == Some(link.card.app.Selected())
        && (Reads(reading) ==> Shown(link.card.app.data) == Ok(status.metadata))
        && (!Reads(reading) ==> status.metadata == inherited)
    }

    /** Authorized means that the card has verified the PIN; ready, that it has not, or that the session was demoted. */
    ghost predicate Safe()
      reads this, link
    {
      connected && link.card.channel.Some? ==>
        && (status.state == Authorized ==> link.card.authenticated && !Demoted(link.log))
        && (status.state == Ready ==> (link.card.authenticated <==> Demoted(link.log)))
    }

    /** As a pass leaves the card: whatever channel is open, nobody has verified the PIN on it. */
    ghost predicate Unproven()
      reads this, link
    {
      connected && link.card.channel.Some? ==> !link.card.authenticated
    }

    /** Nothing can be sent any more over the connection of a stuck session. */
    ghost predicate Sealed()
      reads this, link
    {
      Stuck() ==> link.card.channel == None && mode == Halted
    }

    ghost predicate Recorded()
      reads this, link, pairings
    {
      && link.Valid() && Guarded(link.log) && Economical(link.log, loaded, pairings.values)
      && forall i :: 0 <= i < |published| ==> WellFormed(published[i])
    }

    ghost predicate Valid()
      reads this, link, pairings
    {
      Recorded() && WellFormed(status) && Agrees() && Current() && Safe() && Sealed()
    }

    function Watched(): nat
      reads this
    {
      if mode == Watching then 1 else 0
    }

    // -------------------------------------------------------------------------------------------
    // Helpers
    // -------------------------------------------------------------------------------------------

    method Publish()
      requires Recorded() && WellFormed(status)
      modifies `published
      ensures Recorded() && published == old(published) + [status]
    {
      published := published + [status];
    }

    /** Any command but Pair; a privileged one needs the card's consent to be on record. */
    method Exec(cmd: Cards.Command) returns (r: Cards.Reply)
      requires Recorded() && !cmd.Pair?
      requires Cards.Privileged(cmd) ==> link.card.authenticated
      modifies link
      ensures Recorded() && Cards.Answers(old(link.card), cmd, r, link.card)
      ensures link.log == Then(old(link.log), Sent(cmd, r, old(link.card)))
      ensures LastRewrite(link.log) == if Remakes(cmd) && r.Success? then Some(cmd) else old(LastRewrite(link.log))
    {
      ghost var h := link.log;
      r := link.Send(cmd);
      NotPairing(h, loaded, pairings.values, Sent(cmd, r, old(link.card)));
    }

    /** resetCardConnection. */
    method ResetCardConnection()
      modifies `connected
      ensures !connected
    {
      connected := false;
    }

    /** Hands a scan request to the watcher, which may start a pass; without a watcher the sender waits for ever. */
    method ForceScan() returns (ghost seen: Option<Seen>)
      requires Valid() && !connected
      modifies `status, `connected, `mode, `hung, `published, `reading, `inherited, `handedOver, link, pairings
      ensures hung ==> !connected
      ensures Valid() && Scanned(seen)
      ensures old(mode) != Watching ==> hung && unchanged(link) && seen == None
      ensures connected && link.card.channel.Some? ==> !Abandoned(status.state)
      ensures connected ==> handedOver
      ensures Unproven()
      ensures old(mode) != Watching ==> handedOver == old(handedOver)
      ensures old(published) <= published
      ensures LastRewrite(link.log) == old(LastRewrite(link.log))
      decreases Watched(), 0
    {
      seen := None;
      if mode != Watching {
        hung := true;
        return;
      }
      mode := Detecting;
      var detectsNow := *;
      if detectsNow && !hung {
        ghost var met := Detect(true);
        seen := Some(met);
      }
    }

    /** The status is that after the pass, if there was one, and the connection is the one that the pass made. */
    twostate predicate Scanned(new seen: Option<Seen>)
      reads this, link
    {
      match seen
      case None => status == old(status) && !connected
      case Some(met) => Passed(met) && (connected ==> reading == ReadingOf(met) && inherited == old(status.metadata))
    }

    twostate predicate Passed(seen: Seen)
      reads this, link
    {
      && status == AfterPass(old(status), seen) && TrueOf(seen, link.card)
      && (seen.NotPaired? ==> !Known(seen.error))
    }

    /** A reader error ends the connection and asks for a scan; other errors are only reported. */
    method CheckSCardError(r: Cards.Reply) returns (ghost seen: Option<Seen>)
      requires Recorded() && WellFormed(status) && (r.Fault? || (Agrees() && Current() && Safe() && Sealed()))
      modifies `status, `connected, `mode, `hung, `published, `reading, `inherited, `handedOver, link, pairings
      ensures r.Fault? && hung ==> !connected
      ensures Valid()
      ensures !r.Fault? ==> unchanged(this) && unchanged(link)
      ensures r.Fault? ==> Scanned(seen)
      ensures r.Fault? && old(mode) != Watching ==> hung && seen == None && unchanged(link)
      ensures r.Fault? && connected && link.card.channel.Some? ==> !Abandoned(status.state)
      ensures r.Fault? && connected ==> handedOver
      ensures r.Fault? ==> Unproven()
      ensures old(mode) != Watching ==> handedOver == old(handedOver)
      ensures old(published) <= published
      ensures LastRewrite(link.log) == old(LastRewrite(link.log))
      decreases Watched(), 1
    {
      seen := None;
      if r.Fault? {
        ResetCardConnection();
        seen := ForceScan();
      }
    }

    predicate Initialized()
      reads this
    {
      connected && status.state != EmptyKeycard
    }

    function InitializedError(): Error
      reads this
    {
      if !connected then NotConnected else if status.state == EmptyKeycard then NotInitialized else NoError
    }

    function ReadyError(): Error
      reads this
    {
      if InitializedError() != NoError then InitializedError()
      else if status.state != Ready && status.state != Authorized then NotReady
      else NoError
    }

    function AuthorizedError(): Error
      reads this
    {
      if InitializedError() != NoError then InitializedError()
      else if status.state != Authorized then NotAuthorized
      else NoError
    }

    /** Reads the counters again and derives the state from them.  Never leaves the session authorized. */
    method UpdateApplicationStatus() returns (updated: bool)
      requires Recorded()
      modifies `status, link
      ensures Recorded() && link.card == old(link.card) && Demoted(link.log) == old(Demoted(link.log))
      ensures updated ==>
        old(Initialized()) && link.card.channel.Some? && status == Refreshed(old(status), CountersOf(link.card))
      ensures !updated && old(Initialized()) ==> status == old(status).(state := ConnectionError, appStatus := None)
      ensures !old(Initialized()) ==> !updated && status == old(status)
      ensures LastRewrite(link.log) == old(LastRewrite(link.log))
    {
      if !Initialized() {
        return false;
      }
      var r := Exec(Cards.GetStatus);
      if !r.Success? {
        status := status.(appStatus := None, state := ConnectionError);
        return false;
      }
      status := Refreshed(status, r.data.status);
      return true;
    }

    // -------------------------------------------------------------------------------------------
    // Monitoring
    // -------------------------------------------------------------------------------------------

    /** The card in the reader, whichever it is, with nothing known about it. */
    method NewCommandSet()
      requires Recorded()
      modifies `connected, `reading, `inherited, link
      ensures Recorded() && connected && link.card.channel == None
      ensures reading == NotRead && inherited == status.metadata
      ensures LastRewrite(link.log) == old(LastRewrite(link.log))
    {
      ConnectIsSilent(link.log, loaded, pairings.values);
      link.Connect();
      connected, reading, inherited := true, NotRead, status.metadata;
    }

    /** connectCard: finds a card and selects the applet on it. */
    method ConnectCard() returns (found: bool, ghost seen: Seen)
      requires Recorded()
      modifies `status, `connected, `published, `reading, `inherited, link
      ensures Recorded() && WellFormed(status) && !Known(status.state) && old(published) <= published
      ensures !found ==> status == AfterPass(old(status), seen) && !seen.Opened? && !seen.NotPaired?
      ensures !found ==> !connected || (status.state == WaitingForReader && connected == old(connected))
      ensures found ==>
        connected && link.card.app.installed && link.card.channel == None &&
        status == old(status).(appInfo := Some(link.card.app.Selected()), state := ConnectingCard) &&
        reading == NotRead && inherited == old(status.metadata)
      ensures LastRewrite(link.log) == old(LastRewrite(link.log))
    {
      hide Shown, AfterReading, Economical, Guarded, Demoted, Verified, ChannelOpen, PairsIssued, IsAdmitted;
      found := false;
      var readers, inserted, connects := *, *, *;
      if !readers {
        seen := NoReader;
        status := ResetTo(WaitingForReader);
        Publish();
        return;
      }
      ResetCardConnection();
      if !inserted {
        seen := NoCard;
        status := ResetTo(WaitingForCard);
        Publish();
        return;
      }
      seen := NotSelected;
      if !connects {
        status := status.(state := ConnectionError);
        Publish();
        return;
      }
      found, seen := SelectApplet();
    }

    /** The card is connected; is there a Keycard applet on it? */
    method SelectApplet() returns (found: bool, ghost seen: Seen)
      requires Recorded()
      modifies `status, `connected, `published, `reading, `inherited, link
      ensures Recorded() && WellFormed(status) && !Known(status.state) && published == old(published) + [status]
      ensures !found ==>
        status == AfterPass(old(status), seen) && !connected && (seen.NotSelected? || seen.NotAKeycard?)
      ensures found ==>
        connected && link.card.app.installed && link.card.channel == None &&
        status == old(status).(appInfo := Some(link.card.app.Selected()), state := ConnectingCard) &&
        reading == NotRead && inherited == old(status.metadata)
      ensures LastRewrite(link.log) == old(LastRewrite(link.log))
    {
      hide Shown, AfterReading, Economical, Guarded, Demoted, Verified, ChannelOpen, PairsIssued, IsAdmitted;
      found, seen := false, NotSelected;
      NewCommandSet();
      var r := Exec(Cards.Select);
      if !r.Success? {
        ResetCardConnection();
        status := status.(state := ConnectionError);
      } else {
        status := status.(appInfo := Some(r.data.info));
        if !r.data.info.installed {
          seen := NotAKeycard(r.data.info);
          ResetCardConnection();
          status := status.(state := NotKeycard);
        } else {
          status := status.(state := ConnectingCard);
          found := true;
        }
      }
      Publish();
    }

    /** Sends Pair and, when the card agrees, remembers the pairing. */
    method PairAndStore(uid: string) returns (r: Cards.Reply, saved: bool)
      requires Recorded() && link.card.app.initialized && uid == link.card.app.instanceUID && uid !in pairings.values
      modifies link, pairings
      ensures Recorded() && Cards.Answers(old(link.card), Cards.Pair(FlowTypes.DEF_PAIRING), r, link.card)
      ensures r.Success? ==> pairings.values == old(pairings.values)[uid := r.data.pairing]
      ensures LastRewrite(link.log) == old(LastRewrite(link.log))
    {
      ghost var h, values := link.log, pairings.values;
      r := link.Send(Cards.Pair(FlowTypes.DEF_PAIRING));
      PairingIsRecorded(h, loaded, values, Sent(Cards.Pair(FlowTypes.DEF_PAIRING), r, old(link.card)),
                        if r.Success? then r.data.pairing else Pairing.Info([], 0));
      saved := false;
      if r.Success? {
        saved := pairings.Store(uid, r.data.pairing);
      }
    }

    /** Pairs with a card that is not in the store; the entry is kept even when saving it fails. */
    method PairCard(uid: string) returns (info: Option<Pairing.Info>)
      requires Recorded() && connected && status.state == ConnectingCard && link.card.channel == None
      requires link.card.app.initialized && uid == link.card.app.instanceUID && uid !in pairings.values
      requires status.appInfo == Some(link.card.app.Selected())
      modifies `status, link, pairings
      ensures Recorded()
      ensures info == None ==> status == old(status).(state := status.state)
      ensures info.Some? ==> status == old(status).(appInfo := status.appInfo)
      ensures info.Some? ==>
        status.state == ConnectingCard && link.card.app.initialized && link.card.channel == None &&
        status.appInfo == Some(link.card.app.Selected()) && pairings.Get(uid) == info
      ensures link.card.channel == None
      ensures info == None ==>
        status.state == NoAvailablePairingSlots || status.state == PairingError || status.state == InternalError ||
        status.state == ConnectionError
      ensures LastRewrite(link.log) == old(LastRewrite(link.log))
    {
      var r, saved := PairAndStore(uid);
      if !r.Success? {
        status := status.(state :=
          if r == Cards.Refused(Cards.NoAvailablePairingSlots) then NoAvailablePairingSlots else PairingError);
        return None;
      }
      if !saved {
        status := status.(state := InternalError);
        return None;
      }
      var selected := Exec(Cards.Select);
      if !selected.Success? {
        status := status.(state := ConnectionError);
        return None;
      }
      status := status.(appInfo := Some(selected.data.info));
      return Some(r.data.pairing);
    }

    /** The pairing in the store, or a new one. */
    method ObtainPairing(uid: string) returns (info: Option<Pairing.Info>)
      requires Recorded() && connected && status.state == ConnectingCard && link.card.channel == None
      requires link.card.app.initialized && uid == link.card.app.instanceUID
      requires status.appInfo == Some(link.card.app.Selected())
      modifies `status, link, pairings
      ensures Recorded() && link.card.channel == None
      ensures info == None ==>
        status == old(status).(state := status.state) &&
        (status.state == NoAvailablePairingSlots || status.state == PairingError || status.state == InternalError ||
         status.state == ConnectionError)
      ensures info.Some? ==>
        && status == old(status).(appInfo := status.appInfo) && status.appInfo == Some(link.card.app.Selected())
        && link.card.app.initialized && pairings.Get(uid) == info
      ensures LastRewrite(link.log) == old(LastRewrite(link.log))
    {
      info := pairings.Get(uid);
      if info == None {
        info := PairCard(uid);
      }
    }

    /** connectKeycard: pairs if necessary, opens the channel and reads counters and metadata. */
    method ConnectKeycard() returns (ghost seen: Seen)
      requires Recorded() && WellFormed(status) && connected && mode == Detecting && !hung
      requires status.state == ConnectingCard && link.card.app.installed && link.card.channel == None
      requires status.appInfo == Some(link.card.app.Selected()) && reading == NotRead && inherited == status.metadata
      modifies `status, `connected, `mode, `hung, `published, `reading, `inherited, `handedOver, link, pairings
      ensures hung ==> !connected
      ensures Valid() && Unproven() && Passed(seen) && Contacted(seen)
      ensures connected ==> reading == ReadingOf(seen) && inherited == old(status.metadata)
      ensures connected && link.card.channel.Some? ==> !Abandoned(status.state)
      ensures handedOver == old(handedOver)
      ensures old(published) <= published
      ensures LastRewrite(link.log) == old(LastRewrite(link.log))
      decreases Watched(), 6
    {
      hide PairsIssued, LastRewrite, Shown, AfterReading, Economical, Guarded, Demoted, Verified, ChannelOpen;
      hide IsAdmitted, Admission;
      var appInfo := status.appInfo.value;
      if !appInfo.initialized {
        seen := Blank(appInfo);
        status := status.(state := EmptyKeycard);
        Publish();
        return;
      }
      var pair := ObtainPairing(appInfo.instanceUID);
      if pair == None {
        seen := NotPaired(appInfo, status.state);
        Publish();
        return;
      }
      ghost var paired := status.appInfo.value;
      seen := OpenChannel(pair.value);
      ContactOverrides(old(status), paired, seen);
      hide AfterPass, WellFormed;
      if !hung {
        Publish();
      }
    }

    /** The last part of connectKeycard: afterwards the status is known, or in error. */
    method ReadCard() returns (ghost seen: Seen)
      requires Recorded() && WellFormed(status) && connected && mode == Detecting && !hung
      requires status.state == ConnectingCard && link.card.channel.Some? && !link.card.authenticated
      requires status.appInfo == Some(link.card.app.Selected()) && reading == NotRead && inherited == status.metadata
      modifies `status, `connected, `mode, `hung, `published, `reading, `inherited, `handedOver, link, pairings
      ensures hung ==> !connected
      ensures Valid() && Unproven() && Passed(seen) && Contacted(seen) && !seen.NotPaired?
      ensures connected ==> reading == ReadingOf(seen) && inherited == old(status.metadata)
      ensures connected && link.card.channel.Some? ==> !Abandoned(status.state)
      ensures handedOver == old(handedOver)
      ensures old(published) <= published
      ensures LastRewrite(link.log) == old(LastRewrite(link.log))
      decreases Watched(), 4
    {
      hide LastRewrite, Economical, Guarded, IsAdmitted, Shown, PairsIssued;
      ghost var appInfo := status.appInfo.value;
      DemotedIsVerified(link.log);
      var updated := UpdateApplicationStatus();
      seen := NoCounters(appInfo);
      if updated {
        ghost var got;
        updated, got := UpdateMetadata();
        seen := Opened(appInfo, CountersOf(link.card), got);
      }
    }

    /** Opens the channel with a pairing and reads the card over it. */
    method OpenChannel(info: Pairing.Info) returns (ghost seen: Seen)
      requires Recorded() && WellFormed(status) && connected && mode == Detecting && !hung
      requires status.state == ConnectingCard && link.card.app.initialized && link.card.channel == None
      requires status.appInfo == Some(link.card.app.Selected()) && reading == NotRead && inherited == status.metadata
      modifies `status, `connected, `mode, `hung, `published, `reading, `inherited, `handedOver, link, pairings
      ensures hung ==> !connected
      ensures Valid() && Unproven() && Passed(seen) && Contacted(seen)
      ensures connected ==> reading == ReadingOf(seen) && inherited == old(status.metadata)
      ensures connected && link.card.channel.Some? ==> !Abandoned(status.state)
      ensures handedOver == old(handedOver)
      ensures old(published) <= published
      ensures LastRewrite(link.log) == old(LastRewrite(link.log))
      decreases Watched(), 5
    {
      hide LastRewrite, Economical, Guarded, IsAdmitted, Shown, PairsIssued;
      ghost var appInfo := status.appInfo.value;
      var r := Exec(Cards.OpenChannel(info.index, info.key));
      if !r.Success? {
        status := status.(state := ConnectionError);
        return NotOpened(appInfo);
      }
      seen := ReadCard();
    }

    /** Shows the metadata that was read; no data, or bytes that cannot be parsed, are a connection error. */
    method TakeMetadata(answer: Reading) returns (updated: bool)
      requires answer != ReaderLost
      modifies `status, `reading
      ensures reading == answer && status == AfterReading(old(status), answer) && (updated <==> Reads(answer))
    {
      reading := answer;
      if answer == NotRead {
        status := status.(state := ConnectionError);
        return false;
      }
      if answer.data == [] {
        status := status.(metadata := None);
        return true;
      }
      var parsed := Metadatas.Parse(answer.data);
      if parsed.Err? {
        status := status.(state := ConnectionError);
        return false;
      }
      var metadata := Metadatas.ToMetadata(parsed.value);
      status := status.(metadata := Some(metadata));
      return true;
    }

    /** The error is reported after the hand-over, over whatever the pass inside it has found. */
    method LoseReader(r: Cards.Reply)
      requires Recorded() && WellFormed(status) && r.Fault?
      modifies `status, `connected, `mode, `hung, `published, `reading, `inherited, `handedOver, link, pairings
      ensures Valid() && Unproven() && (hung ==> !connected)
      ensures old(mode) != Watching ==>
        hung && !connected && status == old(status) && unchanged(link) && handedOver == old(handedOver)
      ensures connected && link.card.channel.Some? ==> !Abandoned(status.state)
      ensures old(published) <= published && LastRewrite(link.log) == old(LastRewrite(link.log))
      decreases Watched(), 2
    {
      ghost var seen := CheckSCardError(r);
      if !hung {
        status := status.(state := ConnectionError);
      }
    }

    method AskForMetadata() returns (r: Cards.Reply)
      requires Recorded()
      modifies link
      ensures Recorded() && link.card == old(link.card) && !r.Wrong?
      ensures r.Success? ==> r.data == Cards.Stored(link.card.app.data)
      ensures Demoted(link.log) == old(Demoted(link.log)) && LastRewrite(link.log) == old(LastRewrite(link.log))
    {
      r := Exec(Cards.GetData);
      Cards.ReadingChangesNothing(old(link.card), r, link.card);
    }

    /** updateMetadata: on failure the state becomes ConnectionError, whatever it was. */
    method UpdateMetadata() returns (updated: bool, ghost got: Reading)
      requires Recorded() && WellFormed(status) && connected && Known(status.state)
      requires link.card.channel.Some? && status.appStatus == Some(CountersOf(link.card))
      requires status.appInfo == Some(link.card.app.Selected()) && Safe() && !hung
      modifies `status, `connected, `mode, `hung, `published, `reading, `inherited, `handedOver, link, pairings
      ensures got == ReaderLost && hung ==> !connected
      ensures Valid() && (updated <==> Reads(got))
      ensures got == ReaderLost || old(Unproven()) ==> Unproven()
      ensures got.Got? ==> got.data == link.card.app.data
      ensures got != ReaderLost ==>
        && status == AfterReading(old(status), got) && reading == got && inherited == old(status.metadata)
        && connected && hung == old(hung) && link.card == old(link.card)
      ensures got == ReaderLost && old(mode) != Watching ==>
        hung && !connected && status == old(status) && link.card == old(link.card)
      ensures connected && link.card.channel.Some? ==> !Abandoned(status.state)
      ensures old(mode) != Watching ==> handedOver == old(handedOver)
      ensures old(published) <= published
      ensures LastRewrite(link.log) == old(LastRewrite(link.log))
      decreases Watched(), 3
    {
      hide Demoted, Verified, ChannelOpen, IsAdmitted;
      inherited := status.metadata;
      updated := false;
      var r := AskForMetadata();
      if r.Fault? {
        LoseReader(r);
        return false, ReaderLost;
      }
      var answer := if r.Success? then Got(r.data.bytes) else NotRead;
      updated := TakeMetadata(answer);
      got := answer;
    }

    /** One pass of the detection loop, by itself or inside the hand-over of a scan request. */
    method Detect(ghost inHandOver: bool) returns (ghost seen: Seen)
      requires Recorded() && mode == Detecting && !hung
      modifies `status, `connected, `mode, `hung, `published, `reading, `inherited, `handedOver, link, pairings
      ensures hung ==> !connected
      ensures Valid() && Passed(seen)
      ensures !old(connected) || Known(status.state) ==> Unproven()
      ensures !old(connected) && connected ==> reading == ReadingOf(seen) && inherited == old(status.metadata)
      ensures !old(connected) && connected && link.card.channel.Some? ==> !Abandoned(status.state)
      ensures !old(connected) && connected ==> handedOver == inHandOver
      ensures old(published) <= published
      ensures LastRewrite(link.log) == old(LastRewrite(link.log))
      decreases Watched(), 7
    {
      var listed := *;
      if !listed {
        status := ResetTo(InternalError);
        Publish();
        mode := Halted;
        return Unlisted;
      }
      handedOver := inHandOver;
      var found;
      found, seen := ConnectCard();
      if found {
        ghost var selected := status.appInfo.value;
        seen := ConnectKeycard();
        ContactOverrides(old(status), selected, seen);
        mode := if hung then Halted else Watching;
        return;
      }
      var waits := *;
      if !waits {
        mode := Halted;
      }
    }

    // -------------------------------------------------------------------------------------------
    // Client commands
    // -------------------------------------------------------------------------------------------

    /** Refreshes counters and state after a PIN or PUK command, then publishes. */
    method OnAuthorizeInteractions(authorized: bool)
      requires Recorded() && WellFormed(status) && Current() && !hung
      requires connected && link.card.channel.Some? ==> !Abandoned(status.state) && (Reads(reading) || handedOver)
      requires connected && link.card.channel.Some? ==>
        if authorized then link.card.authenticated && !Demoted(link.log)
        else link.card.authenticated <==> Demoted(link.log)
      modifies `status, `published, link
      ensures Valid() && link.card == old(link.card)
      ensures connected && status.state == Authorized ==> authorized
      ensures connected && Known(status.state) ==>
        status == AfterInteraction(old(status), CountersOf(link.card), authorized)
      ensures connected && old(status.state) != EmptyKeycard ==>
        Known(status.state) || status.state == ConnectionError
    {
      hide Cards.Answers, PairsIssued, LastRewrite, Shown, IsAdmitted;
      var updated := UpdateApplicationStatus();
      if status.state == Ready && authorized {
        status := status.(state := Authorized);
      }
      Publish();
    }

    /**
      Sends a PIN or PUK command and deals with its failure.  When a scan was handed over, the session may already
      be connected again on return.
     */
    method Interact(cmd: Cards.Command) returns (r: Cards.Reply, ghost seen: Option<Seen>)
      requires Valid() && !hung && connected && Known(status.state)
      requires cmd.VerifyPin? || cmd.UnblockPin? || cmd.ChangePin? || cmd.ChangePuk?
      requires if cmd.UnblockPin? then !link.card.authenticated else status.state == Ready || status.state == Authorized
      requires Cards.Privileged(cmd) ==> link.card.authenticated
      modifies `status, `connected, `mode, `hung, `published, `reading, `inherited, `handedOver, link, pairings
      ensures hung ==> !connected
      ensures Recorded() && WellFormed(status) && Current()
      ensures connected && link.card.channel.Some? ==> !Abandoned(status.state) && (Reads(reading) || handedOver)
      ensures hung ==> Valid()
      ensures !r.Fault? ==>
        Cards.Answers(old(link.card), cmd, r, link.card) && unchanged(this) && link.card.app == old(link.card.app)
      ensures connected && link.card.channel.Some? ==>
        if r.Success? && (cmd.VerifyPin? || cmd.UnblockPin?) then link.card.authenticated && !Demoted(link.log)
        else link.card.authenticated <==> Demoted(link.log)
      ensures if r.Fault? then Scanned(seen) else seen == None
    {
      DemotedIsVerified(link.log);
      r := Exec(cmd);
      seen := None;
      if r.Fault? {
        seen := CheckSCardError(r);
        DemotedIsVerified(link.log);
      }
    }

    method VerifyPIN(pin: string) returns (err: Error, authorized: bool, ghost seen: Option<Seen>)
      requires Valid()
      modifies `status, `connected, `mode, `hung, `published, `reading, `inherited, `handedOver, link, pairings
      ensures Valid()
      ensures seen.Some? && connected && Known(status.state) ==>
        status == AfterInteraction(AfterPass(old(status), seen.value), CountersOf(link.card), false)
      ensures old(ReadyError()) != NoError ==> err == old(ReadyError()) && unchanged(this)
      ensures authorized ==> err == NoError && pin == link.card.pin
      ensures authorized ==> status.state == Authorized || status.state == ConnectionError
      ensures err == NoError && !authorized ==>
        pin != old(link.card.pin) && link.card.pinRetries == old(link.card.pinRetries) - 1
    {
      seen := None;
      err, authorized := ReadyError(), false;
      if err != NoError {
        return;
      }
      if hung {
        return Blocked, false, seen;
      }
      var r;
      r, seen := Interact(Cards.VerifyPin(pin));
      if hung {
        return Blocked, false, seen;
      }
      authorized := r.Success?;
      OnAuthorizeInteractions(authorized);
      err := if r.Success? || r.Wrong? then NoError else CommandFailed;
    }

    method ChangePIN(pin: string) returns (err: Error, ghost seen: Option<Seen>)
      requires Valid()
      modifies `status, `connected, `mode, `hung, `published, `reading, `inherited, `handedOver, link, pairings
      ensures Valid()
      ensures seen.Some? && connected && Known(status.state) ==>
        status == AfterInteraction(AfterPass(old(status), seen.value), CountersOf(link.card), false)
      ensures old(AuthorizedError()) != NoError ==> err == old(AuthorizedError()) && unchanged(this)
      ensures err == NoError ==> link.card.pin == pin && status.state != Authorized
      ensures err == NoError ==>
        link.card.authenticated && (Known(status.state) ==> status.state == Ready || status.state == BlockedPUK)
    {
      seen := None;
      err := AuthorizedError();
      if err != NoError {
        return;
      }
      if hung {
        return Blocked, seen;
      }
      var r;
      r, seen := Interact(Cards.ChangePin(pin));
      if hung {
        return Blocked, seen;
      }
      OnAuthorizeInteractions(false);
      err := if r.Success? then NoError else CommandFailed;
    }

    method UnblockPIN(puk: string, newPin: string) returns (err: Error, ghost seen: Option<Seen>)
      requires Valid()
      modifies `status, `connected, `mode, `hung, `published, `reading, `inherited, `handedOver, link, pairings
      ensures Valid()
      ensures seen.Some? && connected && Known(status.state) ==>
        status == AfterInteraction(AfterPass(old(status), seen.value), CountersOf(link.card), false)
      ensures old(InitializedError()) == NoError && old(status.state) != BlockedPIN ==>
        err == NotBlocked && unchanged(this)
      ensures err == NoError ==>
        link.card.pin == newPin && puk == old(link.card.puk) && link.card.authenticated &&
        (status.state == Authorized || status.state == ConnectionError)
    {
      seen := None;
      err := InitializedError();
      if err != NoError {
        return;
      }
      if status.state != BlockedPIN {
        return NotBlocked, seen;
      }
      if hung {
        return Blocked, seen;
      }
      var r;
      r, seen := Interact(Cards.UnblockPin(puk, newPin));
      if hung {
        return Blocked, seen;
      }
      OnAuthorizeInteractions(r.Success?);
      err := if r.Success? then NoError else CommandFailed;
    }

    method ChangePUK(puk: string) returns (err: Error, ghost seen: Option<Seen>)
      requires Valid()
      modifies `status, `connected, `mode, `hung, `published, `reading, `inherited, `handedOver, link, pairings
      ensures Valid()
      ensures seen.Some? && connected && Known(status.state) ==>
        status == AfterInteraction(AfterPass(old(status), seen.value), CountersOf(link.card), false)
      ensures old(AuthorizedError()) != NoError ==> err == old(AuthorizedError()) && unchanged(this)
      ensures err == NoError ==> link.card.puk == puk && status.state != Authorized
      ensures err == NoError ==>
        link.card.authenticated && (Known(status.state) ==> status.state == Ready || status.state == BlockedPUK)
    {
      seen := None;
      err := AuthorizedError();
      if err != NoError {
        return;
      }
      if hung {
        return Blocked, seen;
      }
      var r;
      r, seen := Interact(Cards.ChangePuk(puk));
      if hung {
        return Blocked, seen;
      }
      OnAuthorizeInteractions(false);
      err := if r.Success? then NoError else CommandFailed;
    }

    method GenerateMnemonic(length: int) returns (words: seq<int>, err: Error)
      requires Valid()
      modifies `status, `connected, `mode, `hung, `published, `reading, `inherited, `handedOver, link, pairings
      ensures Valid()
      ensures old(ReadyError()) != NoError ==> err == old(ReadyError()) && unchanged(this)
      ensures err == BadArgument ==>
        !(12 <= length < 27) && unchanged(this) && unchanged(link)
      ensures err == NoError ==> 12 <= length < 27 && unchanged(this) && link.card == old(link.card)
    {
      words := [];
      err := ReadyError();
      if err != NoError {
        return;
      }
      if hung {
        return words, Blocked;
      }
      var checksumSize := FlowTypes.Quotient(length, 3);
      if !(4 <= checksumSize <= 8) {
        return words, BadArgument;
      }
      var r := Exec(Cards.GenerateMnemonic(checksumSize));
      if r.Success? {
        return r.data.indexes, NoError;
      }
      ghost var seen := CheckSCardError(r);
      err := if hung then Blocked else CommandFailed;
    }

    /** The cached status follows the card: new key UID, and keys present. */
    method LoadMnemonic(mnemonic: string, password: string) returns (keyUID: string, err: Error)
      requires Valid()
      modifies `status, `connected, `mode, `hung, `published, `reading, `inherited, `handedOver, link, pairings
      ensures Valid()
      ensures old(AuthorizedError()) != NoError ==> err == old(AuthorizedError()) && unchanged(this)
      ensures err == NoError ==>
        keyUID == link.card.app.keyUID && keyUID != "" && connected && status.state == Authorized &&
        status.appInfo.value.keyUID == keyUID && status.appStatus.value.keyInitialized &&
        link.log.Then? && link.log.last.Sent? && link.log.last.cmd == Cards.LoadSeed(mnemonic, password)
    {
      keyUID := "";
      err := AuthorizedError();
      if err != NoError {
        return;
      }
      if hung {
        return keyUID, Blocked;
      }
      var r := Exec(Cards.LoadSeed(mnemonic, password));
      Cards.SeedChangesKeyOnly(old(link.card), Cards.LoadSeed(mnemonic, password), r, link.card);
      hide Cards.Answers;
      if !r.Success? {
        ghost var seen := CheckSCardError(r);
        return keyUID, if hung then Blocked else CommandFailed;
      }
      keyUID := r.data.uid;
      status := status.(
        appInfo := Some(status.appInfo.value.(keyUID := keyUID)),
        appStatus := Some(status.appStatus.value.(keyInitialized := true)));
      Publish();
      return keyUID, NoError;
    }

    method Initialize(pin: string, puk: string, pairingPass: string) returns (err: Error)
      requires Valid()
      modifies `status, `connected, `mode, `hung, `published, `reading, `inherited, `handedOver, link, pairings
      ensures Valid()
      ensures !old(connected) ==> err == NotConnected && unchanged(this)
      ensures err == NoError ==>
        !old(link.card.app.initialized) && LastRewrite(link.log) == Some(Cards.Init(pin, puk, pairingPass))
    {
      hide Shown, PairsIssued, LastRewrite, AfterReading, AfterPass;
      if !connected {
        return NotConnected;
      }
      if hung {
        return Blocked;
      }
      var r := Exec(Cards.Init(pin, puk, pairingPass));
      if !r.Success? {
        ghost var seen := CheckSCardError(r);
        return if hung then Blocked else CommandFailed;
      }
      ResetCardConnection();
      ghost var seen := ForceScan();
      return if hung then Blocked else NoError;
    }

    method FactoryReset() returns (err: Error)
      requires Valid()
      modifies `status, `connected, `mode, `hung, `published, `reading, `inherited, `handedOver, link, pairings
      ensures Valid()
      ensures !old(connected) ==> err == NotConnected && unchanged(this)
      ensures old(connected) ==> old(published) + [ResetTo(FactoryResetting)] <= published
      ensures err == NoError ==>
        LastRewrite(link.log) == Some(Cards.FactoryReset) || LastRewrite(link.log) == Some(Cards.InstallApplet)
    {
      hide Shown, AfterReading;
      if !connected {
        return NotConnected;
      }
      status := ResetTo(FactoryResetting);
      Publish();
      if hung {
        return Blocked;
      }
      ghost var h := link.log;
      var r := link.FactoryReset(true);
      ResettingIsGuarded(h, link.log);
      ResetCardConnection();
      ghost var seen := ForceScan();
      return if hung then Blocked else if r.Success? then NoError else CommandFailed;
    }

    /** What the card has stored, or nothing; stored bytes that cannot be parsed are an error. */
    method GetMetadata() returns (metadata: Option<Metadatas.Metadata>, err: Error)
      requires Valid()
      modifies `status, `connected, `mode, `hung, `published, `reading, `inherited, `handedOver, link, pairings
      ensures Valid()
      ensures err == NoError ==> Shown(link.card.app.data) == Ok(metadata) && unchanged(this)
      ensures err == NoError ==> link.card == old(link.card)
    {
      metadata := None;
      err := InitializedError();
      if err != NoError {
        return;
      }
      if hung {
        return metadata, Blocked;
      }
      var r := Exec(Cards.GetData);
      if !r.Success? {
        ghost var seen := CheckSCardError(r);
        return metadata, if hung then Blocked else CommandFailed;
      }
      if r.data.bytes == [] {
        return;
      }
      var parsed := Metadatas.Parse(r.data.bytes);
      if parsed.Err? {
        return metadata, CommandFailed;
      }
      var shown := Metadatas.ToMetadata(parsed.value);
      metadata := Some(shown);
    }

    /**
      Afterwards the card, and the published status, hold the metadata described by the arguments.  What cannot be read
      back is stored all the same, but the call then fails and the session is in error.
     */
    method StoreMetadata(name: string, paths: seq<string>) returns (err: Error)
      requires Valid()
      modifies `status, `connected, `mode, `hung, `published, `reading, `inherited, `handedOver, link, pairings
      ensures Valid()
      ensures old(AuthorizedError()) != NoError ==> err == old(AuthorizedError()) && unchanged(this)
      ensures err == BadArgument <==>
        old(AuthorizedError()) == NoError && Metadatas.BuildMetadata(name, paths).Err?
      ensures err == BadArgument ==> unchanged(this) && unchanged(link)
      ensures err == NoError ==>
        && Metadatas.BuildMetadata(name, paths).Ok? && connected && status.state == Authorized && Reads(reading)
        && var m := Metadatas.BuildMetadata(name, paths).value;
           link.card.app.data == Metadatas.Serialized(m) && Metadatas.AllSmall(Metadatas.Runs(m.paths)) &&
           status.metadata == Some(Metadatas.View(m))
    {
      hide Shown, Economical, IsAdmitted, Admission;
      err := AuthorizedError();
      if err != NoError {
        return;
      }
      var parsed := Paths.ParseAllPaths(paths);
      if parsed.Err? {
        return BadArgument;
      }
      var m := Metadatas.NewMetadata(name, parsed.value);
      if m.Err? {
        return BadArgument;
      }
      if hung {
        return Blocked;
      }
      StoredIsShownIff(name, parsed.value);
      var data := Metadatas.Serialize(m.value);
      hide Shown, Metadatas.ParseMetadata, Metadatas.Serialized, Metadatas.View, Metadatas.AllSmall;
      var r := Exec(Cards.StoreData(data));
      Cards.StoringChangesDataOnly(old(link.card), data, r, link.card);
      hide Cards.Answers;
      if !r.Success? {
        ghost var seen := CheckSCardError(r);
        return if hung then Blocked else CommandFailed;
      }
      var updated, _ := UpdateMetadata();
      if hung {
        return Blocked;
      }
      if !updated {
        return CommandFailed;
      }
      Publish();
      return NoError;
    }

    /** A path text that the decoder refuses is not sent. */
    method ExportKey(path: string, kind: Cards.ExportKind) returns (key: Cards.KeyPair, err: Error)
      requires Valid() && !hung && connected && status.state == Authorized
      modifies `status, `connected, `mode, `hung, `published, `reading, `inherited, `handedOver, link, pairings
      ensures Valid()
      ensures err == NoError ==> unchanged(this) && link.card == old(link.card)
      ensures err == NoError ==> Paths.Decode(path).Ok? && FlowTypes.OneKey(key) == Exported(link.card, path, kind)
      ensures Paths.Decode(path).Err? ==> err == CommandFailed && unchanged(this) && unchanged(link)
    {
      hide Paths.Decode;
      key := Cards.KeyPair("", Told(path), kind);
      if Paths.Decode(path).Err? {
        return key, CommandFailed;
      }
      var r := Exec(Cards.ExportKey(Told(path), kind));
      if !r.Success? {
        ghost var seen := CheckSCardError(r);
        return key, if hung then Blocked else CommandFailed;
      }
      return r.data.pair, NoError;
    }

    /** The two login keys: encryption first, whisper second. */
    method ExportLoginKeys() returns (enc: Cards.KeyPair, whisper: Cards.KeyPair, err: Error)
      requires Valid()
      modifies `status, `connected, `mode, `hung, `published, `reading, `inherited, `handedOver, link, pairings
      ensures Valid()
      ensures !old(hung) && old(AuthorizedError()) == NoError && old(link.card.app.keyUID) == "" ==>
        err == NoKeys && unchanged(this) && unchanged(link)
      ensures err == NoError ==>
        && unchanged(this) && link.card == old(link.card) && connected && status.state == Authorized && !hung
        && FlowTypes.OneKey(enc) == KeyAt(link.card, FlowTypes.ENCRYPTION_INDEXES, Cards.PrivateAndPublic)
        && FlowTypes.OneKey(whisper) == KeyAt(link.card, FlowTypes.WHISPER_INDEXES, Cards.PrivateAndPublic)
    {
      var nothing := Cards.KeyPair("", Paths.Derivation(Paths.Current, []), Cards.PublicOnly);
      enc, whisper := nothing, nothing;
      err := AuthorizedError();
      if err != NoError {
        return;
      }
      if !status.appStatus.value.keyInitialized {
        return enc, whisper, NoKeys;
      }
      if hung {
        return enc, whisper, Blocked;
      }
      hide Exported;
      FixedPathsExport(link.card, Cards.PrivateAndPublic);
      enc, err := ExportKey(FlowTypes.ENCRYPTION_PATH, Cards.PrivateAndPublic);
      if err == NoError {
        whisper, err := ExportKey(FlowTypes.WHISPER_PATH, Cards.PrivateAndPublic);
      }
    }

    function RootKind(): Cards.ExportKind
      reads this
    {
      if status.appInfo.Some? && status.appInfo.value.version >= 0x310 then Cards.ExtendedPublic else Cards.PublicOnly
    }

    /** All six keys in their order and forms, each at its own path but the EIP-1581 key, which is its parent's. */
    method ExportRecoverKeys() returns (keys: seq<Cards.KeyPair>, err: Error)
      requires Valid()
      modifies `status, `connected, `mode, `hung, `published, `reading, `inherited, `handedOver, link, pairings
      ensures Valid()
      ensures err == NoError ==> |keys| == 6 && unchanged(this) && link.card == old(link.card)
      ensures err == NoError ==>
        && FlowTypes.OneKey(keys[0]) == KeyAt(link.card, FlowTypes.ENCRYPTION_INDEXES, Cards.PrivateAndPublic)
        && FlowTypes.OneKey(keys[1]) == KeyAt(link.card, FlowTypes.WHISPER_INDEXES, Cards.PrivateAndPublic)
        && FlowTypes.OneKey(keys[2]) == KeyAt(link.card, FlowTypes.EIP1581_INDEXES[..2], Cards.PublicOnly)
        && FlowTypes.OneKey(keys[3]) == KeyAt(link.card, FlowTypes.WALLET_ROOT_INDEXES, WalletRootKind(link.card))
        && FlowTypes.OneKey(keys[4]) == KeyAt(link.card, FlowTypes.WALLET_INDEXES, Cards.PublicOnly)
        && FlowTypes.OneKey(keys[5]) == KeyAt(link.card, FlowTypes.MASTER_INDEXES, Cards.PublicOnly)
    {
      keys := [];
      var enc, whisper, eip1581, root, wallet, master;
      enc, whisper, err := ExportLoginKeys();
      if err != NoError {
        return;
      }
      eip1581, root, err := ExportRoots();
      if err != NoError {
        return;
      }
      wallet, master, err := ExportWalletAndMaster();
      if err != NoError {
        return;
      }
      keys := [enc, whisper, eip1581, root, wallet, master];
    }

    method ExportRoots() returns (eip1581: Cards.KeyPair, root: Cards.KeyPair, err: Error)
      requires Valid() && !hung && connected && status.state == Authorized
      modifies `status, `connected, `mode, `hung, `published, `reading, `inherited, `handedOver, link, pairings
      ensures Valid()
      ensures err == NoError ==>
        && unchanged(this) && link.card == old(link.card)
        && FlowTypes.OneKey(eip1581) == KeyAt(link.card, FlowTypes.EIP1581_INDEXES[..2], Cards.PublicOnly)
        && FlowTypes.OneKey(root) == KeyAt(link.card, FlowTypes.WALLET_ROOT_INDEXES, WalletRootKind(link.card))
    {
      var kind := RootKind();
      assert kind == WalletRootKind(link.card);
      FixedPathsExport(link.card, Cards.PublicOnly);
      FixedPathsExport(link.card, kind);
      hide Exported, KeyAt, WalletRootKind;
      eip1581, err := ExportKey(FlowTypes.EIP1581_PATH, Cards.PublicOnly);
      root := eip1581;
      if err == NoError {
        root, err := ExportKey(Paths.WALLET_ROOT, kind);
      }
    }

    method ExportWalletAndMaster() returns (wallet: Cards.KeyPair, master: Cards.KeyPair, err: Error)
      requires Valid() && !hung && connected && status.state == Authorized
      modifies `status, `connected, `mode, `hung, `published, `reading, `inherited, `handedOver, link, pairings
      ensures Valid()
      ensures err == NoError ==>
        && unchanged(this) && link.card == old(link.card)
        && FlowTypes.OneKey(wallet) == KeyAt(link.card, FlowTypes.WALLET_INDEXES, Cards.PublicOnly)
        && FlowTypes.OneKey(master) == KeyAt(link.card, FlowTypes.MASTER_INDEXES, Cards.PublicOnly)
    {
      hide Exported;
      FixedPathsExport(link.card, Cards.PublicOnly);
      wallet, err := ExportKey(FlowTypes.WALLET_PATH, Cards.PublicOnly);
      master := wallet;
      if err == NoError {
        master, err := ExportKey(FlowTypes.MASTER_PATH, Cards.PublicOnly);
      }
    }

    // -------------------------------------------------------------------------------------------
    // The environment, and whole sessions
    // -------------------------------------------------------------------------------------------

    /** The card is pulled out: everything sent to it from now on is a reader error. */
    method Unplug()
      requires Valid()
      modifies link`alive
      ensures Valid()
    {
      link.alive := false;
    }

    /** One round of the watcher: nothing happened, the card or the reader is gone, or polling failed. */
    method WatchTick()
      requires Valid()
      modifies `mode
      ensures Valid()
    {
      var gone, failed := *, *;
      if mode == Watching && gone {
        mode := Detecting;
      } else if mode == Watching && failed {
        mode := Halted;
      }
    }

    /**
      A pass while a client waits for ever with the command set locked.  A new command set is made for the card that is
      found, and the pass then waits for the lock; status and recording stay as they are.
     */
    method DetectBehindLock()
      requires Valid() && hung && mode == Detecting
      modifies `status, `connected, `mode, `published, `reading, `inherited, link
      ensures Valid() && hung
      ensures if connected then Stuck() && status == old(status) && published == old(published)
              else mode == old(mode) || mode == Halted
    {
      var listed, readers, inserted, connects, waits := *, *, *, *, *;
      if !listed {
        status, mode := ResetTo(InternalError), Halted;
        Publish();
        return;
      }
      mode := if waits then Detecting else Halted;
      if readers && inserted && connects {
        NewCommandSet();
        mode := Halted;
        return;
      }
      status :=
        if !readers then ResetTo(WaitingForReader)
        else if !inserted then ResetTo(WaitingForCard)
        else status.(state := ConnectionError);
      Publish();
    }

    method Perform(step: Step)
      requires Valid()
      modifies `status, `connected, `mode, `hung, `published, `reading, `inherited, `handedOver, link, pairings
      ensures Valid()
    {
      match step {
        case DoVerifyPIN(pin) => var _, _, _ := VerifyPIN(pin);
        case DoChangePIN(pin) => var _, _ := ChangePIN(pin);
        case DoUnblockPIN(puk, pin) => var _, _ := UnblockPIN(puk, pin);
        case DoChangePUK(puk) => var _, _ := ChangePUK(puk);
        case DoGenerateMnemonic(n) => var _, _ := GenerateMnemonic(n);
        case DoLoadMnemonic(m, p) => var _, _ := LoadMnemonic(m, p);
        case DoInitialize(pin, puk, pass) => var _ := Initialize(pin, puk, pass);
        case DoFactoryReset => var _ := FactoryReset();
        case DoGetMetadata => var _, _ := GetMetadata();
        case DoStoreMetadata(name, paths) => var _ := StoreMetadata(name, paths);
        case DoExportLoginKeys => var _, _, _ := ExportLoginKeys();
        case DoExportRecoverKeys => var _, _ := ExportRecoverKeys();
        case Detection =>
          if mode == Detecting && hung {
            DetectBehindLock();
          } else if mode == Detecting {
            ghost var seen := Detect(false);
          }
        case Watch => WatchTick();
        case PullCard => Unplug();
      }
    }

    /** Any session, however long: the invariants hold at its end, and so after every prefix of it. */
    method Session(steps: seq<Step>)
      requires Valid()
      modifies `status, `connected, `mode, `hung, `published, `reading, `inherited, `handedOver, link, pairings
      ensures Valid()
      ensures connected && Known(status.state) && (!hung || link.card.channel.Some?) ==>
        && status.appStatus == Some(CountersOf(link.card))
        && status.appInfo == Some(link.card.app.Selected())
        && (Shown(link.card.app.data) == Ok(status.metadata) <==>
            Reads(reading) || Shown(link.card.app.data) == Ok(inherited))
        && (Reads(reading) || handedOver)
      ensures connected && Known(status.state) ==> link.card.channel.Some? || (hung && mode == Halted)
      ensures connected && status.state == Authorized && link.card.channel.Some? ==>
        link.card.authenticated && Verified(link.log) && !Demoted(link.log)
      ensures connected && status.state == Ready && link.card.channel.Some? ==>
        (link.card.authenticated <==> Demoted(link.log))
      ensures Guarded(link.log)
      ensures WellFormed(status) && forall i :: 0 <= i < |published| ==> WellFormed(published[i])
      ensures forall uid :: PairsIssued(link.log, uid) <= Allowance(loaded, uid)
    {
      for i := 0 to |steps|
        invariant Valid()
      {
        Perform(steps[i]);
      }
    }
  }

  lemma NotPairing(h: History, loaded: Pairing.Pairings, values: Pairing.Pairings, e: Event)
    requires Economical(h, loaded, values) && e.Sent? && !e.cmd.Pair?
    ensures Economical(Then(h, e), loaded, values)
  {
  }

  lemma ConnectIsSilent(h: History, loaded: Pairing.Pairings, values: Pairing.Pairings)
    requires Economical(h, loaded, values)
    ensures Economical(Then(h, Connected), loaded, values)
  {
  }

  /** Pairing with a card that is not in the store, and remembering it, keeps the account. */
  lemma PairingIsRecorded(h: History, loaded: Pairing.Pairings, values: Pairing.Pairings, e: Event,
                          info: Pairing.Info)
    requires Economical(h, loaded, values)
    requires e.Sent? && e.cmd.Pair? && e.before.app.instanceUID !in values
    ensures !e.reply.Success? ==> Economical(Then(h, e), loaded, values)
    ensures e.reply.Success? ==> Economical(Then(h, e), loaded, values[e.before.app.instanceUID := info])
  {
  }
}
