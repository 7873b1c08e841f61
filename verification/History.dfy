/**
  What an observer standing between the library, the card and the client can record, and the laws every
  such recording has to obey.  The laws are stated on single events seen in the light of what came before.
 */
module Histories {
  import opened Wrappers
  import opened FlowTypes
  import Cards
  import Hex
  import Metadatas
  import Paths

  datatype Event =
    | Connected                                                               // a card was found, nothing sent yet
    | Sent(cmd: Cards.Command, reply: Cards.Reply, before: Cards.Card)        // a command, its answer, the card before
    | Admitted(card: Cards.Card, params: Params)                              // the selected card was accepted
    | Started(flow: FlowType, params: Params)
    | Resumed(params: Params)
    | CancelRequested
    | Signalled(signal: Signal, status: Status, card: Cards.Card)
    | Published(flow: FlowType, params: Params, status: Status, card: Cards.Card) // FlowResult
    | Ended

  datatype History = Nothing | Then(past: History, last: Event)

  ghost predicate Extends(h: History, g: History) {
    h == g || (h.Then? && Extends(h.past, g))
  }

  /** `h` continues `g` within the connection that is current at the end of `g`. */
  ghost predicate SameConnection(h: History, g: History) {
    h == g || (h.Then? && h.last != Connected && SameConnection(h.past, g))
  }

  // ---------------------------------------------------------------------------------------------
  // The connection
  // ---------------------------------------------------------------------------------------------

  predicate OpensChannel(e: Event) {
    e.Sent? && e.cmd.OpenChannel? && e.reply.Success?
  }

  predicate Verifies(e: Event) {
    e.Sent? && (e.cmd.VerifyPin? || e.cmd.UnblockPin?) && e.reply.Success?
  }

  /** Commands whose success ends the secure channel. */
  predicate ClosesChannel(e: Event) {
    e == Connected ||
    (e.Sent? && e.reply.Success? &&
     (e.cmd.Select? || e.cmd.Init? || e.cmd.FactoryReset? || e.cmd.SelectIssuer? || e.cmd.OpenIssuerChannel? ||
      e.cmd.DeleteApplet? || e.cmd.InstallApplet?))
  }

  predicate RejectsPin(e: Event) {
    e.Sent? && e.cmd.VerifyPin? && e.reply.Wrong?
  }

  predicate RejectsPuk(e: Event) {
    e.Sent? && e.cmd.UnblockPin? && e.reply.Wrong?
  }

  ghost predicate ChannelOpen(h: History) {
    h.Then? && !ClosesChannel(h.last) && (OpensChannel(h.last) || ChannelOpen(h.past))
  }

  ghost predicate Verified(h: History) {
    h.Then? && !ClosesChannel(h.last) && !OpensChannel(h.last) && !RejectsPin(h.last) &&
    (Verifies(h.last) || Verified(h.past))
  }

  /** Commands whose success makes another applet of the card: its identity is a new one. */
  predicate Rewrites(e: Event) {
    e.Sent? && e.reply.Success? &&
    (e.cmd.Init? || e.cmd.FactoryReset? || e.cmd.DeleteApplet? || e.cmd.InstallApplet?)
  }

  /** The last acceptance of a card in the current connection, unless the card has been rewritten since. */
  ghost function Admission(h: History): (a: Option<Event>)
    ensures a.Some? ==> a.value.Admitted?
  {
    if h.Nothing? || h.last == Connected || Rewrites(h.last) then None
    else if h.last.Admitted? then Some(h.last)
    else Admission(h.past)
  }

  predicate ChangesKey(e: Event) {
    e.Sent? && e.reply.Success? && (e.cmd.LoadSeed? || e.cmd.RemoveKey?)
  }

  /** No seed was loaded and no key removed since the card was accepted. */
  ghost predicate KeyUntouched(h: History) {
    h.Then? && (h.last.Admitted? || (!ChangesKey(h.last) && KeyUntouched(h.past)))
  }

  /** This is the card that was accepted. */
  ghost predicate IsAdmitted(h: History, card: Cards.Card) {
    Admission(h).Some? ==>
      var accepted := Admission(h).value.card.app.Selected();
      && card.app.Selected().installed == accepted.installed
      && card.app.Selected().instanceUID == accepted.instanceUID
      && (KeyUntouched(h) ==> card.app.Selected().keyUID == accepted.keyUID)
  }

  /** On this connection the card has named one of these authorities. */
  ghost predicate Vouched(h: History, authorities: seq<string>) {
    h.Then? && h.last != Connected && !Rewrites(h.last) &&
    (VouchedBy(h.last, authorities) || Vouched(h.past, authorities))
  }

  predicate VouchedBy(e: Event, authorities: seq<string>) {
    e.Sent? && e.cmd.Identify? && e.reply.Success? && e.reply.data.Authority? && e.reply.data.ca in authorities
  }

  /** In this run the user has named this card as exempt from the check of its authority. */
  ghost predicate Exempted(h: History, uid: string) {
    h.Then? &&
    (if h.last.Started? then Holds(h.last.params, SkipAuthUID, Text(uid))
     else (h.last.Resumed? && Holds(h.last.params, SkipAuthUID, Text(uid))) || Exempted(h.past, uid))
  }

  /** What the user has entered in the current run, later values replacing earlier ones. */
  ghost function Merged(h: History): Params {
    if h.Nothing? then map[]
    else if h.last.Started? then h.last.params
    else if h.last.Resumed? then Merged(h.past) + h.last.params
    else Merged(h.past)
  }

  /** The parameters are what the user has entered, but for a PIN and a pairing password that have become current. */
  ghost predicate Sourced(h: History, params: Params) {
    forall k :: k in params ==>
      Holds(Merged(h), k, params[k]) || ((k == PIN || k == PairingPass) && params[k].Text?)
  }

  lemma {:induction false} MergedIsExempted(h: History, uid: string)
    requires Holds(Merged(h), SkipAuthUID, Text(uid))
    ensures Exempted(h, uid)
  {
    if h.last.Started? || (h.last.Resumed? && Holds(h.last.params, SkipAuthUID, Text(uid))) {
    } else {
      MergedIsExempted(h.past, uid);
    }
  }

  /** With authorities configured, a card is trusted for one of two reasons. */
  ghost predicate Trusted(authorities: seq<string>, h: History, uid: string) {
    authorities == [] || Vouched(h, authorities) || Exempted(h, uid)
  }

  /** Slots taken by this library since the card was last selected. */
  ghost function PairedSince(h: History): nat {
    if h.Nothing? || ClosesChannel(h.last) then 0
    else if h.last.Sent? && h.last.cmd.Pair? && h.last.reply.Success? then 1 + PairedSince(h.past)
    else PairedSince(h.past)
  }

  // ---------------------------------------------------------------------------------------------
  // Secrets
  // ---------------------------------------------------------------------------------------------

  function Count(b: bool): nat {
    if b then 1 else 0
  }

  function HeldUnder(params: Params, k: Key, secret: string): nat {
    Count(k in params && params[k] == Text(secret))
  }

  function HeldPins(params: Params, pin: string): nat {
    HeldUnder(params, PIN, pin) + HeldUnder(params, NewPIN, pin)
  }

  /** How often the user has supplied this text as PIN or as new PIN. */
  ghost function SuppliedPins(h: History, pin: string): nat {
    if h.Nothing? then 0
    else if h.last.Started? || h.last.Resumed? then HeldPins(h.last.params, pin) + SuppliedPins(h.past, pin)
    else SuppliedPins(h.past, pin)
  }

  /** How often a card has rejected this text as its PIN, each time burning an attempt. */
  ghost function RejectedPins(h: History, pin: string): nat {
    if h.Nothing? then 0
    else Count(RejectsPin(h.last) && h.last.cmd.pin == pin) + RejectedPins(h.past, pin)
  }

  ghost function SuppliedPuks(h: History, puk: string): nat {
    if h.Nothing? then 0
    else if h.last.Started? || h.last.Resumed? then HeldUnder(h.last.params, PUK, puk) + SuppliedPuks(h.past, puk)
    else SuppliedPuks(h.past, puk)
  }

  ghost function RejectedPuks(h: History, puk: string): nat {
    if h.Nothing? then 0 else Count(RejectsPuk(h.last) && h.last.cmd.puk == puk) + RejectedPuks(h.past, puk)
  }

  // ---------------------------------------------------------------------------------------------
  // Runs
  // ---------------------------------------------------------------------------------------------

  datatype Phase = Quiet | Live | Concluded

  ghost function RunPhase(h: History): Phase {
    match h
    case Nothing => Quiet
    case Then(past, e) =>
      match e
      case Started(_, _) => Live
      case Published(_, _, _, _) => Concluded
      case Ended => Quiet
      case _ => RunPhase(past)
  }

  ghost function Connections(h: History): nat {
    if h.Nothing? then 0 else Count(h.last == Connected) + Connections(h.past)
  }

  /** A cancellation the run still has to honour.  Only an InsertCard prompt makes the run forget it. */
  ghost predicate CancelPending(h: History) {
    h.Then? && !h.last.Started? && !(h.last.Signalled? && h.last.signal == InsertCard) &&
    (h.last.CancelRequested? || CancelPending(h.past))
  }

  /** A card has been asked for, and neither the reader nor the client has answered. */
  ghost predicate AwaitingCard(h: History) {
    h.Then? && !h.last.Published? && !h.last.Started? && !h.last.Resumed? && !h.last.CancelRequested? &&
    (if h.last.Signalled? then h.last.signal == InsertCard else AwaitingCard(h.past))
  }

  // ---------------------------------------------------------------------------------------------
  // Panics
  // ---------------------------------------------------------------------------------------------

  /** In this run the client has made a call during an InsertCard prompt that nobody had answered. */
  ghost predicate Intruded(h: History) {
    h.Then? && !h.last.Started? &&
    (((h.last.Resumed? || h.last.CancelRequested?) && AwaitingCard(h.past)) || Intruded(h.past))
  }

  /** The last thing that happened is that the master key was not exported. */
  ghost predicate MasterExportFailed(h: History) {
    && h.Then? && h.last.Sent? && !h.last.reply.Success?
    && h.last.cmd == Cards.ExportKey(Paths.Derivation(Paths.Master, MASTER_INDEXES), Cards.PublicOnly)
  }

  /** What it takes for the engine to panic. */
  ghost predicate Provoked(flow: FlowType, h: History) {
    || IllTyped(flow, Merged(h))
    || (AsksForMaster(flow, Merged(h)) && MasterExportFailed(h))
    || Intruded(h)
  }

  /** An ill-typed parameter is one that the user has entered. */
  lemma MistakesAreEntered(flow: FlowType, h: History, params: Params)
    requires Sourced(h, params)
    ensures IllTyped(flow, params) ==> IllTyped(flow, Merged(h))
    ensures AsksForMaster(flow, params) ==> AsksForMaster(flow, Merged(h))
  {
  }

  // ---------------------------------------------------------------------------------------------
  // The laws
  // ---------------------------------------------------------------------------------------------

  /** A status that names a card names the card that is connected. */
  predicate TruthfulIdentity(status: Status, card: Cards.Card) {
    && (InstanceUID in status ==> status[InstanceUID] == Text(card.app.Selected().instanceUID))
    && (KeyUID in status ==> status[KeyUID] == Text(card.app.Selected().keyUID))
  }

  /** Every fact about the card that a prompt reports is true of the card. */
  ghost predicate Truthful(h: History, status: Status, card: Cards.Card) {
    && TruthfulIdentity(status, card)
    && (PINRetries in status ==> status[PINRetries] == Number(card.pinRetries))
    && (PUKRetries in status ==> status[PUKRetries] == Number(card.pukRetries))
    // the slots reported are those of the last SELECT, so they lag by the pairings made since
    && (FreeSlots in status ==> status[FreeSlots] == Number(card.app.Selected().freeSlots + PairedSince(h)))
  }

  /** The card accepted by selection met the constraints in force at that moment. */
  predicate MeetsConstraints(info: Cards.AppInfo, params: Params) {
    && info.installed
    && (InstanceUID in params ==> params[InstanceUID] == Text(info.instanceUID))
    && (KeyUID in params ==> params[KeyUID] == Text(info.keyUID))
  }

  predicate NeedsAdmission(cmd: Cards.Command) {
    !(cmd.Select? || cmd.FactoryReset? || cmd.SelectIssuer? || cmd.OpenIssuerChannel? || cmd.DeleteApplet? ||
      cmd.InstallApplet?)
  }

  ghost predicate LawfulCommand(authorities: seq<string>, h: History, cmd: Cards.Command, card: Cards.Card) {
    && RunPhase(h) == Live
    && !AwaitingCard(h)    // CardInserted comes first
    && (Cards.Privileged(cmd) ==> ChannelOpen(h) && Verified(h))
    && (NeedsAdmission(cmd) ==> Admission(h).Some?)
    && IsAdmitted(h, card)
    && (cmd.Pair? ==> Trusted(authorities, h, card.app.Selected().instanceUID))
    && (match cmd
        case VerifyPin(pin) =>
          ChannelOpen(h) && card.pinRetries > 0 && RejectedPins(h, pin) < SuppliedPins(h, pin)
        case UnblockPin(puk, _) =>
          ChannelOpen(h) && card.pinRetries == 0 && card.pukRetries > 0 &&
          RejectedPuks(h, puk) < SuppliedPuks(h, puk)
        case LoadSeed(_, _) =>
          card.app.keyUID == "" || (Admission(h).Some? && IsSet(Admission(h).value.params, Overwrite))
        case _ => true)
  }

  /** What the card is told for a path text.  A text that the decoder refuses is not sent at all. */
  function Told(path: string): Paths.Derivation {
    match Paths.Decode(path)
    case Ok(d) => d
    case Err(_) => Paths.Derivation(Paths.Current, [])
  }

  function Exported(card: Cards.Card, path: string, kind: Cards.ExportKind): Value {
    OneKey(Cards.KeyPair(card.app.keyUID, Told(path), kind))
  }

  /** The key at the path that a list of indexes denotes, from the master key. */
  function KeyAt(card: Cards.Card, components: seq<Paths.uint32>, kind: Cards.ExportKind): Value {
    OneKey(Cards.KeyPair(card.app.keyUID, Paths.Derivation(Paths.Master, components), kind))
  }

  /** A printed path exports its own key exactly when it does not end in a hardened index. */
  lemma PrintedPathExportsOwnKeyIff(card: Cards.Card, raw: seq<Paths.uint32>, kind: Cards.ExportKind)
    ensures Exported(card, Paths.Encode(raw), kind) == KeyAt(card, raw, kind) <==>
            raw == [] || raw[|raw| - 1] < Paths.HARDENED
    ensures Exported(card, Paths.Encode(raw), kind) == KeyAt(card, Paths.Readable(raw), kind)
  {
    Paths.DecodeEncode(raw);
    Paths.RoundTripIff(raw);
  }

  /** Signing with a printed path uses its own key exactly when the path does not end in a hardened index. */
  lemma PrintedPathSignsWithOwnKeyIff(raw: seq<Paths.uint32>)
    ensures Told(Paths.Encode(raw)).components == raw <==> raw == [] || raw[|raw| - 1] < Paths.HARDENED
  {
    Paths.DecodeEncode(raw);
    Paths.RoundTripIff(raw);
  }

  /** Signing takes the same key for a path from the parent of the current key as for one from the master key. */
  lemma SigningIgnoresTheStart(tail: string)
    ensures Told(".." + tail).components == Told("m" + tail).components
    ensures Paths.Decode("m" + tail).Ok? ==> Told(".." + tail).start != Told("m" + tail).start
  {
    assert ("m" + tail)[1..] == tail && (".." + tail)[2..] == tail;
  }

  predicate Holds(status: Status, k: Key, v: Value) {
    k in status && status[k] == v
  }

  predicate NamesCard(status: Status, card: Cards.Card) {
    Holds(status, InstanceUID, Text(card.app.instanceUID)) && Holds(status, KeyUID, Text(card.app.keyUID))
  }

  predicate LoginKeys(status: Status, card: Cards.Card) {
    && Holds(status, EncKey, KeyAt(card, ENCRYPTION_INDEXES, Cards.PrivateAndPublic))
    && Holds(status, WhisperKey, KeyAt(card, WHISPER_INDEXES, Cards.PrivateAndPublic))
  }

  /** Cards from version 3.10 on export the wallet root together with its chain code. */
  function WalletRootKind(card: Cards.Card): Cards.ExportKind {
    if card.app.version < 0x310 then Cards.PublicOnly else Cards.ExtendedPublic
  }

  /** Every key is the one at its own path, except that the EIP-1581 key is the one of the parent, m/43'/60'. */
  predicate RecoverKeys(status: Status, card: Cards.Card) {
    && LoginKeys(status, card)
    && Holds(status, EIP1581Key, KeyAt(card, EIP1581_INDEXES[..2], Cards.PublicOnly))
    && Holds(status, WalletRootKey, KeyAt(card, WALLET_ROOT_INDEXES, WalletRootKind(card)))
    && Holds(status, WalletKey, KeyAt(card, WALLET_INDEXES, Cards.PublicOnly))
    && Holds(status, MasterKey, KeyAt(card, MASTER_INDEXES, Cards.PublicOnly))
  }

  /** Of the fixed paths only that of EIP-1581 ends in a hardened index, so only its key is another one. */
  lemma FixedPathsExport(card: Cards.Card, kind: Cards.ExportKind)
    ensures Exported(card, MASTER_PATH, kind) == KeyAt(card, MASTER_INDEXES, kind)
    ensures Exported(card, Paths.WALLET_ROOT, kind) == KeyAt(card, WALLET_ROOT_INDEXES, kind)
    ensures Exported(card, WALLET_PATH, kind) == KeyAt(card, WALLET_INDEXES, kind)
    ensures Exported(card, WHISPER_PATH, kind) == KeyAt(card, WHISPER_INDEXES, kind)
    ensures Exported(card, ENCRYPTION_PATH, kind) == KeyAt(card, ENCRYPTION_INDEXES, kind)
    ensures Exported(card, EIP1581_PATH, kind) == KeyAt(card, EIP1581_INDEXES[..2], kind)
    ensures Exported(card, EIP1581_PATH, kind) != KeyAt(card, EIP1581_INDEXES, kind)
  {
    hide Exported, Paths.Encode;
    WalletPathTexts();
    ChatPathTexts();
    Eip1581PathText();
    PrintedPathExportsOwnKeyIff(card, MASTER_INDEXES, kind);
    PrintedPathExportsOwnKeyIff(card, WALLET_ROOT_INDEXES, kind);
    PrintedPathExportsOwnKeyIff(card, WALLET_INDEXES, kind);
    PrintedPathExportsOwnKeyIff(card, WHISPER_INDEXES, kind);
    PrintedPathExportsOwnKeyIff(card, ENCRYPTION_INDEXES, kind);
    PrintedPathExportsOwnKeyIff(card, EIP1581_INDEXES, kind);
  }

  lemma MasterPathIsRead()
    ensures Paths.Decode(MASTER_PATH) == Ok(Paths.Derivation(Paths.Master, MASTER_INDEXES))
  {
    hide Paths.Encode;
    WalletPathTexts();
    Paths.DecodeEncode(MASTER_INDEXES);
  }

  function PublicExportKind(params: Params): Cards.ExportKind {
    if IsSet(params, ExportPriv) then Cards.PrivateAndPublic else Cards.PublicOnly
  }

  /** The keys asked for, one for each path and in the order of the paths. */
  ghost predicate RequestedKeys(params: Params, exported: Value, card: Cards.Card) {
    && BIP44Path in params
    && match params[BIP44Path]
       case Text(path) => Paths.Decode(path).Ok? && exported == Exported(card, path, PublicExportKind(params))
       case Items(paths) =>
         && exported.ManyKeys? && |exported.pairs| == |paths|
         && forall i :: 0 <= i < |paths| ==>
              paths[i].Text? && Paths.Decode(paths[i].text).Ok? &&
              OneKey(exported.pairs[i]) == Exported(card, paths[i].text, PublicExportKind(params))
       case _ => false
  }

  function Texts(items: seq<Value>): seq<string>
    requires AllTexts(items)
  {
    seq(|items|, i requires 0 <= i < |items| => items[i].text)
  }

  /** The metadata on the card is what the card name and the wallet paths in the parameters describe. */
  ghost predicate RequestedMetadata(params: Params, data: Hex.bytes) {
    && CardName in params && params[CardName].Text?
    && WalletPaths in params && params[WalletPaths].Items? && AllTexts(params[WalletPaths].items)
    && var built := Metadatas.BuildMetadata(params[CardName].text, Texts(params[WalletPaths].items));
       built.Ok? && data == Metadatas.Serialized(built.value)
  }

  /** The card's metadata, with every wallet's key exported, or with none when resolving was not asked for. */
  ghost predicate ReportedMetadata(params: Params, reported: Value, card: Cards.Card) {
    && reported.Meta?
    && var stored := Metadatas.ParseMetadata(card.app.data);
       && stored.Ok? && reported.name == Hex.Text(stored.value.name)
       && |reported.wallets| == |stored.value.paths|
       && (forall i :: 0 <= i < |reported.wallets| ==>
             reported.wallets[i].path == Paths.WalletPath(stored.value.paths[i]))
       && (ResolvedTo(reported.wallets, stored.value.paths, card) ||
           (!IsSet(params, ResolveAddr) && forall i :: 0 <= i < |reported.wallets| ==> reported.wallets[i].key == None))
  }

  /** Every wallet has the public key of the child it stands for. */
  ghost predicate ResolvedTo(wallets: seq<Wallet>, children: seq<Paths.uint32>, card: Cards.Card)
    requires |wallets| == |children|
  {
    forall i :: 0 <= i < |wallets| ==>
      wallets[i].key == Some(Cards.KeyPair(card.app.keyUID, Paths.Child(children[i]), Cards.PublicOnly))
  }

  /** Every wallet has the key that is exported for its path text. */
  ghost predicate Resolved(wallets: seq<Wallet>, n: nat, card: Cards.Card)
    requires n <= |wallets|
  {
    forall i :: 0 <= i < n ==>
      wallets[i].key == Some(Cards.KeyPair(card.app.keyUID, Told(wallets[i].path), Cards.PublicOnly))
  }

  /** The wallets read from a card stand for unhardened children, so their path texts export their own keys. */
  lemma ReadWalletsResolveToChildren(wallets: seq<Wallet>, card: Cards.Card)
    requires var stored := Metadatas.ParseMetadata(card.app.data);
      stored.Ok? && |wallets| == |stored.value.paths| &&
      forall i :: 0 <= i < |wallets| ==> wallets[i].path == Paths.WalletPath(stored.value.paths[i])
    requires Resolved(wallets, |wallets|, card)
    ensures ResolvedTo(wallets, Metadatas.ParseMetadata(card.app.data).value.paths, card)
  {
    var children := Metadatas.ParseMetadata(card.app.data).value.paths;
    Metadatas.ParsedIndexesAreSmall(card.app.data);
    forall i | 0 <= i < |wallets| ensures Told(wallets[i].path) == Paths.Child(children[i]) {
      assert children[i] in children;
      Paths.DecodeEncode(Paths.Child(children[i]).components);
    }
  }

  predicate Failed(status: Status) {
    ErrorKey in status && status[ErrorKey] != Text(ERROR_OK)
  }

  /** What a published result without an error says about the card it was obtained from. */
  ghost predicate Accomplished(flow: FlowType, params: Params, status: Status, card: Cards.Card) {
    match flow
    case GetAppInfo =>
      && Holds(status, AppInfoKey, App(card.app.Selected()))
      && (Holds(status, PairedKey, Flag(true)) ==>
            card.authenticated &&
            Holds(status, PINRetries, Number(card.pinRetries)) && Holds(status, PUKRetries, Number(card.pukRetries)))
    case Login =>
      card.app.keyUID != "" && NamesCard(status, card) && LoginKeys(status, card)
    case RecoverAccount =>
      card.app.keyUID != "" && NamesCard(status, card) && RecoverKeys(status, card)
    case ExportPublic =>
      && card.app.keyUID != "" && NamesCard(status, card)
      && ExportedKey in status && RequestedKeys(params, status[ExportedKey], card)
      && (MasterAddr in status ==> status[MasterAddr] == Exported(card, MASTER_PATH, Cards.PublicOnly))
    case LoadAccount =>
      card.app.keyUID != "" && NamesCard(status, card)
    case Sign =>
      && card.app.keyUID != "" && NamesCard(status, card)
      && TXSignature in status && status[TXSignature].Sig?
      && SignedAsAsked(params, status[TXSignature].signature, card)
    case ChangePIN =>
      NamesCard(status, card) && Holds(params, NewPIN, Text(card.pin))
    case ChangePUK =>
      NamesCard(status, card) && Holds(params, NewPUK, Text(card.puk))
    case ChangePairing =>
      NamesCard(status, card) && Holds(params, NewPairing, Text(card.app.pairingPass))
    case UnpairThis =>
      NamesCard(status, card) && Holds(status, FreeSlots, Number(card.app.Free()))
    case UnpairOthers =>
      && NamesCard(status, card) && card.channel.Some?
      && forall i :: i in card.app.pairings <==> i == card.channel.value
    case DeleteAccountAndUnpair =>
      NamesCard(status, card) && card.app.keyUID == "" && Holds(status, FreeSlots, Number(card.app.Free()))
    case StoreMetadata =>
      NamesCard(status, card) && RequestedMetadata(params, card.app.data)
    case GetMetadata =>
      NamesCard(status, card) && CardMeta in status && ReportedMetadata(params, status[CardMeta], card)
    case UnknownFlow => false
  }

  predicate SignedAsAsked(params: Params, signature: Cards.Signature, card: Cards.Card) {
    && signature.keyUID == card.app.keyUID
    && BIP44Path in params && params[BIP44Path].Text? && Paths.Decode(params[BIP44Path].text).Ok?
    && signature.components == Told(params[BIP44Path].text).components
    && TXHash in params && params[TXHash].Text? && Hex.Xtob(params[TXHash].text) == Ok(signature.hash)
  }

  ghost predicate LawfulResult(h: History, flow: FlowType, params: Params, status: Status, card: Cards.Card) {
    && RunPhase(h) == Live && !CancelPending(h)
    && IsAdmitted(h, card) && TruthfulIdentity(status, card)
    && (!Failed(status) ==> Accomplished(flow, params, status, card))
  }

  ghost predicate LawfulEvent(authorities: seq<string>, h: History, e: Event) {
    match e
    case Connected => RunPhase(h) == Live
    case Sent(cmd, _, card) => LawfulCommand(authorities, h, cmd, card)
    case Admitted(card, params) => MeetsConstraints(card.app.Selected(), params)
    case Started(_, _) => RunPhase(h) == Quiet
    case Resumed(_) => RunPhase(h) == Live
    case CancelRequested => RunPhase(h) == Live
    case Signalled(signal, status, card) =>
      && RunPhase(h) == Live
      && (signal == InsertCard || !CancelPending(h))
      && (signal == CardInserted ==> AwaitingCard(h))
      && (signal != InsertCard && signal != CardInserted ==> IsAdmitted(h, card) && Truthful(h, status, card))
    case Published(flow, params, status, card) => LawfulResult(h, flow, params, status, card)
    case Ended => RunPhase(h) != Quiet
  }

  ghost predicate Lawful(authorities: seq<string>, h: History) {
    h.Then? ==> Lawful(authorities, h.past) && LawfulEvent(authorities, h.past, h.last)
  }

  /** The secrets held in the parameters are covered by what the user supplied, and so are all other values. */
  ghost predicate Accounted(h: History, params: Params) {
    && (forall pin :: RejectedPins(h, pin) + HeldPins(params, pin) <= SuppliedPins(h, pin))
    && (forall puk :: RejectedPuks(h, puk) + HeldUnder(params, PUK, puk) <= SuppliedPuks(h, puk))
    && Sourced(h, params)
  }
}
