/**
  The card as the library sees it: a persistent part, the state of the current connection, and for every
  command the answers a card may give.  `Answers` is a relation, not a function: a card may always refuse a
  command or be unreachable, and what it does when it complies or rejects a secret is fixed.
 */
module Cards {
  import opened Wrappers
  import Hex
  import Pairing
  import Paths

  const MAX_PIN_RETRIES := 3
  const MAX_PUK_RETRIES := 5
  const MAX_FREE_SLOTS := 5

  datatype ExportKind = PublicOnly | PrivateAndPublic | ExtendedPublic

  /** An exported key, named by what determines it: the key tree on the card, the path and the form asked for. */
  datatype KeyPair = KeyPair(keyUID: string, path: Paths.Derivation, kind: ExportKind)

  /** Signing always derives from the master key, whatever the path text begins with. */
  datatype Signature = Signature(keyUID: string, components: seq<Paths.uint32>, hash: Hex.bytes)

  datatype AppInfo = AppInfo(
    installed: bool,
    initialized: bool,
    instanceUID: string,
    keyUID: string,
    freeSlots: int,
    version: int,
    canReset: bool)

  const NO_APP_INFO := AppInfo(false, false, "", "", 0, 0, false)

  datatype AppStatus = AppStatus(pinRetries: int, pukRetries: int, keyInitialized: bool)

  datatype Command =
    | Select
    | Init(pin: string, puk: string, pairingPass: string)
    | Identify
    | Pair(pass: string)
    | OpenChannel(index: int, key: Hex.bytes)
    | GetStatus
    | VerifyPin(pin: string)
    | UnblockPin(puk: string, newPin: string)
    | ChangePin(pin: string)
    | ChangePuk(puk: string)
    | ChangePairing(pass: string)
    | GenerateMnemonic(checksumSize: int)
    | LoadSeed(mnemonic: string, password: string)
    | RemoveKey
    | ExportKey(path: Paths.Derivation, kind: ExportKind)
    | Sign(hash: Hex.bytes, components: seq<Paths.uint32>)
    | Unpair(index: int)
    | GetData
    | StoreData(data: Hex.bytes)
    | FactoryReset
    | SelectIssuer
    | OpenIssuerChannel
    | DeleteApplet
    | InstallApplet

  datatype Data =
    | Nothing
    | Info(info: AppInfo)
    | Authority(ca: string)
    | Paired(pairing: Pairing.Info)
    | Status(status: AppStatus)
    | Words(indexes: seq<int>)
    | KeyUID(uid: string)
    | Key(pair: KeyPair)
    | Signed(signature: Signature)
    | Stored(bytes: Hex.bytes)

  datatype Reason = NoAvailablePairingSlots | BadResponse(sw: nat) | OtherReason

  /** `Wrong` is the card's rejection of a PIN or PUK with the attempts left; `Fault` is a reader (PC/SC) error. */
  datatype Reply = Success(data: Data) | Wrong(left: int) | Refused(reason: Reason) | Fault

  /** Commands that act on credentials, keys, slots or stored data and need a verified PIN. */
  predicate Privileged(cmd: Command) {
    cmd.ChangePin? || cmd.ChangePuk? || cmd.ChangePairing? || cmd.LoadSeed? || cmd.RemoveKey? ||
    cmd.ExportKey? || cmd.Sign? || cmd.Unpair? || cmd.StoreData?
  }

  /** What a card keeps beside its PIN and PUK. */
  datatype Applet = Applet(
    installed: bool,
    initialized: bool,
    canReset: bool,
    version: int,
    instanceUID: string,
    keyUID: string,
    pairingPass: string,
    pairings: map<int, Hex.bytes>,
    data: Hex.bytes)
  {
    predicate Valid() {
      && (forall i :: i in pairings ==> 0 <= i < MAX_FREE_SLOTS)
      && (initialized ==> installed)
      && (!initialized ==> IsBlank())
    }

    predicate IsBlank() {
      !initialized && instanceUID == "" && keyUID == "" && pairings == map[] && data == []
    }

    function Blank(isInstalled: bool): Applet {
      this.(installed := isInstalled, initialized := false, instanceUID := "", keyUID := "",
            pairings := map[], data := [])
    }

    function Free(): int {
      MAX_FREE_SLOTS - |pairings|
    }

    /** The free slots as a natural number. */
    function Slots(): nat {
      if Free() < 0 then 0 else Free()
    }

    /** What SELECT reports.  A card that is not initialized reports neither identity nor slots. */
    function Selected(): AppInfo {
      if !installed then NO_APP_INFO
      else if !initialized then AppInfo(true, false, "", "", 0, 0, false)
      else AppInfo(true, true, instanceUID, keyUID, Free(), version, canReset)
    }
  }

  datatype Card = Card(
    app: Applet,
    pin: string,
    puk: string,
    pinRetries: nat,
    pukRetries: nat,
    channel: Option<int>,
    authenticated: bool)
  {
    ghost predicate Valid() {
      && Plausible(this)
      && (channel.Some? ==> app.initialized)
      && (authenticated ==> channel.Some? && pinRetries == MAX_PIN_RETRIES)
    }

    function Disconnected(): Card {
      this.(channel := None, authenticated := false)
    }

    function Blank(isInstalled: bool): Card {
      Card(app.Blank(isInstalled), pin, puk, MAX_PIN_RETRIES, MAX_PUK_RETRIES, None, false)
    }
  }

  const NO_CARD := Card(Applet(false, false, false, 0, "", "", "", map[], []), "", "", 0, 0, None, false)

  /** What may be found in a reader. */
  predicate Plausible(c: Card) {
    c.app.Valid() && c.pinRetries <= MAX_PIN_RETRIES && c.pukRetries <= MAX_PUK_RETRIES
  }

  function Less(n: nat): nat {
    if n == 0 then 0 else n - 1
  }

  /** The card rejects a secret: one attempt is burnt and the attempts left are reported. */
  predicate Rejects(c: Card, cmd: Command, left: int, after: Card) {
    if cmd.VerifyPin? then RejectsPin(c, cmd.pin, left, after)
    else cmd.UnblockPin? && RejectsPuk(c, cmd.puk, left, after)
  }

  predicate RejectsPin(c: Card, pin: string, left: int, after: Card) {
    && c.channel.Some? && (pin != c.pin || c.pinRetries == 0)
    && after == c.(pinRetries := Less(c.pinRetries), authenticated := false)
    && left == after.pinRetries
  }

  predicate RejectsPuk(c: Card, puk: string, left: int, after: Card) {
    && c.channel.Some? && c.pinRetries == 0 && (puk != c.puk || c.pukRetries == 0)
    && after == c.(pukRetries := Less(c.pukRetries))
    && left == after.pukRetries
  }

  /** The card complies with a command. */
  predicate Performs(c: Card, cmd: Command, data: Data, after: Card) {
    if Privileged(cmd) then c.authenticated && PerformsPrivileged(c, cmd, data, after)
    else if cmd.Select? then data == Info(c.app.Selected()) && after == c.Disconnected()
    else if cmd.VerifyPin? || cmd.UnblockPin? then c.channel.Some? && PerformsCheck(c, cmd, data, after)
    else if cmd.Pair? then PerformsPair(c, cmd.pass, data, after)
    else if cmd.OpenChannel? then PerformsOpen(c, cmd.index, cmd.key, data, after)
    else if cmd.Init? then PerformsInit(c, cmd, data, after)
    else if IsReset(cmd) then data == Nothing && PerformsReset(c, cmd, after)
    else PerformsQuery(c, cmd, data) && after == c
  }

  predicate IsReset(cmd: Command) {
    cmd.FactoryReset? || cmd.SelectIssuer? || cmd.OpenIssuerChannel? || cmd.DeleteApplet? || cmd.InstallApplet?
  }

  predicate PerformsCheck(c: Card, cmd: Command, data: Data, after: Card)
    requires cmd.VerifyPin? || cmd.UnblockPin?
  {
    && data == Nothing
    && match cmd
       case VerifyPin(pin) =>
         && pin == c.pin && c.pinRetries > 0
         && after == c.(pinRetries := MAX_PIN_RETRIES, authenticated := true)
       case UnblockPin(puk, newPin) =>
         && c.pinRetries == 0 && puk == c.puk && c.pukRetries > 0
         && after == c.(pin := newPin, pinRetries := MAX_PIN_RETRIES, pukRetries := MAX_PUK_RETRIES,
                        authenticated := true)
  }

  predicate PerformsInit(c: Card, cmd: Command, data: Data, after: Card)
    requires cmd.Init?
  {
    && c.app.installed && !c.app.initialized && data == Nothing
    && after == Card(c.app.Blank(true).(initialized := true, instanceUID := after.app.instanceUID,
                                        pairingPass := cmd.pairingPass),
                     cmd.pin, cmd.puk, MAX_PIN_RETRIES, MAX_PUK_RETRIES, None, false)
  }

  predicate PerformsPair(c: Card, pass: string, data: Data, after: Card) {
    && c.app.initialized && pass == c.app.pairingPass && data.Paired?
    && 0 <= data.pairing.index < MAX_FREE_SLOTS && data.pairing.index !in c.app.pairings
    && after == c.(app := c.app.(pairings := c.app.pairings[data.pairing.index := data.pairing.key]))
  }

  predicate PerformsOpen(c: Card, index: int, key: Hex.bytes, data: Data, after: Card) {
    && c.app.initialized && index in c.app.pairings && c.app.pairings[index] == key && data == Nothing
    && after == c.(channel := Some(index), authenticated := false)
  }

  predicate PerformsReset(c: Card, cmd: Command, after: Card)
    requires IsReset(cmd)
  {
    match cmd
    case FactoryReset => c.app.installed && c.app.initialized && c.app.canReset && after == c.Blank(true)
    case SelectIssuer => after == c.Disconnected()
    case OpenIssuerChannel => after == c.Disconnected()
    case DeleteApplet => after == c.Blank(false)
    case InstallApplet => !c.app.installed && after == c.Blank(true)
  }

  /** Commands that only read. */
  predicate PerformsQuery(c: Card, cmd: Command, data: Data) {
    match cmd
    case Identify => data.Authority?
    case GetStatus =>
      c.channel.Some? && data == Status(AppStatus(c.pinRetries, c.pukRetries, c.app.keyUID != ""))
    case GenerateMnemonic(_) => c.channel.Some? && data.Words?
    case GetData => data == Stored(c.app.data)
    case _ => false
  }

  predicate PerformsPrivileged(c: Card, cmd: Command, data: Data, after: Card)
    requires Privileged(cmd)
  {
    match cmd
    case ChangePin(pin) => data == Nothing && after == c.(pin := pin)
    case ChangePuk(puk) =>
      && data == Nothing && after == c.(puk := puk, pukRetries := after.pukRetries)
      && (after.pukRetries == c.pukRetries || after.pukRetries == MAX_PUK_RETRIES)
    case ChangePairing(pass) => data == Nothing && after == c.(app := c.app.(pairingPass := pass))
    case LoadSeed(_, _) => data.KeyUID? && data.uid != "" && after == c.(app := c.app.(keyUID := data.uid))
    case RemoveKey => data == Nothing && after == c.(app := c.app.(keyUID := ""))
    case ExportKey(path, kind) => c.app.keyUID != "" && data == Key(KeyPair(c.app.keyUID, path, kind)) && after == c
    case Sign(hash, path) =>
      c.app.keyUID != "" && |hash| == 32 && data == Signed(Signature(c.app.keyUID, path, hash)) && after == c
    case Unpair(index) => data == Nothing && after == c.(app := c.app.(pairings := c.app.pairings - {index}))
    case StoreData(stored) => data == Nothing && after == c.(app := c.app.(data := stored))
  }

  predicate Answers(c: Card, cmd: Command, r: Reply, after: Card) {
    match r
    case Success(data) => Performs(c, cmd, data, after)
    case Wrong(left) => Rejects(c, cmd, left, after)
    case Refused(_) => after == c
    case Fault => after == c
  }

  lemma AnswersKeepValid(c: Card, cmd: Command, r: Reply, after: Card)
    requires c.Valid() && Answers(c, cmd, r, after)
    ensures after.Valid()
  {
  }

  /** A secret is accepted or costs an attempt; nothing else on the card changes. */
  lemma ChecksOnlyCount(c: Card, cmd: Command, r: Reply, after: Card)
    requires c.Valid() && (cmd.VerifyPin? || cmd.UnblockPin?) && Answers(c, cmd, r, after)
    ensures after.app == c.app && after.channel == c.channel && after.puk == c.puk
    ensures r.Success? ==> after.authenticated && after.pinRetries == MAX_PIN_RETRIES
    ensures r.Success? && cmd.VerifyPin? ==> cmd.pin == c.pin == after.pin && after.pukRetries == c.pukRetries
    ensures r.Success? && cmd.UnblockPin? ==>
      cmd.puk == c.puk && after.pin == cmd.newPin && after.pukRetries == MAX_PUK_RETRIES
    ensures r.Wrong? && cmd.VerifyPin? ==> after == c.(pinRetries := r.left, authenticated := false)
    ensures r.Wrong? && cmd.UnblockPin? ==> after == c.(pukRetries := r.left) && after.pinRetries == 0
    ensures r.Refused? || r.Fault? ==> after == c
  {
  }

  /** A loaded seed shows in what SELECT reports, as nothing but another key UID. */
  lemma SeedChangesKeyOnly(c: Card, cmd: Command, r: Reply, after: Card)
    requires c.Valid() && cmd.LoadSeed? && Answers(c, cmd, r, after)
    ensures !r.Success? ==> after == c
    ensures r.Success? ==>
      && r.data.KeyUID? && r.data.uid != "" && c.authenticated
      && after == c.(app := c.app.(keyUID := r.data.uid))
      && after.app.Selected() == c.app.Selected().(keyUID := r.data.uid)
  {
  }

  /** Reading the data changes nothing. */
  lemma ReadingChangesNothing(c: Card, r: Reply, after: Card)
    requires Answers(c, GetData, r, after)
    ensures after == c && !r.Wrong? && (r.Success? ==> r.data == Stored(c.app.data))
  {
  }

  /** Storing data changes nothing else. */
  lemma StoringChangesDataOnly(c: Card, data: Hex.bytes, r: Reply, after: Card)
    requires Answers(c, StoreData(data), r, after)
    ensures after == if r.Success? then c.(app := c.app.(data := data)) else c
    ensures after.app.Selected() == c.app.Selected()
  {
  }

  /** Pairing takes exactly one slot, and only a card with a free slot pairs. */
  lemma PairTakesSlot(c: Card, pass: string, data: Data, after: Card)
    requires c.Valid() && Performs(c, Pair(pass), data, after)
    ensures data.Paired? && after == c.(app := c.app.(pairings := after.app.pairings))
    ensures data.pairing.index in after.app.pairings && after.app.pairings[data.pairing.index] == data.pairing.key
    ensures c.app.initialized && after.app.Selected() == c.app.Selected().(freeSlots := c.app.Free() - 1)
    ensures c.app.Free() > 0 && after.app.Free() == c.app.Free() - 1 && after.app.Slots() == c.app.Slots() - 1
  {
    OneMore(c.app.pairings, data.pairing.index, data.pairing.key);
    AnswersKeepValid(c, Pair(pass), Success(data), after);
    FreeIsNatural(after.app);
  }

  lemma OneMore(pairings: map<int, Hex.bytes>, index: int, key: Hex.bytes)
    requires index !in pairings
    ensures |pairings[index := key]| == |pairings| + 1
  {
  }

  /** Unpairing an occupied slot frees exactly one. */
  lemma UnpairFreesSlot(app: Applet, index: int)
    requires index in app.pairings
    ensures app.(pairings := app.pairings - {index}).Free() == app.Free() + 1
  {
  }

  lemma FreeIsNatural(app: Applet)
    requires app.Valid()
    ensures 0 <= app.Free() <= MAX_FREE_SLOTS
  {
    forall i | i in app.pairings.Keys ensures i in {0, 1, 2, 3, 4} {
    }
    SubsetSize(app.pairings.Keys, {0, 1, 2, 3, 4});
    assert |app.pairings| == |app.pairings.Keys|;
  }

  lemma {:induction false} SubsetSize<T>(a: set<T>, b: set<T>)
    requires a <= b
    ensures |a| <= |b|
  {
    if a != {} {
      var x :| x in a;
      SubsetSize(a - {x}, b - {x});
    }
  }
}
