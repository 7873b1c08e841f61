/** The vocabulary of pkg/flow/types.go: flows, run states, signals, and the untyped parameter and status maps. */
module FlowTypes {
  import opened Wrappers
  import Cards
  import Paths

  datatype FlowType =
    | GetAppInfo
    | RecoverAccount
    | LoadAccount
    | Login
    | ExportPublic
    | Sign
    | ChangePIN
    | ChangePUK
    | ChangePairing
    | UnpairThis
    | UnpairOthers
    | DeleteAccountAndUnpair
    | StoreMetadata
    | GetMetadata
    | UnknownFlow

  datatype RunState = Idle | Running | Paused | Resuming | Cancelling

  datatype Signal =
    | InsertCard
    | CardInserted
    | SwapCard
    | EnterPairing
    | EnterPIN
    | EnterPUK
    | EnterNewPair
    | EnterNewPIN
    | EnterNewPUK
    | EnterTXHash
    | EnterPath
    | EnterMnemonic
    | EnterName
    | EnterWallets

  /** Keys of parameter and status maps. */
  datatype Key =
    | ErrorKey
    | AppInfoKey
    | InstanceUID
    | FactoryReset
    | KeyUID
    | FreeSlots
    | PINRetries
    | PUKRetries
    | PairingPass
    | PairedKey
    | NewPairing
    | PIN
    | NewPIN
    | PUK
    | NewPUK
    | MasterKey
    | MasterAddr
    | WalletRootKey
    | WalletKey
    | EIP1581Key
    | WhisperKey
    | EncKey
    | ExportedKey
    | Mnemonic
    | MnemonicLen
    | MnemonicIdxs
    | TXHash
    | BIP44Path
    | TXSignature
    | Overwrite
    | ResolveAddr
    | ExportMaster
    | ExportPriv
    | CardMeta
    | CardName
    | WalletPaths
    | SkipAuthUID

  /** A wallet of the metadata a flow reports: its path and, once resolved, the key exported for it. */
  datatype Wallet = Wallet(path: string, key: Option<Cards.KeyPair>)

  /** Go's interface{}: a value whose type is only known when it is asserted. */
  datatype Value =
    | Text(text: string)
    | Flag(flag: bool)
    | Number(number: int)
    | Float(float: real)
    | Items(items: seq<Value>)
    | App(info: Cards.AppInfo)
    | OneKey(pair: Cards.KeyPair)
    | ManyKeys(pairs: seq<Cards.KeyPair>)
    | Sig(signature: Cards.Signature)
    | Words(words: seq<int>)
    | Meta(name: string, wallets: seq<Wallet>)

  type Params = map<Key, Value>
  type Status = map<Key, Value>

  const ERROR_OK := "ok"
  const ERROR_CONNECTION := "connection-error"
  const ERROR_UNKNOWN_FLOW := "unknown-flow"
  const ERROR_NOT_A_KEYCARD := "not-a-keycard"
  const ERROR_NO_KEYS := "no-keys"
  const ERROR_HAS_KEYS := "has-keys"
  const ERROR_REQUIRE_INIT := "require-init"
  const ERROR_PAIRING := "pairing"
  const ERROR_UNBLOCKING := "unblocking"
  const ERROR_SIGNING := "signing"
  const ERROR_EXPORTING := "exporting"
  const ERROR_CHANGING := "changing-credentials"
  const ERROR_LOADING := "loading-keys"
  const ERROR_STORE_META := "storing-metadata"
  const ERROR_NO_DATA := "no-data"

  const DEF_PAIRING := "KeycardDefaultPairing"
  const DEF_MNEMO_LEN := 12
  const DEF_PIN_LEN := 6
  const DEF_PUK_LEN := 12

  const MASTER_PATH := "m"
  const WALLET_PATH := "m/44'/60'/0'/0/0"
  const EIP1581_PATH := "m/43'/60'/1581'"
  const WHISPER_PATH := "m/43'/60'/1581'/0'/0"
  const ENCRYPTION_PATH := "m/43'/60'/1581'/1'/0"

  // The indexes these texts denote
  const MASTER_INDEXES: seq<Paths.uint32> := []
  const WALLET_ROOT_INDEXES: seq<Paths.uint32> := [0x8000_002c, 0x8000_003c, 0x8000_0000, 0]
  const WALLET_INDEXES: seq<Paths.uint32> := [0x8000_002c, 0x8000_003c, 0x8000_0000, 0, 0]
  const EIP1581_INDEXES: seq<Paths.uint32> := [0x8000_002b, 0x8000_003c, 0x8000_062d]
  const WHISPER_INDEXES: seq<Paths.uint32> := [0x8000_002b, 0x8000_003c, 0x8000_062d, 0x8000_0000, 0]
  const ENCRYPTION_INDEXES: seq<Paths.uint32> := [0x8000_002b, 0x8000_003c, 0x8000_062d, 0x8000_0001, 0]

  lemma WalletPathTexts()
    ensures MASTER_PATH == Paths.Encode(MASTER_INDEXES)
    ensures Paths.WALLET_ROOT == Paths.Encode(WALLET_ROOT_INDEXES)
    ensures WALLET_PATH == Paths.Encode(WALLET_INDEXES)
  {
    hide Paths.Encode, Paths.Segment;
    Printed3(0x8000_002c, 0x8000_003c, 0x8000_0000);
    Paths.RootSegments();
    Extended([0x8000_002c, 0x8000_003c, 0x8000_0000], 0);
    Extended(WALLET_ROOT_INDEXES, 0);
    assert WALLET_ROOT_INDEXES == [0x8000_002c, 0x8000_003c, 0x8000_0000] + [0] by { hide *; }
    assert WALLET_INDEXES == WALLET_ROOT_INDEXES + [0] by { hide *; }
  }

  lemma Eip1581PathText()
    ensures EIP1581_PATH == Paths.Encode(EIP1581_INDEXES)
  {
    hide Paths.Encode, Paths.Segment;
    Printed3(0x8000_002b, 0x8000_003c, 0x8000_062d);
    Paths.RootSegments();
    FixedSegments();
  }

  lemma Printed3(a: Paths.uint32, b: Paths.uint32, c: Paths.uint32)
    ensures Paths.Encode([]) == "m"
    ensures Paths.Encode([a, b, c]) ==
      "m" + ("/" + Paths.Segment(a)) + ("/" + Paths.Segment(b)) + ("/" + Paths.Segment(c))
  {
    Extended([], a);
    Extended([a], b);
    Extended([a, b], c);
    assert [] + [a] == [a] && [a] + [b] == [a, b] && [a, b] + [c] == [a, b, c];
  }

  lemma ChatPathTexts()
    ensures WHISPER_PATH == Paths.Encode(WHISPER_INDEXES)
    ensures ENCRYPTION_PATH == Paths.Encode(ENCRYPTION_INDEXES)
  {
    hide Paths.Encode, Paths.Segment;
    Paths.RootSegments();
    FixedSegments();
    assert WHISPER_INDEXES == EIP1581_INDEXES + [0x8000_0000, 0] by { hide *; }
    assert ENCRYPTION_INDEXES == EIP1581_INDEXES + [0x8000_0001, 0] by { hide *; }
    UnderEip1581(0x8000_0000);
    UnderEip1581(0x8000_0001);
  }

  lemma UnderEip1581(i: Paths.uint32)
    ensures Paths.Encode(EIP1581_INDEXES + [i, 0]) == EIP1581_PATH + ("/" + Paths.Segment(i)) + ("/" + Paths.Segment(0))
  {
    Eip1581PathText();
    Extended(EIP1581_INDEXES, i);
    Extended(EIP1581_INDEXES + [i], 0);
    assert EIP1581_INDEXES + [i] + [0] == EIP1581_INDEXES + [i, 0];
  }

  lemma {:induction false} Extended(raw: seq<Paths.uint32>, last: Paths.uint32)
    ensures Paths.Encode(raw + [last]) == Paths.Encode(raw) + ("/" + Paths.Segment(last))
  {
    SegmentsExtended(raw, last);
  }

  lemma {:induction false} SegmentsExtended(raw: seq<Paths.uint32>, last: Paths.uint32)
    ensures Paths.Segments(raw + [last]) == Paths.Segments(raw) + ("/" + Paths.Segment(last))
  {
    if raw == [] {
      assert raw + [last] == [last];
    } else {
      assert (raw + [last])[1..] == raw[1..] + [last];
      SegmentsExtended(raw[1..], last);
    }
  }

  lemma FixedSegments()
    ensures "/" + Paths.Segment(0x8000_002b) == "/43'"
    ensures "/" + Paths.Segment(0x8000_062d) == "/1581'"
    ensures "/" + Paths.Segment(0x8000_0001) == "/1'"
  {
    assert Paths.Decimal(4) == "4" && Paths.Decimal(43) == "43" && Paths.Decimal(1) == "1";
    assert Paths.Decimal(15) == "15" && Paths.Decimal(158) == "158" && Paths.Decimal(1581) == "1581";
  }

  /** A parameter that is present, boolean and true. */
  predicate IsSet(params: Params, k: Key) {
    k in params && params[k] == Flag(true)
  }

  /** A type assertion to a string fails on the value under this key. */
  predicate NotText(params: Params, k: Key) {
    k in params && !params[k].Text?
  }

  predicate NotFlag(params: Params, k: Key) {
    k in params && !params[k].Flag?
  }

  predicate AllTexts(items: seq<Value>) {
    forall i :: 0 <= i < |items| ==> items[i].Text?
  }

  predicate NotTexts(params: Params, k: Key) {
    k in params && !(params[k].Items? && AllTexts(params[k].items))
  }

  /** What verifying or unblocking the PIN asserts. */
  predicate BadSecrets(params: Params) {
    NotText(params, PIN) || NotText(params, PUK) || NotText(params, NewPIN)
  }

  /** What initializing a card and pairing with it asserts. */
  predicate BadPairing(params: Params) {
    NotText(params, NewPIN) || NotText(params, NewPUK) || NotText(params, NewPairing) || NotText(params, PairingPass)
  }

  /** Some value has another type than the one that the flow asserts. */
  predicate IllTyped(flow: FlowType, params: Params) {
    NotFlag(params, FactoryReset) ||
    match flow
    case GetAppInfo => BadSecrets(params)
    case UnpairThis => BadSecrets(params)
    case UnpairOthers => BadSecrets(params)
    case DeleteAccountAndUnpair => BadSecrets(params)
    case ExportPublic => BadSecrets(params) || BadPairing(params) || NotFlag(params, ExportMaster) || BadPaths(params)
    case LoadAccount =>
      BadSecrets(params) || BadPairing(params) || NotFlag(params, Overwrite) || NotText(params, Mnemonic)
    case Sign => BadSecrets(params) || BadPairing(params) || NotText(params, TXHash) || NotText(params, BIP44Path)
    case StoreMetadata =>
      BadSecrets(params) || BadPairing(params) || NotText(params, CardName) || NotTexts(params, WalletPaths)
    case GetMetadata =>
      BadSecrets(params) || BadPairing(params) || NotFlag(params, ExportMaster) || NotFlag(params, ResolveAddr)
    case UnknownFlow => false
    case _ => BadSecrets(params) || BadPairing(params)
  }

  /** What exporting requested keys asserts: a path that is neither a text nor a list is dropped and asked for again. */
  predicate BadPaths(params: Params) {
    BIP44Path in params &&
    (NotFlag(params, ExportPriv) || (params[BIP44Path].Items? && !AllTexts(params[BIP44Path].items)))
  }

  /** The master key is exported with the other keys. */
  predicate AsksForMaster(flow: FlowType, params: Params) {
    (flow == ExportPublic || flow == GetMetadata) && IsSet(params, ExportMaster)
  }

  /** The number of words of a new mnemonic. */
  function MnemonicLength(params: Params): int {
    if MnemonicLen !in params then DEF_MNEMO_LEN else
      match params[MnemonicLen]
      case Number(n) => n
      case Float(r) => Truncate(r)
      case _ => DEF_MNEMO_LEN
  }

  /** Go's delete on a map. */
  function Without(params: Params, k: Key): Params {
    map j | j in params && j != k :: params[j]
  }

  /** Go's integer division by a positive number: truncation toward zero. */
  function Quotient(n: int, d: int): int
    requires d > 0
  {
    if n >= 0 then n / d else -((-n) / d)
  }

  /** int(t) of a float64: truncation toward zero. */
  function Truncate(r: real): int {
    if r >= 0.0 then r.Floor else -((-r).Floor)
  }
}
