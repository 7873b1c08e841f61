/**
  The mocked engine of pkg/flow/mocked.  Six handlers contain their own copy of the PIN/PUK ladder; each copy is
  proved to be the step of `MockLadders.Handle` for its flow.
 */
module MockFlows {
  import opened Wrappers
  import opened FlowTypes
  import opened MockLadders
  import Paths

  datatype ReaderState = NoReader | NoKeycard | KeycardInserted

  datatype MockKeyPair = MockKeyPair(address: string, publicKey: string, privateKey: string)

  const NO_KEYS := MockKeyPair("", "", "")

  datatype MockWallet = MockWallet(path: string, address: string, publicKey: string)

  /** Results and prompts as the client receives them. */
  datatype Sent =
    | Asked(signal: Signal, error: Option<string>, freeSlots: int, retries: Option<(int, int)>)
    | Keys(keys: map<Key, MockKeyPair>)
    | Exports(master: Option<string>, exported: seq<MockKeyPair>)
    | Metadata(name: string, wallets: seq<MockWallet>, master: Option<string>)
    | AppInfo(paired: bool, instanceUID: string, keyUID: string, freeSlots: int)
    | Account(instanceUID: string, keyUID: string)
    | Plain
    | Failed(message: string)

  /** Everything sent to the client, latest last. */
  datatype Trace = Silence | Then(past: Trace, last: Sent)

  class MockedKeycard {
    var notStatusKeycard: bool
    var instanceUID: string
    var keyUID: string
    var freePairingSlots: int
    var pinRetries: int
    var pukRetries: int
    var pin: string
    var puk: string
    var name: string
    var wallets: seq<MockWallet>
    var masterKeyAddress: string
    var exportedKey: map<string, MockKeyPair>

    constructor ()
    {
      notStatusKeycard, instanceUID, keyUID, freePairingSlots := false, "", "", 0;
      pinRetries, pukRetries, pin, puk := 0, 0, "", "";
      name, wallets, masterKeyAddress, exportedKey := "", [], "", map[];
    }

    /** *card = MockedKeycard{} */
    method Clear()
      modifies this
      ensures IsBlank() && Secrets() == MockLadders.Secrets(0, 0, "", "")
    {
      notStatusKeycard, instanceUID, keyUID, freePairingSlots := false, "", "", 0;
      pinRetries, pukRetries, pin, puk := 0, 0, "", "";
      name, wallets, masterKeyAddress, exportedKey := "", [], "", map[];
    }

    predicate IsBlank()
      reads this
    {
      !notStatusKeycard && instanceUID == "" && keyUID == "" && freePairingSlots == 0 && wallets == []
    }

    function Secrets(): Secrets
      reads this
    {
      MockLadders.Secrets(pinRetries, pukRetries, pin, puk)
    }

    function KeyAt(path: string): MockKeyPair
      reads this
    {
      if path in exportedKey then exportedKey[path] else NO_KEYS
    }
  }

  // ---------------------------------------------------------------------------------------------
  // Made-up keys
  // ---------------------------------------------------------------------------------------------

  function Zeros(n: nat): string {
    seq(n, i requires 0 <= i < n => '0')
  }

  /** strings.Repeat("0", width - len(n)) + n */
  function Padded(n: nat, width: nat): string {
    var digits := Paths.Decimal(n);
    if |digits| >= width then digits else Zeros(width - |digits|) + digits
  }

  /** The parts of a key pair that are missing are made up from its position; a private key only if asked for. */
  function Completed(k: MockKeyPair, n: nat, withPrivate: bool): MockKeyPair {
    MockKeyPair(
      if k.address == "" then "0x" + Padded(n, 40) else k.address,
      if k.publicKey == "" then Padded(n, 130) else k.publicKey,
      if !withPrivate then "" else if k.privateKey == "" then Padded(n, 64) else k.privateKey)
  }

  /** A completed key pair is complete: asking for it again, at any position, gives the same. */
  lemma CompletedIsStable(k: MockKeyPair, n: nat, m: nat, withPrivate: bool)
    ensures Completed(Completed(k, n, withPrivate), m, withPrivate) == Completed(k, n, withPrivate)
  {
  }

  // ---------------------------------------------------------------------------------------------
  // Wallet tables
  // ---------------------------------------------------------------------------------------------

  /** The first entry for a path. */
  function Lookup(table: seq<MockWallet>, path: string): Option<MockWallet> {
    if table == [] then None
    else if table[0].path == path then Some(table[0])
    else Lookup(table[1..], path)
  }

  predicate Duplicated(table: seq<MockWallet>) {
    exists i, j :: 0 <= i < j < |table| && table[i].path == table[j].path
  }

  lemma {:induction false} LookupFirst(table: seq<MockWallet>, path: string, n: nat)
    requires n <= |table| && forall i :: 0 <= i < n ==> table[i].path != path
    ensures n == |table| ==> Lookup(table, path) == None
    ensures n < |table| && table[n].path == path ==> Lookup(table, path) == Some(table[n])
  {
    if n == 0 {
    } else {
      LookupFirst(table[1..], path, n - 1);
    }
  }

  /** Appending to a table does not disturb what is found in it. */
  lemma {:induction false} LookupAppend(table: seq<MockWallet>, more: seq<MockWallet>, path: string)
    ensures Lookup(table + more, path) == if Lookup(table, path).Some? then Lookup(table, path) else Lookup(more, path)
  {
    if table == [] {
      assert table + more == more;
    } else {
      assert (table + more)[1..] == table[1..] + more;
      LookupAppend(table[1..], more, path);
    }
  }

  class MockedKeycardFlow {
    var flowType: FlowType
    var state: RunState
    var params: Params
    var readerState: ReaderState
    var card: MockedKeycard?
    var helper: MockedKeycard?
    var registered: map<int, MockedKeycard>
    var registeredHelpers: map<int, MockedKeycard>
    var panicked: bool
    var sent: Trace

    constructor ()
      ensures Valid() && state == Idle && sent == Silence && !panicked
    {
      flowType, state, params, readerState, card, helper := GetAppInfo, Idle, map[], NoReader, null, null;
      registered, registeredHelpers, panicked, sent := map[], map[], false, Silence;
    }

    /** An inserted card has its helper, and they are two objects. */
    predicate HasCard()
      reads this
    {
      card != null && helper != null && card != helper
    }

    ghost predicate Valid()
      reads this
    {
      && (readerState == KeycardInserted ==> HasCard())
      && (card == null <==> helper == null)
      && (card != null ==> card != helper)
      && registered.Keys == registeredHelpers.Keys
      && (forall i :: i in registered ==> registered[i] != registeredHelpers[i])
    }

    // -------------------------------------------------------------------------------------------
    // Signals
    // -------------------------------------------------------------------------------------------

    method Send(what: Sent)
      modifies `sent
      ensures sent == Then(old(sent), what)
    {
      sent := Then(sent, what);
    }

    method AskFor(signal: Signal, error: Option<string>)
      requires card != null
      modifies `sent
      ensures sent ==
        Then(old(sent), Asked(signal, error, card.freePairingSlots, Some((card.pinRetries, card.pukRetries))))
    {
      Send(Asked(signal, error, card.freePairingSlots, Some((card.pinRetries, card.pukRetries))));
    }

    /** The counters are reset, and the entered PIN is the card's. */
    method Accept(pin: string)
      requires card != null
      modifies card`pinRetries, card`pukRetries, card`pin
      ensures card.Secrets() == old(card.Secrets()).Reset(pin)
    {
      card.pinRetries, card.pukRetries := MAX_PIN_RETRIES, MAX_PUK_RETRIES;
      card.pin := pin;
    }

    method AcceptNewPuk(puk: string)
      requires card != null
      modifies card`pinRetries, card`pukRetries, card`puk
      ensures card.Secrets() == old(card.Secrets()).Reset(card.pin).(puk := puk) && card.pin == old(card.pin)
    {
      card.pinRetries, card.pukRetries := MAX_PIN_RETRIES, MAX_PUK_RETRIES;
      card.puk := puk;
    }

    /** What was sent is the reply, with the counters as they are now. */
    predicate Conveys(k: MockedKeycard, what: Sent, reply: Reply)
      reads k
    {
      match reply
      case Result => what.Keys? || what.Exports? || what.Metadata? || what.Plain?
      case Prompt(signal, error) =>
        what == Asked(signal, error, k.freePairingSlots, Some((k.pinRetries, k.pukRetries)))
    }

    /** The handler did exactly the step of the specification and sent its reply. */
    twostate predicate Handled(k: MockedKeycard, flow: LadderFlow)
      reads this, k
    {
      var step := Handle(flow, old(k.Secrets()), EnteredIn(params));
      && k.Secrets() == step.after
      && sent.Then? && sent.past == old(sent) && Conveys(k, sent.last, step.reply)
      && state == if step.reply != Result then Paused else if flow == ChangePIN then old(state) else Idle
    }

    /** The card was turned away before the ladder. */
    twostate predicate Refused(k: MockedKeycard, signal: Signal, error: string, freeSlots: int)
      reads this, k
    {
      && k.Secrets() == old(k.Secrets()) && state == Paused
      && sent == Then(old(sent), Asked(signal, Some(error), freeSlots, None))
    }

    /** What the handlers of flows that need keys do with a card. */
    twostate predicate HandledWithKeys(k: MockedKeycard, flow: LadderFlow)
      reads this, k
    {
      if k.notStatusKeycard then Refused(k, SwapCard, ERROR_NOT_A_KEYCARD, 0)
      else if k.instanceUID == "" || k.keyUID == "" then Refused(k, SwapCard, ERROR_NO_KEYS, 0)
      else if !WellTypedFor(flow, params) then panicked && k.Secrets() == old(k.Secrets())
      else !panicked && Handled(k, flow)
    }

    /** What the handlers that change a credential do with a card. */
    twostate predicate HandledForChange(k: MockedKeycard, flow: LadderFlow)
      reads this, k
    {
      if k.notStatusKeycard then Refused(k, SwapCard, ERROR_NOT_A_KEYCARD, 0)
      else if k.instanceUID == "" && k.keyUID == "" then
        Refused(k, EnterNewPIN, ERROR_REQUIRE_INIT, k.freePairingSlots)
      else if k.freePairingSlots == 0 then Refused(k, SwapCard, "free-pairing-slots", 0)
      else if !WellTypedFor(flow, params) then panicked && k.Secrets() == old(k.Secrets())
      else !panicked && Handled(k, flow)
    }

    // -------------------------------------------------------------------------------------------
    // The six ladders
    // -------------------------------------------------------------------------------------------

    /** The ladder of this handler, and its success test on the counters as the ladder left them. */
    method LoginLadder(e: Entered) returns (finalType: Signal, error: Option<string>, accepted: bool)
      requires card != null
      modifies card`pinRetries, card`pukRetries
      ensures Ladder(old(card.Secrets()), e) == LadderStep(card.Secrets(), finalType, error)
      ensures accepted <==> Passes(card.Secrets(), e)
    {
      finalType, error := EnterPIN, None;
      if card.pukRetries == 0 {
        error, finalType := Some(ERROR_PUK_RETRIES), SwapCard;
      } else {
        if card.pinRetries == 0 {
          if |e.puk| == DEF_PUK_LEN {
            if |e.pin| == DEF_PIN_LEN && e.pin == e.newPin {
              if e.puk != card.puk {
                card.pukRetries := card.pukRetries - 1;
                if card.pukRetries == 0 {
                  error, finalType := Some(ERROR_PUK_RETRIES), SwapCard;
                } else {
                  error, finalType := Some(ERROR_PUK), EnterPUK;
                }
              }
            } else {
              error, finalType := Some(ERROR_UNBLOCKING), EnterNewPIN;
            }
          } else {
            error, finalType := Some(""), EnterPUK;
          }
        } else {
          if e.newPin == "" && |e.pin| == DEF_PIN_LEN && e.pin != card.pin {
            card.pinRetries := card.pinRetries - 1;
            error, finalType := Some(ERROR_PIN), EnterPIN;
            if card.pinRetries == 0 {
              error, finalType := Some(""), EnterPUK;
            }
          }
        }
      }
      accepted :=
        (card.pinRetries > 0 && |e.pin| == DEF_PIN_LEN && e.pin == card.pin) ||
        (card.pinRetries == 0 && card.pukRetries > 0 && |e.puk| == DEF_PUK_LEN && e.puk == card.puk &&
         |e.pin| == DEF_PIN_LEN && e.pin == e.newPin);
    }

    /** handleLoginFlow. */
    method HandleLogin()
      requires HasCard() && !panicked
      modifies `state, `sent, `panicked, card`pinRetries, card`pukRetries, card`pin
      ensures HandledWithKeys(card, Login)
      ensures !panicked && sent.Then? && sent.past == old(sent) && sent.last.Keys? ==> sent.last.keys == LoginKeys()
    {
      if card.notStatusKeycard {
        state := Paused;
        Send(Asked(SwapCard, Some(ERROR_NOT_A_KEYCARD), 0, None));
        return;
      }
      if card.instanceUID == "" || card.keyUID == "" {
        state := Paused;
        Send(Asked(SwapCard, Some(ERROR_NO_KEYS), 0, None));
        return;
      }
      if !WellTypedFor(Login, params) {
        panicked := true;
        return;
      }
      LoginWithCredentials();
    }

    method LoginWithCredentials()
      requires HasCard() && !panicked && WellTypedFor(Login, params)
      modifies `state, `sent, `panicked, card`pinRetries, card`pukRetries, card`pin
      ensures !panicked && Handled(card, Login)
      ensures !panicked && sent.Then? && sent.past == old(sent) && sent.last.Keys? ==> sent.last.keys == LoginKeys()
    {
      var e := EnteredIn(params);
      hide Ladder, Passes, EnteredIn, WellTypedFor;
      LateTestIsEarlyTest(card.Secrets(), e);
      var finalType, error, accepted := LoginLadder(e);
      if accepted {
        Accept(e.pin);
        state := Idle;
        Send(Keys(LoginKeys()));
        return;
      }
      state := Paused;
      AskFor(finalType, error);
    }

    function LoginKeys(): map<Key, MockKeyPair>
      requires helper != null
      reads this, helper
    {
      map[WhisperKey := helper.KeyAt(WHISPER_PATH), EncKey := helper.KeyAt(ENCRYPTION_PATH)]
    }

    function RecoveredKeys(): map<Key, MockKeyPair>
      requires helper != null
      reads this, helper
    {
      map[
        MasterKey := helper.KeyAt(MASTER_PATH),
        WalletRootKey := helper.KeyAt(Paths.WALLET_ROOT),
        WalletKey := helper.KeyAt(WALLET_PATH),
        EIP1581Key := helper.KeyAt(EIP1581_PATH),
        WhisperKey := helper.KeyAt(WHISPER_PATH),
        EncKey := helper.KeyAt(ENCRYPTION_PATH)]
    }

    /** The ladder of this handler, and its success test on the counters as the ladder left them. */
    method RecoverAccountLadder(e: Entered) returns (finalType: Signal, error: Option<string>, accepted: bool)
      requires card != null
      modifies card`pinRetries, card`pukRetries
      ensures Ladder(old(card.Secrets()), e) == LadderStep(card.Secrets(), finalType, error)
      ensures accepted <==> Passes(card.Secrets(), e)
    {
      finalType, error := EnterPIN, None;
      if card.pukRetries == 0 {
        error, finalType := Some(ERROR_PUK_RETRIES), SwapCard;
      } else {
        if card.pinRetries == 0 {
          if |e.puk| == DEF_PUK_LEN {
            if |e.pin| == DEF_PIN_LEN && e.pin == e.newPin {
              if e.puk != card.puk {
                card.pukRetries := card.pukRetries - 1;
                if card.pukRetries == 0 {
                  error, finalType := Some(ERROR_PUK_RETRIES), SwapCard;
                } else {
                  error, finalType := Some(ERROR_PUK), EnterPUK;
                }
              }
            } else {
              error, finalType := Some(ERROR_UNBLOCKING), EnterNewPIN;
            }
          } else {
            error, finalType := Some(""), EnterPUK;
          }
        } else {
          if e.newPin == "" && |e.pin| == DEF_PIN_LEN && e.pin != card.pin {
            card.pinRetries := card.pinRetries - 1;
            error, finalType := Some(ERROR_PIN), EnterPIN;
            if card.pinRetries == 0 {
              error, finalType := Some(""), EnterPUK;
            }
          }
        }
      }
      accepted :=
        (card.pinRetries > 0 && |e.pin| == DEF_PIN_LEN && e.pin == card.pin) ||
        (card.pinRetries == 0 && card.pukRetries > 0 && |e.puk| == DEF_PUK_LEN && e.puk == card.puk &&
         |e.pin| == DEF_PIN_LEN && e.pin == e.newPin);
    }

    /** handleRecoverAccountFlow. */
    method HandleRecoverAccount()
      requires HasCard() && !panicked
      modifies `state, `sent, `panicked, card`pinRetries, card`pukRetries, card`pin
      ensures HandledWithKeys(card, RecoverAccount)
      ensures !panicked && sent.Then? && sent.past == old(sent) && sent.last.Keys? ==> sent.last.keys == RecoveredKeys()
    {
      if card.notStatusKeycard {
        state := Paused;
        Send(Asked(SwapCard, Some(ERROR_NOT_A_KEYCARD), 0, None));
        return;
      }
      if card.instanceUID == "" || card.keyUID == "" {
        state := Paused;
        Send(Asked(SwapCard, Some(ERROR_NO_KEYS), 0, None));
        return;
      }
      if !WellTypedFor(RecoverAccount, params) {
        panicked := true;
        return;
      }
      RecoverAccountWithCredentials();
    }

    method RecoverAccountWithCredentials()
      requires HasCard() && !panicked && WellTypedFor(RecoverAccount, params)
      modifies `state, `sent, `panicked, card`pinRetries, card`pukRetries, card`pin
      ensures !panicked && Handled(card, RecoverAccount)
      ensures !panicked && sent.Then? && sent.past == old(sent) && sent.last.Keys? ==> sent.last.keys == RecoveredKeys()
    {
      var e := EnteredIn(params);
      hide Ladder, Passes, EnteredIn, WellTypedFor;
      LateTestIsEarlyTest(card.Secrets(), e);
      var finalType, error, accepted := RecoverAccountLadder(e);
      if accepted {
        Accept(e.pin);
        state := Idle;
        Send(Keys(RecoveredKeys()));
        return;
      }
      state := Paused;
      AskFor(finalType, error);
    }

    /** The ladder of this handler, and its success test on the counters as the ladder left them. */
    method ExportPublicLadder(e: Entered) returns (finalType: Signal, error: Option<string>, accepted: bool)
      requires card != null
      modifies card`pinRetries, card`pukRetries
      ensures Ladder(old(card.Secrets()), e) == LadderStep(card.Secrets(), finalType, error)
      ensures accepted <==> Passes(card.Secrets(), e)
    {
      finalType, error := EnterPIN, None;
      if card.pukRetries == 0 {
        error, finalType := Some(ERROR_PUK_RETRIES), SwapCard;
      } else {
        if card.pinRetries == 0 {
          if |e.puk| == DEF_PUK_LEN {
            if |e.pin| == DEF_PIN_LEN && e.pin == e.newPin {
              if e.puk != card.puk {
                card.pukRetries := card.pukRetries - 1;
                if card.pukRetries == 0 {
                  error, finalType := Some(ERROR_PUK_RETRIES), SwapCard;
                } else {
                  error, finalType := Some(ERROR_PUK), EnterPUK;
                }
              }
            } else {
              error, finalType := Some(ERROR_UNBLOCKING), EnterNewPIN;
            }
          } else {
            error, finalType := Some(""), EnterPUK;
          }
        } else {
          if e.newPin == "" && |e.pin| == DEF_PIN_LEN && e.pin != card.pin {
            card.pinRetries := card.pinRetries - 1;
            error, finalType := Some(ERROR_PIN), EnterPIN;
            if card.pinRetries == 0 {
              error, finalType := Some(""), EnterPUK;
            }
          }
        }
      }
      accepted :=
        (card.pinRetries > 0 && |e.pin| == DEF_PIN_LEN && e.pin == card.pin) ||
        (card.pinRetries == 0 && card.pukRetries > 0 && |e.puk| == DEF_PUK_LEN && e.puk == card.puk &&
         |e.pin| == DEF_PIN_LEN && e.pin == e.newPin);
    }

    /** handleExportPublicFlow. */
    method HandleExportPublic()
      requires HasCard() && !panicked
      modifies `state, `sent, `panicked, card`pinRetries, card`pukRetries, card`pin
      modifies helper`masterKeyAddress, helper`exportedKey
      ensures HandledWithKeys(card, ExportPublic) || PanickedDelivering(card)
      ensures !panicked && sent.Then? && sent.past == old(sent) && sent.last.Exports? ==> ExportsDelivered(sent.last)
      ensures Memoised(helper)
    {
      hide Handle, Passes, KeysDelivered;
      if card.notStatusKeycard {
        state := Paused;
        Send(Asked(SwapCard, Some(ERROR_NOT_A_KEYCARD), 0, None));
        return;
      }
      if card.instanceUID == "" || card.keyUID == "" {
        state := Paused;
        Send(Asked(SwapCard, Some(ERROR_NO_KEYS), 0, None));
        return;
      }
      if !WellTypedFor(ExportPublic, params) {
        panicked := true;
        return;
      }
      ExportPublicWithCredentials();
    }

    /** The credentials were accepted, and the paths were not texts. */
    twostate predicate PanickedDelivering(k: MockedKeycard)
      reads this, k
    {
      && WellTypedFor(ExportPublic, params) && panicked && Passes(old(k.Secrets()), EnteredIn(params))
      && k.Secrets() == Handle(ExportPublic, old(k.Secrets()), EnteredIn(params)).after
    }

    method ExportPublicWithCredentials()
      requires HasCard() && !panicked && WellTypedFor(ExportPublic, params)
      modifies `state, `sent, `panicked, card`pinRetries, card`pukRetries, card`pin
      modifies helper`masterKeyAddress, helper`exportedKey
      ensures (!panicked && Handled(card, ExportPublic)) || PanickedDelivering(card)
      ensures !panicked && sent.Then? && sent.past == old(sent) && sent.last.Exports? ==> ExportsDelivered(sent.last)
      ensures Memoised(helper)
    {
      var e := EnteredIn(params);
      hide Ladder, Passes, EnteredIn, WellTypedFor;
      LateTestIsEarlyTest(card.Secrets(), e);
      var finalType, error, accepted := ExportPublicLadder(e);
      if accepted {
        Accept(e.pin);
        DeliverExports();
        return;
      }
      state := Paused;
      AskFor(finalType, error);
    }

    /** What an ExportPublic result contains, in terms of the helper's table. */
    predicate ExportsDelivered(what: Sent)
      requires helper != null && what.Exports?
      reads this, helper
    {
      && what.master == (if IsSet(params, ExportMaster) then Some(helper.masterKeyAddress) else None)
      && (BIP44Path in params ==> KeysDelivered(params[BIP44Path], what.exported))
      && (!IsSet(params, ExportPriv) ==> PrivateKeysErased(what.exported))
    }

    /** The helper's table only grows, and no known address or public key changes. */
    twostate predicate Memoised(k: MockedKeycard)
      reads this, k
    {
      forall p :: p in old(k.exportedKey) ==>
        p in k.exportedKey && Extended(old(k.exportedKey)[p], k.exportedKey[p], IsSet(params, ExportPriv))
    }

    /** The result of ExportPublic: the master address if asked for, and the keys for the paths in the parameters. */
    method DeliverExports()
      requires HasCard() && !panicked
      modifies `state, `sent, `panicked, helper`masterKeyAddress, helper`exportedKey
      ensures !panicked ==>
        state == Idle && sent.Then? && sent.past == old(sent) && sent.last.Exports? && ExportsDelivered(sent.last)
      ensures Memoised(helper)
    {
      var master := None;
      if IsSet(params, ExportMaster) {
        var address := MasterAddress();
        master := Some(address);
      }
      var exported := [];
      if BIP44Path in params {
        exported := ExportPaths(params[BIP44Path]);
        if panicked {
          return;
        }
      }
      state := Idle;
      Send(Exports(master, exported));
    }

    /** One key for each path, in order, each the entry now kept in the helper's table. */
    predicate KeysDelivered(paths: Value, keys: seq<MockKeyPair>)
      requires helper != null
      reads this, helper
    {
      && (paths.Text? ==> keys == [helper.KeyAt(paths.text)])
      && (paths.Items? ==>
            |keys| == |paths.items| && forall i :: 0 <= i < |keys| ==>
              paths.items[i].Text? && keys[i] == helper.KeyAt(paths.items[i].text))
    }

    /** The ladder of this handler, and its tests on the counters as the ladder left them. */
    method ChangePinLadder(e: Entered)
      returns (finalType: Signal, error: Option<string>, verified: bool, replaced: bool)
      requires card != null
      modifies card`pinRetries, card`pukRetries
      ensures Ladder(old(card.Secrets()), e) == LadderStep(card.Secrets(), finalType, error)
      ensures verified <==> VerifiesOldPin(card.Secrets(), e)
      ensures replaced <==> PassesChange(card.Secrets(), e)
    {
      finalType, error := EnterPIN, None;
      if card.pukRetries == 0 {
        error, finalType := Some(ERROR_PUK_RETRIES), SwapCard;
      } else {
        if card.pinRetries == 0 {
          if |e.puk| == DEF_PUK_LEN {
            if |e.pin| == DEF_PIN_LEN && e.pin == e.newPin {
              if e.puk != card.puk {
                card.pukRetries := card.pukRetries - 1;
                if card.pukRetries == 0 {
                  error, finalType := Some(ERROR_PUK_RETRIES), SwapCard;
                } else {
                  error, finalType := Some(ERROR_PUK), EnterPUK;
                }
              }
            } else {
              error, finalType := Some(ERROR_UNBLOCKING), EnterNewPIN;
            }
          } else {
            error, finalType := Some(""), EnterPUK;
          }
        } else {
          if e.newPin == "" && |e.pin| == DEF_PIN_LEN && e.pin != card.pin {
            card.pinRetries := card.pinRetries - 1;
            error, finalType := Some(ERROR_PIN), EnterPIN;
            if card.pinRetries == 0 {
              error, finalType := Some(""), EnterPUK;
            }
          }
        }
      }
      verified := e.newPin == "" && card.pinRetries > 0 && |e.pin| == DEF_PIN_LEN && e.pin == card.pin;
      replaced := e.newPin != "" &&
        ((e.overwrite && |e.pin| == DEF_PIN_LEN && e.pin == e.newPin) ||
         (card.pinRetries == 0 && card.pukRetries > 0 && |e.puk| == DEF_PUK_LEN && e.puk == card.puk &&
          |e.pin| == DEF_PIN_LEN && e.pin == e.newPin));
    }

    /** handleChangePinFlow: its success test is another one than that of the other five. */
    method HandleChangePin()
      requires HasCard() && !panicked
      modifies `state, `sent, `panicked, card`pinRetries, card`pukRetries, card`pin
      ensures HandledForChange(card, ChangePIN)
    {
      if card.notStatusKeycard {
        state := Paused;
        Send(Asked(SwapCard, Some(ERROR_NOT_A_KEYCARD), 0, None));
        return;
      }
      if card.instanceUID == "" && card.keyUID == "" {
        state := Paused;
        Send(Asked(EnterNewPIN, Some(ERROR_REQUIRE_INIT), card.freePairingSlots, None));
        return;
      }
      if card.freePairingSlots == 0 {
        state := Paused;
        Send(Asked(SwapCard, Some("free-pairing-slots"), card.freePairingSlots, None));
        return;
      }
      if !WellTypedFor(ChangePIN, params) {
        panicked := true;
        return;
      }
      ChangePinWithCredentials();
    }

    method ChangePinWithCredentials()
      requires HasCard() && WellTypedFor(ChangePIN, params)
      modifies `state, `sent, card`pinRetries, card`pukRetries, card`pin
      ensures Handled(card, ChangePIN)
    {
      var e := EnteredIn(params);
      hide Ladder, VerifiesOldPin, PassesChange, EnteredIn, WellTypedFor;
      LateChangeTestIsEarlyTest(card.Secrets(), e);
      var finalType, error, verified, replaced := ChangePinLadder(e);
      if verified {
        Accept(e.pin);
        error, finalType := Some(ERROR_CHANGING), EnterNewPIN;
      } else if replaced {
        Accept(e.pin);
        Send(Plain);
        return;
      }
      state := Paused;
      AskFor(finalType, error);
    }

    /** The ladder of this handler, and its success test on the counters as the ladder left them. */
    method ChangePukLadder(e: Entered) returns (finalType: Signal, error: Option<string>, accepted: bool)
      requires card != null
      modifies card`pinRetries, card`pukRetries
      ensures Ladder(old(card.Secrets()), e) == LadderStep(card.Secrets(), finalType, error)
      ensures accepted <==> Passes(card.Secrets(), e)
    {
      finalType, error := EnterPIN, None;
      if card.pukRetries == 0 {
        error, finalType := Some(ERROR_PUK_RETRIES), SwapCard;
      } else {
        if card.pinRetries == 0 {
          if |e.puk| == DEF_PUK_LEN {
            if |e.pin| == DEF_PIN_LEN && e.pin == e.newPin {
              if e.puk != card.puk {
                card.pukRetries := card.pukRetries - 1;
                if card.pukRetries == 0 {
                  error, finalType := Some(ERROR_PUK_RETRIES), SwapCard;
                } else {
                  error, finalType := Some(ERROR_PUK), EnterPUK;
                }
              }
            } else {
              error, finalType := Some(ERROR_UNBLOCKING), EnterNewPIN;
            }
          } else {
            error, finalType := Some(""), EnterPUK;
          }
        } else {
          if e.newPin == "" && |e.pin| == DEF_PIN_LEN && e.pin != card.pin {
            card.pinRetries := card.pinRetries - 1;
            error, finalType := Some(ERROR_PIN), EnterPIN;
            if card.pinRetries == 0 {
              error, finalType := Some(""), EnterPUK;
            }
          }
        }
      }
      accepted :=
        (card.pinRetries > 0 && |e.pin| == DEF_PIN_LEN && e.pin == card.pin) ||
        (card.pinRetries == 0 && card.pukRetries > 0 && |e.puk| == DEF_PUK_LEN && e.puk == card.puk &&
         |e.pin| == DEF_PIN_LEN && e.pin == e.newPin);
    }

    /** handleChangePukFlow: accepted credentials first lead to the prompt for the new PUK. */
    method HandleChangePuk()
      requires HasCard() && !panicked
      modifies `state, `sent, `panicked, card`pinRetries, card`pukRetries, card`pin, card`puk
      ensures HandledForChange(card, ChangePUK)
    {
      if card.notStatusKeycard {
        state := Paused;
        Send(Asked(SwapCard, Some(ERROR_NOT_A_KEYCARD), 0, None));
        return;
      }
      if card.instanceUID == "" && card.keyUID == "" {
        state := Paused;
        Send(Asked(EnterNewPIN, Some(ERROR_REQUIRE_INIT), card.freePairingSlots, None));
        return;
      }
      if card.freePairingSlots == 0 {
        state := Paused;
        Send(Asked(SwapCard, Some("free-pairing-slots"), card.freePairingSlots, None));
        return;
      }
      if !WellTypedFor(ChangePUK, params) {
        panicked := true;
        return;
      }
      ChangePukWithCredentials();
    }

    method ChangePukWithCredentials()
      requires HasCard() && !panicked && WellTypedFor(ChangePUK, params)
      modifies `state, `sent, `panicked, card`pinRetries, card`pukRetries, card`pin, card`puk
      ensures !panicked && Handled(card, ChangePUK)
    {
      var e := EnteredIn(params);
      hide Ladder, Passes, EnteredIn, WellTypedFor;
      LateTestIsEarlyTest(card.Secrets(), e);
      var finalType, error, accepted := ChangePukLadder(e);
      if accepted {
        if e.newPuk == "" {
          Accept(e.pin);
          error, finalType := Some(ERROR_CHANGING), EnterNewPUK;
        } else if e.overwrite && |e.puk| == DEF_PUK_LEN && e.puk == e.newPuk {
          AcceptNewPuk(e.puk);
          state := Idle;
          Send(Plain);
          return;
        }
      }
      state := Paused;
      AskFor(finalType, error);
    }

    /** The ladder of this handler, and its success test on the counters as the ladder left them. */
    method GetMetadataLadder(e: Entered) returns (finalType: Signal, error: Option<string>, accepted: bool)
      requires card != null
      modifies card`pinRetries, card`pukRetries
      ensures Ladder(old(card.Secrets()), e) == LadderStep(card.Secrets(), finalType, error)
      ensures accepted <==> Passes(card.Secrets(), e)
    {
      finalType, error := EnterPIN, None;
      if card.pukRetries == 0 {
        error, finalType := Some(ERROR_PUK_RETRIES), SwapCard;
      } else {
        if card.pinRetries == 0 {
          if |e.puk| == DEF_PUK_LEN {
            if |e.pin| == DEF_PIN_LEN && e.pin == e.newPin {
              if e.puk != card.puk {
                card.pukRetries := card.pukRetries - 1;
                if card.pukRetries == 0 {
                  error, finalType := Some(ERROR_PUK_RETRIES), SwapCard;
                } else {
                  error, finalType := Some(ERROR_PUK), EnterPUK;
                }
              }
            } else {
              error, finalType := Some(ERROR_UNBLOCKING), EnterNewPIN;
            }
          } else {
            error, finalType := Some(""), EnterPUK;
          }
        } else {
          if e.newPin == "" && |e.pin| == DEF_PIN_LEN && e.pin != card.pin {
            card.pinRetries := card.pinRetries - 1;
            error, finalType := Some(ERROR_PIN), EnterPIN;
            if card.pinRetries == 0 {
              error, finalType := Some(""), EnterPUK;
            }
          }
        }
      }
      accepted :=
        (card.pinRetries > 0 && |e.pin| == DEF_PIN_LEN && e.pin == card.pin) ||
        (card.pinRetries == 0 && card.pukRetries > 0 && |e.puk| == DEF_PUK_LEN && e.puk == card.puk &&
         |e.pin| == DEF_PIN_LEN && e.pin == e.newPin);
    }

    /** Resolved metadata is everything the card lists, and the master address if asked for; else only the paths. */
    predicate MetadataDelivered(what: Sent)
      requires HasCard() && what.Metadata?
      reads this, card, helper
    {
      var master := if IsSet(params, ExportMaster) then Some(helper.masterKeyAddress) else None;
      what == if IsSet(params, ResolveAddr) then Metadata(card.name, card.wallets, master)
              else Metadata(card.name, Public(card.wallets), None)
    }

    /** The ladder guards only the resolved metadata. */
    twostate predicate ServedMetadata(k: MockedKeycard)
      reads this, k
    {
      if k.notStatusKeycard then Refused(k, SwapCard, ERROR_NOT_A_KEYCARD, 0)
      else if k.instanceUID == "" || k.keyUID == "" then
        k.Secrets() == old(k.Secrets()) && state == Idle && sent == Then(old(sent), Failed(ERROR_NO_KEYS))
      else if IsSet(params, ResolveAddr) && k.freePairingSlots == 0 then
        Refused(k, SwapCard, "free-pairing-slots", 0)
      else if !WellTypedFor(GetMetadata, params) then panicked && k.Secrets() == old(k.Secrets())
      else !panicked && Handled(k, GetMetadata)
    }

    /** handleGetMetadataFlow: the ladder guards only the resolved metadata. */
    method HandleGetMetadata()
      requires HasCard() && !panicked
      modifies `state, `sent, `panicked, card`pinRetries, card`pukRetries, card`pin, helper`masterKeyAddress
      ensures ServedMetadata(card)
      ensures !panicked && sent.Then? && sent.past == old(sent) && sent.last.Metadata? ==> MetadataDelivered(sent.last)
    {
      if card.notStatusKeycard {
        state := Paused;
        Send(Asked(SwapCard, Some(ERROR_NOT_A_KEYCARD), 0, None));
        return;
      }
      if card.instanceUID == "" || card.keyUID == "" {
        state := Idle;
        Send(Failed(ERROR_NO_KEYS));
        return;
      }
      if NotFlag(params, ResolveAddr) {
        panicked := true;
        return;
      }
      if !IsSet(params, ResolveAddr) {
        var wallets := PublicWallets();
        state := Idle;
        Send(Metadata(card.name, wallets, None));
        return;
      }
      if card.freePairingSlots == 0 {
        state := Paused;
        Send(Asked(SwapCard, Some("free-pairing-slots"), card.freePairingSlots, None));
        return;
      }
      if !WellTypedFor(GetMetadata, params) {
        panicked := true;
        return;
      }
      GetMetadataWithCredentials();
    }

    method GetMetadataWithCredentials()
      requires HasCard() && WellTypedFor(GetMetadata, params) && IsSet(params, ResolveAddr)
      modifies `state, `sent, card`pinRetries, card`pukRetries, card`pin, helper`masterKeyAddress
      ensures Handled(card, GetMetadata)
      ensures sent.Then? && sent.last.Metadata? ==> MetadataDelivered(sent.last)
    {
      var e := EnteredIn(params);
      ResolvedMetadataIsVerified(card.Secrets(), e);
      hide Ladder, Passes, Handle, EnteredIn, WellTypedFor;
      LateTestIsEarlyTest(card.Secrets(), e);
      var finalType, error, accepted := GetMetadataLadder(e);
      if accepted {
        Accept(e.pin);
        DeliverMetadata();
        return;
      }
      state := Paused;
      AskFor(finalType, error);
    }

    method DeliverMetadata()
      requires HasCard() && IsSet(params, ResolveAddr)
      modifies `state, `sent, helper`masterKeyAddress
      ensures state == Idle && sent.Then? && sent.past == old(sent)
      ensures sent.last.Metadata? && MetadataDelivered(sent.last)
    {
      var master := None;
      if IsSet(params, ExportMaster) {
        var address := MasterAddress();
        master := Some(address);
      }
      state := Idle;
      Send(Metadata(card.name, card.wallets, master));
    }

    /** Wallets without address and key. */
    function Public(wallets: seq<MockWallet>): seq<MockWallet> {
      seq(|wallets|, i requires 0 <= i < |wallets| => MockWallet(wallets[i].path, "", ""))
    }

    method PublicWallets() returns (wallets: seq<MockWallet>)
      requires card != null
      ensures wallets == Public(card.wallets)
    {
      wallets := [];
      for i := 0 to |card.wallets|
        invariant wallets == Public(card.wallets[..i])
      {
        wallets := wallets + [MockWallet(card.wallets[i].path, "", "")];
      }
      assert card.wallets[..|card.wallets|] == card.wallets;
    }

    /** The helper's master key address, made up at random the first time it is asked for. */
    method MasterAddress() returns (address: string)
      requires helper != null
      modifies helper`masterKeyAddress
      ensures address == helper.masterKeyAddress && address != ""
      ensures old(helper.masterKeyAddress) != "" ==> address == old(helper.masterKeyAddress)
    {
      if helper.masterKeyAddress == "" {
        var n: nat := *;
        helper.masterKeyAddress := "0x" + Padded(100 + n % 100, 40);
      }
      address := helper.masterKeyAddress;
    }

    /** The keys for the path or paths in the parameters; what is made up is kept in the helper's table. */
    method ExportPaths(paths: Value) returns (keys: seq<MockKeyPair>)
      requires helper != null
      modifies `panicked, helper`exportedKey
      ensures old(panicked) ==> panicked
      ensures !panicked ==> KeysDelivered(paths, keys)
      ensures !panicked && !IsSet(params, ExportPriv) ==> PrivateKeysErased(keys)
      ensures Memoised(helper)
    {
      match paths {
        case Text(path) =>
          var key := Completed(helper.KeyAt(path), 1, IsSet(params, ExportPriv));
          helper.exportedKey := helper.exportedKey[path := key];
          return [key];
        case Items(items) =>
          keys := ExportAll(items, IsSet(params, ExportPriv));
        case _ =>
          keys := [];
      }
    }

    predicate PrivateKeysErased(keys: seq<MockKeyPair>) {
      forall i :: 0 <= i < |keys| ==> keys[i].privateKey == ""
    }

    /** Addresses and public keys once known are kept; private keys are not, if they are not exported. */
    predicate Extended(before: MockKeyPair, after: MockKeyPair, withPrivate: bool) {
      && (before.address != "" ==> after.address == before.address)
      && (before.publicKey != "" ==> after.publicKey == before.publicKey)
      && (withPrivate && before.privateKey != "" ==> after.privateKey == before.privateKey)
      && (!withPrivate ==> after.privateKey == before.privateKey || after.privateKey == "")
    }

    method ExportAll(items: seq<Value>, withPrivate: bool) returns (keys: seq<MockKeyPair>)
      requires helper != null
      modifies `panicked, helper`exportedKey
      ensures old(panicked) ==> panicked
      ensures !panicked ==>
        |keys| == |items| && forall i :: 0 <= i < |keys| ==>
          items[i].Text? && keys[i] == helper.KeyAt(items[i].text)
      ensures !panicked && !withPrivate ==> PrivateKeysErased(keys)
      ensures forall p :: p in old(helper.exportedKey) ==>
        p in helper.exportedKey && Extended(old(helper.exportedKey)[p], helper.exportedKey[p], withPrivate)
    {
      keys := [];
      for i := 0 to |items|
        invariant panicked == old(panicked) && |keys| == i && (!withPrivate ==> PrivateKeysErased(keys))
        invariant forall j :: 0 <= j < i ==>
          items[j].Text? && items[j].text in helper.exportedKey && keys[j] == helper.exportedKey[items[j].text]
        invariant forall j, n :: 0 <= j < i && n >= 0 ==> Completed(keys[j], n, withPrivate) == keys[j]
        invariant forall p :: p in old(helper.exportedKey) ==>
          p in helper.exportedKey && Extended(old(helper.exportedKey)[p], helper.exportedKey[p], withPrivate)
      {
        if !items[i].Text? {
          panicked := true;
          return;
        }
        var path := items[i].text;
        var key := Completed(helper.KeyAt(path), i + 1, withPrivate);
        forall n: nat ensures Completed(key, n, withPrivate) == key {
          CompletedIsStable(helper.KeyAt(path), i + 1, n, withPrivate);
        }
        helper.exportedKey := helper.exportedKey[path := key];
        keys := keys + [key];
      }
    }

    /** handleStoreMetadataFlow: no ladder, and a wrong PIN burns no attempt. */
    method HandleStoreMetadata()
      requires HasCard() && !panicked
      modifies `state, `sent, `panicked, card`name, card`wallets, helper`wallets
      ensures card.Secrets() == old(card.Secrets())
      ensures old(helper.wallets) <= helper.wallets
      ensures !Duplicated(old(helper.wallets)) ==> !Duplicated(helper.wallets)
      ensures !panicked && sent == Then(old(sent), Plain) && WalletPaths !in params ==> card.wallets == []
      ensures !panicked && sent == Then(old(sent), Plain) && WalletPaths in params && params[WalletPaths].Items? ==>
        Indexed(params[WalletPaths].items)
      ensures !panicked && sent == Then(old(sent), Plain) ==>
        TextAt(params, PIN) == card.pin && card.name == TextAt(params, CardName)
    {
      if card.notStatusKeycard {
        state := Paused;
        Send(Asked(SwapCard, Some(ERROR_NOT_A_KEYCARD), 0, None));
        return;
      }
      if (PIN in params && !params[PIN].Text?) || (CardName in params && !params[CardName].Text?) {
        panicked := true;
        return;
      }
      var pin, name := TextAt(params, PIN), TextAt(params, CardName);
      if |pin| == DEF_PIN_LEN && pin == card.pin && name != "" {
        card.name := name;
        card.wallets := [];
        if WalletPaths in params {
          if !params[WalletPaths].Items? {
            panicked := true;
            return;
          }
          StoreWallets(params[WalletPaths].items);
          if panicked {
            return;
          }
        }
        state := Idle;
        Send(Plain);
        return;
      }
      state := Paused;
      AskFor(if |pin| != DEF_PIN_LEN || pin != card.pin then EnterPIN else EnterName, None);
    }

    /** The card lists exactly these paths in order, each with the helper's entry for it. */
    ghost predicate Indexed(items: seq<Value>)
      requires card != null && helper != null
      reads this, card, helper
    {
      && |card.wallets| == |items|
      && forall i :: 0 <= i < |items| ==>
           items[i].Text? && Lookup(helper.wallets, items[i].text) == Some(card.wallets[i])
    }

    /** The nested loops: every path is looked up in the helper's table and added to it when missing. */
    method StoreWallets(items: seq<Value>)
      requires HasCard() && card.wallets == [] && !panicked
      modifies `panicked, card`wallets, helper`wallets
      ensures old(helper.wallets) <= helper.wallets
      ensures !Duplicated(old(helper.wallets)) ==> !Duplicated(helper.wallets)
      ensures !panicked ==> Indexed(items)
    {
      for i := 0 to |items|
        invariant !panicked && |card.wallets| == i && old(helper.wallets) <= helper.wallets
        invariant !Duplicated(old(helper.wallets)) ==> !Duplicated(helper.wallets)
        invariant forall j :: 0 <= j < i ==>
          items[j].Text? && Lookup(helper.wallets, items[j].text) == Some(card.wallets[j])
      {
        if !items[i].Text? || !Paths.HasPrefix(items[i].text, Paths.WALLET_ROOT) {
          panicked := true;
          return;
        }
        var wallet := FindOrAdd(items[i].text, i + 1);
        card.wallets := card.wallets + [wallet];
      }
    }

    method FindOrAdd(path: string, n: nat) returns (wallet: MockWallet)
      requires helper != null
      modifies helper`wallets
      ensures old(helper.wallets) <= helper.wallets
      ensures Lookup(helper.wallets, path) == Some(wallet) && wallet.path == path
      ensures Lookup(old(helper.wallets), path).Some? ==> helper.wallets == old(helper.wallets)
      ensures forall p :: Lookup(old(helper.wallets), p).Some? ==>
        Lookup(helper.wallets, p) == Lookup(old(helper.wallets), p)
      ensures !Duplicated(old(helper.wallets)) ==> !Duplicated(helper.wallets)
    {
      wallet := MockWallet(path, "", "");
      var found := false;
      for k := 0 to |helper.wallets|
        invariant !found && forall j :: 0 <= j < k ==> helper.wallets[j].path != path
      {
        if helper.wallets[k].path == path {
          found, wallet := true, helper.wallets[k];
          LookupFirst(helper.wallets, path, k);
          break;
        }
      }
      if !found {
        LookupFirst(helper.wallets, path, |helper.wallets|);
        wallet := MockWallet(path, "0x" + Padded(n, 40), Padded(n, 130));
        forall p ensures Lookup(helper.wallets + [wallet], p) ==
          if Lookup(helper.wallets, p).Some? then Lookup(helper.wallets, p) else Lookup([wallet], p)
        {
          LookupAppend(helper.wallets, [wallet], p);
        }
        helper.wallets := helper.wallets + [wallet];
      }
    }

    // -------------------------------------------------------------------------------------------
    // The client and the reader
    // -------------------------------------------------------------------------------------------

    method Start(flow: FlowType, newParams: Params) returns (accepted: bool)
      modifies `flowType, `params, `state
      ensures accepted <==> old(state) == Idle
      ensures accepted ==> state == Running && flowType == flow && params == newParams
      ensures !accepted ==> unchanged(this)
    {
      if state != Idle {
        return false;
      }
      flowType, params, state := flow, newParams, Running;
      return true;
    }

    method Resume(more: Params) returns (accepted: bool)
      modifies `params
      ensures accepted <==> old(state) == Paused
      ensures params == if accepted then old(params) + more else old(params)
    {
      if state != Paused {
        return false;
      }
      params := params + more;
      return true;
    }

    method Cancel() returns (accepted: bool)
      modifies `state, `params
      ensures accepted <==> old(state) != Idle
      ensures accepted ==> state == Idle && params == map[]
      ensures !accepted ==> unchanged(this)
    {
      if state == Idle {
        return false;
      }
      state, params := Idle, map[];
      return true;
    }

    /** A running flow that waits for a card goes on with the one inserted. */
    method InsertKeycard(index: int) returns (accepted: bool)
      requires Valid() && !panicked
      modifies this, registered.Values, registeredHelpers.Values
      ensures accepted <==> old(index in registered)
      ensures !accepted ==> unchanged(this)
      ensures accepted ==> readerState == KeycardInserted && card == old(registered[index])
      ensures accepted && old(state) == Running ==> Dispatched(old(registered[index]))
      ensures accepted && old(state) != Running ==> state == old(state) && sent == old(sent)
    {
      hide Handle;
      if index !in registered || index !in registeredHelpers {
        return false;
      }
      assert registered[index] in registered.Values && registeredHelpers[index] in registeredHelpers.Values;
      readerState, card, helper := KeycardInserted, registered[index], registeredHelpers[index];
      if state == Running {
        RunFlow();
      }
      return true;
    }

    /** A running flow asks for a card again. */
    method RemoveKeycard()
      requires Valid() && !panicked
      modifies `readerState, `card, `helper, `sent
      ensures Valid() && readerState == NoKeycard && card == null
      ensures sent == if state == Running then Then(old(sent), Asked(InsertCard, Some(ERROR_CONNECTION), 0, None))
                      else old(sent)
    {
      readerState, card, helper := NoKeycard, null, null;
      if state == Running {
        Send(Asked(InsertCard, Some(ERROR_CONNECTION), 0, None));
      }
    }

    /** runFlow. */
    method RunFlow()
      requires Valid() && !panicked
      modifies `state, `sent, `panicked
      modifies if card == null then {} else {card}
      modifies if helper == null then {} else {helper}
      ensures readerState == NoReader ==> sent == Then(old(sent), Failed("no-reader-found")) && state == old(state)
      ensures readerState == NoKeycard ==>
        state == old(state) && sent == Then(old(sent), Asked(InsertCard, Some(ERROR_CONNECTION), 0, None))
      ensures readerState == KeycardInserted ==> Dispatched(card)
    {
      match readerState {
        case NoReader =>
          Send(Failed("no-reader-found"));
        case NoKeycard =>
          Send(Asked(InsertCard, Some(ERROR_CONNECTION), 0, None));
        case KeycardInserted =>
          RunHandler();
      }
    }

    /** What the handlers guarantee for the credentials of the inserted card. */
    twostate predicate Dispatched(k: MockedKeycard)
      reads this, k
    {
      match flowType
      case Login => HandledWithKeys(k, Login)
      case RecoverAccount => HandledWithKeys(k, RecoverAccount)
      case ExportPublic => HandledWithKeys(k, ExportPublic) || PanickedDelivering(k)
      case ChangePIN => HandledForChange(k, ChangePIN)
      case ChangePUK => HandledForChange(k, ChangePUK)
      case GetMetadata => ServedMetadata(k)
      case GetAppInfo => InformedOf(k)
      case LoadAccount => AccountLoaded(k)
      case _ => k.Secrets() == old(k.Secrets())
    }

    method RunHandler()
      requires HasCard() && !panicked
      modifies `state, `sent, `panicked, card, helper
      ensures Dispatched(card)
    {
      match flowType {
        case GetAppInfo => HandleGetAppInfo();
        case LoadAccount => HandleLoadAccount();
        case StoreMetadata => HandleStoreMetadata();
        case Login => RunLadderHandler();
        case RecoverAccount => RunLadderHandler();
        case ExportPublic => RunLadderHandler();
        case ChangePIN => RunLadderHandler();
        case ChangePUK => RunLadderHandler();
        case GetMetadata => RunLadderHandler();
        case _ =>
      }
    }

    /** The handlers with a ladder change nothing but credentials and the helper's made-up keys. */
    method RunLadderHandler()
      requires HasCard() && !panicked && HasLadder(flowType)
      modifies `state, `sent, `panicked, card`pinRetries, card`pukRetries, card`pin, card`puk
      modifies helper`masterKeyAddress, helper`exportedKey
      ensures Dispatched(card)
    {
      match flowType {
        case Login => HandleLogin();
        case RecoverAccount => HandleRecoverAccount();
        case ExportPublic => HandleExportPublic();
        case ChangePIN => HandleChangePin();
        case ChangePUK => HandleChangePuk();
        case GetMetadata => HandleGetMetadata();
      }
    }

    // -------------------------------------------------------------------------------------------
    // Information and accounts
    // -------------------------------------------------------------------------------------------

    /** A factory reset empties the card; otherwise the PIN is only compared, and a wrong one burns no attempt. */
    twostate predicate InformedOf(k: MockedKeycard)
      reads this, k
    {
      || (k.Secrets() == old(k.Secrets()) &&
          (!panicked && sent.Then? && sent.past == old(sent) && sent.last.AppInfo? ==>
             state == Idle && |k.pin| == DEF_PIN_LEN && TextAt(params, PIN) == k.pin &&
             sent.last == AppInfo(true, k.instanceUID, k.keyUID, k.freePairingSlots)))
      || (IsSet(params, FactoryReset) && k.IsBlank() && state == Idle && !panicked &&
          sent == Then(old(sent), AppInfo(false, "", "", 0)))
    }

    /** handleGetAppInfoFlow. */
    method HandleGetAppInfo()
      requires HasCard() && !panicked
      modifies `state, `sent, `panicked, card
      ensures InformedOf(card)
    {
      if card.notStatusKeycard {
        state := Paused;
        Send(Asked(SwapCard, Some(ERROR_NOT_A_KEYCARD), 0, None));
        return;
      }
      if card.instanceUID == "" || card.keyUID == "" {
        state := Paused;
        Send(Asked(SwapCard, Some(ERROR_NO_KEYS), 0, Some((card.pinRetries, card.pukRetries))));
        return;
      }
      if (PIN in params && !params[PIN].Text?) || (FactoryReset in params && !params[FactoryReset].Flag?) {
        panicked := true;
        return;
      }
      if IsSet(params, FactoryReset) {
        state := Idle;
        card.Clear();
        Send(AppInfo(false, "", "", 0));
        return;
      }
      var pin := TextAt(params, PIN);
      if |pin| == DEF_PIN_LEN && pin == card.pin {
        state := Idle;
        Send(AppInfo(true, card.instanceUID, card.keyUID, card.freePairingSlots));
        return;
      }
      state := Paused;
      AskFor(EnterPIN, None);
    }

    /** len(strings.Split(s, " ")) */
    function WordCount(s: string): nat {
      if s == "" then 1 else (if s[0] == ' ' then 1 else 0) + WordCount(s[1..])
    }

    predicate CredentialsEntered()
      reads this
    {
      RepeatedPin(EnteredIn(params)) && |TextAt(params, NewPUK)| == DEF_PUK_LEN
    }

    /** A mnemonic has to be entered, unless an allowed overwrite asks for a new one. */
    predicate MnemonicEntered()
      reads this
    {
      !(IsSet(params, Overwrite) && TextAt(params, Mnemonic) == "") &&
      MnemonicLength(params) == WordCount(TextAt(params, Mnemonic))
    }

    /**
      An account gets onto a card exactly when the card holds none and credentials and a mnemonic of the right length
      are entered; its credentials are then the entered ones.
     */
    twostate predicate AccountPut(k: MockedKeycard)
      reads this, k
    {
      var put := (old(k.instanceUID) == "" || old(k.keyUID) == "") && CredentialsEntered() && MnemonicEntered();
      && k.Secrets() == (if put then MockLadders.Secrets(3, 5, TextAt(params, PIN), TextAt(params, NewPUK))
                         else old(k.Secrets()))
      && (sent != old(sent) && sent.Then? && sent.last.Account? ==> put && state == Idle)
    }

    /** A factory reset empties the card first. */
    twostate predicate AccountLoaded(k: MockedKeycard)
      reads this, k
    {
      if old(k.notStatusKeycard) then k.Secrets() == old(k.Secrets()) && !panicked
      else if !WellTypedFor(LoadAccount, params) then k.Secrets() == old(k.Secrets()) && panicked
      else if IsSet(params, FactoryReset) then
        k.Secrets() == if CredentialsEntered() && MnemonicEntered()
                       then MockLadders.Secrets(3, 5, TextAt(params, PIN), TextAt(params, NewPUK))
                       else MockLadders.Secrets(0, 0, "", "")
      else AccountPut(k)
    }

    /** handleLoadAccountFlow. */
    method HandleLoadAccount()
      requires HasCard() && !panicked
      modifies `state, `sent, `panicked, card
      ensures AccountLoaded(card)
    {
      if card.notStatusKeycard {
        state := Paused;
        Send(Asked(SwapCard, Some(ERROR_NOT_A_KEYCARD), 0, None));
        return;
      }
      if !WellTypedFor(LoadAccount, params) {
        panicked := true;
        return;
      }
      if IsSet(params, FactoryReset) {
        card.Clear();
      }
      LoadOntoCard();
    }

    /** When storing the pairing fails, nothing is sent. */
    method LoadOntoCard()
      requires HasCard()
      modifies `state, `sent, card
      ensures AccountPut(card)
    {
      if card.instanceUID != "" && card.keyUID != "" {
        state := Paused;
        Send(Asked(SwapCard, Some(ERROR_HAS_KEYS), card.freePairingSlots, None));
        return;
      }
      if CredentialsEntered() {
        if IsSet(params, Overwrite) && TextAt(params, Mnemonic) == "" {
          NewMnemonic();
          return;
        }
        if MnemonicLength(params) == WordCount(TextAt(params, Mnemonic)) {
          PutAccount();
          return;
        }
      }
      state := Paused;
      Send(Asked(EnterNewPIN, Some(ERROR_REQUIRE_INIT), 0, None));
    }

    /** Asks for the new mnemonic. */
    method NewMnemonic()
      requires HasCard()
      modifies `state, `sent, card`instanceUID
      ensures card.instanceUID == if old(card.instanceUID) == "" then helper.instanceUID else old(card.instanceUID)
      ensures sent == old(sent) || (sent.Then? && sent.past == old(sent) && sent.last.Asked? && state == Paused)
    {
      if card.instanceUID == "" {
        card.instanceUID := helper.instanceUID;
      }
      var stored := *;
      if !stored {
        return;
      }
      state := Paused;
      AskFor(EnterMnemonic, Some(ERROR_LOADING));
    }

    method PutAccount()
      requires HasCard()
      modifies `state, `sent, card
      ensures card.instanceUID == helper.instanceUID && card.keyUID == helper.keyUID && card.freePairingSlots == 4
      ensures card.Secrets() == MockLadders.Secrets(3, 5, TextAt(params, PIN), TextAt(params, NewPUK))
      ensures sent == old(sent) || (sent == Then(old(sent), Account(card.instanceUID, card.keyUID)) && state == Idle)
    {
      card.instanceUID, card.keyUID := helper.instanceUID, helper.keyUID;
      card.pin, card.puk := TextAt(params, PIN), TextAt(params, NewPUK);
      card.pinRetries, card.pukRetries, card.freePairingSlots := MAX_PIN_RETRIES, MAX_PUK_RETRIES, 4;
      var stored := *;
      if !stored {
        return;
      }
      state := Idle;
      Send(Account(card.instanceUID, card.keyUID));
    }

    // -------------------------------------------------------------------------------------------
    // Whole runs
    // -------------------------------------------------------------------------------------------

    /** The inserted card gets as far as the ladder.  Only handlers that would pair look at the free slots. */
    predicate Usable()
      reads this, card
    {
      && HasCard() && readerState == KeycardInserted && !card.notStatusKeycard
      && match flowType
         case ChangePIN => (card.instanceUID != "" || card.keyUID != "") && card.freePairingSlots != 0
         case ChangePUK => (card.instanceUID != "" || card.keyUID != "") && card.freePairingSlots != 0
         case GetMetadata =>
           card.instanceUID != "" && card.keyUID != "" && (IsSet(params, ResolveAddr) ==> card.freePairingSlots != 0)
         case _ => card.instanceUID != "" && card.keyUID != ""
    }

    /** One handled call on a usable card is one step of the specification, or a panic on what it asserts. */
    method RunLadder()
      requires Usable() && !panicked && HasLadder(flowType)
      modifies `state, `sent, `panicked, card`pinRetries, card`pukRetries, card`pin, card`puk
      modifies helper`masterKeyAddress, helper`exportedKey
      ensures Usable()
      ensures !WellTypedFor(flowType, params) ==> panicked && card.Secrets() == old(card.Secrets())
      ensures WellTypedFor(flowType, params) ==>
        card.Secrets() == Handle(flowType, old(card.Secrets()), EnteredIn(params)).after &&
        (panicked ==> Passes(old(card.Secrets()), EnteredIn(params)))
      ensures !panicked ==>
        var reply := Handle(flowType, old(card.Secrets()), EnteredIn(params)).reply;
        state == if reply != Result then Paused else if flowType == ChangePIN then old(state) else Idle
    {
      hide Handle, Passes, Conveys;
      RunLadderHandler();
    }

    /** Metadata that is not resolved is a result at once. */
    lemma PausedMetadataIsResolved(c: Secrets)
      ensures flowType == GetMetadata && !IsSet(params, ResolveAddr) ==>
        Handle(GetMetadata, c, EnteredIn(params)).reply == Result
    {
    }

    /**
      A whole run of a flow with a ladder: the call at hand, then a Resume for every prompt.  `n` resumes were accepted,
      and the credentials are those of the specified run over them.  A blocked card stays blocked through all of them,
      unless one of the steps is bypassed.  Parameters of another type than the handler asserts make it panic.
     */
    method RunThrough(resumes: seq<Params>) returns (n: nat)
      requires Usable() && !panicked && HasLadder(flowType)
      modifies `state, `sent, `panicked, `params
      modifies card`pinRetries, card`pukRetries, card`pin, card`puk
      modifies helper`masterKeyAddress, helper`exportedKey
      ensures n <= |resumes| && (n == |resumes| || state != Paused || panicked)
      ensures card.Secrets() ==
        After(flowType, old(card.Secrets()), old(params), resumes[..n], WellTypedFor(flowType, params))
      ensures !WellTypedFor(flowType, params) ==> panicked
      ensures StaysWellTyped(flowType, old(params), resumes) ==> WellTypedFor(flowType, params)
      ensures Blocked(old(card.Secrets())) && NeverBypasses(flowType, old(params), resumes) &&
              StaysWellTyped(flowType, old(params), resumes) ==>
        !panicked && n == |resumes| && state == Paused && card.Secrets() == old(card.Secrets())
      decreases |resumes|
    {
      FirstStep(flowType, card.Secrets(), params, resumes);
      PausedMetadataIsResolved(card.Secrets());
      hide Handle, Run, Passes, NeverBypasses, StaysWellTyped, WellTypedFor;
      RunLadder();
      n := 0;
      assert resumes[..n] == [];
      if resumes != [] && state == Paused && !panicked {
        ghost var c, first := old(card.Secrets()), old(params);
        var accepted := Resume(resumes[0]);
        n := RunThrough(resumes[1..]);
        AfterResumed(flowType, c, first, resumes, n, WellTypedFor(flowType, params));
        n := n + 1;
      }
    }
  }
}
