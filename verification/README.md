# Verification of the Keycard library

This project models the parts of the library that drive a smart card through long, interruptible protocols, and
proves what those protocols keep. One abstract card (`Card.dfy`) stands under all of it: an applet with identity,
keys, metadata and five pairing slots; a PIN and a PUK with their attempts; and the secure channel and PIN state of
the current connection. A card answers a command by complying, by rejecting a secret with the attempts left, by
refusing, or the reader fails and the handle is dead. `Cards.Answers` is a relation: a card may refuse anything at
any time.

| File | Contents |
|---|---|
| `Hex.dfy`, `Paths.dfy`, `Metadata.dfy`, `Pairing.dfy` | hexadecimal text, derivation-path text, card metadata and its stored form, the pairing store |
| `Card.dfy`, `FlowTypes.dfy` | the card; flows, signals, parameter and status maps |
| `History.dfy` | recordings of a run (commands with their answers, prompts, results, client calls) and the laws they obey |
| `Link.dfy` | one reader and the command set on it; factory reset and its fallback |
| `Race.dfy` | waiting for a card: timer, reader and client in every order |
| `Flow.dfy`, `FlowLaws.dfy` | the Flow engine, method by method; what its laws mean for any two points of a recording |
| `Session.dfy`, `Transmit.dfy` | the Session: status, monitoring and commands; its request/reply protocol under every interleaving |
| `MockLadder.dfy`, `MockFlow.dfy` | the PIN/PUK step of the mocked flows as one function and its runs; the handlers, each with its own copy |

How the engine is modelled. The user is a finite list of client calls (`KeycardFlow.script`); a cancellation may come
before any command, prompt or result, a resumption only at a prompt. The reader fails a finite but arbitrary number of
times (`Link.faults`); a refused SELECT or GET STATUS is counted with those failures, because the engine restarts on
both. After every reconnection any card may be in the reader. Everything sent and received is recorded in a ghost
`History`, and `Lawful` states the laws of every event in the light of what came before it. Every step carries the
measure `Fuel` = 4 × client calls left + 4 × failures left + 2 × (FactoryReset set) + (NewPIN present): a restart
strictly lowers it, and the pairing loop lowers the free slots instead. The engine's error values `Suspended` and
`Crashed` stand for a goroutine that waits for ever at a prompt or panics. Every step says what may make it panic, and
a run panics only if it was provoked (`Histories.Provoked`): the client entered a value of a type that the flow does not
assert (`FlowTypes.IllTyped`), or made a call during an InsertCard prompt, or the master key it asked for was not
exported.

Keys are named by what the card is told: key tree, starting point, components and form. Metadata on the card is the
bytes that are stored; characters of a string stand for its bytes.

How the session is modelled. A client command and a detection pass are atomic steps in any order (`Step`); a pass may
also run inside a failing command, at the moment the command hands its scan request to the watcher. What a pass makes
of a status is a function of what it meets (`Sessions.AfterPass`). A hand-over that nobody receives blocks for ever
(`hung`) and keeps the command set locked; later passes stop at that lock, and so do commands that pass their guards.
The pairing store's file is a value; writing may fail.

What the proofs found out about the code:

- The path decoder drops a hardened index in last position, so `m/44'/60'/0'/0/5'` is read back as index 0. The
  wallet-path round trip holds exactly for lists without hardened indexes (`Paths.WalletRoundTripIff`). Exporting and
  signing go through the same decoder: a path that ends in a hardened index gets its parent's key
  (`Histories.PrintedPathExportsOwnKeyIff`), and one of the library's own paths does: the key reported as EIP-1581 key
  is that of m/43'/60' (`Histories.FixedPathsExport`). Signing also ignores where a path begins
  (`Histories.SigningIgnoresTheStart`).
- Metadata with a run of indexes that starts at 2^24 or above is stored and can never be read again
  (`Metadatas.StoredIsReadBackIff`, `Metadatas.LargeIndexIsUnreadable`).
- The engine panics while it waits for a card, under some order of events, exactly when `Races.MayPanic` says so
  (`Races.CanPanicIff`). From the start of a run that is: when the client makes any Resume, or any Cancel and the reader
  may fail (`Races.FreshRunCanPanicIff`, `Races.FailingRaces`): after the reconnection the timer's prompt overwrites the
  state Cancelling, and the wake-up token of the Cancel is then taken for a Resume's.
- A value of another type than the flow asserts makes the engine panic where it is asserted
  (`Flows.KeycardFlow.TryPin`, `TryUnblock`, `SendInit`, `SendSeed`: exactly then). With such a value under FactoryReset
  and a silent client, a run panics exactly when it finds a card (`Flows.KeycardFlow.RunFlow`).
- Asked for the master key, the engine panics exactly when its export fails
  (`Flows.KeycardFlow.ExportMasterAddress`).
- A cancelled run sends no prompt and no result any more (`FlowLaws.CancelledRunsAreSilent`), unless it prompts for a
  card: it goes on with the card it finds exactly when it has prompted for one after the cancellation
  (`Races.CancelIsForgottenIff`).
- A call during the InsertCard prompt that the reader overtakes leaves its wake-up token on offer, and no CardInserted
  is sent unless another prompt comes in between (`Races.OvertakenCall`). A cancelled run then gives up without taking
  the token (`Flows.KeycardFlow.PauseAndWaitWithStatus`), so the client's call never returns; a finished run leaves a
  client waiting only if such a call was made in it (`Flows.KeycardFlow.RunFlow`).
- In prompts after a pairing, FreeSlots is still the value from selection: it exceeds the card's free slots by the
  pairings made since (`Histories.Truthful`, a law of `FlowLaws.ReportsAreTrue`).
- The session can show the metadata of a card that is gone: a detection pass that a failing PIN or PUK command has
  handed over does not read the new card's, and the command then refreshes the state over that error
  (`Sessions.HandOverShowsCardMetadataIff`, `Sessions.StaleMetadataRun`).
- State Ready is documented as "PIN not verified". The card of a session that is ready has the PIN verified exactly when
  the last verification on its channel was followed by a ChangePIN or ChangePUK, accepted or refused, or by a VerifyPIN
  that was refused without being rejected (`Sessions.KeycardContextV2.Session`, `Sessions.FindDemotion`); after an
  accepted ChangePIN it always has (`Sessions.KeycardContextV2.ChangePIN`), after a pass never
  (`Sessions.KeycardContextV2.Detect`).
- A hand-over without a watcher blocks for ever, for instance a reader error while metadata is read for the first time
  (`Sessions.KeycardContextV2.ForceScan`, `LoseReader`). A later pass can leave the session in its old state, even
  Authorized, over a connection that nothing can use (`Sessions.KeycardContextV2.DetectBehindLock`).
- Once the worker has stopped, a sender that finds the request queue full waits for ever (`Transmits.SenderGetsOnIff`).
- `Delete` of the pairing store does not save: a deleted pairing is back when the file is opened again
  (`Pairing.DeletedEntryReturns`).
- The mocked ChangePIN needs no credentials at all when the new PIN is repeated and overwriting is allowed, even on a
  blocked card (`MockLadders.ResultWithoutCredentialsIff`). Mocked flows keep a refused PIN, so resuming with nothing new
  burns attempts (`MockLadders.EmptyResumesBurnThePin`). The mocked StoreMetadata burns none for a wrong PIN
  (`MockFlows.MockedKeycardFlow.HandleStoreMetadata`). Exporting without private keys erases the private keys the mock
  had stored (`MockFlows.MockedKeycardFlow.HandleExportPublic`).

## Model

| member | source | states |
|---|---|---|
| Flows.KeycardFlow.RunFlow | pkg/flow/flow.go:103-129 | every run ends, its recording is lawful, and it makes at most `Fuel` + 1 connections: finished and idle with no secret kept; or waiting, which it does only for a client that has nothing more to say or has not answered an InsertCard prompt; or in a panic, which takes an ill-typed value that the client has entered, a call during an InsertCard prompt, or a failed export of the master key asked for. With a silent client and an ill-typed FactoryReset it panics exactly when it finds a card. It leaves a client call waiting only if some call of the run was made during an InsertCard prompt. The failures counted in `Fuel` include refused SELECTs, so a card that refuses SELECT for ever makes the engine restart for ever |
| Flows.KeycardFlow.Serve | pkg/flow/flow.go:60-129 | after any number of runs the recording is lawful, the engine is idle exactly when no run is active, the last run has finished, waits for the client or was provoked into a panic, no PIN or PUK text was rejected more often than supplied, and there are at most as many results as starts |
| FlowLaws.PrivilegedCommandsAreAuthorized | pkg/flow/commands.go:150-294 | every export, sign, change, load, unpair, remove or store command comes after a successful VerifyPIN or UnblockPIN on the same channel, opened in the same connection, with no PIN rejected since |
| FlowLaws.RejectionsAreSupplied | pkg/flow/commands.go:200-284 | over all runs no text is rejected as PIN or PUK more often than the user supplied it |
| FlowLaws.AttemptsAreAllowed | pkg/flow/commands.go:200-284 | read off the law of any command of a lawful recording (that the engine keeps it is `Serve`): VerifyPIN is never sent with no PIN attempts left, UnblockPIN never before the PIN is blocked nor with no PUK attempts left |
| FlowLaws.OneResultPerStart | pkg/flow/flow.go:60-129 | at most one FlowResult for each accepted Start, and none yet while a run is going |
| FlowLaws.CardInsertedAnswersInsertCard | pkg/flow/flow.go:205-236 | every CardInserted follows an InsertCard of the same run with no other signal in between |
| FlowLaws.InsertCardIsAnswered | pkg/flow/flow.go:205-236 | after InsertCard nothing is sent to a card before CardInserted, unless the client has spoken up |
| FlowLaws.CancelledRunsAreSilent | pkg/flow/flow.go:88-163 | after a Cancel no prompt and no result are sent, until a card is prompted for again |
| FlowLaws.CommandsReachTheRightCard | pkg/flow/commands.go:31-60 | whatever is sent after selection goes to a card whose own instance UID is the one asked for when it was selected, and whose key UID is until a seed is loaded or the key removed; a seed reaches a card with keys only if Overwrite was set |
| FlowLaws.PairsOnlyWithTrustedCards | pkg/flow/commands.go:136-185 | over whole runs: with authorities configured, Pair is sent only to a card that named one of them on this connection, or that the user exempted in this run |
| FlowLaws.FindIntrusion | pkg/flow/flow.go:205-236 | a call that counts as made during an InsertCard prompt came after that prompt in the same run, with no other signal in between |
| FlowLaws.FindEntry | pkg/flow/flow.go:60-86 | every value that counts as entered was entered by the Start or a Resume of this run |
| FlowLaws.ReportsAreTrue | pkg/flow/flow.go:131-147 | read off the laws of prompts and results (that the engine keeps them is `Serve`): every prompt reports identity and counters as they are on the card, and every published success keeps the promise of its flow |
| FlowLaws.VerifiedOnThisChannel | pkg/flow/commands.go:150-284 | a PIN state recorded as verified goes back to a verification made after the channel in use was opened |
| Flows.KeycardFlow.Resume | pkg/flow/flow.go:73-86 | accepted exactly when paused; merges the parameters and wakes the run |
| Flows.KeycardFlow.Cancel | pkg/flow/flow.go:88-101 | accepted exactly when not idle; wakes the run only if it was paused |
| Flows.KeycardFlow.Start | pkg/flow/flow.go:60-71 | accepted exactly when idle, with everything else unchanged otherwise |
| Flows.KeycardFlow.Pause | pkg/flow/flow.go:131-147 | sends one truthful prompt, then waits |
| Flows.KeycardFlow.PauseAndWaitWithStatus | pkg/flow/flow.go:149-163 | a cancelled run is not prompted and takes no token; going on uses up a client call |
| Flows.KeycardFlow.PauseAndRestart | pkg/flow/flow.go:169-177 | ends in a restart that lowers the measure, or in giving up |
| Flows.KeycardFlow.UnblockPIN | pkg/flow/commands.go:200-247 | success leaves the card authenticated and the PIN in the parameters the card's PIN; nothing else on the card changes |
| Flows.KeycardFlow.TryUnblock | pkg/flow/commands.go:208-230 | a rejected PUK is dropped and the cached counter follows the card; an accepted one moves NewPIN into PIN; panics exactly when one of the two is not a text |
| Flows.KeycardFlow.Authenticate | pkg/flow/commands.go:249-284 | success leaves the card authenticated with the cached PIN counter at its maximum and the card's PIN in the parameters |
| Flows.KeycardFlow.TryPin | pkg/flow/commands.go:257-271 | a rejected PIN is dropped and the cached counter follows the card; an answer without a counter keeps the PIN and changes nothing; panics exactly when the PIN is not a text |
| Flows.KeycardFlow.InitCard | pkg/flow/commands.go:92-134 | never ends without error; an initialized card has the PIN and pairing password that the parameters now hold |
| Flows.KeycardFlow.SendInit | pkg/flow/commands.go:105-134 | the card gets the supplied PIN, PUK and pairing password, each in its place; panics exactly when one of them is not a text |
| Flows.KeycardFlow.Pair | pkg/flow/commands.go:62-90 | success takes a slot unless the measure went down, and stores a pairing the card knows |
| Flows.KeycardFlow.VerifyAuthenticity | pkg/flow/commands.go:136-148 | goes on only if no authority is configured, the user has exempted the card in this run, or the card has named a known authority on this connection |
| Flows.KeycardFlow.TryOpen | pkg/flow/commands.go:157-176 | an open channel comes with the card's counters in the cache and uses the given slot |
| Flows.KeycardFlow.OpenSC | pkg/flow/commands.go:150-198 | success opens a channel with the stored pairing and changes nothing but slots; with giveup it never pairs and forgets a pairing the card refused |
| Flows.KeycardFlow.OpenSCAndAuthenticate | pkg/flow/commands.go:286-294 | success means an open channel on an occupied slot and an authenticated card |
| Flows.KeycardFlow.ExportKeyExtended | pkg/flow/commands.go:410-418 | the key is the card's at the path that the decoder makes of the text, in the form asked for; a text the decoder refuses is not sent |
| Histories.PrintedPathExportsOwnKeyIff | vendor/github.com/status-im/keycard-go/commands.go:275-302 | for every list of 32-bit indexes: exporting its printed path gives its own key exactly when the path does not end in a hardened index; otherwise the parent's |
| Histories.PrintedPathSignsWithOwnKeyIff | vendor/github.com/status-im/keycard-go/commands.go:328-355 | the same for signing |
| Histories.SigningIgnoresTheStart | vendor/github.com/status-im/keycard-go/commands.go:328-355 | signing takes the same key for "../" as for "m/", whatever follows |
| Histories.FixedPathsExport | internal/const.go:14-19 | of the library's six fixed paths five export their own key; the EIP-1581 path exports the key of m/43'/60' |
| Flows.KeycardFlow.ExportBIP44Key | pkg/flow/commands.go:420-453 | the keys are those the requested path texts decode to, one each and in order |
| Flows.KeycardFlow.ExportAll | pkg/flow/commands.go:420-453 | one key for each path text, in order, each at the path its text decodes to |
| Flows.KeycardFlow.LoadKeys | pkg/flow/commands.go:455-499 | success means the last command loaded the seed of the mnemonic in the parameters, and only the key UID changed; panics only on a mnemonic that is not a text |
| Flows.KeycardFlow.SendSeed | pkg/flow/commands.go:455-467 | the seed of the mnemonic in the parameters is loaded; panics exactly when the mnemonic is not a text |
| Flows.KeycardFlow.ChangePin | pkg/flow/commands.go:501-521 | success means the card has the new PIN of the parameters |
| Flows.KeycardFlow.ChangePuk | pkg/flow/commands.go:523-543 | success means the card has the new PUK of the parameters |
| Flows.KeycardFlow.ChangePairingPass | pkg/flow/commands.go:545-565 | success means the card has the new pairing password of the parameters |
| Flows.KeycardFlow.SignHash | pkg/flow/commands.go:567-610 | the signature is made with the key at the components the path text decodes to, from the master key, over the decoded hash |
| Flows.KeycardFlow.SignWithPath | vendor/github.com/status-im/keycard-go/commands.go:328-355 | nothing is sent for a hash that is not 32 bytes long or a refused path text; otherwise the signing key is the decoded one |
| Flows.KeycardFlow.WalletIndexes | pkg/flow/commands.go:363-381 | among texts, accepts exactly the lists that `Paths.ParsePaths` accepts, with the same indexes |
| Flows.KeycardFlow.SetMetadata | pkg/flow/commands.go:346-397 | success means the card stores the bytes of the metadata described by name and paths, and nothing else changed |
| Flows.KeycardFlow.ReadMetadata | pkg/flow/commands.go:326-344 | success shows what the stored bytes parse to; data that cannot be parsed is an error |
| Flows.KeycardFlow.UnpairCurrent | pkg/flow/commands.go:296-304 | one more slot is free, on the card and in the cached status |
| Flows.KeycardFlow.UnpairAllOthers | pkg/flow/flow.go:530-540 | exactly the current slot stays occupied |
| Flows.KeycardFlow.RemoveKey | pkg/flow/commands.go:316-324 | the card has no key, and the cache says so |
| Flows.KeycardFlow.RequireKeys | pkg/flow/flow.go:179-185 | goes on only with a card that holds keys |
| Flows.KeycardFlow.RequireNoKeys | pkg/flow/flow.go:187-197 | goes on only where loading a seed is allowed |
| Flows.KeycardFlow.GetAppInfoFlow | pkg/flow/flow.go:294-309 | reports the selected card; says paired only when authenticated, with the card's counters |
| Flows.KeycardFlow.ExportKeysFlow | pkg/flow/flow.go:311-375 | the result names a card with keys and holds its keys in their forms, each at its own path except the EIP-1581 key, which is that of m/43'/60' |
| Flows.KeycardFlow.ExportPublicFlow | pkg/flow/flow.go:377-410 | the result names a card with keys and holds the keys the requested texts decode to |
| Flows.KeycardFlow.ExportMasterAddress | pkg/flow/flow.go:388-399 | the master key exactly when asked for; panics exactly when the flag is no truth value or the export asked for fails |
| Flows.KeycardFlow.LoadKeysFlow | pkg/flow/flow.go:412-432 | the result names the card with its new key |
| Flows.KeycardFlow.SignFlow | pkg/flow/flow.go:434-454 | the result names a card with keys and holds its signature, made as `SignHash` states |
| Flows.KeycardFlow.ChangePINFlow | pkg/flow/flow.go:456-470 | the result names a card whose PIN is the requested one |
| Flows.KeycardFlow.ChangePUKFlow | pkg/flow/flow.go:472-486 | the result names a card whose PUK is the requested one |
| Flows.KeycardFlow.ChangePairingFlow | pkg/flow/flow.go:488-502 | the result names a card whose pairing password is the requested one |
| Flows.KeycardFlow.UnpairThisFlow | pkg/flow/flow.go:504-519 | the result reports exactly the card's free slots |
| Flows.KeycardFlow.UnpairOthersFlow | pkg/flow/flow.go:521-542 | only the slot in use stays occupied |
| Flows.KeycardFlow.DeleteUnpairFlow | pkg/flow/flow.go:544-568 | the card has no key and the result reports exactly its free slots |
| Flows.KeycardFlow.StoreMetadataFlow | pkg/flow/flow.go:570-584 | the named card stores the bytes of the requested metadata |
| Flows.KeycardFlow.GetMetadataFlow | pkg/flow/flow.go:586-630 | the result lists the wallets the stored bytes parse to, in order, with the public key of each wallet's own child if resolving was asked for |
| Flows.KeycardFlow.ResolveWallets | pkg/flow/flow.go:615-624 | every wallet gets the key its path text decodes to |
| Histories.ReadWalletsResolveToChildren | pkg/flow/flow.go:615-624 | wallets read from a card are never hardened, so their texts export their own children's keys |
| Flows.KeycardFlow.SelectKeycard | pkg/flow/commands.go:31-60 | goes on only with a Keycard that itself meets the constraints in the parameters; the cache then agrees with the card |
| Flows.KeycardFlow.ResetCard | pkg/flow/commands.go:18-29 | always leaves the connection; the FactoryReset parameter is gone only if the card is blank |
| Flows.KeycardFlow.Connect | pkg/flow/flow.go:205-236 | a found card is a new connection with nothing known; restarts lower the measure; every attempt is a race that `Races.Follow` accounts for, move by move, with the calls the client made and the failures of the reader; a panic takes a call during an InsertCard prompt |
| Races.CanPanicIff | pkg/flow/flow.go:205-236 | for every position, every list of client calls and every number of reader failures: some order of events makes the engine panic while it waits for a card exactly when the client may resume during a prompt, or cancel with a prompt still to come that overwrites it |
| Races.FreshRunCanPanicIff | pkg/flow/flow.go:205-236 | from the start of a run: exactly when the client makes a Resume, or a Cancel and the reader may fail |
| Races.PanicsOnlyIf | pkg/flow/flow.go:205-236 | one direction of `CanPanicIff`, for every order of events |
| Races.PanicsIf | pkg/flow/flow.go:205-236 | the other direction: an order of events that leads to the panic |
| Races.SilentRace | pkg/flow/flow.go:205-236 | while the client is silent only a prompt changes the state, and the token on offer stays |
| Races.CancelIsForgottenIff | pkg/flow/flow.go:88-101 | a cancelled run goes on with the card it finds exactly when it has prompted for one after the cancellation |
| Races.OvertakenCall | pkg/flow/flow.go:205-236 | a call made during an InsertCard prompt that the reader overtakes leaves its token on offer; CardInserted is sent exactly when another prompt came in between, which also makes the run forget the call |
| Races.FailingRaces | pkg/flow/flow.go:205-236 | four concrete orders of events: a Resume, and a Cancel before a reader failure, that end in a panic; a Cancel that is forgotten; a Cancel that leaves its token |
| Histories.MistakesAreEntered | pkg/flow/flow.go:73-86 | whatever ill-typed value the parameters hold is one that the client has entered in this run |
| Flows.KeycardFlow.ConnectedFlow | pkg/flow/flow.go:238-292 | one connection: at most one more is recorded, and a result is truthful; a panic has one of the three causes |
| Flows.KeycardFlow.Conclude | pkg/flow/flow.go:109-128 | publishes exactly when the run was not cancelled up to that moment, forgets the parameters and goes idle |
| Flows.Unblocked | pkg/flow/commands.go:215-220 | moving NewPIN into PIN after an unblock holds the text once, so the account of attempts stays balanced |
| Flows.Reinitialized | pkg/flow/commands.go:127-131 | the same after initializing a card, and the measure goes down |
| Flows.CommandAccounts | pkg/flow/commands.go:200-284 | a rejected secret is paid for by dropping the parameter that held it |
| Flows.ResumeIsPaidFor | pkg/flow/flow.go:78-80 | parameters merged by Resume are covered by what the user supplied |
| Links.Link.FactoryReset | internal/keycard_context.go:485-499 | terminates; success leaves a blank applet, failure an untouched card or one without applet |
| Links.Link.FactoryResetFallback | internal/keycard_context.go:448-483 | the same for deleting and installing the applet, with one retry |
| Links.ResettingIsLawful | internal/keycard_context.go:448-499 | the commands of a factory reset leave phase, cancellation, prompts and the account of secrets as they were |
| Links.ResettingKeepsLaws | internal/keycard_context.go:448-499 | the commands of a factory reset keep all laws of a run |
| Links.Link.Send | internal/keycard_context.go:46-55 | one exchange; a dead handle answers only with reader errors, and the recorded connection state agrees with the card |
| Links.FlagsFollow | internal/keycard_context.go:212-275 | channel, PIN state and accepted identity read off the recording are the card's |
| Cards.AnswersKeepValid | internal/keycard_context.go:212-521 | every answer keeps the card consistent: an authenticated card has an open channel and a full PIN counter |
| Cards.ChecksOnlyCount | internal/keycard_context.go:257-275 | VerifyPIN and UnblockPIN change nothing but counters, PIN and PIN state, and report the attempts left |
| Cards.PairTakesSlot | internal/keycard_context.go:236-244 | pairing needs a free slot and takes exactly one, which then holds the returned key |
| Cards.UnpairFreesSlot | internal/keycard_context.go:394-406 | unpairing an occupied slot frees exactly one |
| Sessions.KeycardContextV2.Session | internal/keycard_context_v2.go:376-840 | after any sequence of commands, passes and unplugging, also after a hand-over that blocks for ever: in a known state over an open channel the cached counters, key flag, identity and slots are the card's, and the metadata is exactly when the last reading on this connection succeeded or the metadata shown before it happens to be the card's; authorized means the card has verified the PIN; ready means that it has not, exactly unless the session was demoted by a ChangePIN, a ChangePUK or a refused VerifyPIN; a known state without a channel is shown only by a session in which nothing moves any more; every published status has the parts and counters its state promises; at most one pairing is issued for a card not in the store |
| Sessions.HandOverShowsCardMetadataIff | internal/keycard_context_v2.go:376-438 | for every status, pass and card: after a pass handed over by a failing PIN or PUK command and the refresh of that command the session is in a known state, and shows the card's metadata exactly when the pass has read it or the old metadata is the card's |
| Sessions.StaleMetadataRun | internal/keycard_context_v2.go:614-648 | the failing run from the unknown state: card a is read, VerifyPIN meets a reader error, card b refuses its data, and the refresh is ready with the metadata of a; every exchange is one the cards may make |
| Sessions.PassKnowsMetadata | internal/keycard_context_v2.go:189-232 | a pass by itself ends in a known state only with the metadata read, or blocked on a lost reader |
| Sessions.FindDemotion | internal/keycard_context_v2.go:614-701 | a verified PIN in state Ready goes back to a ChangePIN, a ChangePUK or a VerifyPIN neither accepted nor rejected, sent on this channel over a verified PIN, with nothing to undo it since |
| Sessions.DemotedIsVerified | internal/keycard_context_v2.go:614-701 | such a command leaves the card's PIN state verified |
| Sessions.ContactOverrides | internal/keycard_context_v2.go:238-293 | what a pass makes of a selected card does not depend on the state and identity shown before |
| Sessions.PrivilegedCommandsAreAuthorized | internal/keycard_context_v2.go:504-512 | every privileged command of a session came after a verification on the channel it was sent over |
| Sessions.PairingIsRecorded | internal/keycard_context_v2.go:387-413 | pairing with a card not in the store and remembering it keeps at most one pairing per card |
| Sessions.ResettingIsGuarded | internal/keycard_context_v2.go:740-757 | a factory reset sends no privileged command and pairs with nobody |
| Sessions.KeycardContextV2.Detect | internal/keycard_context_v2.go:189-232 | a detection pass turns the status into `AfterPass` of what it met, which is true of the card, and keeps all session invariants, also inside a hand-over; a known state after it never has a verified PIN |
| Sessions.KeycardContextV2.DetectBehindLock | internal/keycard_context_v2.go:189-293 | a pass while a client waits for ever with the command set locked: if it finds a card it stops at the lock, with status and recording as they were |
| Sessions.KeycardContextV2.ConnectCard | internal/keycard_context_v2.go:238-293 | a found card is selected and shown as connecting, with the card's own identity and slots |
| Sessions.KeycardContextV2.ConnectKeycard | internal/keycard_context_v2.go:376-438 | the status becomes `AfterPass` of what the card answered, and all session invariants are kept, whichever step fails |
| Sessions.KeycardContextV2.PairCard | internal/keycard_context_v2.go:387-418 | success means the returned pairing is in the store and the slots shown are those after pairing |
| Sessions.KeycardContextV2.PairAndStore | internal/keycard_context_v2.go:394-413 | a card that agreed to pair is in the store even if saving fails |
| Sessions.KeycardContextV2.UpdateApplicationStatus | internal/keycard_context_v2.go:549-577 | state and counters follow the card; never leaves the session authorized |
| Sessions.KeycardContextV2.UpdateMetadata | internal/keycard_context_v2.go:579-588 | success shows what the stored bytes parse to; a failure is a connection error and keeps the metadata shown before |
| Sessions.KeycardContextV2.CheckSCardError | internal/keycard_context_v2.go:521-535 | a reader error drops the connection and hands over a scan, whose pass determines the status; other errors change nothing |
| Sessions.KeycardContextV2.ForceScan | internal/keycard_context_v2.go:454-456 | the status is that after the pass the watcher runs, if it runs one; without a watcher the sender blocks for ever |
| Sessions.KeycardContextV2.OnAuthorizeInteractions | internal/keycard_context_v2.go:614-623 | authorized exactly as the command said and only if no counter is 0 |
| Sessions.KeycardContextV2.VerifyPIN | internal/keycard_context_v2.go:625-648 | authorized only with the card's PIN; a wrong PIN costs one attempt; refused when not ready; after a handed-over pass the status is the refresh of `AfterPass` |
| Sessions.KeycardContextV2.ChangePIN | internal/keycard_context_v2.go:650-664 | reaches only an authorized card; afterwards the card has the new PIN, still verified, and a session in a known state is ready or its PUK blocked, not authorized |
| Sessions.KeycardContextV2.UnblockPIN | internal/keycard_context_v2.go:666-685 | only in state BlockedPIN; success means the right PUK, the new PIN, a card that has verified it, and a session that is authorized or, if its counters could not be read, in a connection error |
| Sessions.KeycardContextV2.ChangePUK | internal/keycard_context_v2.go:687-701 | reaches only an authorized card; afterwards the card has the new PUK, its PIN still verified, and a session in a known state is ready or its PUK blocked, not authorized |
| Sessions.KeycardContextV2.GenerateMnemonic | internal/keycard_context_v2.go:703-713 | only when ready and only for 12 to 26 words; changes nothing |
| Sessions.KeycardContextV2.LoadMnemonic | internal/keycard_context_v2.go:715-738 | loads the seed of these words onto an authorized card; cached key UID and key flag follow |
| Sessions.KeycardContextV2.Initialize | internal/keycard_context_v2.go:594-612 | succeeds only on a card not initialized before, with PIN, PUK and pairing password each in its place |
| Sessions.KeycardContextV2.FactoryReset | internal/keycard_context_v2.go:740-757 | first publishes the resetting state; success means the card was erased |
| Sessions.KeycardContextV2.GetMetadata | internal/keycard_context_v2.go:759-787 | returns what the stored bytes parse to, or nothing if none are stored, and changes nothing |
| Sessions.KeycardContextV2.StoreMetadata | internal/keycard_context_v2.go:807-840 | when authorized, refuses exactly the path lists and names that describe no metadata, without touching the card; success means the card stores the described metadata, it can be read back, and the status shows it |
| Sessions.KeycardContextV2.ExportKey | internal/keycard_context_v2.go:855-881 | the key is the card's at the path that the decoder makes of the text, in the form asked for; a refused text is not sent |
| Sessions.KeycardContextV2.ExportLoginKeys | internal/keycard_context_v2.go:883-910 | encryption and whisper key, in this order; refused without keys |
| Sessions.KeycardContextV2.ExportRecoverKeys | internal/keycard_context_v2.go:912-952 | all six keys in their order and forms, each at its own path except the EIP-1581 key, which is that of m/43'/60' |
| Transmits.RepliesBelongToTheirCalls | internal/keycard_context_v2.go:70-83 | under every schedule a call that returns a reply returns the card's only answer to its own APDU |
| Transmits.CardSeesRequestsInOrder | internal/keycard_context_v2.go:134-164 | the card sees requests in the order in which the queue accepted them, each at most once |
| Transmits.WorkerNeverBlocks | internal/keycard_context_v2.go:149-163 | the worker can always deliver, whether or not the caller is still there |
| Transmits.HeldIsUnanswered | internal/keycard_context_v2.go:149-163 | a request in the worker's hand has not been answered before |
| Transmits.InvStep | internal/keycard_context_v2.go:70-164 | every step of callers, queue and worker keeps the protocol invariant |
| Transmits.SenderGetsOnIff | internal/keycard_context_v2.go:70-83 | once the worker has stopped, a sender gets past the queue under some schedule exactly when the queue has room |
| Transmits.StoppedWorkerStrandsSenders | internal/keycard_context_v2.go:134-164 | with a stopped worker and a full queue a sender stays blocked under every schedule |
| MockLadders.LateTestIsEarlyTest | pkg/flow/mocked/mocked_flow_login.go:52-93 | the success test on the updated counters equals the credential test before the step |
| MockLadders.LateChangeTestIsEarlyTest | pkg/flow/mocked/mocked_flow_change_pin.go:63-112 | the two tests of ChangePIN do not depend on the step either |
| MockLadders.CountersStayInRange | pkg/flow/mocked/mocked_flow.go:68-84 | over every run of a flow with a ladder the counters stay within 0..3 and 0..5 |
| MockLadders.AttemptsAreConserved | pkg/flow/mocked/mocked_flow_login.go:52-110 | in the flows with a ladder: until something is accepted, attempts left plus attempts burnt are constant over every run |
| MockLadders.BlockedCardStaysBlockedIff | pkg/flow/mocked/mocked_flow_login.go:52-110 | for the six flows with a ladder: with both counters at 0 every step of a run asks for another card and nothing changes, exactly when no step is a ChangePIN with a repeated PIN and allowed overwrite or a GetMetadata that resolves nothing |
| MockLadders.NothingToBypass | pkg/flow/mocked/mocked_flow_login.go:52-110 | in Login, RecoverAccount, ExportPublic and ChangePUK no step of any run is such an exception |
| MockLadders.ResultWithoutCredentialsIff | pkg/flow/mocked/mocked_flow_change_pin.go:100-118 | without accepted credentials a handler with a ladder gives a result exactly for a repeated PIN with allowed overwrite in ChangePIN, or for public metadata |
| MockLadders.EmptyResumesBurnThePin | pkg/flow/mocked/mocked_flow.go:68-84 | in the flows with a ladder a refused PIN stays in the parameters: every resume without a new one burns an attempt |
| MockLadders.AfterResumed | pkg/flow/mocked/mocked_flow.go:68-84 | a run of one more resume, whether or not it ends on ill-typed parameters, begins with its first step |
| MockFlows.MockedKeycardFlow.LoginLadder | pkg/flow/mocked/mocked_flow_login.go:52-93 | this copy of the ladder computes the specified step and test |
| MockFlows.MockedKeycardFlow.RecoverAccountLadder | pkg/flow/mocked/mocked_flow_recover_account.go:52-93 | this copy of the ladder computes the specified step and test |
| MockFlows.MockedKeycardFlow.ExportPublicLadder | pkg/flow/mocked/mocked_flow_export_public.go:63-104 | this copy of the ladder computes the specified step and test |
| MockFlows.MockedKeycardFlow.ChangePinLadder | pkg/flow/mocked/mocked_flow_change_pin.go:63-100 | this copy of the ladder computes the specified step; its own two tests |
| MockFlows.MockedKeycardFlow.ChangePukLadder | pkg/flow/mocked/mocked_flow_change_puk.go:67-108 | this copy of the ladder computes the specified step and test |
| MockFlows.MockedKeycardFlow.GetMetadataLadder | pkg/flow/mocked/mocked_flow_get_metadata.go:66-107 | this copy of the ladder computes the specified step and test |
| MockFlows.MockedKeycardFlow.HandleLogin | pkg/flow/mocked/mocked_flow_login.go:9-111 | the handler is the specified step on the credentials and sends its reply, and panics exactly when one of the secrets it reads is not a text; the result holds the login keys |
| MockFlows.MockedKeycardFlow.HandleRecoverAccount | pkg/flow/mocked/mocked_flow_recover_account.go:9-115 | the handler is the specified step, and panics exactly when one of the secrets it reads is not a text; the result holds all six keys |
| MockFlows.MockedKeycardFlow.HandleExportPublic | pkg/flow/mocked/mocked_flow_export_public.go:13-182 | the handler is the specified step, and panics before it exactly when a value it reads is ill-typed; the result holds the memoised keys in order, no known address or public key changes, and private keys that are not exported are erased from the table |
| MockFlows.MockedKeycardFlow.HandleChangePin | pkg/flow/mocked/mocked_flow_change_pin.go:9-127 | the handler is the specified step, and panics exactly when a value it reads is ill-typed; a result leaves the state as it was |
| MockFlows.MockedKeycardFlow.HandleChangePuk | pkg/flow/mocked/mocked_flow_change_puk.go:9-131 | the handler is the specified step in two stages, first the prompt for the new PUK, and panics exactly when a value it reads is ill-typed |
| MockFlows.MockedKeycardFlow.HandleGetMetadata | pkg/flow/mocked/mocked_flow_get_metadata.go:13-147 | the handler is the specified step: the ladder, and the types it asserts, guard only the resolved metadata; the other is public |
| MockFlows.MockedKeycardFlow.HandleStoreMetadata | pkg/flow/mocked/mocked_flow_store_metadata.go:12-96 | the card lists exactly the requested paths in order, each with the helper's entry; old entries stay and the table stays duplicate-free |
| MockFlows.MockedKeycardFlow.StoreWallets | pkg/flow/mocked/mocked_flow_store_metadata.go:43-77 | the nested loops fill card and helper as `HandleStoreMetadata` states |
| MockFlows.MockedKeycardFlow.FindOrAdd | pkg/flow/mocked/mocked_flow_store_metadata.go:57-74 | the entry found first, or a new one appended |
| MockFlows.MockedKeycardFlow.ExportAll | pkg/flow/mocked/mocked_flow_export_public.go:132-170 | one memoised key for each path, in order |
| MockFlows.MockedKeycardFlow.RunThrough | pkg/flow/mocked/mocked_flow.go:68-84 | for all six flows with a ladder, every card that gets as far as the ladder and any parameters: a whole run computes the specified run over the accepted resumes; it panics whenever a value that the handler reads is ill-typed, and then the last call changes nothing; a blocked card stays blocked, without a panic, unless a step is bypassed or ill-typed |
| MockFlows.MockedKeycardFlow.RunFlow | pkg/flow/mocked/mocked_flow.go:192-237 | every flow runs its handler, and only on an inserted card |
| MockFlows.MockedKeycardFlow.HandleGetAppInfo | pkg/flow/mocked/mocked_flow_app_info.go:10-87 | a factory reset empties the card; otherwise the PIN is only compared, and a wrong one burns no attempt |
| MockFlows.MockedKeycardFlow.HandleLoadAccount | pkg/flow/mocked/mocked_flow_load_account.go:12-145 | an account gets onto a card exactly when it holds none, or is reset, and credentials and a mnemonic of the right length are entered; panics exactly when a value it reads is ill-typed |
| MockFlows.MockedKeycardFlow.RemoveKeycard | pkg/flow/mocked/mocked_flow.go:135-146 | a running flow asks for a card again |
| MockFlows.MockedKeycardFlow.Start | pkg/flow/mocked/mocked_flow.go:54-66 | accepted exactly when idle |
| MockFlows.MockedKeycardFlow.Resume | pkg/flow/mocked/mocked_flow.go:68-84 | accepted exactly when paused; merges the parameters |
| MockFlows.MockedKeycardFlow.Cancel | pkg/flow/mocked/mocked_flow.go:86-96 | accepted exactly when not idle; forgets the parameters |
| MockFlows.MockedKeycardFlow.InsertKeycard | pkg/flow/mocked/mocked_flow.go:116-133 | accepted exactly for a registered card; a running flow goes on with it |
| MockFlows.CompletedIsStable | pkg/flow/mocked/mocked_flow_export_public.go:132-170 | a completed key pair stays the same when asked for again |
| MockFlows.LookupAppend | pkg/flow/mocked/mocked_flow_store_metadata.go:57-74 | appending to the table does not disturb what is found in it |
| Paths.WalletRoundTripIff | internal/keycard_context_v2.go:789-805 | the paths printed by `ToMetadata` are read back as the same list exactly when no index is hardened |
| Paths.RoundTripIff | vendor/github.com/status-im/keycard-go/derivationpath/decoder.go:134-207 | printing and decoding is the identity exactly when the list does not end in a hardened index |
| Paths.TrailingMarkIsDropped | vendor/github.com/status-im/keycard-go/derivationpath/decoder.go:159-207 | for every text the decoder accepts that ends in a digit: a hardened mark after it costs the path its last component |
| Paths.DecodeEncode | vendor/github.com/status-im/keycard-go/derivationpath/encoder.go:10-25 | what the decoder makes of printed text, for every list of 32-bit indexes |
| Paths.HardenedIndexIsLost | vendor/github.com/status-im/keycard-go/derivationpath/decoder.go:159-170 | the concrete path that is read back as index 0 |
| Paths.WalletPathText | internal/utils.go:109-125 | printed wallet paths pass the prefix check |
| Paths.ParseWalletPaths | internal/keycard_context_v2.go:789-805 | every printed list is accepted, in order, hardened indexes becoming 0 |
| Paths.RootComponents | internal/keycard_context_v2.go:789-805 | taking the last component of an accepted path never goes out of range |
| Metadatas.InsertAllOrdered | vendor/github.com/status-im/keycard-go/types/metadata.go:77-97 | insertion keeps the list strictly ascending and loses no index |
| Metadatas.StoredIsReadBackIff | vendor/github.com/status-im/keycard-go/types/metadata.go:35-75 | what `NewMetadata` admits is read back from its stored bytes exactly when every run of consecutive indexes starts below 2^24 and spans fewer than 2^24 steps; otherwise reading fails |
| Metadatas.RequestedPathsAreShownAgainIff | vendor/github.com/status-im/keycard-go/types/metadata.go:21-75 | unhardened paths, stored and read back, are shown again exactly then: the same paths, ascending and without repetitions |
| Metadatas.LargeIndexIsUnreadable | vendor/github.com/status-im/keycard-go/types/metadata.go:138-169 | m/44'/60'/0'/0/16777216 is accepted and stored, and can never be read again |
| Metadatas.LengthReadBackIff | vendor/github.com/status-im/keycard-go/apdu/utils.go:90-143 | a length survives writing and reading exactly when it is below 2^24 |
| Metadatas.RunsReadBackIff | vendor/github.com/status-im/keycard-go/types/metadata.go:52-72 | runs are read back in order up to the first that does not fit |
| Metadatas.Serialize | vendor/github.com/status-im/keycard-go/types/metadata.go:138-169 | the loop writes header, name and the maximal runs |
| Metadatas.Parse | vendor/github.com/status-im/keycard-go/types/metadata.go:35-75 | the loops read header, name and runs, with every error of the source |
| Metadatas.ParsedIndexesAreSmall | vendor/github.com/status-im/keycard-go/types/metadata.go:52-72 | indexes that can be read at all are below 2^25, so never hardened |
| Metadatas.ToMetadata | internal/utils.go:109-125 | the reused buffer prints each path on its own |
| Paths.ParseAllPaths | internal/keycard_context_v2.go:789-805 | stops with the error of the first path that is not accepted |
| Hex.DecodeEncode | pkg/utils/hex_string.go:36-42 | decoding undoes encoding for every byte string |
| Hex.EncodeDecode | pkg/utils/hex_string.go:36-42 | decoding succeeds exactly on even-length hex text, and re-encoding gives it in lower case |
| Pairing.LoadSaved | pkg/pairing/store.go:14-56 | whatever is saved is loaded again unchanged |
| Pairing.PairingStore.NewStore | pkg/pairing/store.go:14-40 | an absent file is an empty store, a malformed one an error |
| Pairing.PairingStore.Store | pkg/pairing/store.go:58-61 | the entry is set even if saving fails; after a save the file is the map |
| Pairing.PairingStore.Delete | pkg/pairing/store.go:67-69 | removes the entry in memory and leaves the file alone |
| Pairing.DeletedEntryReturns | pkg/pairing/store.go:58-69 | opening the file written before a deletion brings the entry back |

## Left out

- Flows.KeycardFlow.Connect: the 150 ms timer, the reader and the client race freely; no claim is made that a card is ever found.
- Flows.KeycardFlow.RunFlow: that a run may panic for each of the three causes is shown where the cause arises (`Races.CanPanicIff`, `TryPin`, `ExportMasterAddress`), not for whole runs, except for an ill-typed FactoryReset; a nil parameter map, into which Resume cannot merge, is not modelled.
- Flows.KeycardFlow.UnpairOthersFlow: does not claim that the reported FreeSlots is the card's, because the code does not refresh it.
- Flows.KeycardFlow.Resume: client calls are serialized, and a check of `state` together with the prompt or result it guards is one step; a Resume between a reader failure under an InsertCard prompt and the end of the run is not modelled.
- FlowLaws.CancelledRunsAreSilent: stops at the next InsertCard prompt, because the code lets that prompt overwrite the cancellation.
- FlowLaws.RejectionsAreSupplied: counts attempts the card reports as burnt; a refusal without a counter keeps the secret in the parameters, as the code does.
- Cards.AnswersKeepValid: ChangePUK may or may not restore the PUK counter, since the code does not depend on it; the status word arithmetic of `GetRetries` is the card's typed answer here.
- Sessions.KeycardContextV2.Session: a detection pass does not start between a command and the refresh that follows it, unless it was handed over by that command.
- Sessions.KeycardContextV2.Perform: `Stop`, options and simulated errors are not steps; after an ended watch nobody looks after the readers.
- Transmits.WorkerNeverBlocks: says nothing about how long the card takes; liveness needs fairness, which is not modelled.
- Pairing.PairingStore.Save: a write that fails leaves the old file; truncated files are not modelled.
- MockFlows.MockedKeycardFlow.HandleStoreMetadata: does not say when exactly it panics.
- MockFlows.MockedKeycardFlow.RunFlow: `RegisterKeycard`, the mock's pairing store and the files of registered cards are not modelled; the random master address and mnemonic are any.
- Flows.KeycardFlow.ExportKeyExtended: the key that is current on the card is not modelled, so a key exported by a relative path is named by its starting point and components; the make-current option for the master path is not modelled.
- Metadatas.Serialize: the limit that one APDU puts on the stored bytes is not modelled.
- PC/SC, APDU bytes, secure-channel cryptography, PBKDF2, key derivation and addresses: exported keys are named by what determines them.
- RPC and websocket servers, cgo exports, logging, request validation and JSON quoting: plumbing.
- Timers, liveness and freedom from deadlock: not claimed.
- `BytesToInt`, `ParseVersion`, `ToAppInfo` and other one-line conversions: the model works on the converted values, and a conversion by itself keeps no property worth stating.
