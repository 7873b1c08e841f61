/**
  What the laws of a recording mean for the whole of it.  `KeycardFlow.Serve` shows that every recording of the
  engine is lawful; the lemmas here speak about any two points of such a recording.
 */
module FlowLaws {
  import opened Wrappers
  import opened FlowTypes
  import opened Histories
  import Cards

  /** A lawful recording is lawful at each of its events. */
  lemma {:induction false} LawAt(authorities: seq<string>, h: History, g: History)
    requires Lawful(authorities, h) && Extends(h, g)
    ensures Lawful(authorities, g) && (g.Then? ==> LawfulEvent(authorities, g.past, g.last))
  {
    if h == g {
    } else {
      LawAt(authorities, h.past, g);
    }
  }

  /** `h` adds to `g` no event that ends the channel, opens another one or rejects a PIN. */
  ghost predicate Undisturbed(h: History, g: History) {
    h == g ||
    (h.Then? && !ClosesChannel(h.last) && !OpensChannel(h.last) && !RejectsPin(h.last) && Undisturbed(h.past, g))
  }

  /** The verification that is still in force. */
  lemma {:induction false} FindVerification(h: History) returns (v: History)
    requires Verified(h)
    ensures Undisturbed(h, v) && Extends(h, v) && v.Then? && Verifies(v.last)
  {
    if Verifies(h.last) {
      v := h;
    } else {
      v := FindVerification(h.past);
    }
  }

  /** `h` adds to `g` no event that ends the channel. */
  ghost predicate SameChannel(h: History, g: History) {
    h == g || (h.Then? && !ClosesChannel(h.last) && SameChannel(h.past, g))
  }

  lemma {:induction false} FindChannel(h: History) returns (o: History)
    requires ChannelOpen(h)
    ensures SameChannel(h, o) && o.Then? && OpensChannel(o.last)
  {
    if OpensChannel(h.last) {
      o := h;
    } else {
      o := FindChannel(h.past);
    }
  }

  lemma {:induction false} ChannelOutlasts(h: History, v: History)
    requires Undisturbed(h, v) && ChannelOpen(h)
    ensures ChannelOpen(v)
  {
    if h == v {
    } else {
      ChannelOutlasts(h.past, v);
    }
  }

  /** The verification in force was made on the channel in use: open, verify, and nothing to undo either. */
  lemma {:induction false} VerifiedOnThisChannel(h: History) returns (v: History, o: History)
    requires ChannelOpen(h) && Verified(h)
    ensures Extends(h, v) && Undisturbed(h, v) && v.Then? && Verifies(v.last)
    ensures SameChannel(v.past, o) && o.Then? && OpensChannel(o.last)
  {
    v := FindVerification(h);
    ChannelOutlasts(h, v);
    o := FindChannel(v.past);
  }

  lemma {:induction false} ExtendsTransitive(h: History, g: History, f: History)
    requires Extends(h, g) && Extends(g, f)
    ensures Extends(h, f)
  {
    if h == g {
    } else {
      ExtendsTransitive(h.past, g, f);
    }
  }

  /**
    Every command on credentials, keys, slots or data comes after a successful VerifyPIN or UnblockPIN, with the
    channel untouched and no PIN rejected since, and that verification came after the channel was opened in the
    same connection.
   */
  lemma {:induction false} PrivilegedCommandsAreAuthorized(authorities: seq<string>, h: History, g: History)
    returns (v: History, o: History)
    requires Lawful(authorities, h) && Extends(h, g)
    requires g.Then? && g.last.Sent? && Cards.Privileged(g.last.cmd)
    ensures Extends(g.past, v) && Undisturbed(g.past, v) && v.Then? && Verifies(v.last)
    ensures SameChannel(v.past, o) && o.Then? && OpensChannel(o.last)
  {
    LawAt(authorities, h, g);
    v, o := VerifiedOnThisChannel(g.past);
  }

  /** No PIN is tried on a blocked counter and no PUK before the PIN is blocked or after the PUK is. */
  lemma AttemptsAreAllowed(authorities: seq<string>, h: History, g: History)
    requires Lawful(authorities, h) && Extends(h, g) && g.Then? && g.last.Sent?
    ensures g.last.cmd.VerifyPin? ==> g.last.before.pinRetries > 0
    ensures g.last.cmd.UnblockPin? ==> g.last.before.pinRetries == 0 && g.last.before.pukRetries > 0
  {
    LawAt(authorities, h, g);
  }

  /** No PIN or PUK is rejected more often than the user has supplied it: the engine never insists by itself. */
  lemma {:induction false} RejectionsAreSupplied(authorities: seq<string>, h: History, secret: string)
    requires Lawful(authorities, h)
    ensures RejectedPins(h, secret) <= SuppliedPins(h, secret)
    ensures RejectedPuks(h, secret) <= SuppliedPuks(h, secret)
  {
    if h.Nothing? {
    } else {
      RejectionsAreSupplied(authorities, h.past, secret);
    }
  }

  ghost function Results(h: History): nat {
    if h.Nothing? then 0 else Count(h.last.Published?) + Results(h.past)
  }

  ghost function Starts(h: History): nat {
    if h.Nothing? then 0 else Count(h.last.Started?) + Starts(h.past)
  }

  /** At most one result for each accepted Start; while a run is going its result is still to come. */
  lemma {:induction false} OneResultPerStart(authorities: seq<string>, h: History)
    requires Lawful(authorities, h)
    ensures Results(h) + Count(RunPhase(h) == Live) <= Starts(h)
  {
    if h.Nothing? {
    } else {
      OneResultPerStart(authorities, h.past);
    }
  }

  /** `h` continues the run at the end of `g`, and nothing has been sent to the client since. */
  ghost predicate NoSignalSince(h: History, g: History) {
    h == g || (h.Then? && !h.last.Signalled? && !h.last.Published? && !h.last.Started? && NoSignalSince(h.past, g))
  }

  lemma {:induction false} FindInsertCard(h: History) returns (p: History)
    requires AwaitingCard(h)
    ensures NoSignalSince(h, p) && p.Then? && p.last.Signalled? && p.last.signal == InsertCard
  {
    if h.last.Signalled? {
      p := h;
    } else {
      p := FindInsertCard(h.past);
    }
  }

  /** Every CardInserted answers an InsertCard, with no other signal in between. */
  lemma {:induction false} CardInsertedAnswersInsertCard(authorities: seq<string>, h: History, g: History)
    returns (p: History)
    requires Lawful(authorities, h) && Extends(h, g) && g.Then? && g.last.Signalled? && g.last.signal == CardInserted
    ensures NoSignalSince(g.past, p) && p.Then? && p.last.Signalled? && p.last.signal == InsertCard
  {
    LawAt(authorities, h, g);
    p := FindInsertCard(g.past);
  }

  /** `h` adds to `g` no word from the client and none to it. */
  ghost predicate Unanswered(h: History, g: History) {
    h == g ||
    (h.Then? && !h.last.Signalled? && !h.last.Published? && !h.last.Started? && !h.last.Resumed? &&
     !h.last.CancelRequested? && Unanswered(h.past, g))
  }

  lemma {:induction false} StillAwaiting(h: History, p: History)
    requires Unanswered(h, p) && p.Then? && p.last.Signalled? && p.last.signal == InsertCard
    ensures AwaitingCard(h)
  {
    if h == p {
    } else {
      StillAwaiting(h.past, p);
    }
  }

  /** After InsertCard nothing is sent to a card before CardInserted, unless the client has spoken up. */
  lemma {:induction false} InsertCardIsAnswered(authorities: seq<string>, h: History, g: History, p: History)
    requires Lawful(authorities, h) && Extends(h, g) && g.Then? && g.last.Sent?
    requires p.Then? && p.last.Signalled? && p.last.signal == InsertCard
    ensures !Unanswered(g.past, p)
  {
    LawAt(authorities, h, g);
    if Unanswered(g.past, p) {
      StillAwaiting(g.past, p);
    }
  }

  /** `h` adds to `g` neither a new run nor an InsertCard prompt. */
  ghost predicate WithoutCardPrompt(h: History, g: History) {
    h == g ||
    (h.Then? && !h.last.Started? && !(h.last.Signalled? && h.last.signal == InsertCard) &&
     WithoutCardPrompt(h.past, g))
  }

  /** A cancelled run says nothing more: no prompt and no result, as long as it does not ask for a card again. */
  lemma {:induction false} CancelledRunsAreSilent(authorities: seq<string>, h: History, g: History)
    requires Lawful(authorities, h) && WithoutCardPrompt(h, g) && g.Then? && g.last.CancelRequested?
    ensures NoSignalSince(h, g) && CancelPending(h)
  {
    if h == g {
    } else {
      CancelledRunsAreSilent(authorities, h.past, g);
    }
  }

  lemma {:induction false} FindAdmission(h: History) returns (a: History)
    requires Admission(h).Some?
    ensures SameConnection(h, a) && Extends(h, a) && a.Then? && a.last.Admitted? && a.last == Admission(h).value
  {
    if h.last.Admitted? {
      a := h;
    } else {
      a := FindAdmission(h.past);
    }
  }

  /**
    Whatever is sent after selection goes to a card that satisfies the constraints in force when it was selected: its
    instance UID is the one asked for, and so is its key UID until a seed is loaded or the key removed.  A seed is
    loaded onto a card that holds keys only when overwriting was allowed at that moment.
   */
  lemma {:induction false} CommandsReachTheRightCard(authorities: seq<string>, h: History, g: History)
    returns (a: History)
    requires Lawful(authorities, h) && Extends(h, g) && g.Then? && g.last.Sent? && NeedsAdmission(g.last.cmd)
    ensures SameConnection(g.past, a) && a.Then? && a.last.Admitted?
    ensures var selected, params := g.last.before.app.Selected(), a.last.params;
      && selected.installed
      && (InstanceUID in params ==> params[InstanceUID] == Text(selected.instanceUID))
      && (KeyUID in params && KeyUntouched(g.past) ==> params[KeyUID] == Text(selected.keyUID))
    ensures g.last.cmd.LoadSeed? && g.last.before.app.keyUID != "" ==> IsSet(a.last.params, Overwrite)
  {
    LawAt(authorities, h, g);
    a := FindAdmission(g.past);
    ExtendsTransitive(g, g.past, a);
    ExtendsTransitive(h, g, a);
    LawAt(authorities, h, a);
  }

  /** `h` continues the run that is current at the end of `g`. */
  ghost predicate SameRun(h: History, g: History) {
    h == g || (h.Then? && !h.last.Started? && SameRun(h.past, g))
  }

  lemma {:induction false} FindVoucher(h: History, authorities: seq<string>) returns (v: History)
    requires Vouched(h, authorities)
    ensures SameConnection(h, v) && v.Then? && VouchedBy(v.last, authorities)
  {
    if VouchedBy(h.last, authorities) {
      v := h;
    } else {
      v := FindVoucher(h.past, authorities);
    }
  }

  predicate Exempts(e: Event, uid: string) {
    (e.Started? || e.Resumed?) && Holds(e.params, SkipAuthUID, Text(uid))
  }

  lemma {:induction false} FindExemption(h: History, uid: string) returns (x: History)
    requires Exempted(h, uid)
    ensures SameRun(h, x) && x.Then? && Exempts(x.last, uid)
  {
    if Exempts(h.last, uid) {
      x := h;
    } else {
      x := FindExemption(h.past, uid);
    }
  }

  /**
    With authorities configured the engine pairs only with a card that has named one of them on this connection, or
    that the user has exempted in this run.
   */
  lemma {:induction false} PairsOnlyWithTrustedCards(authorities: seq<string>, h: History, g: History)
    returns (w: History)
    requires Lawful(authorities, h) && Extends(h, g) && g.Then? && g.last.Sent? && g.last.cmd.Pair?
    requires authorities != []
    ensures w.Then?
    ensures (SameConnection(g.past, w) && VouchedBy(w.last, authorities)) ||
            (SameRun(g.past, w) && Exempts(w.last, g.last.before.app.Selected().instanceUID))
  {
    LawAt(authorities, h, g);
    if Vouched(g.past, authorities) {
      w := FindVoucher(g.past, authorities);
    } else {
      w := FindExemption(g.past, g.last.before.app.Selected().instanceUID);
    }
  }

  /** A call that counts as made during an InsertCard prompt came after that prompt, with no other signal in between. */
  lemma {:induction false} FindIntrusion(h: History) returns (c: History, p: History)
    requires Intruded(h)
    ensures SameRun(h, c) && c.Then? && (c.last.Resumed? || c.last.CancelRequested?)
    ensures NoSignalSince(c.past, p) && p.Then? && p.last.Signalled? && p.last.signal == InsertCard
  {
    if (h.last.Resumed? || h.last.CancelRequested?) && AwaitingCard(h.past) {
      c := h;
      p := FindInsertCard(h.past);
    } else {
      c, p := FindIntrusion(h.past);
    }
  }

  /** Every value that counts as entered was entered in this run: by its Start or by a Resume. */
  lemma {:induction false} FindEntry(h: History, k: Key) returns (e: History)
    requires k in Merged(h)
    ensures SameRun(h, e) && e.Then? && (e.last.Started? || e.last.Resumed?)
    ensures Holds(e.last.params, k, Merged(h)[k])
  {
    if (h.last.Started? || h.last.Resumed?) && k in h.last.params {
      e := h;
    } else {
      e := FindEntry(h.past, k);
    }
  }

  /** A published success keeps the promise of its flow, and every prompt reports the card as it is. */
  lemma ReportsAreTrue(authorities: seq<string>, h: History, g: History)
    requires Lawful(authorities, h) && Extends(h, g) && g.Then?
    ensures g.last.Published? && !Failed(g.last.status) ==>
      Accomplished(g.last.flow, g.last.params, g.last.status, g.last.card)
    ensures g.last.Signalled? && g.last.signal != InsertCard && g.last.signal != CardInserted ==>
      Truthful(g.past, g.last.status, g.last.card)
  {
    LawAt(authorities, h, g);
  }
}
