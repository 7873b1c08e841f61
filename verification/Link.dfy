/** One reader, the card in it, and the command set talking to it (internal/keycard_context.go). */
module Links {
  import opened Wrappers
  import opened Histories
  import Cards
  import FlowTypes
  import Hex
  import Pairing

  /** `h` adds to `g` nothing but the commands of a factory reset. */
  ghost predicate Resetting(g: History, h: History) {
    h == g || (h.Then? && h.last.Sent? && !NeedsAdmission(h.last.cmd) && Resetting(g, h.past))
  }

  /** A factory reset is invisible to the run's bookkeeping and lawful at any point of it. */
  lemma {:induction false} ResettingIsLawful(g: History, h: History)
    requires Resetting(g, h) && RunPhase(g) == Live && !AwaitingCard(g)
    ensures RunPhase(h) == Live
    ensures CancelPending(h) == CancelPending(g) && AwaitingCard(h) == AwaitingCard(g)
    ensures Connections(h) == Connections(g) && Intruded(h) == Intruded(g)
    ensures forall params :: Accounted(g, params) ==> Accounted(h, params)
  {
    if h == g {
    } else {
      ResettingIsLawful(g, h.past);
    }
  }

  lemma {:induction false} ResettingKeepsLaws(authorities: seq<string>, g: History, h: History)
    requires Resetting(g, h) && RunPhase(g) == Live && !AwaitingCard(g) && Admission(g) == None
    requires Lawful(authorities, g)
    ensures Lawful(authorities, h) && Admission(h) == None
  {
    if h == g {
    } else {
      ResettingKeepsLaws(authorities, g, h.past);
      ResettingIsLawful(g, h.past);
    }
  }

  lemma ResettingAgain(g: History, m: History, h: History)
    requires Resetting(g, m) && Resetting(m, h)
    ensures Resetting(g, h)
  {
  }

  /** The recorded connection state and the card's own flags change together. */
  lemma FlagsFollow(h: History, cmd: Cards.Command, r: Cards.Reply, c: Cards.Card, after: Cards.Card)
    requires c.Valid() && Cards.Answers(c, cmd, r, after)
    requires c.channel.Some? == ChannelOpen(h) && c.authenticated == Verified(h)
    ensures after.channel.Some? == ChannelOpen(Then(h, Sent(cmd, r, c)))
    ensures after.authenticated == Verified(Then(h, Sent(cmd, r, c)))
  {
  }

  /** The card stays the one that was accepted, until it is rewritten. */
  lemma AdmissionFollows(h: History, cmd: Cards.Command, r: Cards.Reply, c: Cards.Card, after: Cards.Card)
    requires c.Valid() && Cards.Answers(c, cmd, r, after) && IsAdmitted(h, c)
    ensures IsAdmitted(Then(h, Sent(cmd, r, c)), after)
  {
  }

  class Link {
    var card: Cards.Card
    var alive: bool                     // false once a reader error has been returned on this connection
    var faults: nat                     // how many more times the reader may fail
    var appInfo: Cards.AppInfo          // cmdSet.ApplicationInfo
    var pairing: Option<Pairing.Info>   // cmdSet.PairingInfo
    ghost var log: History

    ghost predicate Valid()
      reads this
    {
      && card.Valid()
      && card.channel.Some? == ChannelOpen(log)
      && card.authenticated == Verified(log)
      && IsAdmitted(log, card)
    }

    constructor (faults: nat, log: History)
      requires !ChannelOpen(log) && !Verified(log) && Admission(log) == None
      ensures Valid() && this.faults == faults && this.log == log && !alive
    {
      card := Cards.NO_CARD;
      alive, appInfo, pairing := false, Cards.NO_APP_INFO, None;
      this.faults, this.log := faults, log;
    }

    /** Records an event that does not concern the card. */
    ghost method Note(e: Event)
      requires Valid() && !e.Sent? && e != Connected && (e.Admitted? ==> e.card == card)
      modifies this`log
      ensures Valid() && log == Then(old(log), e)
    {
      log := Then(log, e);
    }

    /** A card, any card, is in the reader: a new handle and a new command set. */
    method Connect()
      modifies this
      ensures Valid() && alive && faults == old(faults)
      ensures card.channel == None && !card.authenticated
      ensures log == Then(old(log), Connected)
    {
      var inserted: Cards.Card := *;
      card := if Cards.Plausible(inserted) then inserted.Disconnected() else Cards.NO_CARD;
      alive, appInfo, pairing := true, Cards.NO_APP_INFO, None;
      log := Then(log, Connected);
    }

    /** Replies that use up one of the remaining failures: reader errors, refused SELECT and GET STATUS. */
    static predicate Charged(c: Cards.Card, cmd: Cards.Command, r: Cards.Reply) {
      r.Fault? || (r.Refused? && (cmd.Select? || (cmd.GetStatus? && c.channel.Some?)))
    }

    /** Some answer the card may give; a reader failure only while failures remain. */
    static method Answer(c: Cards.Card, alive: bool, faults: nat, cmd: Cards.Command)
      returns (r: Cards.Reply, after: Cards.Card)
      requires c.Valid()
      ensures Cards.Answers(c, cmd, r, after)
      ensures !alive ==> r.Fault?
      ensures alive && Charged(c, cmd, r) ==> faults > 0
    {
      after := *;
      r := *;
      if !alive {
        return Cards.Fault, c;
      }
      if Cards.Answers(c, cmd, r, after) && (Charged(c, cmd, r) ==> faults > 0) {
        return;
      }
      if cmd.Select? {
        return Cards.Success(Cards.Info(c.app.Selected())), c.Disconnected();
      }
      if cmd.GetStatus? && c.channel.Some? {
        return Cards.Success(Cards.Status(Cards.AppStatus(c.pinRetries, c.pukRetries, c.app.keyUID != ""))), c;
      }
      return Cards.Refused(Cards.OtherReason), c;
    }

    /** One exchange with the card: any answer `Cards.Answers` allows, within the failures that remain. */
    method Send(cmd: Cards.Command) returns (r: Cards.Reply)
      requires Valid()
      modifies this
      ensures Valid() && Cards.Answers(old(card), cmd, r, card)
      ensures log == Then(old(log), Sent(cmd, r, old(card)))
      ensures alive == (old(alive) && !r.Fault?)
      ensures !old(alive) ==> r.Fault? && faults == old(faults)
      ensures old(alive) ==> faults == if Charged(old(card), cmd, r) then old(faults) - 1 else old(faults)
      ensures appInfo == if cmd.Select? && r.Success? then r.data.info else old(appInfo)
      ensures cmd.OpenChannel? ==> pairing == Some(Pairing.Info(cmd.key, cmd.index))
      ensures cmd.Pair? && r.Success? ==> pairing == Some(r.data.pairing)
      ensures !cmd.OpenChannel? && !(cmd.Pair? && r.Success?) ==> pairing == old(pairing)
    {
      var after;
      r, after := Answer(card, alive, faults, cmd);
      Cards.AnswersKeepValid(card, cmd, r, after);
      FlagsFollow(log, cmd, r, card, after);
      AdmissionFollows(log, cmd, r, card, after);
      if alive && Charged(card, cmd, r) {
        faults := faults - 1;
      }
      log := Then(log, Sent(cmd, r, card));
      card, alive := after, alive && !r.Fault?;
      if cmd.Select? && r.Success? {
        appInfo := r.data.info;
      } else if cmd.OpenChannel? {
        pairing := Some(Pairing.Info(cmd.key, cmd.index));
      } else if cmd.Pair? && r.Success? {
        pairing := Some(r.data.pairing);
      }
    }

    /** FactoryReset: the applet's own command when it has one, otherwise deleting and installing the applet. */
    method FactoryReset(retry: bool) returns (r: Cards.Reply)
      requires Valid()
      modifies this
      ensures Resetting(old(log), log) && ResetOutcome(r)
      decreases retry, 1
    {
      var selected := Send(Cards.Select);
      if !selected.Success? || !appInfo.canReset {
        ghost var before := log;
        r := FactoryResetFallback(retry);
        ResettingAgain(old(log), before, log);
        return;
      }
      r := Send(Cards.FactoryReset);
      if !r.Success? {
        ghost var before := log;
        r := FactoryResetFallback(retry);
        ResettingAgain(old(log), before, log);
      }
    }

    method FactoryResetFallback(retry: bool) returns (r: Cards.Reply)
      requires Valid()
      modifies this
      ensures Resetting(old(log), log) && ResetOutcome(r)
      decreases retry, 0
    {
      hide IsAdmitted, Admission;
      r := Send(Cards.SelectIssuer);
      assert Resetting(old(log), log);
      if !r.Success? {
        return;
      }
      r := Send(Cards.OpenIssuerChannel);
      assert Resetting(old(log), log);
      if !r.Success? {
        return;
      }
      r := Send(Cards.DeleteApplet);
      assert Resetting(old(log), log);
      if !r.Success? {
        if retry {
          ghost var before := log;
          r := FactoryReset(false);
          ResettingAgain(old(log), before, log);
        }
        return;
      }
      r := Send(Cards.InstallApplet);
    }

    /** After a factory reset the card is blank; after a failed one it is untouched or has lost its applet. */
    twostate predicate ResetOutcome(r: Cards.Reply)
      reads this
    {
      && Valid()
      && (r.Success? ==> alive && card.app.installed && card.app.IsBlank())
      && (r.Success? ==> log.Then? && log.last.Sent? && log.last.reply == r)
      && (r.Success? ==> log.last.cmd.FactoryReset? || log.last.cmd.InstallApplet?)
      && (r.Success? || card.Disconnected() == old(card).Disconnected() || (!card.app.installed && card.app.IsBlank()))
      && faults <= old(faults)
      && (r.Fault? && old(alive) ==> faults < old(faults))
      && (alive ==> old(alive))
    }
  }
}
