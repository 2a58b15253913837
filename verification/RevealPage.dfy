/** The page a holder of a link reveals from: one ticket comes with the metadata, and every
    retry after a wrong passphrase fetches a new one. */
module RevealPage {
  import opened Domain

  datatype Phase = Loading | Confirm | Passphrase | Opening | Shown | Failed | Left

  /** A reveal in flight is waiting for a new ticket, or for its answer. */
  datatype Flight = Idle | Fetching | Sent

  /** `sent` and `known` are history: the tickets sent so far, and those the page was given. */
  datatype Page = Page(phase: Phase, ticket: Option<Ticket>, flight: Flight, sent: seq<Ticket>, known: set<Ticket>)

  /** The bytes came and the envelope opened; a failed decryption counts as any other error. */
  const OPENED := 200
  const WRONG := 401

  /** A response brings a ticket, or an error status. */
  datatype Event = Meta(ticket: Ticket) | MetaFails(status: int) | Press | Answer(status: int)

  function Start(): Page {
    Page(Loading, None, Idle, [], {})
  }

  function AfterError(p: Page, status: int): Page {
    p.(flight := Idle,
       phase := if status == WRONG then Passphrase else if status == 403 || status == 410 then Left else Failed)
  }

  function Send(p: Page, ticket: Ticket): Page {
    p.(flight := Sent, sent := p.sent + [ticket])
  }

  /** The server issues every ticket once. The button is disabled, and the passphrase field is
      gone, while a reveal is under way. */
  function Step(p: Page, e: Event): Page {
    match e
    case Meta(t) =>
      if t in p.known then p
      else
        var q := p.(known := p.known + {t});
        if p.phase == Loading then q.(phase := Confirm, ticket := Some(t))
        else if p.flight == Fetching then Send(q, t)
        else p
    case MetaFails(status) =>
      if p.phase == Loading then p.(phase := if status == 410 || status == 404 then Left else Failed)
      else if p.flight == Fetching then AfterError(p, status) else p
    case Press =>
      if p.phase == Passphrase then p.(phase := Opening, flight := Fetching)
      else if p.phase == Confirm && p.ticket.Some? then Send(p, p.ticket.value).(phase := Opening)
      else p
    case Answer(status) =>
      if p.flight != Sent then p
      else if status == OPENED then p.(phase := Shown, flight := Idle)
      else AfterError(p, status)
  }

  function Run(events: seq<Event>): Page {
    if events == [] then Start() else Step(Run(events[..|events| - 1]), events[|events| - 1])
  }

  predicate Distinct(s: seq<Ticket>) {
    forall i, j :: 0 <= i < j < |s| ==> s[i] != s[j]
  }

  ghost predicate PageOk(p: Page) {
    && Distinct(p.sent) && (forall t :: t in p.sent ==> t in p.known)
    && (p.flight != Idle ==> p.phase == Opening)
    && (p.phase == Loading ==> p.known == {} && p.sent == [])
    && (p.phase == Confirm ==> p.ticket.Some? && p.ticket.value in p.known && p.sent == [])
    && |p.sent| + (if p.phase == Confirm then 1 else 0) <= |p.known|
  }

  lemma StepKeeps(p: Page, e: Event)
    requires PageOk(p)
    ensures PageOk(Step(p, e))
  {
  }

  /** Whatever the user and the server do, in whatever order, the page never sends a ticket
      twice, and never sends more than it was given. */
  lemma {:induction false} TicketsSentOnce(events: seq<Event>)
    ensures PageOk(Run(events))
    ensures Distinct(Run(events).sent) && |Run(events).sent| <= |Run(events).known|
  {
    if events != [] {
      TicketsSentOnce(events[..|events| - 1]);
      StepKeeps(Run(events[..|events| - 1]), events[|events| - 1]);
    }
  }

  // ---------------------------------------------------------------------- in place

  /** Reveal.tsx: what doReveal does before and after each of its two requests. */
  class View {
    var phase: Phase
    var ticket: Option<Ticket>
    var flight: Flight
    ghost var sent: seq<Ticket>
    ghost var known: set<Ticket>

    ghost function Value(): Page
      reads this
    {
      Page(phase, ticket, flight, sent, known)
    }

    constructor ()
      ensures Value() == Start()
    {
      phase, ticket, flight, sent, known := Loading, None, Idle, [], {};
    }

    method Loaded(t: Ticket)
      requires phase == Loading && t !in known
      modifies this
      ensures Value() == Step(old(Value()), Meta(t))
      ensures phase == Confirm && ticket == Some(t) && sent == old(sent)
    {
      phase, ticket, known := Confirm, Some(t), known + {t};
    }

    /** The metadata could not be loaded. */
    method NotLoaded(status: int)
      requires phase == Loading
      modifies this
      ensures Value() == Step(old(Value()), MetaFails(status))
      ensures phase == (if status == 410 || status == 404 then Left else Failed) && sent == old(sent)
    {
      phase := if status == 410 || status == 404 then Left else Failed;
    }

    /** No new ticket could be fetched: the same branch as an answer that is an error. */
    method NotFetched(status: int)
      requires PageOk(Value()) && flight == Fetching
      modifies this
      ensures Value() == Step(old(Value()), MetaFails(status))
      ensures flight == Idle && sent == old(sent)
      ensures phase == if status == 401 then Passphrase else if status == 403 || status == 410 then Left else Failed
    {
      flight := Idle;
      phase := if status == WRONG then Passphrase else if status == 403 || status == 410 then Left else Failed;
    }

    /** The start of doReveal: the ticket to send at once, if there is one. */
    method DoReveal() returns (send: Option<Ticket>)
      requires PageOk(Value()) && phase in {Confirm, Passphrase}
      modifies this
      ensures Value() == Step(old(Value()), Press) && PageOk(Value())
      ensures send.Some? ==> send.value !in old(sent) && sent == old(sent) + [send.value]
      ensures send == (if old(phase) == Confirm then old(ticket) else None)
      ensures phase == Opening && flight == if old(phase) == Confirm then Sent else Fetching
    {
      StepKeeps(Value(), Press);
      var before := phase;
      phase := Opening;
      if before == Passphrase {
        flight := Fetching;
        return None;
      }
      flight, sent := Sent, sent + [ticket.value];
      send := ticket;
    }

    method Fetched(t: Ticket)
      requires PageOk(Value()) && flight == Fetching && t !in known
      modifies this
      ensures Value() == Step(old(Value()), Meta(t)) && PageOk(Value())
      ensures t !in old(sent) && sent == old(sent) + [t] && phase == Opening && flight == Sent
    {
      StepKeeps(Value(), Meta(t));
      known := known + {t};
      flight, sent := Sent, sent + [t];
    }

    method Answered(status: int)
      requires PageOk(Value()) && flight == Sent
      modifies this
      ensures Value() == Step(old(Value()), Answer(status)) && PageOk(Value())
      ensures flight == Idle && sent == old(sent)
      ensures phase == if status == 200 then Shown else if status == 401 then Passphrase
                       else if status == 403 || status == 410 then Left else Failed
    {
      StepKeeps(Value(), Answer(status));
      flight := Idle;
      if status == OPENED {
        phase := Shown;
      } else if status == WRONG {
        phase := Passphrase;
      } else if status == 403 || status == 410 {
        phase := Left;
      } else {
        phase := Failed;
      }
    }
  }
}
