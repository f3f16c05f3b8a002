/**
 The SOS page over a whole visit: the alert state together with whether an
 `/api/expand_message` request is outstanding, driven by a sequence of
 events.
 */
module SosPage {
  import opened Http
  import opened Sos

  /** The user edits the keywords box, presses one of the two send
      controls, or the outstanding request settles at time `now`. */
  datatype Event =
    | Edit(text: string)
    | Press
    | Settle(reply: Reply<ExpandedMessage>, now: int)

  datatype Page = Page(alert: Alert, inFlight: bool)

  /** One event. The keywords box and both buttons are disabled while a
      request is in flight, so edits are ignored then; a settlement with no
      request in flight cannot happen and leaves the page alone. */
  function Apply(p: Page, url: Option<string>, e: Event): Page {
    match e
    case Edit(text) =>
      if p.alert.isLoading then p else p.(alert := p.alert.(keywords := text))
    case Press =>
      var st := SendStart(p.alert, url);
      Page(st.next, p.inFlight || st.request.Some?)
    case Settle(reply, now) =>
      if p.inFlight then Page(SendDone(p.alert, reply, now), false) else p
  }

  function Run(p: Page, url: Option<string>, events: seq<Event>): Page
    decreases |events|
  {
    if |events| == 0 then p else Run(Apply(p, url, events[0]), url, events[1..])
  }

  /** The flag is up exactly while a request is outstanding, and during that
      time the preview shows the placeholder and no send time is shown. */
  predicate Inv(p: Page) {
    && p.inFlight == p.alert.isLoading
    && (p.inFlight ==> p.alert.preview == Pending && p.alert.lastSentTime.None?)
  }

  lemma ApplyKeepsInv(p: Page, url: Option<string>, e: Event)
    requires Inv(p)
    ensures Inv(Apply(p, url, e))
  {
  }

  /** The invariant holds after every sequence of events from the first
      render. */
  lemma {:induction false} RunKeepsInv(p: Page, url: Option<string>, events: seq<Event>)
    requires Inv(p)
    ensures Inv(Run(p, url, events))
    decreases |events|
  {
    if |events| > 0 {
      ApplyKeepsInv(p, url, events[0]);
      RunKeepsInv(Apply(p, url, events[0]), url, events[1..]);
    }
  }

  /** The page as first rendered satisfies the invariant, and so does
      every page reached from it. */
  lemma VisitKeepsInv(url: Option<string>, events: seq<Event>)
    ensures Inv(Run(Page(Fresh(), false), url, events))
    ensures Run(Page(Fresh(), false), url, events).alert.isLoading ==>
      Run(Page(Fresh(), false), url, events).alert.preview == Pending
  {
    RunKeepsInv(Page(Fresh(), false), url, events);
  }

  /** A press while a request is in flight is a no-op and sends nothing. */
  lemma SingleFlight(p: Page, url: Option<string>)
    requires Inv(p) && p.inFlight
    ensures Apply(p, url, Press) == p
    ensures SendStart(p.alert, url).request.None?
  {
  }
}
