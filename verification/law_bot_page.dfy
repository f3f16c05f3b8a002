/**
 The Law Bot page over a whole visit: the controller state together with
 which of its two requests are outstanding, driven by a sequence of user
 and network events. The single-flight rule, the append-only transcript
 and the never-reset primed flag are stated here over every sequence.
 */
module LawBotPage {
  import opened Http
  import opened LawBot

  /** What can happen after mount: the user edits the input box, the user
      submits the form, the outstanding `/api/law_bot` request settles, or
      the outstanding priming request settles. */
  datatype Event =
    | Edit(text: string)
    | Send(now: int)
    | Settle(reply: Reply<LawBotResponse>, later: int)
    | Primed(outcome: Reply<()>)

  /** The controller state plus the requests in flight. */
  datatype Page = Page(session: Session, asking: bool, priming: bool)

  /** The page right after its mount effect. */
  function Boot(url: Option<string>): (p: Page)
    ensures p.session.messages == [WelcomeMessage()]
    ensures !p.asking && !p.session.isLoading && !p.session.isDataLoaded
    ensures p.priming <==> Configured(url)
  {
    var m := Mount(url);
    Page(m.next, false, m.request.Some?)
  }

  /** One event. The input box is disabled while a question is in flight,
      so edits are ignored then; a settlement with no matching request in
      flight cannot happen and leaves the page alone. */
  function Apply(p: Page, url: Option<string>, e: Event): Page {
    match e
    case Edit(text) =>
      if p.session.isLoading then p else p.(session := p.session.(input := text))
    case Send(now) =>
      var st := Submit(p.session, url, now);
      p.(session := st.next, asking := p.asking || st.request.Some?)
    case Settle(reply, later) =>
      if p.asking then p.(session := Answer(p.session, reply, later), asking := false) else p
    case Primed(outcome) =>
      if p.priming then p.(session := PrimeDone(p.session, outcome), priming := false) else p
  }

  function Run(p: Page, url: Option<string>, events: seq<Event>): Page
    decreases |events|
  {
    if |events| == 0 then p else Run(Apply(p, url, events[0]), url, events[1..])
  }

  /** The loading flag is shown exactly while a question is in flight. */
  predicate Inv(p: Page) {
    p.asking == p.session.isLoading
  }

  predicate IsPrefix<T(==)>(a: seq<T>, b: seq<T>) {
    |a| <= |b| && b[..|a|] == a
  }

  /** One event keeps the loading flag in step with the outstanding
      question, only appends to the transcript, and never unprimes. */
  lemma ApplyKeeps(p: Page, url: Option<string>, e: Event)
    requires Inv(p)
    ensures Inv(Apply(p, url, e))
    ensures IsPrefix(p.session.messages, Apply(p, url, e).session.messages)
    ensures p.session.isDataLoaded ==> Apply(p, url, e).session.isDataLoaded
  {
    match e
    case Send(now) =>
      var st := Submit(p.session, url, now);
      assert st.next.messages[..|p.session.messages|] == p.session.messages;
    case _ =>
  }

  /** Over any sequence of events from a consistent page: the loading flag
      stays in step with the outstanding question, earlier messages are
      never altered or removed, and a primed knowledge base stays primed. */
  lemma {:induction false} RunKeeps(p: Page, url: Option<string>, events: seq<Event>)
    requires Inv(p)
    ensures Inv(Run(p, url, events))
    ensures IsPrefix(p.session.messages, Run(p, url, events).session.messages)
    ensures p.session.isDataLoaded ==> Run(p, url, events).session.isDataLoaded
    decreases |events|
  {
    if |events| > 0 {
      var q := Apply(p, url, events[0]);
      ApplyKeeps(p, url, events[0]);
      RunKeeps(q, url, events[1..]);
      var a, b, c := p.session.messages, q.session.messages, Run(q, url, events[1..]).session.messages;
      assert c[..|a|] == c[..|b|][..|a|];
    }
  }

  /** A submit while a question is in flight is a no-op: no state change
      and, since the flag does not change, no second request. */
  lemma SingleFlight(p: Page, url: Option<string>, now: int)
    requires Inv(p) && p.asking
    ensures Apply(p, url, Send(now)) == p
    ensures Submit(p.session, url, now).request.None?
  {
  }

  /** Whatever happens during a visit, the welcome bubble stays first. */
  lemma WelcomeStaysFirst(url: Option<string>, events: seq<Event>)
    ensures |Run(Boot(url), url, events).session.messages| >= 1
    ensures Run(Boot(url), url, events).session.messages[0] == WelcomeMessage()
  {
    RunKeeps(Boot(url), url, events);
    var m := Run(Boot(url), url, events).session.messages;
    assert m[..1][0] == m[0];
  }

  /** Once a priming request succeeds no later event can unprime the
      knowledge base, so priming never needs to be issued again. */
  lemma PrimedForGood(p: Page, url: Option<string>, reply: Reply<()>, events: seq<Event>)
    requires Inv(p) && p.priming && reply.Ok()
    ensures Run(Apply(p, url, Primed(reply)), url, events).session.isDataLoaded
    ensures PrimeStart(Run(Apply(p, url, Primed(reply)), url, events).session, url).request.None?
  {
    ApplyKeeps(p, url, Primed(reply));
    RunKeeps(Apply(p, url, Primed(reply)), url, events);
  }
}
