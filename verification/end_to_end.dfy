/**
 The two browser pages wired to the backend endpoints they call: what a
 user sees once the backend's outcome has travelled back through `fetch`.
 */
module EndToEnd {
  import opened Http
  import opened Strings
  import LawBot
  import Sos
  import Backend

  /** How FastAPI answers `fetch`: 200 with the response model as JSON, or
      the `HTTPException`'s status with a `{detail}` body that does not
      decode as the response model. */
  function ServeLawBot(r: Backend.Result<Backend.LawBotResponse>): (reply: Reply<LawBot.LawBotResponse>)
    ensures reply.Payload().Some? <==> r.Ok?
    ensures r.Ok? ==> reply.Payload().value == LawBot.LawBotResponse(r.value.answer, r.value.sources)
  {
    match r
    case Ok(v) => Responded(200, Some(LawBot.LawBotResponse(v.answer, v.sources)))
    case Err(e) => Responded(e.status, None)
  }

  function ServeExpand(r: Backend.Result<Backend.ExpandedMessage>): (reply: Reply<Sos.ExpandedMessage>)
    ensures reply.Payload().Some? <==> r.Ok?
    ensures r.Ok? ==> reply.Payload().value == Sos.ExpandedMessage(r.value.expandedText, r.value.modelUsed)
  {
    match r
    case Ok(v) => Responded(200, Some(Sos.ExpandedMessage(v.expandedText, v.modelUsed)))
    case Err(e) => Responded(e.status, None)
  }

  /** A question asked of a configured page, answered by the backend with
      the model output `gen`: the backend sees the question as typed, and
      the bot bubble either carries the stripped model text with at most
      the first two stored texts as sources, or is the fixed apology (in
      particular whenever the backend lacks a prerequisite). */
  lemma AskTheBackend(s: LawBot.Session, url: Option<string>, now: int, srv: Backend.Server, gen: Backend.Generation, later: int)
    requires !AllSpace(s.input, IsJsSpace) && !s.isLoading && Configured(url)
    ensures var served := Backend.LawBot(srv, s.input, gen);
      var r := LawBot.HandleSend(s, url, now, ServeLawBot(served), later);
      && r.request == Some(s.input)
      && |r.next.messages| == |s.messages| + 2
      && var bot := r.next.messages[|s.messages| + 1];
      && (served.Ok? ==>
            && gen.Generated? && srv.db.Some?
            && bot.text == PyStrip(gen.text)
            && bot.sources == Some(Backend.Retrieve(srv.db.value)))
      && (served.Err? ==> bot.text == LawBot.Apology && bot.sources == None)
      && (srv.db.None? || !srv.modelLoaded || srv.apiKey.None? ==> bot.text == LawBot.Apology)
  {
    var served := Backend.LawBot(srv, s.input, gen);
    var reply := ServeLawBot(served);
    var r := LawBot.HandleSend(s, url, now, reply, later);
    assert r.next.messages[|s.messages| + 1] == LawBot.BotReply(reply, later);
  }

  /** An alert sent from a configured, idle page, expanded by the backend
      with the model output `gen`: the backend receives the normalised
      keywords, and the preview is the stripped model text with the send
      time recorded, or the fixed failure sentence with no send time
      (in particular whenever the API key is missing or empty). */
  lemma AlertTheBackend(a: Sos.Alert, url: Option<string>, srv: Backend.Server, gen: Backend.Generation, now: int)
    requires !a.isLoading && Configured(url)
    ensures var served := Backend.Expand(srv, Sos.MessageToSend(a.keywords), gen);
      var r := Sos.HandleSendSos(a, url, ServeExpand(served), now);
      && r.request == Some(Sos.MessageToSend(a.keywords))
      && (served.Ok? ==>
            && gen.Generated?
            && r.next.preview == PyStrip(gen.text)
            && r.next.lastSentTime == Some(now))
      && (served.Err? ==> r.next.preview == Sos.FailureText && r.next.lastSentTime.None?)
      && (srv.apiKey.None? || srv.apiKey == Some("") ==> r.next.preview == Sos.FailureText)
  {
  }
}
