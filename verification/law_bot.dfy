/**
 The Law Bot page controller: a chat transcript, an input buffer, an
 in-flight flag and a "knowledge base primed" flag. Each asynchronous
 handler is split into the synchronous part that runs when it is invoked
 (`Submit`, `PrimeStart`) and the part that runs when its `fetch` settles
 (`Answer`, `PrimeDone`); the settled outcome is a parameter.
 */
module LawBot {
  import opened Strings
  import opened Http

  datatype Sender = User | Bot

  /** One chat bubble. `sources` is absent on user turns, on the welcome
      message and on the apology; it is present on every answered turn. */
  datatype Message = Message(id: int, text: string, sender: Sender, sources: Option<seq<string>>)

  /** Body of a successful `/api/law_bot` response. */
  datatype LawBotResponse = LawBotResponse(answer: string, sources: seq<string>)

  datatype Session = Session(messages: seq<Message>, input: string, isLoading: bool, isDataLoaded: bool)

  const Welcome: string := "Hello! I am the ResQ-Her Law Bot. I provide confidential guidance on your legal rights based on our knowledge base. Ask me anything about your rights."

  const Apology: string := "I'm sorry, I couldn't connect to the legal AI service. Please ensure the FastAPI backend is running."

  /** The state React creates before the mount effect runs. */
  function Fresh(): Session {
    Session([], "", false, false)
  }

  /** The welcome bubble the mount effect installs. */
  function WelcomeMessage(): Message {
    Message(0, Welcome, Bot, None)
  }

  /** `loadLegalData`, up to its `await`: a request is issued only when the
      knowledge base is not yet primed and the base URL is configured; no
      state changes either way. */
  function PrimeStart(s: Session, url: Option<string>): (r: Step<Session, ()>)
    ensures r.next == s
    ensures r.request.Some? <==> !s.isDataLoaded && Configured(url)
  {
    if s.isDataLoaded then Step(s, None)
    else if !Configured(url) then Step(s, None)
    else Step(s, Some(()))
  }

  /** `loadLegalData` after its `fetch` settles: an ok status primes the
      knowledge base; anything else leaves the flag as it was. Nothing else
      changes, and the flag is never cleared. */
  function PrimeDone(s: Session, reply: Reply<()>): (r: Session)
    ensures r.isDataLoaded <==> s.isDataLoaded || reply.Ok()
    ensures s.isDataLoaded ==> r.isDataLoaded
    ensures r.messages == s.messages && r.input == s.input && r.isLoading == s.isLoading
  {
    if reply.Ok() then s.(isDataLoaded := true) else s
  }

  /** The mount effect: priming is started from the fresh state and the
      transcript is replaced by the single welcome bubble. */
  function Mount(url: Option<string>): (r: Step<Session, ()>)
    ensures r.next.messages == [Message(0, Welcome, Bot, None)]
    ensures r.next.input == "" && !r.next.isLoading && !r.next.isDataLoaded
    ensures r.request.Some? <==> Configured(url)
  {
    var p := PrimeStart(Fresh(), url);
    Step(p.next.(messages := [WelcomeMessage()]), p.request)
  }

  /** Whether `handleSend` gets past its guard. */
  predicate Accepts(s: Session) {
    JsTrim(s.input) != "" && !s.isLoading
  }

  /** `handleSend`, up to its `await`. A blank input or a request already in
      flight makes it a no-op. Otherwise the user's turn is appended as
      typed (untrimmed), the input is cleared and the question sent is that
      same text; with no base URL the loading flag drops straight back and
      nothing is sent. */
  function Submit(s: Session, url: Option<string>, now: int): (r: Step<Session, string>)
    ensures AllSpace(s.input, IsJsSpace) || s.isLoading ==> r == Step(s, None)
    ensures !AllSpace(s.input, IsJsSpace) && !s.isLoading ==>
      && r.next.messages == s.messages + [Message(now, s.input, User, None)]
      && r.next.input == ""
      && r.next.isDataLoaded == s.isDataLoaded
      && (r.next.isLoading <==> Configured(url))
      && (r.request.Some? <==> Configured(url))
      && (r.request.Some? ==> r.request.value == s.input)
  {
    TrimEmptyIff(s.input, IsJsSpace);
    if !Accepts(s) then Step(s, None)
    else
      var s1 := s.(messages := s.messages + [Message(now, s.input, User, None)],
                   input := "", isLoading := true);
      if !Configured(url) then Step(s1.(isLoading := false), None)
      else Step(s1, Some(s.input))
  }

  /** The bot bubble a settled `/api/law_bot` request produces: the answer
      and its sources for an ok, decodable response, the fixed apology with
      no sources for anything else. */
  function BotReply(reply: Reply<LawBotResponse>, now: int): Message {
    match reply.Payload()
    case Some(data) => Message(now + 1, data.answer, Bot, Some(data.sources))
    case None => Message(now + 1, Apology, Bot, None)
  }

  /** `handleSend` after its `fetch` settles: exactly one bot bubble is
      appended (the answer with its sources, or the apology, whose text
      never depends on the error), and the loading flag is cleared. */
  function Answer(s: Session, reply: Reply<LawBotResponse>, now: int): (r: Session)
    ensures |r.messages| == |s.messages| + 1 && r.messages[..|s.messages|] == s.messages
    ensures r.messages[|s.messages|].sender == Bot && r.messages[|s.messages|].id == now + 1
    ensures reply.Ok() && reply.body.Some? ==>
      && r.messages[|s.messages|].text == reply.body.value.answer
      && r.messages[|s.messages|].sources == Some(reply.body.value.sources)
    ensures !(reply.Ok() && reply.body.Some?) ==>
      && r.messages[|s.messages|].text == Apology
      && r.messages[|s.messages|].sources == None
    ensures !r.isLoading && r.input == s.input && r.isDataLoaded == s.isDataLoaded
  {
    var r := s.(messages := s.messages + [BotReply(reply, now)], isLoading := false);
    assert r.messages[..|s.messages|] == s.messages;
    r
  }

  /** `handleSend` from invocation to completion, with nothing else
      happening in between (`now` is the clock when it is invoked, `later`
      when the request settles). A rejected submit changes nothing and
      sends nothing. Without a base URL the user's turn stays, no bot turn
      follows and nothing is sent. Otherwise exactly the user's turn and
      one bot turn are appended and the untrimmed input is sent. Every
      accepted submit ends not loading, with the input cleared and the
      primed flag untouched. */
  function HandleSend(s: Session, url: Option<string>, now: int, reply: Reply<LawBotResponse>, later: int): (r: Step<Session, string>)
    ensures AllSpace(s.input, IsJsSpace) || s.isLoading ==> r == Step(s, None)
    ensures !AllSpace(s.input, IsJsSpace) && !s.isLoading ==>
      && r.next.input == "" && !r.next.isLoading && r.next.isDataLoaded == s.isDataLoaded
      && r.request == (if Configured(url) then Some(s.input) else None)
      && r.next.messages == s.messages + [Message(now, s.input, User, None)]
                            + (if Configured(url) then [BotReply(reply, later)] else [])
  {
    var st := Submit(s, url, now);
    if st.request.Some? then Step(Answer(st.next, reply, later), st.request) else st
  }

  /** Whatever the outcome, a failed request contributes the same fixed
      apology: neither the status code nor the thrown error reaches the
      transcript. */
  lemma FailureTextIsFixed(s: Session, r1: Reply<LawBotResponse>, r2: Reply<LawBotResponse>, now: int)
    requires r1.Payload().None? && r2.Payload().None?
    ensures Answer(s, r1, now) == Answer(s, r2, now)
    ensures Answer(s, r1, now).messages[|s.messages|].text == Apology
  {
  }

  /** Once primed, asking again sends nothing: priming calls at most once
      after the first success. */
  lemma PrimeOnceAfterSuccess(s: Session, url: Option<string>, reply: Reply<()>)
    requires reply.Ok()
    ensures PrimeStart(PrimeDone(s, reply), url).request.None?
  {
  }
}
