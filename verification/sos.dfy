/**
 The SOS page: a keywords box, a preview of the alert text, an in-flight
 flag and the time of the last successful alert. `handleSendSOS` is split
 into its synchronous part (`SendStart`) and the part that runs when the
 `/api/expand_message` request settles (`SendDone`).
 */
module Sos {
  import opened Strings
  import opened Http

  /** Body of a successful `/api/expand_message` response. */
  datatype ExpandedMessage = ExpandedMessage(expandedText: string, modelUsed: string)

  /** `lastSentTime` is an abstract timestamp; `None` is JavaScript `null`. */
  datatype Alert = Alert(keywords: string, preview: string, isLoading: bool, lastSentTime: Option<int>)

  const DefaultKeywords: string := "Immediate help needed at my location."

  const Pending: string := "..."

  const FailureText: string := "Failed to connect to the SOS service. Please check your network and ensure the FastAPI backend is running."

  /** The state React creates on first render. */
  function Fresh(): Alert {
    Alert("", "", false, None)
  }

  /** `keywords.trim() || DEFAULT`: the trimmed keywords, or the fixed
      default when they trim to nothing. Never empty, and never starts or
      ends with whitespace. */
  function MessageToSend(keywords: string): (r: string)
    ensures AllSpace(keywords, IsJsSpace) ==> r == DefaultKeywords
    ensures !AllSpace(keywords, IsJsSpace) ==> IsTrimOf(r, keywords, IsJsSpace)
    ensures r != "" && NoEdgeSpace(r, IsJsSpace)
  {
    TrimEmptyIff(keywords, IsJsSpace);
    var t := JsTrim(keywords);
    TrimNoEdgeSpace(keywords, IsJsSpace);
    if t != "" then t else DefaultKeywords
  }

  /** Normalising an already normalised payload changes nothing. */
  lemma MessageToSendIdempotent(keywords: string)
    ensures MessageToSend(MessageToSend(keywords)) == MessageToSend(keywords)
  {
    var m := MessageToSend(keywords);
    TrimFixed(m, IsJsSpace);
    TrimEmptyIff(m, IsJsSpace);
  }

  /** `handleSendSOS`, up to its `await`. While a request is in flight it
      is a no-op. Otherwise the flag goes up, the preview shows the
      placeholder and the last-sent time is cleared; without a base URL
      the flag drops back and nothing is sent. The keywords box is never
      touched. */
  function SendStart(a: Alert, url: Option<string>): (r: Step<Alert, string>)
    ensures a.isLoading ==> r == Step(a, None)
    ensures !a.isLoading ==>
      && r.next == a.(preview := Pending, isLoading := Configured(url), lastSentTime := None)
      && r.request == (if Configured(url) then Some(MessageToSend(a.keywords)) else None)
  {
    if a.isLoading then Step(a, None)
    else
      var payload := MessageToSend(a.keywords);
      var a1 := a.(isLoading := true, preview := Pending, lastSentTime := None);
      if !Configured(url) then Step(a1.(isLoading := false), None)
      else Step(a1, Some(payload))
  }

  /** `handleSendSOS` after its `fetch` settles at time `now`: on an ok,
      decodable response the preview becomes the expanded text and the
      send time is recorded; otherwise the preview is the fixed failure
      sentence and the send time is left alone. The flag always drops and
      the keywords box is never touched. */
  function SendDone(a: Alert, reply: Reply<ExpandedMessage>, now: int): (r: Alert)
    ensures !r.isLoading && r.keywords == a.keywords
    ensures reply.Ok() && reply.body.Some? ==>
      r.preview == reply.body.value.expandedText && r.lastSentTime == Some(now)
    ensures !(reply.Ok() && reply.body.Some?) ==>
      r.preview == FailureText && r.lastSentTime == a.lastSentTime
  {
    match reply.Payload()
    case Some(data) => a.(preview := data.expandedText, lastSentTime := Some(now), isLoading := false)
    case None => a.(preview := FailureText, isLoading := false)
  }

  /** `handleSendSOS` from invocation to completion with nothing in between.
      While busy it changes nothing and sends nothing. Otherwise it sends
      the normalised keywords when configured, and ends not loading with
      the keywords untouched; the send time is set exactly when the
      request succeeded, and the preview is the expanded text, the failure
      sentence, or (when unconfigured) the placeholder. */
  function HandleSendSos(a: Alert, url: Option<string>, reply: Reply<ExpandedMessage>, now: int): (r: Step<Alert, string>)
    ensures a.isLoading ==> r == Step(a, None)
    ensures !a.isLoading ==>
      && !r.next.isLoading && r.next.keywords == a.keywords
      && r.request == (if Configured(url) then Some(MessageToSend(a.keywords)) else None)
      && (r.next.lastSentTime.Some? <==> Configured(url) && reply.Payload().Some?)
      && (r.next.lastSentTime.Some? ==> r.next.lastSentTime == Some(now))
      && r.next.preview == (if !Configured(url) then Pending
                            else if reply.Payload().Some? then reply.Payload().value.expandedText
                            else FailureText)
  {
    var st := SendStart(a, url);
    if st.request.Some? then Step(SendDone(st.next, reply, now), st.request) else st
  }

  /** Two failed sends leave the same state whatever the status or error:
      no raw error text reaches the preview. */
  lemma FailureTextIsFixed(a: Alert, r1: Reply<ExpandedMessage>, r2: Reply<ExpandedMessage>, now: int)
    requires r1.Payload().None? && r2.Payload().None?
    ensures SendDone(a, r1, now) == SendDone(a, r2, now)
  {
  }
}
