/**
 The request-shaping logic of the FastAPI backend: the prerequisite guards
 of its three POST endpoints, how the law-bot context and sources are
 assembled from the stored legal texts, the two fixed prompt templates,
 and how reloading the knowledge store replaces its documents. The model
 client, the embedding model and MongoDB are opaque: what they produced
 is passed in.
 */
module Backend {
  import opened Strings
  import opened Http

  /** An `HTTPException` raised to the client. */
  datatype HttpError = HttpError(status: int, detail: string)

  datatype Result<+T> = Ok(value: T) | Err(error: HttpError)

  /** An embedding vector as stored in MongoDB (a list of floats). */
  type Vector = seq<real>

  /** One document of the `legal_knowledge` collection. */
  datatype Doc = Doc(text: string, embedding: Vector)

  /** The process-wide clients after startup. `db` is absent when MongoDB
      could not be reached; when present it holds the documents of the
      `legal_knowledge` collection in natural order. `apiKey` is the
      GEMINI_API_KEY environment variable, absent when unset. */
  datatype Server = Server(db: Option<seq<Doc>>, modelLoaded: bool, apiKey: Option<string>)

  /** What the opaque work inside an endpoint's `try` produced: the model's
      text, a client `APIError`, or any other exception (its message). */
  datatype Generation = Generated(text: string) | ApiFailure(detail: string) | OtherFailure(detail: string)

  /** What the batch embedding call produced for the legal chunks. */
  datatype Encoding = Encoded(vectors: seq<Vector>) | EncodeFailure(detail: string)

  datatype LawBotResponse = LawBotResponse(answer: string, sources: seq<string>)

  /** One `generate_content` call: model, optional system instruction and
      the prompt text. */
  datatype ModelCall = ModelCall(model: string, system: Option<string>, contents: string)

  datatype ExpandedMessage = ExpandedMessage(expandedText: string, modelUsed: string)

  const ModelName: string := "gemini-2.5-flash"

  const Separator: string := "\n---\n"

  const NoContext: string := "No specific legal data found in the knowledge base."

  const LawBotSystemPrompt: string :=
    "You are a helpful and legal-focused AI assistant for women's rights. "
    + "Use ONLY the following context to answer the user's question. "
    + "If the answer is not in the context, state that clearly."

  const ContextHeader: string := "Context:\n---\n"

  const QuestionHeader: string := "\n---\nUser Question: "

  const ExpandPreamble: string :=
    "You are an urgent safety assistant. The user is in a high-stress situation "
    + "and can only provide short keywords. Expand these keywords into a single, "
    + "formal, and detailed distress message suitable for alerting authorities. "
    + "Do NOT add any greetings, sign-offs, or questions. The response must be "
    + "ONLY the expanded message text. Keywords: "

  const LoadUnavailable: string := "Database or Embedding Model not available."

  const LawBotUnavailable: string := "Law Bot prerequisites (DB/Model/API Key) are not met."

  const KeyMissing: string := "Server misconfiguration: AI API key is missing."

  /** The message of the `TypeError` pymongo's `insert_many` raises for an
      empty document list. */
  const EmptyInsert: string := "documents must be a non-empty list"

  // ---------------------------------------------------------------------
  // load_legal_data

  /** Python `zip(texts, vectors)` turned into documents: pairs in order,
      stopping at the shorter input. */
  function ZipDocs(texts: seq<string>, vectors: seq<Vector>): (r: seq<Doc>)
    ensures |r| == if |texts| <= |vectors| then |texts| else |vectors|
    ensures forall i :: 0 <= i < |r| ==> r[i] == Doc(texts[i], vectors[i])
  {
    if |texts| == 0 || |vectors| == 0 then []
    else [Doc(texts[0], vectors[0])] + ZipDocs(texts[1..], vectors[1..])
  }

  /** What `load_legal_data` did: the server afterwards and the response. */
  datatype Loaded = Loaded(server: Server, response: Result<nat>)

  /** `POST /api/load_legal_data` with the embedding of `chunks` given. It
      fails with 500 and touches nothing when the database or the embedding
      model is absent, or when embedding fails. Otherwise the collection's
      previous contents are gone and it holds one `{text, embedding}`
      document per chunk, in chunk order; the response reports how many
      documents were inserted. With nothing to insert the collection is
      still cleared, but `insert_many` refuses the empty list and the
      endpoint answers 500. */
  function LoadLegalData(srv: Server, chunks: seq<string>, encoding: Encoding): (r: Loaded)
    ensures srv.db.None? || !srv.modelLoaded ==>
      r == Loaded(srv, Err(HttpError(500, LoadUnavailable)))
    ensures srv.db.Some? && srv.modelLoaded && encoding.EncodeFailure? ==>
      r == Loaded(srv, Err(HttpError(500, "Data loading failed: " + encoding.detail)))
    ensures srv.db.Some? && srv.modelLoaded && encoding.Encoded? ==>
      var n := if |chunks| <= |encoding.vectors| then |chunks| else |encoding.vectors|;
      && r.response == (if n == 0 then Err(HttpError(500, "Data loading failed: " + EmptyInsert)) else Ok(n))
      && r.server.db.Some? && |r.server.db.value| == n
      && (forall i :: 0 <= i < n ==> r.server.db.value[i] == Doc(chunks[i], encoding.vectors[i]))
    ensures r.server.modelLoaded == srv.modelLoaded && r.server.apiKey == srv.apiKey
  {
    if srv.db.None? || !srv.modelLoaded then Loaded(srv, Err(HttpError(500, LoadUnavailable)))
    else match encoding
      case EncodeFailure(detail) => Loaded(srv, Err(HttpError(500, "Data loading failed: " + detail)))
      case Encoded(vectors) =>
        var docs := ZipDocs(chunks, vectors);
        if |docs| == 0 then Loaded(srv.(db := Some([])), Err(HttpError(500, "Data loading failed: " + EmptyInsert)))
        else Loaded(srv.(db := Some(docs)), Ok(|docs|))
  }

  /** With one embedding per chunk, as the embedding model returns, the
      store afterwards holds exactly the chunks, in order, and the count
      reported is the number of chunks (an empty chunk list fails). */
  lemma OneDocumentPerChunk(srv: Server, chunks: seq<string>, vectors: seq<Vector>)
    requires srv.db.Some? && srv.modelLoaded && |vectors| == |chunks|
    ensures var r := LoadLegalData(srv, chunks, Encoded(vectors));
      && r.response == (if chunks == [] then Err(HttpError(500, "Data loading failed: " + EmptyInsert)) else Ok(|chunks|))
      && r.server.db.Some?
      && seq(|r.server.db.value|, i requires 0 <= i < |r.server.db.value| => r.server.db.value[i].text) == chunks
  {
    var docs := LoadLegalData(srv, chunks, Encoded(vectors)).server.db.value;
    assert seq(|docs|, i requires 0 <= i < |docs| => docs[i].text) == chunks;
  }

  /** Reloading is idempotent: loading the same chunks with the same
      embeddings a second time leaves the same store and the same
      response, since the collection is cleared before each insert. */
  lemma LoadTwiceIsLoadOnce(srv: Server, chunks: seq<string>, encoding: Encoding)
    ensures var once := LoadLegalData(srv, chunks, encoding);
      LoadLegalData(once.server, chunks, encoding) == once
  {
  }

  // ---------------------------------------------------------------------
  // law_bot

  /** `find().limit(2)` projected to `text`: the texts of at most the first
      two stored documents, in store order. */
  function Retrieve(docs: seq<Doc>): (r: seq<string>)
    ensures |r| == if |docs| < 2 then |docs| else 2
    ensures forall i :: 0 <= i < |r| ==> r[i] == docs[i].text
  {
    if |docs| == 0 then []
    else if |docs| == 1 then [docs[0].text]
    else [docs[0].text, docs[1].text]
  }

  /** The context handed to the model: the retrieved texts joined by the
      separator, or the fixed fallback sentence exactly when that join is
      empty, which happens for no texts or one empty text. */
  function Context(texts: seq<string>): (r: string)
    ensures texts == [] || texts == [""] ==> r == NoContext
    ensures !(texts == [] || texts == [""]) ==> r == Join(texts, Separator) && r != ""
  {
    JoinEmptyIff(texts, Separator);
    var joined := Join(texts, Separator);
    if joined == "" then NoContext else joined
  }

  /** The fixed law-bot user prompt around a context and a question. */
  function LawBotPrompt(context: string, question: string): (r: string)
    ensures |r| == |ContextHeader| + |context| + |QuestionHeader| + |question|
    ensures r[..|ContextHeader|] == ContextHeader
    ensures r[|ContextHeader|..|ContextHeader| + |context|] == context
    ensures r[|r| - |question|..] == question
    ensures r[|r| - |question| - |QuestionHeader|..|r| - |question|] == QuestionHeader
  {
    ContextHeader + context + QuestionHeader + question
  }

  /** Everything `law_bot` prepares before calling the model. */
  datatype LawBotPlan = LawBotPlan(sources: seq<string>, context: string, call: ModelCall)

  /** `POST /api/law_bot` up to the model call. It fails with 500 before
      any retrieval when the database, the embedding model or the API key
      is absent (an empty key passes this guard). Otherwise the sources
      are the texts of at most the first two stored documents in store
      order, the context is their join or the fallback sentence, and the
      user prompt wraps the context and the untouched question; the call
      carries the fixed system instruction. */
  function PlanLawBot(srv: Server, question: string): (r: Result<LawBotPlan>)
    ensures srv.db.None? || !srv.modelLoaded || srv.apiKey.None? ==>
      r == Err(HttpError(500, LawBotUnavailable))
    ensures srv.db.Some? && srv.modelLoaded && srv.apiKey.Some? ==>
      && r.Ok?
      && |r.value.sources| == (if |srv.db.value| < 2 then |srv.db.value| else 2)
      && (forall i :: 0 <= i < |r.value.sources| ==> r.value.sources[i] == srv.db.value[i].text)
      && r.value.context == Context(r.value.sources)
      && r.value.call == ModelCall(ModelName, Some(LawBotSystemPrompt), LawBotPrompt(r.value.context, question))
  {
    if srv.db.None? || !srv.modelLoaded || srv.apiKey.None? then
      Err(HttpError(500, LawBotUnavailable))
    else
      var sources := Retrieve(srv.db.value);
      var context := Context(sources);
      Ok(LawBotPlan(sources, context, ModelCall(ModelName, Some(LawBotSystemPrompt), LawBotPrompt(context, question))))
  }

  /** `POST /api/law_bot` end to end, given what the model call produced.
      On success the answer is the model's text stripped and the sources
      are exactly the retrieved texts; any failure inside the `try` is a
      500 whose detail carries the exception message. */
  function LawBot(srv: Server, question: string, gen: Generation): (r: Result<LawBotResponse>)
    ensures PlanLawBot(srv, question).Err? ==> r == Err(PlanLawBot(srv, question).error)
    ensures PlanLawBot(srv, question).Ok? && gen.Generated? ==>
      r == Ok(LawBotResponse(PyStrip(gen.text), PlanLawBot(srv, question).value.sources))
    ensures PlanLawBot(srv, question).Ok? && !gen.Generated? ==>
      r == Err(HttpError(500, "Law Bot query failed: " + gen.detail))
  {
    match PlanLawBot(srv, question)
    case Err(e) => Err(e)
    case Ok(plan) =>
      match gen
      case Generated(text) => Ok(LawBotResponse(PyStrip(text), plan.sources))
      case ApiFailure(detail) => Err(HttpError(500, "Law Bot query failed: " + detail))
      case OtherFailure(detail) => Err(HttpError(500, "Law Bot query failed: " + detail))
  }

  /** A store whose only document has an empty text makes the context the
      fallback sentence while the reported sources are `[""]`, not `[]`. */
  lemma EmptyTextFallback(v: Vector, key: string, question: string)
    ensures var plan := PlanLawBot(Server(Some([Doc("", v)]), true, Some(key)), question);
      && plan.Ok?
      && plan.value.sources == [""]
      && plan.value.context == NoContext
  {
  }

  /** Without its prerequisites `law_bot` answers the same 500 whatever the
      question, the model and the store contents: no work was done. */
  lemma LawBotGuardFirst(srv: Server, q1: string, q2: string, g1: Generation, g2: Generation, docs: seq<Doc>)
    requires !srv.modelLoaded || srv.apiKey.None?
    ensures LawBot(srv, q1, g1) == LawBot(srv.(db := Some(docs)), q2, g2)
    ensures LawBot(srv, q1, g1).Err? && LawBot(srv, q1, g1).error.status == 500
  {
  }

  // ---------------------------------------------------------------------
  // expand_message

  /** The fixed expansion prompt followed by the keywords as received. */
  function ExpandPrompt(keywords: string): (r: string)
    ensures |r| == |ExpandPreamble| + |keywords|
    ensures r[..|ExpandPreamble|] == ExpandPreamble && r[|ExpandPreamble|..] == keywords
  {
    ExpandPreamble + keywords
  }

  /** `POST /api/expand_message` up to the model call: a missing or empty
      API key fails with 500; otherwise the prompt is the fixed preamble
      followed by the keywords. */
  function PlanExpand(srv: Server, keywords: string): (r: Result<ModelCall>)
    ensures srv.apiKey.None? || srv.apiKey == Some("") ==> r == Err(HttpError(500, KeyMissing))
    ensures srv.apiKey.Some? && srv.apiKey.value != "" ==> r == Ok(ModelCall(ModelName, None, ExpandPrompt(keywords)))
  {
    if srv.apiKey.None? || srv.apiKey.value == "" then Err(HttpError(500, KeyMissing))
    else Ok(ModelCall(ModelName, None, ExpandPrompt(keywords)))
  }

  /** `POST /api/expand_message` end to end, given what the model call
      produced: the stripped model text labelled with the model name, or a
      500 that tells a client `APIError` apart from any other failure. */
  function Expand(srv: Server, keywords: string, gen: Generation): (r: Result<ExpandedMessage>)
    ensures PlanExpand(srv, keywords).Err? ==> r == Err(HttpError(500, KeyMissing))
    ensures PlanExpand(srv, keywords).Ok? ==> match gen
      case Generated(text) => r == Ok(ExpandedMessage(PyStrip(text), ModelName))
      case ApiFailure(detail) => r == Err(HttpError(500, "AI API Error: " + detail))
      case OtherFailure(detail) => r == Err(HttpError(500, "Internal Server Error: " + detail))
    ensures r.Ok? ==> NoEdgeSpace(r.value.expandedText, IsPySpace)
  {
    match PlanExpand(srv, keywords)
    case Err(e) => Err(e)
    case Ok(_) =>
      match gen
      case Generated(text) =>
        TrimNoEdgeSpace(text, IsPySpace);
        Ok(ExpandedMessage(PyStrip(text), ModelName))
      case ApiFailure(detail) => Err(HttpError(500, "AI API Error: " + detail))
      case OtherFailure(detail) => Err(HttpError(500, "Internal Server Error: " + detail))
  }

  /** The two AI endpoints guard the API key differently: an empty key is
      refused by `expand_message` but passes the `law_bot` guard. */
  lemma EmptyKeyGuards(srv: Server, keywords: string, question: string)
    requires srv.apiKey == Some("") && srv.db.Some? && srv.modelLoaded
    ensures PlanExpand(srv, keywords).Err?
    ensures PlanLawBot(srv, question).Ok?
  {
  }
}
