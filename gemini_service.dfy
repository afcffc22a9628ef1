/**
 * The provider call of the chat front end: how the conversation is turned
 * into the provider's `{role, parts}` request, and how the provider's
 * answer is reduced to a reply text and a list of cited web sources.
 * The network call itself is an abstract function `generate` from the
 * request contents to a response or a thrown error.
 */
module GeminiService {
  import opened Types

  /** One earlier turn as handed to the service: role, text and attachment only. */
  datatype HistoryEntry = HistoryEntry(role: Role, text: string, attachment: Option<Attachment>)

  /** A part of a request turn: plain text, or a base64 file with its MIME type. */
  datatype Part = TextPart(text: string) | InlineData(mimeType: string, data: string)

  /** One turn of the request. */
  datatype Content = Content(role: Role, parts: seq<Part>)

  /** `chunk.web` of a grounding chunk. */
  datatype Web = Web(title: string, uri: string)
  datatype Chunk = Chunk(web: Option<Web>)
  datatype GroundingMetadata = GroundingMetadata(groundingChunks: Option<seq<Chunk>>)
  datatype Candidate = Candidate(groundingMetadata: Option<GroundingMetadata>)

  /** The provider's answer, every field of which may be missing. */
  datatype Response = Response(text: Option<string>, candidates: Option<seq<Candidate>>)

  /** What `sendMessage` resolves to. */
  datatype Reply = Reply(text: string, urls: seq<Citation>)

  /** Whatever the provider call throws; it reaches the caller unchanged. */
  datatype ApiError = ApiError(message: string)

  /** The reply text used when the provider returns no text. */
  const FallbackText: string := "Desculpe, ocorreu um erro na geração da resposta."

  /**
   * The parts of one turn: the text first, then the attachment's inline
   * data when there is one.
   */
  function PartsOf(text: string, attachment: Option<Attachment>): (parts: seq<Part>)
    ensures 1 <= |parts| <= 2
    ensures parts[0] == TextPart(text)
    ensures |parts| == 2 <==> attachment.Some?
    ensures |parts| == 2 ==> parts[1] == InlineData(attachment.value.mimeType, attachment.value.data)
  {
    match attachment
    case None => [TextPart(text)]
    case Some(a) => [TextPart(text), InlineData(a.mimeType, a.data)]
  }

  /** The request turn for one history entry. */
  function ContentOf(h: HistoryEntry): (c: Content)
    ensures c.role == h.role
    ensures 1 <= |c.parts| <= 2 && c.parts[0] == TextPart(h.text)
    ensures |c.parts| == 2 <==> h.attachment.Some?
    ensures |c.parts| == 2 ==> c.parts[1] == InlineData(h.attachment.value.mimeType, h.attachment.value.data)
  {
    Content(h.role, PartsOf(h.text, h.attachment))
  }

  /** Reference definition of the history part of the request, entry by entry. */
  function HistoryContents(history: seq<HistoryEntry>): (cs: seq<Content>)
    ensures |cs| == |history|
    ensures forall i :: 0 <= i < |history| ==> cs[i] == ContentOf(history[i])
  {
    if history == [] then [] else [ContentOf(history[0])] + HistoryContents(history[1..])
  }

  /** The history part of the request follows the history: adding turns adds request turns. */
  lemma {:induction false} HistoryContentsAppend(a: seq<HistoryEntry>, b: seq<HistoryEntry>)
    ensures HistoryContents(a + b) == HistoryContents(a) + HistoryContents(b)
  {
    if a != [] {
      assert (a + b)[1..] == a[1..] + b;
      HistoryContentsAppend(a[1..], b);
      assert HistoryContents(a + b) == [ContentOf(a[0])] + HistoryContents(a[1..] + b);
    }
  }

  /** The whole request: every history turn in order, then the current user turn. */
  function RequestContents(prompt: string, history: seq<HistoryEntry>, current: Option<Attachment>): (cs: seq<Content>)
    ensures |cs| == |history| + 1
    ensures cs[|history|] == Content(User, PartsOf(prompt, current))
  {
    HistoryContents(history) + [Content(User, PartsOf(prompt, current))]
  }

  /** Turn i < |history| of the request carries the role, text and attachment of entry i. */
  lemma {:induction false} RequestHistoryTurn(prompt: string, history: seq<HistoryEntry>, current: Option<Attachment>, i: nat)
    requires i < |history|
    ensures RequestContents(prompt, history, current)[i].role == history[i].role
    ensures RequestContents(prompt, history, current)[i].parts[0] == TextPart(history[i].text)
    ensures |RequestContents(prompt, history, current)[i].parts| == 2 <==> history[i].attachment.Some?
    ensures history[i].attachment.Some? ==>
      RequestContents(prompt, history, current)[i].parts
        == [TextPart(history[i].text), InlineData(history[i].attachment.value.mimeType, history[i].attachment.value.data)]
  {
    assert RequestContents(prompt, history, current)[i] == HistoryContents(history)[i];
  }

  /**
   * `history.map(...)` followed by `contents.push(...)`: the request is
   * assembled by one map over the history and one push of the current turn.
   */
  method BuildContents(prompt: string, history: seq<HistoryEntry>, current: Option<Attachment>)
    returns (contents: seq<Content>)
    ensures contents == RequestContents(prompt, history, current)
  {
    contents := seq(|history|, i requires 0 <= i < |history| => ContentOf(history[i]));
    assert contents == HistoryContents(history);
    var currentParts := [TextPart(prompt)];
    if current.Some? {
      currentParts := currentParts + [InlineData(current.value.mimeType, current.value.data)];
    }
    assert currentParts == PartsOf(prompt, current);
    contents := contents + [Content(User, currentParts)];
  }

  /**
   * `response.candidates?.[0]?.groundingMetadata?.groundingChunks || []`:
   * the chunks of the first candidate, or none when any step is missing.
   */
  function GroundingChunks(response: Response): (chunks: seq<Chunk>)
    ensures response.candidates.None? ==> chunks == []
    ensures response.candidates.Some? && response.candidates.value == [] ==> chunks == []
    ensures response.candidates.Some? && response.candidates.value != [] ==>
      var c := response.candidates.value[0];
      if c.groundingMetadata.Some? && c.groundingMetadata.value.groundingChunks.Some?
      then chunks == c.groundingMetadata.value.groundingChunks.value
      else chunks == []
  {
    match response.candidates
    case None => []
    case Some(cs) =>
      if cs == [] then []
      else
        match cs[0].groundingMetadata
        case None => []
        case Some(g) =>
          match g.groundingChunks
          case None => []
          case Some(chunks) => chunks
  }

  /** The citation made from a chunk's web source. */
  function CitationOf(w: Web): (c: Citation)
    ensures c.title == w.title && c.uri == w.uri
  {
    Citation(w.title, w.uri)
  }

  /** Nothing of a web source is lost in its citation. */
  lemma {:induction false} CitationOfInjective(v: Web, w: Web)
    requires CitationOf(v) == CitationOf(w)
    ensures v == w
  {
  }

  /** `chunks.filter(chunk => chunk.web).map(...)`, written on the last chunk. */
  function WebSources(chunks: seq<Chunk>): (urls: seq<Citation>)
    ensures |urls| <= |chunks|
  {
    if chunks == [] then []
    else
      var last := chunks[|chunks| - 1];
      WebSources(chunks[..|chunks| - 1]) + (if last.web.Some? then [CitationOf(last.web.value)] else [])
  }

  /** Positions of the chunks that carry a web source, in increasing order. */
  function WebIndices(chunks: seq<Chunk>): (ix: seq<nat>)
    ensures |ix| == |WebSources(chunks)|
    ensures forall k :: 0 <= k < |ix| ==> ix[k] < |chunks|
  {
    if chunks == [] then []
    else WebIndices(chunks[..|chunks| - 1]) + (if chunks[|chunks| - 1].web.Some? then [|chunks| - 1] else [])
  }

  /** The selected positions keep the chunks' order. */
  lemma {:induction false} WebIndicesIncreasing(chunks: seq<Chunk>, k: nat, l: nat)
    requires k < l < |WebIndices(chunks)|
    ensures WebIndices(chunks)[k] < WebIndices(chunks)[l]
  {
    var init := chunks[..|chunks| - 1];
    if l < |WebIndices(init)| {
      WebIndicesIncreasing(init, k, l);
    }
  }

  /** No web chunk is dropped. */
  lemma {:induction false} WebIndicesComplete(chunks: seq<Chunk>, i: nat)
    requires i < |chunks| && chunks[i].web.Some?
    ensures i in WebIndices(chunks)
  {
    var init := chunks[..|chunks| - 1];
    if i < |chunks| - 1 {
      WebIndicesComplete(init, i);
    }
  }

  /**
   * The cited sources are exactly the web chunks, in their original order:
   * source k comes from chunk WebIndices(chunks)[k].
   */
  lemma {:induction false} WebSourcesInOrder(chunks: seq<Chunk>, k: nat)
    requires k < |WebSources(chunks)|
    ensures chunks[WebIndices(chunks)[k]].web.Some?
    ensures WebSources(chunks)[k] == CitationOf(chunks[WebIndices(chunks)[k]].web.value)
  {
    var init := chunks[..|chunks| - 1];
    if k < |WebSources(init)| {
      WebSourcesInOrder(init, k);
      assert WebSources(chunks)[k] == WebSources(init)[k];
      assert WebIndices(chunks)[k] == WebIndices(init)[k];
      assert chunks[WebIndices(init)[k]] == init[WebIndices(init)[k]];
    }
  }

  /** Filtering and mapping distribute over concatenation of chunk lists. */
  lemma {:induction false} WebSourcesAppend(a: seq<Chunk>, b: seq<Chunk>)
    ensures WebSources(a + b) == WebSources(a) + WebSources(b)
  {
    if b == [] {
      assert a + b == a;
    } else {
      var init := b[..|b| - 1];
      assert (a + b)[..|a + b| - 1] == a + init;
      WebSourcesAppend(a, init);
    }
  }

  /** When every chunk has a web source nothing is dropped. */
  lemma {:induction false} WebSourcesAllWeb(chunks: seq<Chunk>)
    requires forall i :: 0 <= i < |chunks| ==> chunks[i].web.Some?
    ensures |WebSources(chunks)| == |chunks|
  {
    if chunks != [] {
      WebSourcesAllWeb(chunks[..|chunks| - 1]);
    }
  }

  /** When no chunk has a web source there are no citations. */
  lemma {:induction false} WebSourcesNoWeb(chunks: seq<Chunk>)
    requires forall i :: 0 <= i < |chunks| ==> chunks[i].web.None?
    ensures WebSources(chunks) == []
  {
    if chunks != [] {
      WebSourcesNoWeb(chunks[..|chunks| - 1]);
    }
  }

  /** `response.text || FallbackText`: the text when it is a non-empty string. */
  function ReplyText(response: Response): (text: string)
    ensures text != []
    ensures response.text.Some? && response.text.value != [] ==> text == response.text.value
    ensures response.text.None? || response.text.value == [] ==> text == FallbackText
  {
    if response.text.Some? && response.text.value != [] then response.text.value else FallbackText
  }

  /** The reply `sendMessage` resolves to for a provider response. */
  function ParseResponse(response: Response): (r: Reply)
    ensures r.text != []
    ensures response.text.Some? && response.text.value != [] ==> r.text == response.text.value
    ensures response.text.None? || response.text.value == [] ==> r.text == FallbackText
    ensures |r.urls| <= |GroundingChunks(response)|
  {
    Reply(ReplyText(response), WebSources(GroundingChunks(response)))
  }

  /**
   * Citation k of the reply is the title and URI of the k-th chunk of the
   * first candidate that has a web source.
   */
  lemma {:induction false} ParseResponseUrls(response: Response, k: nat)
    requires k < |ParseResponse(response).urls|
    ensures GroundingChunks(response)[WebIndices(GroundingChunks(response))[k]].web.Some?
    ensures ParseResponse(response).urls[k]
      == CitationOf(GroundingChunks(response)[WebIndices(GroundingChunks(response))[k]].web.value)
  {
    WebSourcesInOrder(GroundingChunks(response), k);
  }

  /** Without candidates, metadata or chunks there are no citations. */
  lemma {:induction false} NoGroundingNoUrls(response: Response)
    requires response.candidates.None? || response.candidates.value == []
      || response.candidates.value[0].groundingMetadata.None?
      || response.candidates.value[0].groundingMetadata.value.groundingChunks.None?
    ensures ParseResponse(response).urls == []
  {
  }

  /**
   * `sendMessage`: build the request, call the provider, and either parse
   * its response or rethrow its error as it is, with no retry.
   */
  method SendMessage(prompt: string, history: seq<HistoryEntry>, currentAttachment: Option<Attachment>,
                     generate: seq<Content> -> Result<Response, ApiError>)
    returns (r: Result<Reply, ApiError>)
    ensures generate(RequestContents(prompt, history, currentAttachment)).Failure? ==>
      r == Failure(generate(RequestContents(prompt, history, currentAttachment)).error)
    ensures generate(RequestContents(prompt, history, currentAttachment)).Success? ==>
      r == Success(ParseResponse(generate(RequestContents(prompt, history, currentAttachment)).value))
  {
    var contents := BuildContents(prompt, history, currentAttachment);
    var response := generate(contents);
    match response
    case Failure(e) =>
      r := Failure(e);
    case Success(resp) =>
      var chunks := GroundingChunks(resp);
      r := Success(Reply(ReplyText(resp), WebSources(chunks)));
  }
}
