/**
 * The conversation state of the chat screen and its send cycle. A send is
 * split at its `await`: BeginSend runs the guard, appends the user turn and
 * clears the composer; CompleteSend appends the model turn (the answer or
 * the fixed apology) and ends loading. Clock readings are parameters.
 */
module App {
  import opened Types
  import opened DocxExport
  import GeminiService

  /** The greeting the conversation starts with. */
  const WelcomeText: string := "Bem-vindo ao Gabinete de Alta Precisão do AdvogadoIA. Estou configurado para análise jurídica de rigor máximo.\n\nSou a sua inteligência jurídica especializada em Direito de Imigração em Portugal. Como posso auxiliá-lo na defesa dos seus constituintes com detalhe exaustivo hoje?"

  /** Prefix of the stored user text when only a file is sent. */
  const FilePrefix: string := "Analise exaustivamente este ficheiro: "

  /** The prompt sent to the provider when only a file is sent. */
  const FilePrompt: string := "Por favor, proceda à análise jurídica detalhada e sem erros deste documento."

  /** The model turn stored when the provider call throws. */
  const ErrorText: string := "Lamento, ocorreu um erro técnico ao processar a sua consulta jurídica. Por favor, tente novamente ou verifique a sua ligação."

  /** The text around a template's title in its prompt. */
  const TemplateLead: string := "Gostaria de iniciar um rascunho de "
  const TemplateTail: string := " com o máximo nível de detalhe jurídico. Por favor, indique-me os elementos factuais precisos que necessita para uma peça processual sem falhas."

  /** The composer text set by the "alter a document" shortcut. */
  const AlterationText: string := "Por favor, execute uma revisão exaustiva e altere este documento para incluir fundamentação jurídica superior sobre..."

  /** `customPrompt || input.trim()`: a non-empty custom prompt wins over the trimmed input. */
  function TextToSend(customPrompt: Option<string>, input: string): (t: string)
    ensures customPrompt.Some? && customPrompt.value != [] ==> t == customPrompt.value
    ensures customPrompt.None? || customPrompt.value == [] ==> t == Trim(input)
  {
    if customPrompt.Some? && customPrompt.value != [] then customPrompt.value else Trim(input)
  }

  /** The guard of the send: something to send, and no send in flight. */
  predicate Accepts(text: string, attachment: Option<Attachment>, isLoading: bool)
    ensures isLoading ==> !Accepts(text, attachment, isLoading)
    ensures !isLoading && text != [] ==> Accepts(text, attachment, isLoading)
    ensures !isLoading && attachment.Some? ==> Accepts(text, attachment, isLoading)
    ensures text == [] && attachment.None? ==> !Accepts(text, attachment, isLoading)
  {
    (text != [] || attachment.Some?) && !isLoading
  }

  /** The text stored in the user turn. */
  function UserText(text: string, attachment: Option<Attachment>): (r: string)
    ensures text != [] ==> r == text
    ensures text == [] && attachment.Some? ==> r == FilePrefix + attachment.value.name
    ensures text == [] && attachment.None? ==> r == []
  {
    if text != [] then text
    else if attachment.Some? then FilePrefix + attachment.value.name
    else ""
  }

  /** The prompt handed to the provider. */
  function OutgoingPrompt(text: string): (p: string)
    ensures p != []
    ensures text != [] ==> p == text
    ensures text == [] ==> p == FilePrompt
  {
    if text != [] then text else FilePrompt
  }

  /** `messages.map(m => ({role, text, attachment}))`: timestamps and citations dropped. */
  function Snapshot(ms: seq<Message>): (h: seq<GeminiService.HistoryEntry>)
    ensures |h| == |ms|
  {
    if ms == [] then []
    else Snapshot(ms[..|ms| - 1]) + [GeminiService.HistoryEntry(ms[|ms| - 1].role, ms[|ms| - 1].text, ms[|ms| - 1].attachment)]
  }

  /** Entry i of the snapshot keeps the role, text and attachment of message i. */
  lemma {:induction false} SnapshotAt(ms: seq<Message>, i: nat)
    requires i < |ms|
    ensures Snapshot(ms)[i] == GeminiService.HistoryEntry(ms[i].role, ms[i].text, ms[i].attachment)
  {
    if i < |ms| - 1 {
      SnapshotAt(ms[..|ms| - 1], i);
    }
  }

  /** Two conversations that differ only in timestamps and citations give the same history. */
  lemma {:induction false} SnapshotIgnoresMetadata(ms: seq<Message>, ns: seq<Message>)
    requires |ms| == |ns|
    requires forall i :: 0 <= i < |ms| ==>
      ms[i].role == ns[i].role && ms[i].text == ns[i].text && ms[i].attachment == ns[i].attachment
    ensures Snapshot(ms) == Snapshot(ns)
  {
    if ms != [] {
      SnapshotIgnoresMetadata(ms[..|ms| - 1], ns[..|ns| - 1]);
    }
  }

  /** What the first half of a send hands to the provider call. */
  datatype Request = Request(prompt: string, history: seq<GeminiService.HistoryEntry>, attachment: Option<Attachment>)

  /** The model turn appended when the provider call settles. */
  function ModelTurn(outcome: Result<GeminiService.Reply, GeminiService.ApiError>, now: nat): (m: Message)
    ensures m.role == Model && m.timestamp == now && m.attachment.None?
    ensures outcome.Success? ==> m.text == outcome.value.text && m.groundingUrls == Some(outcome.value.urls)
    ensures outcome.Failure? ==> m.text == ErrorText && m.groundingUrls.None?
  {
    match outcome
    case Success(reply) => Message(Model, reply.text, now, Some(reply.urls), None)
    case Failure(_) => Message(Model, ErrorText, now, None, None)
  }

  /** `handleTemplateClick(title)`: the custom prompt of a template card. */
  function TemplatePrompt(title: string): (p: string)
    ensures p != []
  {
    TemplateLead + title + TemplateTail
  }

  /** Roles alternate, starting with the model's greeting. */
  ghost predicate Alternating(ms: seq<Message>) {
    forall i :: 0 <= i < |ms| ==> ms[i].role == (if i % 2 == 0 then Model else User)
  }

  /** In an alternating conversation the latest model turn is the last or the one before it. */
  lemma {:induction false} AlternatingLastModel(ms: seq<Message>)
    requires Alternating(ms) && ms != []
    ensures LastModelIndex(ms).Some?
    ensures LastModelIndex(ms).value == (if |ms| % 2 == 1 then |ms| - 1 else |ms| - 2)
  {
    var j := if |ms| % 2 == 1 then |ms| - 1 else |ms| - 2;
    assert ms[j].role == Model;
    assert forall i :: j < i < |ms| ==> ms[i].role != Model;
  }

  class Conversation {
    var messages: seq<Message>
    var input: string
    var attachment: Option<Attachment>
    var isLoading: bool

    /**
     * The greeting comes first, user and model turns alternate after it,
     * and a send is in flight exactly when the last turn is the user's.
     */
    ghost predicate Valid()
      reads this
    {
      |messages| >= 1 && Alternating(messages) && (|messages| % 2 == 1 <==> !isLoading)
    }

    /** The initial screen: the greeting, an empty composer, nothing loading. */
    constructor (now: nat)
      ensures Valid()
      ensures messages == [Message(Model, WelcomeText, now, None, None)]
      ensures input == [] && attachment.None? && !isLoading
    {
      messages := [Message(Model, WelcomeText, now, None, None)];
      input := "";
      attachment := None;
      isLoading := false;
    }

    /** Typing into the composer. */
    method SetInput(text: string)
      modifies this`input
      ensures input == text
    {
      input := text;
    }

    /** A file read into the composer, or the attachment removed. */
    method SetAttachment(a: Option<Attachment>)
      modifies this`attachment
      ensures attachment == a
    {
      attachment := a;
    }

    /** `handleAlterationRequest`: prefill the composer (the file picker is not modelled). */
    method AlterationRequest()
      modifies this`input
      ensures input == AlterationText
    {
      input := AlterationText;
    }

    /**
     * The synchronous half of `handleSend`: the guard, the user turn, the
     * cleared composer and the loading flag. A refused send changes nothing.
     */
    method BeginSend(customPrompt: Option<string>, now: nat) returns (req: Option<Request>)
      requires Valid()
      modifies this
      ensures Valid()
      ensures req.None? <==> !Accepts(TextToSend(customPrompt, old(input)), old(attachment), old(isLoading))
      ensures req.None? ==>
        messages == old(messages) && input == old(input) && attachment == old(attachment) && isLoading == old(isLoading)
      ensures req.Some? ==>
        var text := TextToSend(customPrompt, old(input));
        && messages == old(messages) + [Message(User, UserText(text, old(attachment)), now, None, old(attachment))]
        && input == [] && attachment.None? && isLoading
        && req.value == Request(OutgoingPrompt(text), Snapshot(old(messages)), old(attachment))
    {
      var text := TextToSend(customPrompt, input);
      if (text == [] && attachment.None?) || isLoading {
        return None;
      }
      var userMessage := Message(User, UserText(text, attachment), now, None, attachment);
      req := Some(Request(OutgoingPrompt(text), Snapshot(messages), attachment));
      messages := messages + [userMessage];
      input := "";
      attachment := None;
      isLoading := true;
    }

    /** The settled half of `handleSend`: append the model turn and stop loading. */
    method CompleteSend(outcome: Result<GeminiService.Reply, GeminiService.ApiError>, now: nat)
      requires Valid() && isLoading
      modifies this`messages, this`isLoading
      ensures Valid()
      ensures messages == old(messages) + [ModelTurn(outcome, now)]
      ensures !isLoading
    {
      messages := messages + [ModelTurn(outcome, now)];
      isLoading := false;
    }

    /**
     * A whole `handleSend`, with the provider call as `generate`: either
     * nothing changes, or exactly one user turn and one model turn follow the
     * earlier turns, which stay as they were.
     */
    method HandleSend(customPrompt: Option<string>, sentAt: nat, answeredAt: nat,
                      generate: seq<GeminiService.Content> -> Result<GeminiService.Response, GeminiService.ApiError>)
      requires Valid()
      modifies this
      ensures Valid()
      ensures !Accepts(TextToSend(customPrompt, old(input)), old(attachment), old(isLoading)) ==>
        messages == old(messages) && input == old(input) && attachment == old(attachment) && isLoading == old(isLoading)
      ensures Accepts(TextToSend(customPrompt, old(input)), old(attachment), old(isLoading)) ==>
        var text := TextToSend(customPrompt, old(input));
        var contents := GeminiService.RequestContents(OutgoingPrompt(text), Snapshot(old(messages)), old(attachment));
        var outcome := match generate(contents)
          case Success(resp) => Success(GeminiService.ParseResponse(resp))
          case Failure(e) => Failure(e);
        && messages == old(messages)
             + [Message(User, UserText(text, old(attachment)), sentAt, None, old(attachment)), ModelTurn(outcome, answeredAt)]
        && input == [] && attachment.None? && !isLoading
    {
      var req := BeginSend(customPrompt, sentAt);
      if req.Some? {
        var outcome := GeminiService.SendMessage(req.value.prompt, req.value.history, req.value.attachment, generate);
        CompleteSend(outcome, answeredAt);
      }
    }

    /**
     * `handleTemplateClick`: a send whose custom prompt names the template.
     * The prompt is never empty, so only a send in flight refuses it; the
     * composer's attachment, if any, goes along with the template prompt.
     */
    method TemplateClick(title: string, sentAt: nat, answeredAt: nat,
                         generate: seq<GeminiService.Content> -> Result<GeminiService.Response, GeminiService.ApiError>)
      requires Valid()
      modifies this
      ensures Valid()
      ensures old(isLoading) ==>
        messages == old(messages) && input == old(input) && attachment == old(attachment) && isLoading
      ensures !old(isLoading) ==>
        var contents := GeminiService.RequestContents(TemplatePrompt(title), Snapshot(old(messages)), old(attachment));
        var outcome := match generate(contents)
          case Success(resp) => Success(GeminiService.ParseResponse(resp))
          case Failure(e) => Failure(e);
        && messages == old(messages)
             + [Message(User, TemplatePrompt(title), sentAt, None, old(attachment)), ModelTurn(outcome, answeredAt)]
        && input == [] && attachment.None? && !isLoading
    {
      HandleSend(Some(TemplatePrompt(title)), sentAt, answeredAt, generate);
    }

    /**
     * The pure part of `handleExportDocx`: the paragraphs of the latest
     * model turn. The greeting is a model turn, so there is always one.
     */
    method ExportDocx() returns (doc: Option<seq<Paragraph>>)
      requires Valid()
      ensures doc.Some?
      ensures doc.value == DocumentParagraphs(messages[if |messages| % 2 == 1 then |messages| - 1 else |messages| - 2].text)
    {
      AlternatingLastModel(messages);
      ExportOfLastModel(messages);
      doc := ExportDocument(messages);
    }
  }
}
