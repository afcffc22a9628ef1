# AdvogadoIA chat front end — a verified model of its core

AdvogadoIA is a browser chat screen for immigration lawyers in Portugal. It
talks to a hosted Gemini model. This project models and proves three parts of it:

- **Send cycle of the conversation** (`App.tsx`, `handleSend`). A guard decides
  whether there is something to send. An accepted send appends the user turn at
  once, clears the composer and sets the loading flag. When the provider call
  settles, exactly one model turn is appended: the answer, or a fixed apology.
  Module `App`, class `Conversation`. The `await` splits the send into
  `BeginSend` and `CompleteSend`, and `HandleSend` composes the two around the
  provider call.
- **Provider call** (`services/geminiService.ts`, `sendMessage`). It builds the
  `{role, parts}` request from the history and the current prompt. It reduces
  the response to a reply text with a fixed fallback, plus the cited web
  sources. The network call is an abstract function `generate` from request
  contents to a response or a thrown error. Module `GeminiService`.
- **Word export** (`App.tsx`, `handleExportDocx`). It takes the latest model
  turn, splits its text on `'\n'`, and classifies every line as a heading or a
  body paragraph, after a fixed title paragraph. Module `DocxExport`.

The shared records of `types.ts` are datatypes in module `Types`.

JavaScript string semantics are written out:
- `trim()` and the regular expression `\s` use the same character set: the
  WhiteSpace and LineTerminator code points of ECMAScript.
- `split('\n')` gives one more piece than there are newlines.
- `a || b` on strings picks `b` exactly when `a` is empty.
- Clock readings (`new Date()`) are opaque `nat` parameters.

The export of `"# Title\nBody line\n## Sub"` yields four paragraphs: the
fixed title, a HEADING_1, a body paragraph and a HEADING_2
(`DocxExport.ExportThreeLines`).

## Model

| member | source | states |
|---|---|---|
| DocxExport.IsSpace | App.tsx:145-149 | the whitespace set of `trim()` and `\s` contains space, tab, newline and carriage return, and never the heading marker `#` |
| DocxExport.LeadingSpaces | App.tsx:145 | how long the leading whitespace run of a line is: every character before it is whitespace, and the one at it is not |
| DocxExport.TrimmedEnd | App.tsx:145 | where trailing whitespace starts: everything from there on is whitespace, and the character just before is not |
| DocxExport.TrimStartDrops | App.tsx:149 | `TrimStart` (the `\s*` after the markers) keeps a suffix of the text; everything it drops is whitespace, and a non-empty result starts with a non-space |
| DocxExport.TrimEndDrops | App.tsx:145 | `TrimEnd` keeps a prefix of the text; everything it drops is whitespace, and a non-empty result ends with a non-space |
| DocxExport.Trim | App.tsx:145 | `trim()` never lengthens a line; a non-empty result starts and ends with a non-space |
| DocxExport.TrimUnique | App.tsx:145 | `trim()` is the unique slice that has only whitespace outside it and non-space characters at both ends |
| DocxExport.TrimIdempotent | App.tsx:145 | trimming twice is the same as trimming once |
| DocxExport.TrimStartOfTrimEnd | App.tsx:145 | trimming the end first and then the start gives the same result as `trim()` |
| DocxExport.TrimEndAfterMarker | App.tsx:145 | when the prefix of a line ends in a non-space, trailing whitespace is removed from the tail alone |
| DocxExport.Split | App.tsx:144 | `split('\n')` gives newline count + 1 lines, and no line contains a newline |
| DocxExport.JoinSplit | App.tsx:144 | joining the lines with `'\n'` gives the text back |
| DocxExport.SplitJoin | App.tsx:144 | splitting newline-free lines joined with `'\n'` gives the same lines back |
| DocxExport.SplitAtNewline | App.tsx:144 | a newline-free line followed by `'\n'` becomes the first line, and the rest is split separately |
| DocxExport.HashRun | App.tsx:148 | the length of the `/^#+/` match: all characters before it are `#` and the next one is not |
| DocxExport.ClassifyLineCases | App.tsx:145-158 | `ClassifyLine` gives a heading exactly when the trimmed line starts with `#`. The heading is HEADING_1 exactly when the leading `#` run has length 1. Any other line becomes `Body` of the untrimmed line. The heading text is fixed by HeadingLine, the body case by BodyLine |
| DocxExport.HeadingLine | App.tsx:145-155 | any indentation, then n >= 1 `#`, then text not starting with `#`: a HEADING_1 for n = 1 and a HEADING_2 otherwise. The text is the rest with surrounding whitespace removed. No space after the markers is needed |
| DocxExport.BodyLine | App.tsx:145-158 | a line whose first non-space character is not `#` becomes a body paragraph holding the untrimmed line verbatim |
| DocxExport.HeadingTextTrimmed | App.tsx:145-149 | heading text never starts or ends with whitespace |
| DocxExport.HeadingRoundTrip | App.tsx:146-154 | `#`/`##` + space + trimmed text not starting with `#` reads back as the same heading level and text |
| DocxExport.ClassifyLines | App.tsx:144-160 | one paragraph per line, in line order, each line classified on its own |
| DocxExport.DocumentParagraphs | App.tsx:137-160 | the document has newline count + 2 paragraphs, and the fixed title comes first |
| DocxExport.DocumentTitle | App.tsx:138-143 | the first paragraph shows "Peça Processual - AdvogadoIA" in the HEADING_1 style |
| DocxExport.BodyRunSize | App.tsx:156-158 | a body paragraph is one run of the untrimmed line at size 24; headings carry no run |
| DocxExport.DocumentLines | App.tsx:144-160 | paragraph k + 1 is line k of the text, classified |
| DocxExport.Reversed | App.tsx:131 | `[...messages].reverse()` keeps the length, and element i is element \|ms\| - 1 - i of the original |
| DocxExport.FirstModel | App.tsx:131 | `find(m => m.role === 'model')` finds nothing exactly when no turn is the model's; otherwise it finds a model turn of the list |
| DocxExport.LastModel | App.tsx:131 | `reverse().find(...)` only ever finds a model turn; LastModelIsLast shows it is the last one |
| DocxExport.LastModelIndex | App.tsx:131 | reference definition: no index exactly when no turn is the model's; otherwise the index of a model turn with no model turn after it |
| DocxExport.LastModelIsLast | App.tsx:131 | `[...messages].reverse().find(role == 'model')` finds exactly the turn at that index |
| DocxExport.ExportDocument | App.tsx:131-160 | the export is absent exactly when no turn is the model's; otherwise it is the document of the text of the last model turn |
| DocxExport.ExportOfLastModel | App.tsx:131-160 | when a model turn exists, the export is the document of the last one |
| DocxExport.ExportThreeLines | App.tsx:137-160 | `# t`, a body line and `## u` export as the title, HEADING_1 t, the body line and HEADING_2 u, in this order |
| GeminiService.PartsOf | services/geminiService.ts:20-28 | a turn has one or two parts. The first is the text. There is a second part exactly when an attachment exists, and it carries the attachment's MIME type and data unchanged |
| GeminiService.ContentOf | services/geminiService.ts:19-29 | the request turn of a history entry has the entry's role and its text as the first part. It has a second, inline-data part exactly when the entry has an attachment, carrying that attachment's MIME type and data |
| GeminiService.HistoryContents | services/geminiService.ts:19-30 | one request turn per history entry, in order, with the entry's role and parts |
| GeminiService.HistoryContentsAppend | services/geminiService.ts:19-30 | the mapping distributes over concatenation of histories, so order is kept |
| GeminiService.RequestContents | services/geminiService.ts:19-42 | the request has \|history\| + 1 turns; the last is a user turn holding the prompt and the current attachment |
| GeminiService.RequestHistoryTurn | services/geminiService.ts:19-30 | request turn i has the role of history entry i, its text as the first part, and a second inline-data part exactly when the entry has an attachment |
| GeminiService.BuildContents | services/geminiService.ts:19-42 | the map over the history followed by the push of the current turn builds exactly the request above |
| GeminiService.GroundingChunks | services/geminiService.ts:56 | without candidates, with an empty candidate list, or when metadata or chunks are absent, there are no chunks; otherwise they are the chunks of the first candidate |
| GeminiService.WebSources | services/geminiService.ts:57-62 | no more citations than chunks |
| GeminiService.CitationOf | services/geminiService.ts:59-62 | a citation copies the title and URI of the web source unchanged |
| GeminiService.CitationOfInjective | services/geminiService.ts:59-62 | different web sources give different citations, so nothing of the source is lost |
| GeminiService.WebIndices | services/geminiService.ts:57-58 | as many selected positions as citations, all within the chunk list |
| GeminiService.WebIndicesIncreasing | services/geminiService.ts:57-58 | selected positions are strictly increasing |
| GeminiService.WebIndicesComplete | services/geminiService.ts:57-58 | every chunk with a web source is selected |
| GeminiService.WebSourcesInOrder | services/geminiService.ts:57-62 | citation k is the title and URI of the web source of the k-th selected chunk, and that chunk has one |
| GeminiService.WebSourcesAppend | services/geminiService.ts:57-62 | filter and map distribute over concatenation of chunk lists |
| GeminiService.WebSourcesAllWeb | services/geminiService.ts:57-62 | when every chunk has a web source, none is dropped |
| GeminiService.WebSourcesNoWeb | services/geminiService.ts:57-62 | when no chunk has a web source, there are no citations |
| GeminiService.ReplyText | services/geminiService.ts:65 | the reply text is never empty: it is the response text when that is non-empty, and the fixed apology otherwise |
| GeminiService.ParseResponse | services/geminiService.ts:56-67 | the reply text is never empty. It is the response text when that is non-empty, and "Desculpe, ocorreu um erro na geração da resposta." otherwise. There are no more citations than chunks of the first candidate |
| GeminiService.ParseResponseUrls | services/geminiService.ts:56-62 | citation k of the reply is the title and URI of the k-th chunk of the first candidate that has a web source |
| GeminiService.NoGroundingNoUrls | services/geminiService.ts:56 | with no candidates, metadata or chunks, the citation list is empty |
| GeminiService.SendMessage | services/geminiService.ts:13-71 | the provider sees exactly the built request. If it throws, the same error is rethrown with no retry; otherwise the result is the parsed response |
| App.Accepts | App.tsx:69 | the guard refuses while a send is in flight, and when there is neither text nor attachment. Otherwise it accepts: any text, or any attachment |
| App.TextToSend | App.tsx:68 | a non-empty custom prompt wins; otherwise the text is the trimmed composer input |
| App.UserText | App.tsx:73 | the stored user text is the text to send. If that is empty and a file is attached, it is "Analise exaustivamente este ficheiro: " + the file name |
| App.OutgoingPrompt | App.tsx:91 | the prompt sent is never empty: it is the text to send, or the fixed request to analyse the document when that is empty |
| App.Snapshot | App.tsx:84-88 | the history has one entry per earlier turn |
| App.SnapshotAt | App.tsx:84-88 | history entry i keeps the role, text and attachment of turn i |
| App.SnapshotIgnoresMetadata | App.tsx:84-88 | timestamps and citations do not affect the history |
| App.ModelTurn | App.tsx:96-111 | the model turn holds the answer text and its citations, or the fixed error text without citations |
| App.TemplatePrompt | App.tsx:117-119 | a template's prompt is never empty |
| App.AlternatingLastModel | App.tsx:131 | in an alternating conversation, the latest model turn is the last turn, or the one just before it |
| App.Conversation.constructor | App.tsx:11-21 | the greeting is the only turn; the composer is empty, there is no attachment, and nothing is loading |
| App.Conversation.SetInput | App.tsx:351 | typing replaces the composer text and nothing else |
| App.Conversation.SetAttachment | App.tsx:58-62 | selecting or removing a file replaces the attachment and nothing else |
| App.Conversation.AlterationRequest | App.tsx:121-124 | the composer is prefilled with the fixed alteration request |
| App.Conversation.BeginSend | App.tsx:67-94 | refused exactly when there is nothing to send, or a send is in flight; a refused send changes nothing. An accepted send appends one user turn and clears the composer and attachment. It sets loading and hands over the prompt, the pre-append history and the attachment |
| App.Conversation.CompleteSend | App.tsx:96-114 | appends exactly one model turn (the answer, or the error text) and clears the loading flag |
| App.Conversation.HandleSend | App.tsx:67-115 | a refused send changes nothing. An accepted one appends exactly the user turn and then the model turn for the outcome of the provider call on the built request. It leaves earlier turns untouched, the composer empty, and loading off |
| App.Conversation.TemplateClick | App.tsx:117-119 | while loading, a template click changes nothing. Otherwise it appends after the unchanged earlier turns a user turn holding the template prompt and the composer's attachment. Then comes the model turn for the provider outcome on the request built from the template prompt, the earlier turns and that attachment. The composer and attachment end cleared and loading off |
| App.Conversation.ExportDocx | App.tsx:130-160 | in a valid conversation the latest model turn is always at the end or next to it, and the export is its document |

`Conversation.Valid()` holds in every reachable state. In it:
- the greeting comes first;
- user and model turns alternate;
- a send is in flight exactly when the store has an even number of turns.

Together with `HandleSend`, this means every completed submission adds one
user turn and one model turn.

## Left out
- React rendering, effects, scrolling and the cycling loading caption (App.tsx:26-49, 182-426) are UI.
- Reading a file with FileReader, and its base64 encoding (App.tsx:51-65), are browser I/O. `SetAttachment` takes the finished attachment.
- Serialising the document: `Packer.toBlob`, FileSaver, object URLs, the timestamped file name and `window.print` (App.tsx:126-128, 165-179). These are library and DOM calls. `Paragraph` records only what the code chooses: the title, the heading level and text, and the body text.
- Spacing and centred alignment of the paragraphs are layout constants that classification does not affect. The title text, heading styles and body font size are given by `ParagraphText`, `ParagraphHeading` and `RunSize`.
- The `GoogleGenAI` client: the API key, the model name, the system instruction, the search tool, the temperature and the thinking budget (services/geminiService.ts:9-10, 44-54). These are foreign configuration. A caller-supplied `generate` function stands for the call.
- `console.error` logging (App.tsx:105, services/geminiService.ts:69) is I/O.
- Concurrency: React state updates are treated as immediate. The composer stays usable during a send, so `SetInput` and `SetAttachment` may interleave with a pending `CompleteSend`. The model lets them, since `CompleteSend` does not touch those fields.
- App.Conversation.CompleteSend: requires a send in flight. In the source it is only ever the continuation of an accepted send.
- components/ChatBubble.tsx and constants.ts are not part of this model. The template titles are a parameter of `TemplateClick`.
