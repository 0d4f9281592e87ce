/**
 * The client session of the Legal Document Assistant (frontend/src/App.jsx),
 * as values: the nine pieces of component state, the replies of the backend,
 * the requests the client issues, and one function per state transition.
 * The class in AppState performs these transitions field by field and is
 * proved to agree with them; AppProperties states what they guarantee.
 */
module AppModel {
  import opened Common
  import opened Text

  /** The four tabs of the right-hand panel. */
  datatype Tab = SummaryTab | EntitiesTab | QaTab | CombinedTab

  /** The QA sub-mode: "extractive", "generative" or "rag". */
  datatype QaMode = Extractive | Generative | Rag

  /** One named entity as the backend reports it: its `text` and its `label` (here `kind`, `label` being a keyword). */
  datatype Entity = Entity(text: string, kind: string)

  /** An extractive-QA confidence; only its comparison with zero matters to the client. */
  datatype Score = Score(value: real)

  /** An uploaded file; its content is passed to the backend untouched. */
  datatype PdfFile = PdfFile(bytes: seq<bv8>)

  /**
   * A decoded JSON reply body.  It holds every field any endpoint may send;
   * each handler reads only its own.  `qa` is the nested QA object of the
   * combined endpoint.
   */
  datatype Reply = Reply(
    text: Field<string>,
    summary: Field<string>,
    entities: Field<seq<Entity>>,
    answer: Field<string>,
    score: Field<Score>,
    start: Field<int>,
    end: Field<int>,
    retrievedChunks: Field<seq<string>>,
    qa: Field<Reply>,
    detail: Field<string>)

  /** How a request ended: the fetch or the JSON decoding threw, or a reply arrived with its `ok` flag. */
  datatype Outcome = Thrown(message: string) | Replied(ok: bool, data: Reply)

  /** The backend capability a handler calls, one per handler. */
  datatype Capability = ExtractText | Summarize | Ner | AskExtractive | AskGenerative | AskRag | Analyze
  {
    /** The three QA handlers, which also need a question. */
    predicate AsksQuestion() {
      AskExtractive? || AskGenerative? || AskRag?
    }
  }

  /** A request body, one shape per endpoint. */
  datatype Request =
    | ExtractTextRequest(file: PdfFile)
    | SummarizeRequest(text: string, maxNewTokens: int)
    | NerRequest(text: string)
    | QaRequest(context: string, question: string)
    | QaGenRequest(context: string, question: string, maxNewTokens: int)
    | QaRagRequest(context: string, question: string, topK: int)
    | AnalyzeRequest(text: string, optionalQuestion: Option<string>, maxNewTokens: int)

  /** The path each request is posted to. */
  function Endpoint(r: Request): string {
    match r
    case ExtractTextRequest(_) => "/extract_text"
    case SummarizeRequest(_, _) => "/summarize"
    case NerRequest(_) => "/ner"
    case QaRequest(_, _) => "/qa"
    case QaGenRequest(_, _, _) => "/qa_gen"
    case QaRagRequest(_, _, _) => "/qa_rag"
    case AnalyzeRequest(_, _, _) => "/analyze"
  }

  /** The whole component state. */
  datatype View = View(
    activeTab: Tab,
    qaMode: QaMode,
    text: string,
    question: string,
    loading: bool,
    summary: string,
    entities: seq<Entity>,
    qaResult: Option<Reply>,
    error: string)

  /** The state the component starts in. */
  const Initial := View(SummaryTab, Extractive, "", "", false, "", [], None, "")

  /** `resetOutputs`: the three outputs and the error are emptied. */
  function Cleared(v: View): View {
    v.(summary := "", entities := [], qaResult := None, error := "")
  }

  /** A click on a tab button. */
  function WithTab(v: View, t: Tab): View {
    Cleared(v).(activeTab := t)
  }

  /** A click on a QA sub-mode button. */
  function WithQaMode(v: View, m: QaMode): View {
    Cleared(v).(qaMode := m)
  }

  // ---------------------------------------------------------------- submit

  const NoQuestionMessage := "Please enter a question."

  /** The message a submit with blank text shows. */
  function EmptyTextMessage(cap: Capability): string
    requires cap != ExtractText
  {
    match cap
    case Summarize => "Please enter some text to summarize."
    case Ner => "Please enter some text to analyze entities."
    case Analyze => "Please enter text to analyze."
    case _ => "Please enter context text."
  }

  /** The validation message of a submit, if it fails validation: the text is checked before the question. */
  function ValidationError(cap: Capability, text: string, question: string): Option<string>
    requires cap != ExtractText
  {
    if Blank(text) then Some(EmptyTextMessage(cap))
    else if cap.AsksQuestion() && Blank(question) then Some(NoQuestionMessage)
    else None
  }

  /** The request a submit that passes validation sends. */
  function RequestFor(cap: Capability, text: string, question: string): Request
    requires cap != ExtractText
  {
    match cap
    case Summarize => SummarizeRequest(text, 256)
    case Ner => NerRequest(text)
    case AskExtractive => QaRequest(text, question)
    case AskGenerative => QaGenRequest(text, question, 128)
    case AskRag => QaRagRequest(text, question, 3)
    case Analyze => AnalyzeRequest(text, if question == "" then None else Some(question), 256)
  }

  /** The state right after a submit handler has run up to its first `await`. */
  function Started(v: View, cap: Capability): View
    requires cap != ExtractText
  {
    match ValidationError(cap, v.text, v.question)
    case Some(msg) => v.(error := msg)
    case None => Cleared(v).(loading := true)
  }

  /** The request a submit handler issues, if any. */
  function Issued(v: View, cap: Capability): Option<Request>
    requires cap != ExtractText
  {
    if ValidationError(cap, v.text, v.question).Some? then None
    else Some(RequestFor(cap, v.text, v.question))
  }

  /** The state right after the upload handler has run up to its first `await`; no file, no change. */
  function UploadStarted(v: View, file: Option<PdfFile>): View {
    if file.None? then v else Cleared(v).(loading := true)
  }

  /** The capability selected by the QA sub-mode. */
  function QaCapability(m: QaMode): Capability {
    match m
    case Extractive => AskExtractive
    case Generative => AskGenerative
    case Rag => AskRag
  }

  /** The handler the primary button of a tab runs. */
  function SubmitCapability(t: Tab, m: QaMode): Capability {
    match t
    case SummaryTab => Summarize
    case EntitiesTab => Ner
    case QaTab => QaCapability(m)
    case CombinedTab => Analyze
  }

  // ------------------------------------------------------------ completion

  /** The message shown when a capability fails without a usable `detail`. */
  function DefaultError(cap: Capability): string {
    match cap
    case ExtractText => "Error extracting text from PDF."
    case AskRag => "Error from RAG QA API."
    case _ => "Error from API"
  }

  /** `data.detail || default`. */
  function ErrorMessage(cap: Capability, detail: Field<string>): string {
    if detail.Present? && detail.value != "" then detail.value else DefaultError(cap)
  }

  /** `field || ""` on a string field. */
  function StringOr(f: Field<string>): string {
    if f.Present? then f.value else ""
  }

  /** `data.entities || []`. */
  function EntitiesOr(f: Field<seq<Entity>>): seq<Entity> {
    if f.Present? then f.value else []
  }

  /** `data.qa || null`. */
  function QaOrNull(f: Field<Reply>): Option<Reply> {
    if f.Present? then Some(f.value) else None
  }

  /** The QA object the generative and RAG handlers build: the answer, no score, the span -1..-1. */
  function Spanless(answer: Field<string>): Reply {
    Reply(Missing, Missing, Missing, answer, Null, Present(-1), Present(-1), Missing, Missing, Missing)
  }

  /** The state after a successful reply has been stored, before `loading` is cleared. */
  function Succeeded(v: View, cap: Capability, data: Reply): View {
    match cap
    case ExtractText => v.(text := StringOr(data.text))
    case Summarize => v.(summary := StringOr(data.summary))
    case Ner => v.(entities := EntitiesOr(data.entities))
    case AskExtractive => v.(qaResult := Some(data))
    case AskGenerative => v.(qaResult := Some(Spanless(data.answer)))
    case AskRag => v.(qaResult := Some(Spanless(data.answer)))
    case Analyze =>
      v.(summary := StringOr(data.summary), entities := EntitiesOr(data.entities), qaResult := QaOrNull(data.qa))
  }

  /** The state once the handler of `cap` has finished with outcome `o`, whatever the state then is. */
  function Completed(v: View, cap: Capability, o: Outcome): View {
    var w :=
      match o
      case Thrown(m) => v.(error := m)
      case Replied(ok, data) => if ok then Succeeded(v, cap, data) else v.(error := ErrorMessage(cap, data.detail));
    w.(loading := false)
  }

  // ------------------------------------------------------------- rendering

  /** The centred spinner of `renderOutputs`. */
  predicate ShowsSpinner(v: View) {
    v.loading && v.summary == "" && |v.entities| == 0 && v.qaResult.None? && v.error == ""
  }

  /** The score line of the QA card. */
  datatype ScoreLine = NoScoreLine | ScoreNotAvailable | ScoreShown(score: Score)

  /** Shown only in extractive mode for a score that is not `null`; a falsy score reads "N/A". */
  function ScoreLineOf(v: View): ScoreLine {
    if v.qaResult.None? || v.qaMode != Extractive then NoScoreLine
    else
      match v.qaResult.value.score
      case Null => NoScoreLine
      case Missing => ScoreNotAvailable
      case Present(s) => if s.value == 0.0 then ScoreNotAvailable else ScoreShown(s)
  }

  /** `qaResult.answer || "(no answer found)"`. */
  function AnswerLine(qa: Reply): string {
    if qa.answer.Present? && qa.answer.value != "" then qa.answer.value else "(no answer found)"
  }

  // ------------------------------------------------------------- downloads

  /** A file handed to the browser for download. */
  datatype Download =
    | SummaryFile(content: string)
    | EntitiesFile(records: seq<Entity>)

  function FileName(d: Download): string {
    match d
    case SummaryFile(_) => "summary.txt"
    case EntitiesFile(_) => "entities.json"
  }
}
