/**
 * The `App` component of frontend/src/App.jsx as an object whose fields are
 * its `useState` slots.  Every event handler is a method that assigns the
 * fields in the order the handler calls its setters.  An asynchronous handler
 * is split at its `await`: `Begin` (or `HandlePdfUpload`) runs the part before
 * the request is sent, `Finish` the part after the reply (its `catch` and
 * `finally`).  Nothing cancels a request, so `Finish` applies to whatever the
 * state is by then.
 */
module AppState {
  import opened Common
  import opened Text
  import opened AppModel

  class App {
    var activeTab: Tab
    var qaMode: QaMode
    var text: string
    var question: string
    var loading: bool
    var summary: string
    var entities: seq<Entity>
    var qaResult: Option<Reply>
    var error: string

    /** The requests sent and not yet finished, by capability. */
    ghost var pending: multiset<Capability>

    /**
     * While the client shows it is loading, some request is outstanding.
     * Bookkeeping only: the client itself never reads `pending`.
     */
    ghost predicate Valid()
      reads this
    {
      loading ==> pending != multiset{}
    }

    /** The state as a value. */
    function Snapshot(): View
      reads this
    {
      View(activeTab, qaMode, text, question, loading, summary, entities, qaResult, error)
    }

    /** The initial `useState` values. */
    constructor ()
      ensures Valid() && Snapshot() == Initial && pending == multiset{}
    {
      activeTab, qaMode := SummaryTab, Extractive;
      text, question := "", "";
      loading := false;
      summary, entities, qaResult, error := "", [], None, "";
      pending := multiset{};
    }

    /** `resetOutputs`. */
    method ResetOutputs()
      modifies this
      ensures Snapshot() == Cleared(old(Snapshot())) && pending == old(pending)
    {
      summary := "";
      entities := [];
      qaResult := None;
      error := "";
    }

    /** The text area's `onChange`. */
    method SetText(t: string)
      modifies this
      ensures Snapshot() == old(Snapshot()).(text := t) && pending == old(pending)
    {
      text := t;
    }

    /** The question input's `onChange`. */
    method SetQuestion(q: string)
      modifies this
      ensures Snapshot() == old(Snapshot()).(question := q) && pending == old(pending)
    {
      question := q;
    }

    /** A tab button's `onClick`; the buttons are never disabled. */
    method SelectTab(t: Tab)
      modifies this
      ensures Snapshot() == WithTab(old(Snapshot()), t) && pending == old(pending)
    {
      ResetOutputs();
      activeTab := t;
    }

    /** A QA sub-mode button's `onClick`; the buttons are never disabled. */
    method SelectQaMode(m: QaMode)
      modifies this
      ensures Snapshot() == WithQaMode(old(Snapshot()), m) && pending == old(pending)
    {
      ResetOutputs();
      qaMode := m;
    }

    /**
     * `handlePdfUpload` up to its `fetch`.  The file input is not disabled
     * while loading, so an upload may start beside another request.
     */
    method HandlePdfUpload(file: Option<PdfFile>) returns (req: Option<Request>)
      requires Valid()
      modifies this
      ensures Valid()
      ensures Snapshot() == UploadStarted(old(Snapshot()), file)
      ensures req == if file.None? then None else Some(ExtractTextRequest(file.value))
      ensures pending == if file.None? then old(pending) else old(pending) + multiset{ExtractText}
    {
      if file.None? {
        return None;
      }
      ResetOutputs();
      error := "";
      loading := true;
      pending := pending + multiset{ExtractText};
      req := Some(ExtractTextRequest(file.value));
    }

    /**
     * A submit handler (`handleSummarize`, `handleEntities`, `handleQA`,
     * `handleQAGen`, `handleQARag`, `handleAnalyze`) up to its `fetch`.  Its
     * button is `disabled={loading}`, hence the precondition.
     */
    method Begin(cap: Capability) returns (req: Option<Request>)
      requires Valid() && !loading && cap != ExtractText
      modifies this
      ensures Valid()
      ensures Snapshot() == Started(old(Snapshot()), cap)
      ensures req == Issued(old(Snapshot()), cap)
      ensures pending == if req.None? then old(pending) else old(pending) + multiset{cap}
    {
      if Blank(text) {
        error := EmptyTextMessage(cap);
        return None;
      }
      if cap.AsksQuestion() && Blank(question) {
        error := NoQuestionMessage;
        return None;
      }
      ResetOutputs();
      loading := true;
      pending := pending + multiset{cap};
      req := Some(RequestFor(cap, text, question));
    }

    /** The primary button of the active tab: the handler it runs is chosen by the tab and the QA sub-mode. */
    method Submit() returns (cap: Capability, req: Option<Request>)
      requires Valid() && !loading
      modifies this
      ensures Valid()
      ensures cap == SubmitCapability(old(activeTab), old(qaMode))
      ensures Snapshot() == Started(old(Snapshot()), cap)
      ensures req == Issued(old(Snapshot()), cap)
      ensures pending == if req.None? then old(pending) else old(pending) + multiset{cap}
    {
      match activeTab {
        case SummaryTab => cap := Summarize;
        case EntitiesTab => cap := Ner;
        case CombinedTab => cap := Analyze;
        case QaTab =>
          cap := if qaMode == Extractive then AskExtractive
                 else if qaMode == Generative then AskGenerative
                 else AskRag;
      }
      req := Begin(cap);
    }

    /**
     * The rest of a handler once its request has ended: the reply is stored
     * or the error shown (`try`/`catch`), then `loading` is cleared (`finally`).
     */
    method Finish(cap: Capability, o: Outcome)
      requires Valid() && cap in pending
      modifies this
      ensures Valid()
      ensures Snapshot() == Completed(old(Snapshot()), cap, o)
      ensures pending == old(pending) - multiset{cap}
    {
      match o {
        case Thrown(m) =>
          error := m;
        case Replied(ok, data) =>
          if !ok {
            error := ErrorMessage(cap, data.detail);
          } else {
            match cap
            case ExtractText => text := StringOr(data.text);
            case Summarize => summary := StringOr(data.summary);
            case Ner => entities := EntitiesOr(data.entities);
            case AskExtractive => qaResult := Some(data);
            case AskGenerative => qaResult := Some(Spanless(data.answer));
            case AskRag => qaResult := Some(Spanless(data.answer));
            case Analyze =>
              summary := StringOr(data.summary);
              entities := EntitiesOr(data.entities);
              qaResult := QaOrNull(data.qa);
          }
      }
      loading := false;
      pending := pending - multiset{cap};
    }

    /** `handleDownloadSummary`: nothing to download while the summary is empty. */
    method DownloadSummary() returns (file: Option<Download>)
      ensures file.Some? <==> summary != ""
      ensures file.Some? ==> file.value == SummaryFile(summary) && FileName(file.value) == "summary.txt"
    {
      if summary == "" {
        return None;
      }
      file := Some(SummaryFile(summary));
    }

    /** `handleDownloadEntities`: nothing to download while there are no entities. */
    method DownloadEntities() returns (file: Option<Download>)
      ensures file.Some? <==> |entities| > 0
      ensures file.Some? ==> file.value == EntitiesFile(entities) && FileName(file.value) == "entities.json"
    {
      if |entities| == 0 {
        return None;
      }
      file := Some(EntitiesFile(entities));
    }
  }
}
