/**
 * What the client session guarantees, stated over the transition functions
 * of AppModel (and so, through their postconditions, over the methods of
 * AppState.App).
 */
module AppProperties {
  import opened Common
  import opened Text
  import opened AppModel

  /** The part of the state that no output-clearing action touches. */
  predicate SameInputs(v: View, w: View) {
    v.activeTab == w.activeTab && v.qaMode == w.qaMode && v.text == w.text && v.question == w.question
  }

  /** No output and no error is held. */
  predicate NoOutputs(v: View) {
    v.summary == "" && v.entities == [] && v.qaResult.None? && v.error == ""
  }

  // ------------------------------------------------------------ reset, tabs

  /**
   * `resetOutputs` empties the summary, the entities, the QA result and the
   * error and leaves the inputs, the modes and `loading` alone; afterwards
   * no card is rendered and the spinner shows exactly while loading.
   */
  lemma ResetOutputsClearsOnlyOutputs(v: View)
    ensures NoOutputs(Cleared(v))
    ensures SameInputs(v, Cleared(v)) && Cleared(v).loading == v.loading
    ensures ShowsSpinner(Cleared(v)) <==> v.loading
    ensures ScoreLineOf(Cleared(v)) == NoScoreLine
  {
  }

  /** Any tab click, also on the active tab, clears all outputs and the error and then selects the tab. */
  lemma SelectTabClears(v: View, t: Tab)
    ensures WithTab(v, t).activeTab == t && NoOutputs(WithTab(v, t))
    ensures WithTab(v, t) == Cleared(v).(activeTab := t)
    ensures WithTab(WithTab(v, t), t) == WithTab(v, t)
    ensures v.activeTab == t ==> WithTab(v, t) == Cleared(v)
  {
  }

  /** Any QA sub-mode click, also on the active one, clears all outputs and the error and then selects the mode. */
  lemma SelectQaModeClears(v: View, m: QaMode)
    ensures WithQaMode(v, m).qaMode == m && NoOutputs(WithQaMode(v, m))
    ensures WithQaMode(v, m) == Cleared(v).(qaMode := m)
    ensures WithQaMode(WithQaMode(v, m), m) == WithQaMode(v, m)
    ensures v.qaMode == m ==> WithQaMode(v, m) == Cleared(v)
  {
  }

  // ------------------------------------------------------------ validation

  /**
   * A submit whose text is blank sets exactly its message and nothing else:
   * no request, `loading` as it was, earlier outputs kept.
   */
  lemma BlankTextSubmit(v: View, cap: Capability)
    requires cap != ExtractText && Blank(v.text)
    ensures Issued(v, cap) == None
    ensures Started(v, cap) == v.(error := EmptyTextMessage(cap))
    ensures cap == Summarize ==> Started(v, cap).error == "Please enter some text to summarize."
    ensures cap == Ner ==> Started(v, cap).error == "Please enter some text to analyze entities."
    ensures cap.AsksQuestion() ==> Started(v, cap).error == "Please enter context text."
    ensures cap == Analyze ==> Started(v, cap).error == "Please enter text to analyze."
  {
  }

  /**
   * The QA handlers check the text before the question: both blank reads
   * "Please enter context text.", and "Please enter a question." appears only
   * when the text is not blank.
   */
  lemma QaChecksTextFirst(cap: Capability, text: string, question: string)
    requires cap.AsksQuestion()
    ensures ValidationError(cap, text, question) == Some("Please enter context text.") <==> Blank(text)
    ensures ValidationError(cap, text, question) == Some("Please enter a question.") <==> !Blank(text) && Blank(question)
    ensures ValidationError(cap, text, question) == None <==> !Blank(text) && !Blank(question)
  {
  }

  /** The other submits look at the text only; the question is never required. */
  lemma OtherSubmitsIgnoreQuestion(cap: Capability, text: string, question: string)
    requires cap in {Summarize, Ner, Analyze}
    ensures ValidationError(cap, text, question).None? <==> !Blank(text)
    ensures ValidationError(cap, text, question) == ValidationError(cap, text, "")
  {
  }

  /**
   * A submit that passes validation clears every output and the error, sets
   * `loading`, issues exactly the request of its capability, and the spinner shows.
   */
  lemma AcceptedSubmit(v: View, cap: Capability)
    requires cap != ExtractText && ValidationError(cap, v.text, v.question).None?
    ensures Started(v, cap) == Cleared(v).(loading := true)
    ensures Issued(v, cap) == Some(RequestFor(cap, v.text, v.question))
    ensures ShowsSpinner(Started(v, cap))
  {
  }

  // -------------------------------------------------------------- dispatch

  /**
   * The QA button runs `handleQA` on "extractive", `handleQAGen` on
   * "generative" and `handleQARag` otherwise, and each posts to its endpoint
   * with its own fixed parameters; the combined tab sends an empty question as `null`.
   */
  lemma Dispatch(m: QaMode, text: string, question: string)
    ensures SubmitCapability(QaTab, m) == QaCapability(m)
    ensures Endpoint(RequestFor(QaCapability(m), text, question))
         == (if m == Extractive then "/qa" else if m == Generative then "/qa_gen" else "/qa_rag")
    ensures RequestFor(QaCapability(m), text, question).context == text
    ensures RequestFor(QaCapability(m), text, question).question == question
    ensures m == Generative ==> RequestFor(QaCapability(m), text, question).maxNewTokens == 128
    ensures m == Rag ==> RequestFor(QaCapability(m), text, question).topK == 3
    ensures RequestFor(SubmitCapability(SummaryTab, m), text, question) == SummarizeRequest(text, 256)
    ensures Endpoint(RequestFor(SubmitCapability(SummaryTab, m), text, question)) == "/summarize"
    ensures RequestFor(SubmitCapability(EntitiesTab, m), text, question) == NerRequest(text)
    ensures Endpoint(RequestFor(SubmitCapability(EntitiesTab, m), text, question)) == "/ner"
    ensures RequestFor(SubmitCapability(CombinedTab, m), text, question)
         == AnalyzeRequest(text, if question == "" then None else Some(question), 256)
  {
  }

  // ------------------------------------------------------------ completion

  /**
   * Every completion ends loading.  A failure reply shows its `detail` when
   * that is a non-empty string and the capability's default otherwise, so
   * the error banner is never empty; a thrown error shows its message.
   * Apart from the upload, the inputs are left alone.
   */
  lemma CompletionEndsLoading(v: View, cap: Capability, o: Outcome)
    ensures !Completed(v, cap, o).loading && !ShowsSpinner(Completed(v, cap, o))
    ensures o.Thrown? ==> Completed(v, cap, o).error == o.message
    ensures o.Replied? && !o.ok ==>
      Completed(v, cap, o) == v.(loading := false, error := ErrorMessage(cap, o.data.detail))
    ensures o.Replied? && !o.ok ==> Completed(v, cap, o).error != ""
    ensures o.Replied? && !o.ok && o.data.detail.Present? && o.data.detail.value != "" ==>
      Completed(v, cap, o).error == o.data.detail.value
    ensures o.Replied? && !o.ok && (o.data.detail.Missing? || o.data.detail.Null? || o.data.detail == Present("")) ==>
      Completed(v, cap, o).error
        == (if cap == ExtractText then "Error extracting text from PDF."
            else if cap == AskRag then "Error from RAG QA API."
            else "Error from API")
    ensures cap != ExtractText ==> SameInputs(v, Completed(v, cap, o))
  {
  }

  /** A submit that passed validation and then failed shows the error and no output. */
  lemma FailedSubmitShowsOnlyError(v: View, cap: Capability, data: Reply)
    requires cap != ExtractText && ValidationError(cap, v.text, v.question).None?
    ensures var w := Completed(Started(v, cap), cap, Replied(false, data));
      w.error != "" && w.summary == "" && w.entities == [] && w.qaResult.None? && !w.loading
  {
  }

  /**
   * A success does not guarantee an output: a summary reply without a
   * `summary` (or with an empty one) and an entity reply with no or an empty
   * entity list end with no card, no error and no spinner.
   */
  lemma SuccessMayShowNothing(v: View, cap: Capability, data: Reply)
    requires cap in {Summarize, Ner} && ValidationError(cap, v.text, v.question).None?
    requires cap == Summarize ==> !data.summary.Present? || data.summary == Present("")
    requires cap == Ner ==> !data.entities.Present? || data.entities == Present([])
    ensures var w := Completed(Started(v, cap), cap, Replied(true, data));
      NoOutputs(w) && !w.loading && !ShowsSpinner(w) && SameInputs(v, w)
  {
  }

  /**
   * Generative and RAG answers are stored as an answer with a `null` score and
   * the span -1..-1, whatever else the reply holds: the retrieved chunks are
   * dropped, and two replies with the same answer give the same state.
   */
  lemma SpanlessAnswers(v: View, cap: Capability, d1: Reply, d2: Reply)
    requires cap == AskGenerative || cap == AskRag
    ensures var q := Completed(v, cap, Replied(true, d1)).qaResult;
      && q.Some? && q.value.answer == d1.answer
      && q.value.score == Null && q.value.start == Present(-1) && q.value.end == Present(-1)
      && q.value.retrievedChunks == Missing
    ensures d1.answer == d2.answer ==> Completed(v, cap, Replied(true, d1)) == Completed(v, cap, Replied(true, d2))
    ensures ScoreLineOf(Completed(v, cap, Replied(true, d1))) == NoScoreLine
  {
  }

  /** Extractive answers are stored exactly as the reply arrived. */
  lemma ExtractiveStoresReply(v: View, d: Reply)
    ensures Completed(v, AskExtractive, Replied(true, d)) == v.(loading := false, qaResult := Some(d))
  {
  }

  /**
   * Missing or `null` fields are normalised: no entity list becomes `[]`, no
   * `qa` object becomes `null`, no extracted text becomes "".
   */
  lemma MissingFieldsNormalised(v: View, d: Reply)
    requires !d.entities.Present? && !d.qa.Present? && !d.text.Present?
    ensures Completed(v, Ner, Replied(true, d)).entities == []
    ensures Completed(v, Analyze, Replied(true, d)).entities == []
    ensures Completed(v, Analyze, Replied(true, d)).qaResult == None
    ensures Completed(v, ExtractText, Replied(true, d)).text == ""
  {
  }

  /**
   * There is no cancellation: a completion applies the same way whichever tab
   * and QA sub-mode are active when it arrives, and leaves them as they are.
   */
  lemma CompletionIgnoresModes(v: View, t: Tab, m: QaMode, cap: Capability, o: Outcome)
    ensures Completed(v.(activeTab := t, qaMode := m), cap, o) == Completed(v, cap, o).(activeTab := t, qaMode := m)
  {
  }

  // ------------------------------------------------------------- rendering

  /**
   * The score line shows only in extractive mode for a result whose score is
   * not `null`; a score of exactly zero reads "N/A", as does a missing one.
   */
  lemma ScoreLineCases(v: View)
    ensures ScoreLineOf(v) != NoScoreLine <==> v.qaResult.Some? && v.qaMode == Extractive && !v.qaResult.value.score.Null?
    ensures ScoreLineOf(v).ScoreShown? ==> Present(ScoreLineOf(v).score) == v.qaResult.value.score && ScoreLineOf(v).score.value != 0.0
    ensures v.qaResult.Some? && v.qaMode == Extractive && v.qaResult.value.score == Present(Score(0.0)) ==>
      ScoreLineOf(v) == ScoreNotAvailable
  {
  }

  /**
   * The answer line shows the answer when it is a non-empty string and
   * "(no answer found)" when it is absent, `null` or empty.
   */
  lemma AnswerLineCases(qa: Reply)
    ensures qa.answer.Present? && qa.answer.value != "" ==> AnswerLine(qa) == qa.answer.value
    ensures !qa.answer.Present? || qa.answer.value == "" ==> AnswerLine(qa) == "(no answer found)"
    ensures AnswerLine(qa) != ""
  {
  }

  /** The spinner shows only while loading with nothing else on screen, so never together with an error. */
  lemma SpinnerExcludesOutputs(v: View)
    ensures ShowsSpinner(v) <==> v.loading && NoOutputs(v)
    ensures ShowsSpinner(v) ==> v.error == "" && ScoreLineOf(v) == NoScoreLine
  {
  }

  // ------------------------------------------------------------- scenarios

  /** Entity extraction for a one-sentence document, from the click to the stored list. */
  lemma EntitiesScenario(v: View)
    requires v.text == "The Act of 1890 established the agency."
    ensures Issued(v, Ner) == Some(NerRequest("The Act of 1890 established the agency."))
    ensures var reply := Reply(Missing, Missing, Present([Entity("1890", "DATE")]), Missing, Missing, Missing, Missing, Missing, Missing, Missing);
      var w := Completed(Started(v, Ner), Ner, Replied(true, reply));
      w.entities == [Entity("1890", "DATE")] && w.error == "" && !w.loading
  {
    assert !IsJsSpace(v.text[0]);
  }

  /**
   * Generative QA: the request carries 128 new tokens; of a reply that also
   * holds a score, a span and retrieved chunks, only the answer is kept.
   */
  lemma GenerativeScenario(v: View)
    requires v.text == "X" && v.question == "What is X?"
    ensures Issued(v, AskGenerative) == Some(QaGenRequest("X", "What is X?", 128))
    ensures var reply := Reply(Missing, Missing, Missing, Present("Y"), Present(Score(0.9)), Present(0), Present(1),
                               Present(["X"]), Missing, Missing);
      var w := Completed(Started(v, AskGenerative), AskGenerative, Replied(true, reply));
      && w.qaResult == Some(Reply(Missing, Missing, Missing, Present("Y"), Null, Present(-1), Present(-1), Missing, Missing, Missing))
      && AnswerLine(w.qaResult.value) == "Y" && !w.loading
  {
    assert !IsJsSpace(v.text[0]);
    assert !IsJsSpace(v.question[0]);
  }
}
