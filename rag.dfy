/**
 * Retrieval-augmented question answering (src/rag.py): the context, already
 * split into sentences, is cut into overlapping windows of sentences; when no
 * window holds text the answer is a fixed message, otherwise the best windows
 * are joined into a smaller context for the generative model.  Sentence
 * splitting, embedding and ranking are foreign: the sentences arrive as input
 * and the ranking is the parameter `retrieve`.
 */
module Rag {
  import opened Common
  import opened Text
  import opened Strides
  import opened Lists
  import opened Scan
  import opened GroqQa

  // --------------------------------------------------------------- slicing

  /** Python's normalisation of one slice bound against a list of length `n`. */
  function SliceBound(k: int, n: nat): nat {
    if k < 0 then (if k + n < 0 then 0 else k + n)
    else if k > n then n
    else k
  }

  /** Python's `s[a:b]`. */
  function PySlice(s: seq<string>, a: int, b: int): seq<string> {
    var lo, hi := SliceBound(a, |s|), SliceBound(b, |s|);
    if lo < hi then s[lo..hi] else []
  }

  // -------------------------------------------------------------- chunking

  /** Where `s[i : i + w]` starts, for a start that is not negative (the only kind the loop takes). */
  function WindowStart(s: seq<string>, i: nat): nat {
    if i < |s| then i else |s|
  }

  /** Where `s[i : i + w]` stops. */
  function WindowStop(s: seq<string>, i: nat, w: int): nat {
    SliceBound(i + w, |s|)
  }

  /** `s[i : i + w]` for a start that is not negative. */
  function Window(s: seq<string>, i: nat, w: int): seq<string> {
    var start, stop := WindowStart(s, i), WindowStop(s, i, w);
    if start < stop then s[start..stop] else []
  }

  /**
   * `Window` is Python's slice; a positive width from inside the list gives
   * `s[i .. min(i + w, n)]`, and a width of zero or less gives nothing.
   */
  lemma WindowIsSlice(s: seq<string>, i: nat, w: int)
    ensures Window(s, i, w) == PySlice(s, i, i + w)
    ensures i < |s| && w >= 1 ==> Window(s, i, w) == s[i..if i + w < |s| then i + w else |s|]
    ensures w <= 0 && i + w >= 0 ==> Window(s, i, w) == []
  {
  }

  /** `" ".join(s[i : i + w])`, read straight off the list. */
  function WindowJoin(s: seq<string>, i: nat, w: int): string {
    var start, stop := WindowStart(s, i), WindowStop(s, i, w);
    if start < stop then JoinRange(" ", s, start, stop) else ""
  }

  /** `WindowJoin` is the space-join of the window. */
  lemma WindowJoinIsJoin(s: seq<string>, i: nat, w: int)
    ensures WindowJoin(s, i, w) == Join(" ", Window(s, i, w))
  {
    var start, stop := WindowStart(s, i), WindowStop(s, i, w);
    if start < stop {
      JoinRangeSlice(" ", s, start, 0, stop);
    }
  }

  /** The chunk the window at loop index `i` yields, before the emptiness test (WindowJoinIsJoin). */
  function WindowText(sentences: seq<string>, i: nat, maxSentences: int): string {
    PyStrip(WindowJoin(sentences, i, maxSentences))
  }

  /**
   * For a loop index inside the list and a positive window size, the chunk is
   * the stripped space-join of the sentences from `i` up to `min(i + w, n)`.
   */
  lemma WindowTextIsStrippedJoin(sentences: seq<string>, i: nat, maxSentences: int)
    requires i < |sentences| && maxSentences >= 1
    ensures var stop := if i + maxSentences < |sentences| then i + maxSentences else |sentences|;
      WindowText(sentences, i, maxSentences) == PyStrip(Join(" ", sentences[i..stop]))
  {
    WindowJoinIsJoin(sentences, i, maxSentences);
    WindowIsSlice(sentences, i, maxSentences);
  }

  /** The window text at each loop index. */
  function WindowTexts(sentences: seq<string>, maxSentences: int): nat -> string {
    (i: nat) => WindowText(sentences, i, maxSentences)
  }

  /**
   * The result of `chunk_text` on the given sentences: the loop collects the
   * non-empty window texts at 0, step, 2·step, … with `step = maxSentences -
   * overlap`.  It terminates only when the window does not move backwards (or
   * there is nothing to cut); with a step of zero it stops after the first window.
   */
  function Chunks(sentences: seq<string>, maxSentences: int, overlap: int): seq<string>
    requires overlap <= maxSentences || sentences == []
  {
    Collected(WindowTexts(sentences, maxSentences), |sentences|, maxSentences - overlap)
  }

  /** `chunk_text`, given the output of the sentence splitter: the collecting loop run over the window texts. */
  method ChunkText(sentences: seq<string>, maxSentences: int, overlap: int) returns (chunks: seq<string>)
    requires overlap <= maxSentences || sentences == []
    ensures chunks == Chunks(sentences, maxSentences, overlap)
  {
    chunks := CollectNonEmpty(WindowTexts(sentences, maxSentences), |sentences|, maxSentences - overlap);
  }

  // ------------------------------------------------- reference definition

  /** Window `k` of the loop: the text of the sentences from index `k·step` on, at most `maxSentences` of them. */
  function Windows(sentences: seq<string>, maxSentences: int, overlap: int): (ws: seq<string>)
    requires overlap < maxSentences
    ensures |ws| == WindowCount(|sentences|, maxSentences - overlap)
    ensures forall k :: 0 <= k < |ws| ==> ws[k] == WindowText(sentences, k * (maxSentences - overlap), maxSentences)
  {
    Visited(WindowTexts(sentences, maxSentences), |sentences|, maxSentences - overlap)
  }

  /**
   * Reference characterisation of `chunk_text` for a positive step: the loop
   * index runs over 0, step, 2·step, … below the number of sentences, each
   * index gives the stripped space-join of its window, and the empty ones are
   * dropped, the order of the rest kept.
   */
  lemma ChunksAreNonEmptyWindows(sentences: seq<string>, maxSentences: int, overlap: int)
    requires overlap < maxSentences
    ensures Chunks(sentences, maxSentences, overlap) == NonEmpty(Windows(sentences, maxSentences, overlap))
  {
    if sentences != [] {
      ScanCollectsNonEmpty(WindowTexts(sentences, maxSentences), |sentences|, maxSentences - overlap);
    }
  }

  /** A window's text is already stripped. */
  lemma WindowTextStripped(sentences: seq<string>, i: nat, maxSentences: int)
    ensures PyStrip(WindowText(sentences, i, maxSentences)) == WindowText(sentences, i, maxSentences)
  {
    StripIdempotent(WindowJoin(sentences, i, maxSentences), IsPySpace);
  }

  /**
   * No sentences, no chunks; there are at most ⌈n / step⌉ chunks; a step of
   * zero gives at most one; every chunk is non-empty and already stripped.
   */
  lemma ChunksShape(sentences: seq<string>, maxSentences: int, overlap: int)
    requires overlap <= maxSentences || sentences == []
    ensures sentences == [] ==> Chunks(sentences, maxSentences, overlap) == []
    ensures overlap < maxSentences ==> |Chunks(sentences, maxSentences, overlap)| <= WindowCount(|sentences|, maxSentences - overlap)
    ensures overlap == maxSentences ==> |Chunks(sentences, maxSentences, overlap)| <= 1
    ensures forall c :: c in Chunks(sentences, maxSentences, overlap) ==> c != "" && PyStrip(c) == c
  {
    var chunks := Chunks(sentences, maxSentences, overlap);
    if sentences != [] && overlap < maxSentences {
      ChunksAreNonEmptyWindows(sentences, maxSentences, overlap);
      var ws := Windows(sentences, maxSentences, overlap);
      NonEmptyFromSpec(ws, 0);
      forall c | c in chunks
        ensures c != "" && PyStrip(c) == c
      {
        var k :| 0 <= k < |ws| && ws[k] == c && c != "";
        StartInside(|sentences|, maxSentences - overlap, k);
        WindowTextStripped(sentences, k * (maxSentences - overlap), maxSentences);
      }
    } else if sentences != [] {
      WindowTextStripped(sentences, 0, maxSentences);
    }
  }

  /**
   * Two consecutive full windows share exactly `overlap` sentences: the
   * last `overlap` of the first are the first `overlap` of the second.
   */
  lemma ConsecutiveWindowsOverlap(sentences: seq<string>, maxSentences: int, overlap: int, i: nat)
    requires 0 <= overlap < maxSentences
    requires i + (maxSentences - overlap) + maxSentences <= |sentences|
    ensures var step := maxSentences - overlap;
      var first := Window(sentences, i, maxSentences);
      var second := Window(sentences, i + step, maxSentences);
      && |first| == |second| == maxSentences
      && first[step..] == second[..overlap]
  {
  }

  /** A string with no white space at either end is its own strip. */
  lemma StripOfTrimmed(t: string)
    requires t != [] && !IsPySpace(t[0]) && !IsPySpace(t[|t| - 1])
    ensures PyStrip(t) == t
  {
    assert SkipForward(t, IsPySpace, 0) == 0;
    assert SkipBackward(t, IsPySpace, |t|) == |t|;
    assert t[0..|t|] == t;
  }

  /** The example of the `chunk_text` docstring: six sentences, windows of three, overlap one. */
  lemma DocstringExample()
    ensures Chunks(["s1", "s2", "s3", "s4", "s5", "s6"], 3, 1) == ["s1 s2 s3", "s3 s4 s5", "s5 s6"]
  {
    var s := ["s1", "s2", "s3", "s4", "s5", "s6"];
    assert WindowJoin(s, 0, 3) == "s1 s2 s3";
    assert WindowJoin(s, 2, 3) == "s3 s4 s5";
    assert WindowJoin(s, 4, 3) == "s5 s6";
    StripOfTrimmed("s1 s2 s3");
    StripOfTrimmed("s3 s4 s5");
    StripOfTrimmed("s5 s6");
    var f := WindowTexts(s, 3);
    ScanStep(f, 6, 2, 0, "s1 s2 s3", [], ["s1 s2 s3"]);
    ScanStep(f, 6, 2, 2, "s3 s4 s5", ["s1 s2 s3"], ["s1 s2 s3", "s3 s4 s5"]);
    ScanStep(f, 6, 2, 4, "s5 s6", ["s1 s2 s3", "s3 s4 s5"], ["s1 s2 s3", "s3 s4 s5", "s5 s6"]);
  }

  // -------------------------------------------------------------- answering

  /** The answer given when the context holds no usable text. */
  const NoUsableText := "No usable text found in the context."

  /** The reply of `answer_question_rag`. */
  datatype RagReply = RagReply(answer: string, retrievedChunks: seq<string>)

  /** The context sent to the model: the retrieved chunks, in order, separated by blank lines. */
  function FocusedContext(topChunks: seq<string>): string {
    Join("\n\n", topChunks)
  }

  /**
   * `answer_question_rag`: chunk with the defaults (five sentences, overlap
   * one), stop early when there is no chunk, otherwise rank the chunks, join
   * the best ones and ask the generative model.  An error can only come from
   * the model call, and the retrieved chunks reported are those it was asked about.
   */
  function AnswerQuestionRag(question: string, sentences: seq<string>, topK: int,
                             retrieve: (string, seq<string>, int) -> seq<string>,
                             apiKey: Option<string>, post: string -> ChatResponse): (r: Result<RagReply, GroqError>)
    ensures Chunks(sentences, 5, 1) == [] ==> r == Success(RagReply(NoUsableText, []))
    ensures r.Failure? ==>
      && Chunks(sentences, 5, 1) != []
      && AnswerQuestionGroq(apiKey, question, FocusedContext(retrieve(question, Chunks(sentences, 5, 1), topK)), post)
         == Failure(r.error)
    ensures r.Success? && Chunks(sentences, 5, 1) != [] ==>
      && r.value.retrievedChunks == retrieve(question, Chunks(sentences, 5, 1), topK)
      && AnswerQuestionGroq(apiKey, question, FocusedContext(r.value.retrievedChunks), post) == Success(r.value.answer)
  {
    var chunks := Chunks(sentences, 5, 1);
    if chunks == [] then
      Success(RagReply(NoUsableText, []))
    else
      var topChunks := retrieve(question, chunks, topK);
      match AnswerQuestionGroq(apiKey, question, FocusedContext(topChunks), post)
      case Success(answer) => Success(RagReply(answer, topChunks))
      case Failure(e) => Failure(e)
  }

  /**
   * With no chunk the reply is the fixed message with no retrieved chunks,
   * whatever the ranking and the model would do: neither is consulted.
   */
  lemma NoChunksEarlyExit(question: string, sentences: seq<string>, topK: int,
                          retrieve1: (string, seq<string>, int) -> seq<string>, apiKey1: Option<string>, post1: string -> ChatResponse,
                          retrieve2: (string, seq<string>, int) -> seq<string>, apiKey2: Option<string>, post2: string -> ChatResponse)
    requires Chunks(sentences, 5, 1) == []
    ensures AnswerQuestionRag(question, sentences, topK, retrieve1, apiKey1, post1) == Success(RagReply(NoUsableText, []))
    ensures AnswerQuestionRag(question, sentences, topK, retrieve1, apiKey1, post1)
         == AnswerQuestionRag(question, sentences, topK, retrieve2, apiKey2, post2)
  {
  }

  /** The early exit happens exactly when every window of the default chunking strips to nothing. */
  lemma {:induction false} NoChunksOnlyForBlankWindows(sentences: seq<string>)
    ensures Chunks(sentences, 5, 1) == [] <==> forall k :: 0 <= k < |Windows(sentences, 5, 1)| ==> Windows(sentences, 5, 1)[k] == ""
  {
    ChunksAreNonEmptyWindows(sentences, 5, 1);
    NonEmptyFromEmpty(Windows(sentences, 5, 1), 0);
  }

  /**
   * Otherwise the model is asked about the retrieved chunks joined by blank
   * lines, the answer is its answer and the reply lists those chunks; two
   * models that answer that one prompt alike give the same reply.
   */
  lemma AsksAboutFocusedContext(question: string, sentences: seq<string>, topK: int,
                                retrieve: (string, seq<string>, int) -> seq<string>,
                                apiKey: Option<string>, post1: string -> ChatResponse, post2: string -> ChatResponse)
    requires Chunks(sentences, 5, 1) != []
    requires var top := retrieve(question, Chunks(sentences, 5, 1), topK);
      post1(SentPrompt(question, FocusedContext(top))) == post2(SentPrompt(question, FocusedContext(top)))
    ensures var top := retrieve(question, Chunks(sentences, 5, 1), topK);
      var r := AnswerQuestionRag(question, sentences, topK, retrieve, apiKey, post1);
      && r == AnswerQuestionRag(question, sentences, topK, retrieve, apiKey, post2)
      && (r.Success? ==>
            r.value.retrievedChunks == top
            && Success(r.value.answer) == AnswerQuestionGroq(apiKey, question, FocusedContext(top), post1))
  {
  }

  /** The focused context of several chunks is the first, a blank line, then the focused context of the rest. */
  lemma FocusedContextSplits(first: string, rest: seq<string>)
    requires rest != []
    ensures FocusedContext([first] + rest) == first + "\n\n" + FocusedContext(rest)
  {
    JoinConcat("\n\n", [first], rest);
  }
}
