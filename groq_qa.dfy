/**
 * Generative question answering over a chat-completion API (src/groq_qa.py):
 * the context is cut to a fixed number of characters, embedded with the
 * question in a fixed prompt, and the answer is read out of the reply.  The
 * HTTP call itself is the parameter `post`.
 */
module GroqQa {
  import opened Common
  import opened Text

  /** Longest context, in characters, that is sent. */
  const MaxContextChars := 20000

  /** Keeps the first `MaxContextChars` characters of a longer context. */
  function Truncate(context: string): (r: string)
    ensures r <= context
    ensures |r| == if |context| > MaxContextChars then MaxContextChars else |context|
  {
    if |context| > MaxContextChars then context[..MaxContextChars] else context
  }

  /** The prompt text before the context. */
  const PromptHeader: string :=
    "You are a precise legal assistant.\n\n"
    + "Use ONLY the information in the CONTEXT below to answer the QUESTION.\n"
    + "If the answer is not clearly stated in the context, say: "
    + "\"The answer is not clearly specified in the provided text.\"\n\n"
    + "CONTEXT:\n"

  /** The prompt text between the context and the question. */
  const PromptMiddle: string := "\n\nQUESTION:\n"

  /** The prompt text after the question. */
  const PromptFooter: string := "\n\nAnswer in 2\U{2013}4 sentences in clear, formal English.\n"

  /** `_build_prompt`: the prompt opens with the fixed header and closes with the fixed footer. */
  function BuildPrompt(question: string, context: string): (r: string)
    ensures PromptHeader <= r
    ensures |r| >= |PromptFooter| && r[|r| - |PromptFooter|..] == PromptFooter
  {
    PromptHeader + context + PromptMiddle + question + PromptFooter
  }

  /**
   * The prompt is the fixed header, the context verbatim, the fixed middle,
   * the question verbatim and the fixed footer, in that order.
   */
  lemma {:induction false} PromptLayout(question: string, context: string)
    ensures var p := BuildPrompt(question, context);
      var c := |PromptHeader| + |context|;
      var q := c + |PromptMiddle|;
      && |p| == q + |question| + |PromptFooter|
      && p[..|PromptHeader|] == PromptHeader
      && p[|PromptHeader|..c] == context
      && p[c..q] == PromptMiddle
      && p[q..q + |question|] == question
      && p[q + |question|..] == PromptFooter
  {
    var p := BuildPrompt(question, context);
    var c := |PromptHeader| + |context|;
    var q := c + |PromptMiddle|;
    assert p == (((PromptHeader + context) + PromptMiddle) + question) + PromptFooter;
    assert p[..q + |question|] == ((PromptHeader + context) + PromptMiddle) + question;
    assert p[..q] == (PromptHeader + context) + PromptMiddle;
    assert p[..c] == PromptHeader + context;
    assert p[|PromptHeader|..c] == p[..c][|PromptHeader|..];
    assert p[c..q] == p[..q][c..];
    assert p[q..q + |question|] == p[..q + |question|][q..];
  }

  /** Given the length of the context, the prompt determines both the context and the question. */
  lemma {:induction false} PromptDeterminesInputs(q1: string, c1: string, q2: string, c2: string)
    requires |c1| == |c2| && BuildPrompt(q1, c1) == BuildPrompt(q2, c2)
    ensures q1 == q2 && c1 == c2
  {
    PromptLayout(q1, c1);
    PromptLayout(q2, c2);
  }

  /** One message of the chat-completion reply, as its JSON fields. */
  datatype Message = Message(content: Field<string>)

  /** One choice of the reply. */
  datatype Choice = Choice(message: Field<Message>)

  /** The decoded reply body. */
  datatype ChatBody = ChatBody(choices: Field<seq<Choice>>)

  /** The HTTP reply: its status code and decoded body. */
  datatype ChatResponse = ChatResponse(status: int, body: ChatBody)

  /**
   * How `answer_question_groq` fails: no API key, a status other than 200, a
   * missing key or index in the reply (turned into "Unexpected Groq API
   * response format"), or a `null` met along the path, whose `TypeError` or
   * `AttributeError` escapes uncaught.
   */
  datatype GroqError = MissingApiKey | ApiStatus(status: int) | UnexpectedFormat | NullInReply

  /**
   * `data["choices"][0]["message"]["content"].strip()`, with Python's errors:
   * reading the reply never fails for a missing key or a status code, and a
   * `KeyError` or `IndexError` is reported as a format error.
   */
  function ExtractAnswer(body: ChatBody): (r: Result<string, GroqError>)
    ensures r.Failure? ==> r.error == UnexpectedFormat || r.error == NullInReply
    ensures r.Failure? && r.error == UnexpectedFormat <==>
      body.choices.Missing? || body.choices == Present([])
      || (body.choices.Present? && |body.choices.value| > 0
          && (body.choices.value[0].message.Missing?
              || (body.choices.value[0].message.Present? && body.choices.value[0].message.value.content.Missing?)))
  {
    match body.choices
    case Missing => Failure(UnexpectedFormat)
    case Null => Failure(NullInReply)
    case Present(cs) =>
      if |cs| == 0 then Failure(UnexpectedFormat)
      else
        match cs[0].message
        case Missing => Failure(UnexpectedFormat)
        case Null => Failure(NullInReply)
        case Present(m) =>
          match m.content
          case Missing => Failure(UnexpectedFormat)
          case Null => Failure(NullInReply)
          case Present(text) => Success(PyStrip(text))
  }

  /** The reply has a first choice whose message has a string content. */
  predicate HasContent(body: ChatBody) {
    && body.choices.Present? && |body.choices.value| > 0
    && body.choices.value[0].message.Present?
    && body.choices.value[0].message.value.content.Present?
  }

  /**
   * An answer is read only from a present content, and is that content
   * stripped (so without white space at either end); any absent key or
   * empty choice list is an error, never a default answer.
   */
  lemma ExtractAnswerSpec(body: ChatBody)
    ensures ExtractAnswer(body).Success? <==> HasContent(body)
    ensures HasContent(body) ==>
      var a := ExtractAnswer(body).value;
      && a == PyStrip(body.choices.value[0].message.value.content.value)
      && (a == [] || (!IsPySpace(a[0]) && !IsPySpace(a[|a| - 1])))
    ensures body.choices.Missing? || body.choices == Present([]) ==> ExtractAnswer(body) == Failure(UnexpectedFormat)
  {
    if HasContent(body) {
      StripSpec(body.choices.value[0].message.value.content.value, IsPySpace);
    }
  }

  /** The prompt actually sent: the question with the truncated context. */
  function SentPrompt(question: string, context: string): string {
    BuildPrompt(question, Truncate(context))
  }

  /**
   * `answer_question_groq`: check the key, build the prompt, post it, read the
   * answer.  An answer is only ever the stripped content of a status-200 reply
   * to the truncated prompt, sent with a non-empty key.
   */
  function AnswerQuestionGroq(apiKey: Option<string>, question: string, context: string,
                              post: string -> ChatResponse): (r: Result<string, GroqError>)
    ensures r == Failure(MissingApiKey) <==> apiKey.None? || apiKey.value == ""
    ensures r.Success? ==>
      var response := post(SentPrompt(question, context));
      && response.status == 200 && HasContent(response.body)
      && r.value == PyStrip(response.body.choices.value[0].message.value.content.value)
    ensures r.Failure? && r.error.ApiStatus? ==> r.error.status != 200
  {
    if apiKey.None? || apiKey.value == "" then
      Failure(MissingApiKey)
    else
      var response := post(SentPrompt(question, context));
      if response.status != 200 then Failure(ApiStatus(response.status))
      else ExtractAnswer(response.body)
  }

  /** Without a key nothing is posted: the result is the same failure whatever the API would answer. */
  lemma MissingKeyFailsFirst(apiKey: Option<string>, question: string, context: string,
                             post1: string -> ChatResponse, post2: string -> ChatResponse)
    requires apiKey.None? || apiKey == Some("")
    ensures AnswerQuestionGroq(apiKey, question, context, post1) == Failure(MissingApiKey)
    ensures AnswerQuestionGroq(apiKey, question, context, post2) == Failure(MissingApiKey)
  {
  }

  /**
   * The sent prompt holds the truncated context verbatim, so at most
   * `MaxContextChars` characters of it, a prefix of the original; shorter
   * contexts are sent whole.
   */
  lemma {:induction false} SentPromptBounded(question: string, context: string)
    ensures var p := SentPrompt(question, context);
      var t := Truncate(context);
      && t <= context && |t| <= MaxContextChars
      && (|context| <= MaxContextChars ==> t == context)
      && |p| <= |PromptHeader| + MaxContextChars + |PromptMiddle| + |question| + |PromptFooter|
      && p[|PromptHeader|..|PromptHeader| + |t|] == t
  {
    PromptLayout(question, Truncate(context));
  }

  /** Two contexts that agree on their first `MaxContextChars` characters get the same answer. */
  lemma OnlyLeadingContextMatters(apiKey: Option<string>, question: string, c1: string, c2: string,
                                  post: string -> ChatResponse)
    requires |c1| >= MaxContextChars && |c2| >= MaxContextChars
    requires c1[..MaxContextChars] == c2[..MaxContextChars]
    ensures AnswerQuestionGroq(apiKey, question, c1, post) == AnswerQuestionGroq(apiKey, question, c2, post)
  {
    assert Truncate(c1) == Truncate(c2);
  }
}
