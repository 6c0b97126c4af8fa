/** ai-service's model calls: the continuation loop around paused turns, and what a failure means
    for a retry. */
module Generation {
  import opened Wrappers
  import opened HttpClient
  import opened Text

  datatype Generated = Generated(text: string, inputTokens: nat, outputTokens: nat)

  /** What can be thrown while a task is being processed. */
  datatype Failure =
    | AppError(message: string)
    | Delivery(error: HttpError)
    | ProviderRateLimit
    | ProviderAuthentication
    | ProviderConnection
    | ProviderStatus(status: Option<nat>)
    | Unexpected

  datatype Description = Description(message: string, retryable: bool)

  /** What the user is told, and whether retrying could plausibly help. */
  function DescribeFailure(f: Failure): Description {
    match f
    case AppError(message) => Description(message, false)
    case Delivery(error) => Description("Generated, but could not be saved. Please try again.", error.Retryable())
    case ProviderRateLimit => Description("The AI service is busy right now. Please try again shortly.", true)
    case ProviderAuthentication => Description("The AI service is not configured correctly.", false)
    case ProviderConnection => Description("Could not reach the AI service. Please try again.", true)
    case ProviderStatus(status) =>
      Description("The AI service returned an error. Please try again.", status.None? || status.value >= 500)
    case Unexpected => Description("Generation failed unexpectedly. Please try again.", true)
  }

  // ---- The continuation loop ----

  const MAX_CONTINUATIONS: nat := 5

  datatype Block = TextBlock(text: string) | OtherBlock(id: nat)

  datatype Stop = Refusal | PauseTurn | MaxTokens | OtherStop

  datatype Message = Message(stop: Stop, content: seq<Block>, inputTokens: nat, outputTokens: nat)

  /** How one call to the model ends. */
  datatype Call = Replied(message: Message) | Threw(failure: Failure)

  datatype Turn = User(prompt: string) | Assistant(content: seq<Block>)

  const DECLINED := "The model declined this request. Try rephrasing the job description."
  const EMPTY := "The model returned an empty response."
  const TOO_MANY_STEPS := "Research took too many steps to complete. Please try again."

  predicate Paused(c: Call) { c.Replied? && c.message.stop == PauseTurn }

  function Content(c: Call): seq<Block> { if c.Replied? then c.message.content else [] }

  /** The conversation that call `k` sends: the prompt, then every turn so far echoed in order. */
  function Conversation(prompt: string, script: seq<Call>, k: nat): seq<Turn>
    requires k <= |script|
  {
    if k == 0 then [User(prompt)] else Conversation(prompt, script, k - 1) + [Assistant(Content(script[k - 1]))]
  }

  function InputTokens(script: seq<Call>, n: nat): nat
    requires n <= |script|
  {
    if n == 0 then 0
    else InputTokens(script, n - 1) + (if script[n - 1].Replied? then script[n - 1].message.inputTokens else 0)
  }

  function OutputTokens(script: seq<Call>, n: nat): nat
    requires n <= |script|
  {
    if n == 0 then 0
    else OutputTokens(script, n - 1) + (if script[n - 1].Replied? then script[n - 1].message.outputTokens else 0)
  }

  function Texts(content: seq<Block>): seq<string> {
    if content == [] then []
    else (if content[0].TextBlock? then [content[0].text] else []) + Texts(content[1..])
  }

  function Answer(m: Message): string { Trim(Join(Texts(m.content), "\n")) }

  // ---- The answer, told block by block ----

  /** Every text block on lines of its own, in order; other blocks are not shown. */
  ghost function Printed(content: seq<Block>): string {
    if content == [] then ""
    else
      var last := content[|content| - 1];
      Printed(content[..|content| - 1]) + if last.TextBlock? then last.text + "\n" else ""
  }

  lemma {:induction false} PrintedFromTheFront(first: Block, rest: seq<Block>)
    ensures Printed([first] + rest) == Printed([first]) + Printed(rest)
  {
    if rest == [] {
      assert [first] + rest == [first];
    } else {
      var n := |rest| - 1;
      assert ([first] + rest)[..n + 1] == [first] + rest[..n];
      PrintedFromTheFront(first, rest[..n]);
    }
  }

  lemma {:induction false} JoinedIsPrinted(content: seq<Block>)
    ensures if Texts(content) == [] then Printed(content) == ""
            else Printed(content) == Join(Texts(content), "\n") + "\n"
  {
    if content != [] {
      JoinedIsPrinted(content[1..]);
      PrintedFromTheFront(content[0], content[1..]);
      assert content == [content[0]] + content[1..];
      assert [content[0]][..0] == [];
      var rest := Texts(content[1..]);
      if content[0].TextBlock? {
        assert ([content[0].text] + rest)[1..] == rest;
      } else {
        assert Texts(content) == rest;
      }
    }
  }

  /** The answer is what the text blocks print, without blank ends. */
  lemma AnswerIsPrinted(m: Message)
    ensures IsTrimmed(Printed(m.content), Answer(m))
  {
    hide Trim, Join, Texts, Printed, IsTrimmed, Blank;
    JoinedIsPrinted(m.content);
    var joined := Join(Texts(m.content), "\n");
    TrimExactly(Printed(m.content), Answer(m));
    if Texts(m.content) == [] {
      NothingJoined();
    } else {
      OneBlankLine();
      TrimIgnoresBlankEnds("", joined, "\n");
      assert "" + joined + "\n" == Printed(m.content);
    }
  }

  lemma NothingJoined()
    ensures Join([], "\n") == ""
  {}

  lemma OneBlankLine()
    ensures Blank("") && Blank("\n")
  {}

  /** At most six calls; all but the last were paused turns; a result is the text of the first
      turn that was not paused, charged with the tokens of every call made. */
  method Generate(prompt: string, script: seq<Call>) returns (r: Result<Generated, Failure>, sent: seq<seq<Turn>>)
    requires |script| >= 6
    ensures 1 <= |sent| <= 6
    ensures forall k :: 0 <= k < |sent| ==> sent[k] == Conversation(prompt, script, k)
    ensures forall k :: 0 <= k < |sent| - 1 ==> Paused(script[k])
    ensures Paused(script[|sent| - 1]) ==>
      |sent| == 6 && r == Err(AppError("Research took too many steps to complete. Please try again."))
    ensures script[|sent| - 1].Threw? ==> r == Err(script[|sent| - 1].failure)
    ensures script[|sent| - 1].Replied? && script[|sent| - 1].message.stop == Refusal ==>
      r == Err(AppError("The model declined this request. Try rephrasing the job description."))
    ensures script[|sent| - 1].Replied? && script[|sent| - 1].message.stop in {MaxTokens, OtherStop} ==>
      if r.Err? then
        r.error == AppError("The model returned an empty response.") &&
        IsTrimmed(Printed(script[|sent| - 1].message.content), "")
      else
        IsTrimmed(Printed(script[|sent| - 1].message.content), r.value.text) &&
        r.value.inputTokens == InputTokens(script, |sent|) && r.value.outputTokens == OutputTokens(script, |sent|)
    ensures r.Ok? ==> r.value.text != ""
  {
    hide Trim, Join, Texts, IsTrimmed, Printed;
    var messages := [User(prompt)];
    var inputTokens, outputTokens := 0, 0;
    sent := [];
    for attempt := 0 to MAX_CONTINUATIONS + 1
      invariant |sent| == attempt && messages == Conversation(prompt, script, attempt)
      invariant inputTokens == InputTokens(script, attempt) && outputTokens == OutputTokens(script, attempt)
      invariant forall k :: 0 <= k < attempt ==> sent[k] == Conversation(prompt, script, k) && Paused(script[k])
    {
      sent := sent + [messages];
      if script[attempt].Threw? { return Err(script[attempt].failure), sent; }
      var message := script[attempt].message;
      inputTokens := inputTokens + message.inputTokens;
      outputTokens := outputTokens + message.outputTokens;
      if message.stop == Refusal { return Err(AppError(DECLINED)), sent; }
      if message.stop == PauseTurn {
        messages := messages + [Assistant(message.content)];
        continue;
      }
      var text := Trim(Join(Texts(message.content), "\n"));
      AnswerIsPrinted(message);
      if |text| == 0 { return Err(AppError(EMPTY)), sent; }
      return Ok(Generated(text, inputTokens, outputTokens)), sent;
    }
    r := Err(AppError(TOO_MANY_STEPS));
  }
}
