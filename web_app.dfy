/** The request-handling core of web_app.py: folding recent history into
    the prompt, the gate a chat request passes before generation, the
    filters that turn a backend's stream into text fragments, and the two
    chat handlers built from them. */
module WebApp {
  import opened Base
  import opened Strings
  import Evaluator
  import Prompts
  import Engine

  // ---------------------------------------------------------------------
  // Context builder (build_context_prompt)

  /** One history entry, with `role` and `content` already read as strings
      (a missing key reads as ""). */
  datatype Turn = Turn(role: string, content: string)

  const ContextHeader := "Use the recent conversation for context.\n"

  /** `history[-6:]`. */
  function LastSix(history: seq<Turn>): (w: seq<Turn>)
    ensures |w| == if |history| <= 6 then |history| else 6
    ensures w == history[|history| - |w|..]
  {
    if |history| <= 6 then history else history[|history| - 6..]
  }

  /** The transcript line an entry contributes: none when its trimmed
      content is empty or its role is neither user nor assistant. */
  function LineOf(t: Turn): (line: seq<string>)
    ensures |line| <= 1
  {
    var role := Lower(Trim(t.role));
    var text := Trim(t.content);
    if text == [] then []
    else if role == "user" then ["User: " + text]
    else if role == "assistant" then ["Assistant: " + text]
    else []
  }

  /** The lines a sequence of entries contributes, entry by entry, in order. */
  function Transcript(turns: seq<Turn>, lineOf: Turn -> seq<string>): seq<string> {
    if turns == [] then []
    else Transcript(turns[..|turns| - 1], lineOf) + lineOf(turns[|turns| - 1])
  }

  /** The transcript lines of `turns`. */
  function ContextLines(turns: seq<Turn>): seq<string> {
    Transcript(turns, LineOf)
  }

  /** `build_context_prompt(user_input, history)` as a value. */
  function ContextPrompt(userInput: string, history: seq<Turn>): string {
    if history == [] then userInput
    else
      var lines := ContextLines(LastSix(history));
      if lines == [] then userInput
      else ContextHeader + Join(lines, "\n") + "\n" + "User: " + userInput
  }

  /** `build_context_prompt`: a loop over the last six entries that appends
      one line per surviving entry, then the header and the new input. */
  method BuildContextPrompt(userInput: string, history: seq<Turn>) returns (prompt: string)
    ensures prompt == ContextPrompt(userInput, history)
  {
    if history == [] {
      return userInput;
    }
    var window := LastSix(history);
    var lines: seq<string> := [];
    var i := 0;
    while i < |window|
      invariant 0 <= i <= |window|
      invariant lines == ContextLines(window[..i])
    {
      assert window[..i + 1][..i] == window[..i];
      var role := Lower(Trim(window[i].role));
      var text := Trim(window[i].content);
      if text != [] {
        if role == "user" {
          lines := lines + ["User: " + text];
        } else if role == "assistant" {
          lines := lines + ["Assistant: " + text];
        }
      }
      i := i + 1;
    }
    assert window[..i] == window;
    if lines == [] {
      return userInput;
    }
    var transcript := Join(lines, "\n");
    prompt := ContextHeader + transcript + "\n" + "User: " + userInput;
  }

  // Properties of the context builder

  lemma {:induction false} TranscriptAppend(a: seq<Turn>, b: seq<Turn>, lineOf: Turn -> seq<string>)
    ensures Transcript(a + b, lineOf) == Transcript(a, lineOf) + Transcript(b, lineOf)
    decreases |b|
  {
    if b == [] {
      assert a + b == a;
    } else {
      var b' := b[..|b| - 1];
      assert (a + b)[..|a + b| - 1] == a + b';
      assert (a + b)[|a + b| - 1] == b[|b| - 1];
      TranscriptAppend(a, b', lineOf);
    }
  }

  lemma {:induction false} TranscriptBound(turns: seq<Turn>, lineOf: Turn -> seq<string>)
    requires forall t :: |lineOf(t)| <= 1
    ensures |Transcript(turns, lineOf)| <= |turns|
  {
    if turns != [] {
      TranscriptBound(turns[..|turns| - 1], lineOf);
    }
  }

  /** Each line of a transcript is a line of one of its entries. */
  lemma {:induction false} TranscriptSources(turns: seq<Turn>, lineOf: Turn -> seq<string>)
    ensures forall i :: 0 <= i < |Transcript(turns, lineOf)| ==>
      exists j :: 0 <= j < |turns| && Transcript(turns, lineOf)[i] in lineOf(turns[j])
  {
    if turns != [] {
      var init := turns[..|turns| - 1];
      TranscriptSources(init, lineOf);
      var t := Transcript(turns, lineOf);
      var n := |Transcript(init, lineOf)|;
      assert t == Transcript(init, lineOf) + lineOf(turns[|turns| - 1]);
      forall i | 0 <= i < |Transcript(turns, lineOf)|
        ensures exists j :: 0 <= j < |turns| && Transcript(turns, lineOf)[i] in lineOf(turns[j])
      {
        if i < n {
          var j :| 0 <= j < |init| && Transcript(init, lineOf)[i] in lineOf(init[j]);
          assert t[i] == Transcript(init, lineOf)[i];
          assert turns[j] == init[j];
        } else {
          assert t[i] in lineOf(turns[|turns| - 1]);
        }
      }
    } else {
      assert Transcript(turns, lineOf) == [];
    }
  }

  /** The transcript of two stretches of history is the two transcripts
      one after the other: entries keep their order. */
  lemma ContextLinesAppend(a: seq<Turn>, b: seq<Turn>)
    ensures ContextLines(a + b) == ContextLines(a) + ContextLines(b)
  {
    TranscriptAppend(a, b, LineOf);
  }

  /** An entry with blank content or an unknown role leaves no trace. */
  lemma DroppedEntryIgnored(a: seq<Turn>, t: Turn, b: seq<Turn>)
    requires Trim(t.content) == [] || (Lower(Trim(t.role)) != "user" && Lower(Trim(t.role)) != "assistant")
    ensures ContextLines(a + [t] + b) == ContextLines(a + b)
  {
    assert LineOf(t) == [];
    ContextLinesAppend(a + [t], b);
    ContextLinesAppend(a, [t]);
    ContextLinesAppend(a, b);
    assert [t][..0] == [];
  }

  /** An entry survives when its trimmed content is non-empty and its
      role, trimmed and lower-cased, is "user" or "assistant". */
  predicate Kept(t: Turn) {
    Trim(t.content) != [] && (Lower(Trim(t.role)) == "user" || Lower(Trim(t.role)) == "assistant")
  }

  /** `line` is the line `t` contributes: "User: " for the user role and
      "Assistant: " for the assistant role, followed by its non-empty
      trimmed content. */
  predicate LabelledLine(line: string, t: Turn) {
    Trim(t.content) != []
    && ((Lower(Trim(t.role)) == "user" && line == "User: " + Trim(t.content))
        || (Lower(Trim(t.role)) == "assistant" && line == "Assistant: " + Trim(t.content)))
  }

  /** An entry contributes a line exactly when it survives, and that line
      carries the label of its own role. */
  lemma LineOfShape(t: Turn)
    ensures LineOf(t) != [] <==> Kept(t)
    ensures Trim(t.content) != [] && Lower(Trim(t.role)) == "user" ==> LineOf(t) == ["User: " + Trim(t.content)]
    ensures Trim(t.content) != [] && Lower(Trim(t.role)) == "assistant" ==>
      LineOf(t) == ["Assistant: " + Trim(t.content)]
    ensures Kept(t) ==> |LineOf(t)| == 1 && LabelledLine(LineOf(t)[0], t)
  {
  }

  /** When every entry contributes one line, the transcript is those lines
      in entry order. */
  lemma {:induction false} TranscriptOfKept(turns: seq<Turn>, lineOf: Turn -> seq<string>)
    requires forall i :: 0 <= i < |turns| ==> |lineOf(turns[i])| == 1
    ensures |Transcript(turns, lineOf)| == |turns|
    ensures forall i :: 0 <= i < |turns| ==> Transcript(turns, lineOf)[i] == lineOf(turns[i])[0]
  {
    if turns != [] {
      var init := turns[..|turns| - 1];
      assert forall i :: 0 <= i < |init| ==> init[i] == turns[i];
      TranscriptOfKept(init, lineOf);
    } else {
      assert Transcript(turns, lineOf) == [];
    }
  }

  /** When every entry survives, the transcript has one line per entry,
      line `i` labelled by the role of entry `i`. */
  lemma KeptLinesInOrder(turns: seq<Turn>)
    requires forall i :: 0 <= i < |turns| ==> Kept(turns[i])
    ensures |ContextLines(turns)| == |turns|
    ensures forall i :: 0 <= i < |turns| ==> LabelledLine(ContextLines(turns)[i], turns[i])
  {
    forall i | 0 <= i < |turns|
      ensures |LineOf(turns[i])| == 1 && LabelledLine(LineOf(turns[i])[0], turns[i])
    {
      LineOfShape(turns[i]);
    }
    TranscriptOfKept(turns, LineOf);
  }

  /** A history whose entries all survive: the prompt holds the header, the
      lines of exactly the last six entries (all of them when there are
      fewer), each labelled by its role and in order, then the new input. */
  lemma KeptHistoryPrompt(userInput: string, history: seq<Turn>)
    requires history != []
    requires forall i :: 0 <= i < |history| ==> Kept(history[i])
    ensures var w := LastSix(history);
      var lines := ContextLines(w);
      |lines| == |w|
      && (forall i :: 0 <= i < |w| ==> LabelledLine(lines[i], history[|history| - |w| + i]))
      && ContextPrompt(userInput, history) == ContextHeader + Join(lines, "\n") + "\n" + "User: " + userInput
  {
    var w := LastSix(history);
    assert forall i :: 0 <= i < |w| ==> w[i] == history[|history| - |w| + i];
    KeptLinesInOrder(w);
  }

  /** Every transcript line is "User: " or "Assistant: " followed by the
      non-empty trimmed content of one of the entries. */
  lemma LinesAreLabelled(turns: seq<Turn>)
    ensures forall line :: line in ContextLines(turns) ==> exists t :: t in turns && LabelledLine(line, t)
  {
    var lines := ContextLines(turns);
    TranscriptSources(turns, LineOf);
    forall line | line in lines
      ensures exists t :: t in turns && LabelledLine(line, t)
    {
      var i :| 0 <= i < |lines| && lines[i] == line;
      var j :| 0 <= j < |turns| && lines[i] in LineOf(turns[j]);
      LineOfShape(turns[j]);
      assert LabelledLine(line, turns[j]);
    }
  }

  /** History beyond the last six entries does not affect the prompt, and
      at most six transcript lines are ever included. */
  lemma OnlyLastSixCount(userInput: string, history: seq<Turn>)
    requires |history| > 6
    ensures ContextPrompt(userInput, history) == ContextPrompt(userInput, history[|history| - 6..])
    ensures |ContextLines(LastSix(history))| <= 6
  {
    var tail := history[|history| - 6..];
    assert LastSix(tail) == tail;
    TranscriptBound(LastSix(history), LineOf);
  }

  /** Without history, or when no entry survives, the prompt is the input
      itself; otherwise it ends with the new input on a "User: " line after
      the header and the transcript. */
  lemma ContextPromptShape(userInput: string, history: seq<Turn>)
    ensures ContextLines(LastSix(history)) == [] ==> ContextPrompt(userInput, history) == userInput
    ensures ContextLines(LastSix(history)) != [] ==>
      var p := ContextPrompt(userInput, history);
      var tail := "\nUser: " + userInput;
      |p| >= |ContextHeader| + |tail|
      && p[..|ContextHeader|] == ContextHeader
      && p[|p| - |tail|..] == tail
  {
    if ContextLines(LastSix(history)) != [] {
      assert history != [];
      var p := ContextPrompt(userInput, history);
      var transcript := Join(ContextLines(LastSix(history)), "\n");
      assert p == ContextHeader + (transcript + "\nUser: " + userInput);
      assert p == (ContextHeader + transcript) + ("\nUser: " + userInput);
    }
  }

  // ---------------------------------------------------------------------
  // Stream fragment filters (iter_ollama_chunks, iter_openai_chunks)

  /** What a stream item does to the fragment sequence: nothing, yields a
      non-empty text, or raises. */
  datatype Step = Skip | Emit(text: string) | Stop(failure: Failure)

  /** The outcome of draining a stream: the fragments yielded and the
      failure that ended it early, if one did. */
  datatype StreamRun = StreamRun(fragments: seq<string>, failure: Option<Failure>)

  /** The fragments a sequence of steps yields, up to the first raise. */
  function Emitted(steps: seq<Step>): StreamRun {
    if steps == [] then StreamRun([], None)
    else match steps[0]
      case Stop(e) => StreamRun([], Some(e))
      case Skip => Emitted(steps[1..])
      case Emit(text) => After([text], Emitted(steps[1..]))
  }

  /** One line of the local server's stream, as read by the handler. */
  datatype LocalLine =
    | Blank                        // an empty line
    | Malformed                    // a line json.loads rejects
    | NonObject(typeName: string)  // a payload, or its "message", that is not an object
    | Record(content: Engine.Content) // an object; its message.content
    | LocalBroken(failure: Failure)    // the transport failed while reading

  /** What `iter_ollama_chunks` does with one line. */
  function LocalStep(line: LocalLine): (s: Step)
    ensures s.Emit? ==> s.text != []
  {
    match line
    case Blank => Skip
    case Malformed => Skip
    case NonObject(typeName) => Stop(Failure(AttributeErr, "'" + typeName + "' object has no attribute 'get'"))
    case Record(Text(text)) => if text != [] then Emit(text) else Skip
    case Record(_) => Skip
    case LocalBroken(e) => Stop(e)
  }

  /** One choice's incremental delta: absent, or present with optional content. */
  datatype Delta = Delta(content: Option<string>)
  datatype Choice = Choice(delta: Option<Delta>)

  /** One event of the cloud SDK's stream, or a failure while reading it. */
  datatype CloudItem = Event(choices: seq<Choice>) | CloudBroken(failure: Failure)

  /** What `iter_openai_chunks` does with one event. */
  function CloudStep(item: CloudItem): (s: Step)
    ensures s.Emit? ==> s.text != []
  {
    match item
    case CloudBroken(e) => Stop(e)
    case Event(choices) =>
      if choices == [] then Skip
      else match choices[0].delta
        case Some(Delta(Some(text))) => if text != [] then Emit(text) else Skip
        case _ => Skip
  }

  /** The step of each line; the ensures only unfolds the comprehension. */
  function LocalSteps(lines: seq<LocalLine>): (steps: seq<Step>)
    ensures |steps| == |lines|
    ensures forall i :: 0 <= i < |lines| ==> steps[i] == LocalStep(lines[i])
  {
    seq(|lines|, i requires 0 <= i < |lines| => LocalStep(lines[i]))
  }

  /** The step of each event; the ensures only unfolds the comprehension. */
  function CloudSteps(items: seq<CloudItem>): (steps: seq<Step>)
    ensures |steps| == |items|
    ensures forall i :: 0 <= i < |items| ==> steps[i] == CloudStep(items[i])
  {
    seq(|items|, i requires 0 <= i < |items| => CloudStep(items[i]))
  }

  /** A run whose first fragments were `done`. */
  function After(done: seq<string>, rest: StreamRun): StreamRun {
    StreamRun(done + rest.fragments, rest.failure)
  }

  /** The loop of `iter_ollama_chunks`: skip blank and unparseable lines,
      yield each non-empty content, stop at the first raise. */
  method IterOllamaChunks(lines: seq<LocalLine>) returns (fragments: seq<string>, failure: Option<Failure>)
    ensures StreamRun(fragments, failure) == Emitted(LocalSteps(lines))
  {
    fragments, failure := [], None;
    var i := 0;
    while i < |lines|
      invariant 0 <= i <= |lines|
      invariant Emitted(LocalSteps(lines)) == After(fragments, Emitted(LocalSteps(lines)[i..]))
    {
      assert LocalSteps(lines)[i..][1..] == LocalSteps(lines)[i + 1..];
      match lines[i] {
        case Blank =>
        case Malformed =>
        case NonObject(typeName) =>
          failure := Some(Failure(AttributeErr, "'" + typeName + "' object has no attribute 'get'"));
          return;
        case Record(content) =>
          if content.Text? && content.text != [] {
            fragments := fragments + [content.text];
          }
        case LocalBroken(e) =>
          failure := Some(e);
          return;
      }
      i := i + 1;
    }
  }

  /** The loop of `iter_openai_chunks`: skip events without choices, yield
      each non-empty delta content, stop at the first raise. */
  method IterOpenaiChunks(items: seq<CloudItem>) returns (fragments: seq<string>, failure: Option<Failure>)
    ensures StreamRun(fragments, failure) == Emitted(CloudSteps(items))
  {
    fragments, failure := [], None;
    var i := 0;
    while i < |items|
      invariant 0 <= i <= |items|
      invariant Emitted(CloudSteps(items)) == After(fragments, Emitted(CloudSteps(items)[i..]))
    {
      assert CloudSteps(items)[i..][1..] == CloudSteps(items)[i + 1..];
      match items[i] {
        case CloudBroken(e) =>
          failure := Some(e);
          return;
        case Event(choices) =>
          if choices != [] {
            var delta := choices[0].delta;
            if delta.Some? && delta.value.content.Some? && delta.value.content.value != [] {
              fragments := fragments + [delta.value.content.value];
            }
          }
      }
      i := i + 1;
    }
  }

  // Properties of the fragment filters

  /** Draining two stretches of a stream is draining the first and, unless
      it raised, carrying on with the second: nothing after a raise is read. */
  lemma {:induction false} EmittedAppend(a: seq<Step>, b: seq<Step>)
    ensures Emitted(a + b) == if Emitted(a).failure.Some? then Emitted(a) else After(Emitted(a).fragments, Emitted(b))
    decreases |a|
  {
    if a != [] {
      var a' := a[1..];
      assert (a + b)[0] == a[0];
      assert (a + b)[1..] == a' + b;
      EmittedAppend(a', b);
    } else {
      assert a + b == b;
    }
  }

  /** An item that yields nothing can be removed without changing the run. */
  lemma SkipIsInvisible(a: seq<Step>, b: seq<Step>)
    ensures Emitted(a + [Skip] + b) == Emitted(a + b)
  {
    EmittedAppend(a + [Skip], b);
    EmittedAppend(a, [Skip]);
    EmittedAppend(a, b);
    assert [Skip][1..] == [];
  }

  /** Every fragment is the text of an emitting step. */
  lemma {:induction false} FragmentsFromSteps(steps: seq<Step>)
    ensures forall i :: 0 <= i < |Emitted(steps).fragments| ==>
      exists j :: 0 <= j < |steps| && steps[j] == Emit(Emitted(steps).fragments[i])
  {
    if steps != [] && steps[0].Skip? {
      var rest := Emitted(steps[1..]);
      FragmentsFromSteps(steps[1..]);
      forall i | 0 <= i < |rest.fragments|
        ensures exists j :: 0 <= j < |steps| && steps[j] == Emit(rest.fragments[i])
      {
        var j :| 0 <= j < |steps[1..]| && steps[1..][j] == Emit(rest.fragments[i]);
        assert steps[j + 1] == Emit(rest.fragments[i]);
      }
    } else if steps != [] && steps[0].Emit? {
      var rest := Emitted(steps[1..]);
      FragmentsFromSteps(steps[1..]);
      var run := Emitted(steps);
      assert run.fragments == [steps[0].text] + rest.fragments;
      forall i | 0 <= i < |run.fragments|
        ensures exists j :: 0 <= j < |steps| && steps[j] == Emit(run.fragments[i])
      {
        if i == 0 {
          assert steps[0] == Emit(run.fragments[0]);
        } else {
          var j :| 0 <= j < |steps[1..]| && steps[1..][j] == Emit(rest.fragments[i - 1]);
          assert steps[j + 1] == Emit(run.fragments[i]);
        }
      }
    } else {
      assert Emitted(steps).fragments == [];
    }
  }

  /** No fragment a filter yields is empty. */
  lemma FragmentsNonEmpty(steps: seq<Step>)
    requires forall i :: 0 <= i < |steps| ==> (steps[i].Emit? ==> steps[i].text != [])
    ensures forall i :: 0 <= i < |Emitted(steps).fragments| ==> Emitted(steps).fragments[i] != []
  {
    FragmentsFromSteps(steps);
    var run := Emitted(steps);
    forall i | 0 <= i < |run.fragments|
      ensures run.fragments[i] != []
    {
      var j :| 0 <= j < |steps| && steps[j] == Emit(run.fragments[i]);
    }
  }

  /** The strings one after the other. */
  function Concat(parts: seq<string>): string {
    if parts == [] then [] else parts[0] + Concat(parts[1..])
  }

  /** Everything the local server sent as message content, empty contents
      included, up to the first line that raises. */
  function LocalText(lines: seq<LocalLine>): string {
    if lines == [] then []
    else match lines[0]
      case Record(Text(text)) => text + LocalText(lines[1..])
      case NonObject(_) => []
      case LocalBroken(_) => []
      case _ => LocalText(lines[1..])
  }

  /** Skipping empty contents loses no text: the fragments joined are all
      the content the local server sent before any raise. */
  lemma {:induction false} LocalFragmentsKeepText(lines: seq<LocalLine>)
    ensures Concat(Emitted(LocalSteps(lines)).fragments) == LocalText(lines)
  {
    if lines != [] {
      assert LocalSteps(lines)[1..] == LocalSteps(lines[1..]);
      LocalFragmentsKeepText(lines[1..]);
      match lines[0]
      case Record(Text(text)) =>
        if text == [] {
          assert text + LocalText(lines[1..]) == LocalText(lines[1..]);
        }
      case _ =>
    }
  }

  /** The content of an event's first choice, "" when it has none. */
  function FirstDeltaText(choices: seq<Choice>): string {
    if choices == [] then []
    else match choices[0].delta
      case Some(Delta(Some(text))) => text
      case _ => []
  }

  /** Everything the cloud stream sent as first-choice delta content, empty
      contents included, up to the first failure while reading. */
  function CloudText(items: seq<CloudItem>): string {
    if items == [] then []
    else match items[0]
      case CloudBroken(_) => []
      case Event(choices) => FirstDeltaText(choices) + CloudText(items[1..])
  }

  /** Skipping events without content loses no text: the fragments joined
      are all the first-choice delta content sent before any failure. */
  lemma {:induction false} CloudFragmentsKeepText(items: seq<CloudItem>)
    ensures Concat(Emitted(CloudSteps(items)).fragments) == CloudText(items)
  {
    if items != [] {
      assert CloudSteps(items)[1..] == CloudSteps(items[1..]);
      CloudFragmentsKeepText(items[1..]);
      match items[0]
      case Event(choices) =>
        if FirstDeltaText(choices) == [] {
          assert FirstDeltaText(choices) + CloudText(items[1..]) == CloudText(items[1..]);
        }
      case _ =>
    }
  }

  /** Only the first choice of an event is read: further choices never
      change what is yielded. */
  lemma OnlyFirstChoiceRead(first: Choice, rest: seq<Choice>, others: seq<Choice>)
    ensures CloudStep(Event([first] + rest)) == CloudStep(Event([first] + others))
  {
  }

  // ---------------------------------------------------------------------
  // The request gate of /api/chat and /api/chat-stream

  /** The `history` field: a JSON list of entries (a missing field reads as
      the empty list), or some other JSON value. */
  datatype HistoryField = Turns(items: seq<Turn>) | NotAList

  /** A request body, each field already read as a string; an absent or
      unparseable body reads as one with every field absent. */
  datatype ChatPayload = ChatPayload(prompt: Option<string>, mode: Option<string>, history: HistoryField)

  /** The gate's verdict: an error reply, a failure that escapes the
      handler, or the trimmed prompt and the normalised mode to serve. */
  datatype GateDecision =
    | Refuse(status: nat, error: string)
    | Crash(failure: Failure)
    | Admit(userInput: string, mode: string)

  const PromptRequired := "Prompt is required."

  function PromptOf(p: ChatPayload): string {
    match p.prompt
    case Some(s) => s
    case None => ""
  }

  function RawModeOf(p: ChatPayload): string {
    match p.mode
    case Some(s) => s
    case None => "auto"
  }

  /** The checks both handlers make, in their order: a prompt, a valid
      mode, then a ready backend. */
  function Gate(config: Engine.Config, probe: Engine.Probe, p: ChatPayload): (d: GateDecision)
    ensures d.Admit? <==>
      Trim(PromptOf(p)) != [] && Engine.IsSelectable(Engine.NormaliseMode(RawModeOf(p)))
      && Engine.StartupCheck(config, probe) == Ok(Engine.Readiness(true, ""))
    ensures d.Admit? ==> d.userInput == Trim(PromptOf(p)) && d.mode == Engine.NormaliseMode(RawModeOf(p))
    ensures d.Refuse? ==> d.status == 400 || d.status == 503
  {
    var userInput := Trim(PromptOf(p));
    if userInput == [] then Refuse(400, PromptRequired)
    else match Engine.SelectMode(RawModeOf(p))
      case Rejected(message) => Refuse(400, message)
      case Selected(mode) =>
        match Engine.StartupCheck(config, probe)
        case Err(e) => Crash(e)
        case Ok(Readiness(ok, message)) =>
          if !ok then Refuse(503, "Startup check failed: " + message) else Admit(userInput, mode)
  }

  /** `build_context_prompt(user_input, history) if isinstance(history, list)
      else user_input`. */
  function ContextFor(userInput: string, history: HistoryField): string {
    match history
    case Turns(items) => ContextPrompt(userInput, items)
    case NotAList => userInput
  }

  // ---------------------------------------------------------------------
  // /api/chat

  /** The reply of /api/chat: 200 with the mode used and the text, a JSON
      error with its status, or a failure Flask turns into its own 500. */
  datatype ChatReply =
    | Answer(modeUsed: string, response: string)
    | ErrorReply(status: nat, error: string)
    | Unhandled(failure: Failure)

  /** `chat()` as a value; `outcome` is what each backend attempt gives. */
  function ChatReplyFor(config: Engine.Config, probe: Engine.Probe, p: ChatPayload,
                        outcome: nat -> Engine.Attempt): ChatReply {
    match Gate(config, probe, p)
    case Refuse(status, error) => ErrorReply(status, error)
    case Crash(e) => Unhandled(e)
    case Admit(userInput, mode) => AdmittedReply(config, userInput, mode, p.history, outcome)
  }

  /** The reply to an admitted request: the generation's mode and text, or
      its failure's message with status 500. */
  function AdmittedReply(config: Engine.Config, userInput: string, mode: string, history: HistoryField,
                    outcome: nat -> Engine.Attempt): ChatReply {
    var g := Engine.Dispatch(config, ContextFor(userInput, history), mode, outcome);
    match g.result
    case Ok((modeUsed, text)) => Answer(modeUsed, text)
    case Err(e) => ErrorReply(500, e.message)
  }

  /** `chat()`: the gate, then the reply to what it admits. */
  method Chat(config: Engine.Config, probe: Engine.Probe, p: ChatPayload, outcome: nat -> Engine.Attempt)
    returns (reply: ChatReply)
    ensures reply == ChatReplyFor(config, probe, p, outcome)
  {
    var decision := Gate(config, probe, p);
    match decision {
      case Refuse(status, error) =>
        return ErrorReply(status, error);
      case Crash(e) =>
        return Unhandled(e);
      case Admit(userInput, mode) =>
        reply := Respond(config, userInput, mode, p.history, outcome);
    }
  }

  /** The `try` block of `chat()`: the context prompt, then one generation
      whose failure becomes a 500 reply carrying its message. */
  method Respond(config: Engine.Config, userInput: string, mode: string, history: HistoryField,
                 outcome: nat -> Engine.Attempt)
    returns (reply: ChatReply)
    ensures reply == AdmittedReply(config, userInput, mode, history, outcome)
  {
    var contextPrompt := userInput;
    if history.Turns? {
      contextPrompt := BuildContextPrompt(userInput, history.items);
    }
    var g := Engine.GenerateResponse(config, contextPrompt, mode, outcome);
    if g.result.Ok? {
      reply := Answer(g.result.value.0, g.result.value.1);
    } else {
      reply := ErrorReply(500, g.result.error.message);
    }
  }

  // ---------------------------------------------------------------------
  // /api/chat-stream

  /** How a backend stream opens: its items, or the failure raised while
      connecting or on a non-success status. */
  datatype Opening<T> = Opened(items: seq<T>) | OpenFailed(failure: Failure)

  /** The fragment the stream wrapper yields for a raised failure. */
  function ErrorFragment(e: Failure): string {
    "\n[Error] " + e.message
  }

  /** The fragments a drained run gives the client: the yielded texts, then
      one error fragment if it raised. */
  function Delivered(run: StreamRun): seq<string> {
    match run.failure
    case None => run.fragments
    case Some(e) => run.fragments + [ErrorFragment(e)]
  }

  function CloudRun(cloud: Opening<CloudItem>): StreamRun {
    match cloud
    case Opened(items) => Emitted(CloudSteps(items))
    case OpenFailed(e) => StreamRun([], Some(e))
  }

  function LocalRun(local: Opening<LocalLine>): StreamRun {
    match local
    case Opened(lines) => Emitted(LocalSteps(lines))
    case OpenFailed(e) => StreamRun([], Some(e))
  }

  const StreamKeyMessage := "OPENAI_API_KEY is not set."

  /** The body `generate()` streams for the context prompt in the selected
      mode: the cloud stream for provider "openai", the local one otherwise. */
  function StreamBody(config: Engine.Config, contextPrompt: string, selectedMode: string,
                      cloud: Opening<CloudItem>, local: Opening<LocalLine>): seq<string> {
    if config.provider == "openai" then
      if config.apiKey == [] then [ErrorFragment(Failure(RuntimeErr, StreamKeyMessage))]
      else match Prompts.GetSystemPrompt(selectedMode)
        case Err(e) => [ErrorFragment(e)]
        case Ok(_) => Delivered(CloudRun(cloud))
    else match Prompts.GetSystemPrompt(selectedMode)
      case Err(e) => [ErrorFragment(e)]
      case Ok(_) => Delivered(LocalRun(local))
  }

  /** The request `generate()` opens its stream with, if it gets that far. */
  function StreamRequest(config: Engine.Config, contextPrompt: string, selectedMode: string): Option<Engine.ChatRequest> {
    if config.provider == "openai" && config.apiKey == [] then None
    else match Prompts.GetSystemPrompt(selectedMode)
      case Err(_) => None
      case Ok(system) =>
        var backend := if config.provider == "openai" then Engine.Cloud else Engine.Local;
        Some(Engine.RequestFor(backend, config, contextPrompt, selectedMode, system, true))
  }

  /** `generate()`: drain the provider's stream, turning a raise into one
      final error fragment. */
  method Generate(config: Engine.Config, contextPrompt: string, selectedMode: string,
                  cloud: Opening<CloudItem>, local: Opening<LocalLine>)
    returns (fragments: seq<string>, request: Option<Engine.ChatRequest>)
    ensures fragments == StreamBody(config, contextPrompt, selectedMode, cloud, local)
    ensures request == StreamRequest(config, contextPrompt, selectedMode)
  {
    if config.provider == "openai" && config.apiKey == [] {
      return [ErrorFragment(Failure(RuntimeErr, StreamKeyMessage))], None;
    }
    var system := Prompts.GetSystemPrompt(selectedMode);
    if system.Err? {
      return [ErrorFragment(system.error)], None;
    }
    var failure: Option<Failure>;
    if config.provider == "openai" {
      request := Some(Engine.RequestFor(Engine.Cloud, config, contextPrompt, selectedMode, system.value, true));
      match cloud {
        case OpenFailed(e) =>
          fragments, failure := [], Some(e);
        case Opened(items) =>
          fragments, failure := IterOpenaiChunks(items);
      }
    } else {
      request := Some(Engine.RequestFor(Engine.Local, config, contextPrompt, selectedMode, system.value, true));
      match local {
        case OpenFailed(e) =>
          fragments, failure := [], Some(e);
        case Opened(lines) =>
          fragments, failure := IterOllamaChunks(lines);
      }
    }
    if failure.Some? {
      fragments := fragments + [ErrorFragment(failure.value)];
    }
  }

  /** The reply of /api/chat-stream: a text stream with its X-Mode-Used
      header, a JSON error with its status, or an escaping failure. */
  datatype StreamReply =
    | Streaming(modeUsed: string, request: Option<Engine.ChatRequest>, fragments: seq<string>)
    | StreamError(status: nat, error: string)
    | StreamUnhandled(failure: Failure)

  /** `chat_stream()` as a value. */
  function StreamReplyFor(config: Engine.Config, probe: Engine.Probe, p: ChatPayload,
                          cloud: Opening<CloudItem>, local: Opening<LocalLine>): StreamReply {
    match Gate(config, probe, p)
    case Refuse(status, error) => StreamError(status, error)
    case Crash(e) => StreamUnhandled(e)
    case Admit(userInput, mode) => Served(config, userInput, mode, p.history, cloud, local)
  }

  /** The streaming reply to an admitted request. */
  function Served(config: Engine.Config, userInput: string, mode: string, history: HistoryField,
                  cloud: Opening<CloudItem>, local: Opening<LocalLine>): StreamReply {
    var contextPrompt := ContextFor(userInput, history);
    var selected := Engine.SelectedMode(contextPrompt, mode);
    Streaming(selected, StreamRequest(config, contextPrompt, selected),
              StreamBody(config, contextPrompt, selected, cloud, local))
  }

  /** `chat_stream()`: the gate, then the streamed reply. */
  method ChatStream(config: Engine.Config, probe: Engine.Probe, p: ChatPayload,
                    cloud: Opening<CloudItem>, local: Opening<LocalLine>)
    returns (reply: StreamReply)
    ensures reply == StreamReplyFor(config, probe, p, cloud, local)
  {
    var decision := Gate(config, probe, p);
    match decision {
      case Refuse(status, error) =>
        return StreamError(status, error);
      case Crash(e) =>
        return StreamUnhandled(e);
      case Admit(userInput, mode) =>
        reply := Serve(config, userInput, mode, p.history, cloud, local);
    }
  }

  /** The admitted part of `chat_stream()`: the context prompt, the mode
      resolved up front for the header, then the streamed body. */
  method Serve(config: Engine.Config, userInput: string, mode: string, history: HistoryField,
               cloud: Opening<CloudItem>, local: Opening<LocalLine>)
    returns (reply: StreamReply)
    ensures reply == Served(config, userInput, mode, history, cloud, local)
  {
    var contextPrompt := userInput;
    if history.Turns? {
      contextPrompt := BuildContextPrompt(userInput, history.items);
    }
    var selected := mode;
    if mode == "auto" {
      selected := Evaluator.ChooseMode(contextPrompt, "detailed");
    }
    var fragments, request := Generate(config, contextPrompt, selected, cloud, local);
    reply := Streaming(selected, request, fragments);
  }

  // ---------------------------------------------------------------------
  // Properties of the handlers

  /** The gate's checks come in order: a blank prompt is refused whatever
      the mode and the backend, an invalid mode whatever the backend, and
      only then is readiness consulted. */
  lemma GateOrder(config: Engine.Config, probe: Engine.Probe, p: ChatPayload)
    ensures Trim(PromptOf(p)) == [] ==> Gate(config, probe, p) == Refuse(400, PromptRequired)
    ensures Trim(PromptOf(p)) != [] && Engine.SelectMode(RawModeOf(p)).Rejected? ==>
      Gate(config, probe, p) == Refuse(400, "Invalid mode: " + Engine.NormaliseMode(RawModeOf(p))
                                            + ". Use auto or one of: " + Prompts.SupportedList())
    ensures Trim(PromptOf(p)) != [] && Engine.SelectMode(RawModeOf(p)).Selected?
            && Engine.StartupCheck(config, probe).Ok? && !Engine.StartupCheck(config, probe).value.ok ==>
      Gate(config, probe, p) == Refuse(503, "Startup check failed: " + Engine.StartupCheck(config, probe).value.message)
  {
    Engine.SelectedModesDispatch(RawModeOf(p), "");
  }

  /** A failure raised by the readiness check itself (an undecodable model
      list) is not caught by the gate: it escapes the handler. */
  lemma ReadinessCrashEscapes(config: Engine.Config, probe: Engine.Probe, p: ChatPayload,
                               outcome: nat -> Engine.Attempt, cloud: Opening<CloudItem>, local: Opening<LocalLine>)
    requires Trim(PromptOf(p)) != [] && Engine.IsSelectable(Engine.NormaliseMode(RawModeOf(p)))
    requires Engine.StartupCheck(config, probe).Err?
    ensures Gate(config, probe, p) == Crash(Engine.StartupCheck(config, probe).error)
    ensures ChatReplyFor(config, probe, p, outcome) == Unhandled(Engine.StartupCheck(config, probe).error)
    ensures StreamReplyFor(config, probe, p, cloud, local) == StreamUnhandled(Engine.StartupCheck(config, probe).error)
  {
    Engine.SelectedModesDispatch(RawModeOf(p), "");
  }

  /** Both handlers follow the gate's verdict: a refusal becomes a JSON
      error with its status and message, a crash escapes unchanged, and an
      admitted request gets the reply built for it, with nothing else. */
  lemma HandlersFollowGate(config: Engine.Config, probe: Engine.Probe, p: ChatPayload,
                           outcome: nat -> Engine.Attempt, cloud: Opening<CloudItem>, local: Opening<LocalLine>)
    ensures var d := Gate(config, probe, p);
      d.Refuse? ==>
        ChatReplyFor(config, probe, p, outcome) == ErrorReply(d.status, d.error)
        && StreamReplyFor(config, probe, p, cloud, local) == StreamError(d.status, d.error)
    ensures var d := Gate(config, probe, p);
      d.Crash? ==>
        ChatReplyFor(config, probe, p, outcome) == Unhandled(d.failure)
        && StreamReplyFor(config, probe, p, cloud, local) == StreamUnhandled(d.failure)
    ensures var d := Gate(config, probe, p);
      d.Admit? ==>
        ChatReplyFor(config, probe, p, outcome) == AdmittedReply(config, d.userInput, d.mode, p.history, outcome)
        && StreamReplyFor(config, probe, p, cloud, local) == Served(config, d.userInput, d.mode, p.history, cloud, local)
  {
  }

  /** A provider stream that fails to open (a refused connection, an error
      status, a rejected credential) yields exactly one error fragment
      carrying that failure. */
  lemma OpenFailureReported(config: Engine.Config, userInput: string, mode: string, history: HistoryField,
                            cloud: Opening<CloudItem>, local: Opening<LocalLine>)
    requires Engine.IsSelectable(mode) && (config.provider == "openai" ==> config.apiKey != [])
    ensures config.provider == "openai" && cloud.OpenFailed? ==>
      Served(config, userInput, mode, history, cloud, local).fragments == [ErrorFragment(cloud.failure)]
    ensures config.provider != "openai" && local.OpenFailed? ==>
      Served(config, userInput, mode, history, cloud, local).fragments == [ErrorFragment(local.failure)]
  {
    ServedStreamBody(config, userInput, mode, history, cloud, local);
  }

  /** A history that is not a list is ignored: the prompt is sent as it
      is, as it is for an empty list. */
  lemma NonListHistoryIgnored(userInput: string)
    ensures ContextFor(userInput, NotAList) == userInput
    ensures ContextFor(userInput, Turns([])) == userInput
  {
  }

  /** The stream body checks the key before anything else and the
      instruction lookup next: each failure becomes the only fragment, and
      no stream is opened. */
  lemma StreamChecksFirst(config: Engine.Config, contextPrompt: string, selectedMode: string,
                          cloud: Opening<CloudItem>, local: Opening<LocalLine>)
    ensures config.provider == "openai" && config.apiKey == [] ==>
      StreamBody(config, contextPrompt, selectedMode, cloud, local)
        == [ErrorFragment(Failure(RuntimeErr, StreamKeyMessage))]
      && StreamRequest(config, contextPrompt, selectedMode) == None
    ensures !(config.provider == "openai" && config.apiKey == []) && Prompts.GetSystemPrompt(selectedMode).Err? ==>
      StreamBody(config, contextPrompt, selectedMode, cloud, local)
        == [ErrorFragment(Prompts.GetSystemPrompt(selectedMode).error)]
      && StreamRequest(config, contextPrompt, selectedMode) == None
  {
  }

  /** What passes the gate reaches a backend: the provider is one of the
      two, the cloud one has a key, and the mode has an instruction. */
  lemma AdmittedReachesBackend(config: Engine.Config, probe: Engine.Probe, p: ChatPayload,
                               outcome: nat -> Engine.Attempt)
    requires Gate(config, probe, p).Admit?
    ensures var d := Gate(config, probe, p);
      var g := Engine.Dispatch(config, ContextFor(d.userInput, p.history), d.mode, outcome);
      g.request.Some? && 1 <= g.attempts <= Engine.MaxAttempts
  {
    var d := Gate(config, probe, p);
    var context := ContextFor(d.userInput, p.history);
    Engine.SelectableModeHasInstruction(context, d.mode);
    Engine.DispatchedRequestShape(config, context, d.mode, outcome);
  }

  /** A 500 reply of /api/chat carries a failure raised by the backend,
      after at least one attempt; every refusal before that is a 400 or
      a 503. */
  lemma ChatErrorsComeFromBackend(config: Engine.Config, probe: Engine.Probe, p: ChatPayload,
                                  outcome: nat -> Engine.Attempt)
    ensures ChatReplyFor(config, probe, p, outcome).ErrorReply? && ChatReplyFor(config, probe, p, outcome).status == 500 ==>
      var d := Gate(config, probe, p);
      d.Admit? && Engine.Dispatch(config, ContextFor(d.userInput, p.history), d.mode, outcome).attempts >= 1
    ensures ChatReplyFor(config, probe, p, outcome).ErrorReply? && ChatReplyFor(config, probe, p, outcome).status != 500 ==>
      Gate(config, probe, p) == Refuse(ChatReplyFor(config, probe, p, outcome).status, ChatReplyFor(config, probe, p, outcome).error)
  {
    if Gate(config, probe, p).Admit? {
      AdmittedReachesBackend(config, probe, p, outcome);
    }
  }

  /** For the same request, the mode /api/chat reports with an answer is the
      mode /api/chat-stream announces in its header. */
  lemma HandlersAgreeOnMode(config: Engine.Config, probe: Engine.Probe, p: ChatPayload,
                            outcome: nat -> Engine.Attempt, cloud: Opening<CloudItem>, local: Opening<LocalLine>)
    ensures ChatReplyFor(config, probe, p, outcome).Answer? ==>
      StreamReplyFor(config, probe, p, cloud, local).Streaming?
      && StreamReplyFor(config, probe, p, cloud, local).modeUsed == ChatReplyFor(config, probe, p, outcome).modeUsed
  {
    var d := Gate(config, probe, p);
    if d.Admit? {
      Engine.ModeUsedIsResolvedMode(config, ContextFor(d.userInput, p.history), d.mode, outcome);
    }
  }

  /** What the gate admits has a selectable mode, and a cloud provider
      that is configured with a key; a local one has the model installed. */
  lemma AdmittedIsServable(config: Engine.Config, probe: Engine.Probe, p: ChatPayload)
    requires Gate(config, probe, p).Admit?
    ensures Engine.IsSelectable(Gate(config, probe, p).mode)
    ensures config.provider == "openai" || config.provider == "ollama"
    ensures config.provider == "openai" ==> config.apiKey != []
    ensures config.provider == "ollama" ==>
      probe.ProbeReply? && probe.body.Tags? && Engine.Installed(probe.body.models, config.ollamaModel)
  {
  }

  /** A served stream opens the provider's stream with a streaming request
      in the selected mode. */
  lemma ServedStreamRequest(config: Engine.Config, userInput: string, mode: string, history: HistoryField,
                            cloud: Opening<CloudItem>, local: Opening<LocalLine>)
    requires Engine.IsSelectable(mode) && (config.provider == "openai" ==> config.apiKey != [])
    ensures var r := Served(config, userInput, mode, history, cloud, local);
      r.request.Some? && r.request.value.stream
      && r.request.value.model == (if config.provider == "openai" then config.model else config.ollamaModel)
      && (r.request.value.temperature == Engine.High <==> r.modeUsed == "creative")
      && r.modeUsed == Engine.SelectedMode(ContextFor(userInput, history), mode)
      && Prompts.GetSystemPrompt(r.modeUsed).Ok?
      && r.request.value.messages
         == [Engine.Message("system", Prompts.GetSystemPrompt(r.modeUsed).value),
             Engine.Message("user", ContextFor(userInput, history))]
      && r.request.value.numPredict
         == (if config.provider == "openai" then None else Some(if r.modeUsed == "technical" then 400 else 512))
  {
    Engine.SelectableModeHasInstruction(ContextFor(userInput, history), mode);
  }

  /** The body of a served stream is the provider stream's fragments,
      followed by one error fragment exactly when it raised. */
  lemma ServedStreamBody(config: Engine.Config, userInput: string, mode: string, history: HistoryField,
                         cloud: Opening<CloudItem>, local: Opening<LocalLine>)
    requires Engine.IsSelectable(mode) && (config.provider == "openai" ==> config.apiKey != [])
    ensures var r := Served(config, userInput, mode, history, cloud, local);
      var run := if config.provider == "openai" then CloudRun(cloud) else LocalRun(local);
      (run.failure.None? ==> r.fragments == run.fragments)
      && (run.failure.Some? ==> r.fragments == run.fragments + [ErrorFragment(run.failure.value)])
  {
    Engine.SelectableModeHasInstruction(ContextFor(userInput, history), mode);
  }

  /** No fragment a backend stream yields is empty. */
  lemma StreamFragmentsNonEmpty(cloud: Opening<CloudItem>, local: Opening<LocalLine>)
    ensures forall i :: 0 <= i < |CloudRun(cloud).fragments| ==> CloudRun(cloud).fragments[i] != []
    ensures forall i :: 0 <= i < |LocalRun(local).fragments| ==> LocalRun(local).fragments[i] != []
  {
    match cloud {
      case Opened(items) => FragmentsNonEmpty(CloudSteps(items));
      case OpenFailed(_) =>
    }
    match local {
      case Opened(lines) => FragmentsNonEmpty(LocalSteps(lines));
      case OpenFailed(_) =>
    }
  }

  /** A served cloud stream that opens and ends cleanly delivers, joined,
      exactly the first-choice content the service sent. */
  lemma CleanCloudStreamKeepsText(config: Engine.Config, userInput: string, mode: string, history: HistoryField,
                                  items: seq<CloudItem>, local: Opening<LocalLine>)
    requires Engine.IsSelectable(mode) && config.provider == "openai" && config.apiKey != []
    requires Emitted(CloudSteps(items)).failure.None?
    ensures Concat(Served(config, userInput, mode, history, Opened(items), local).fragments) == CloudText(items)
  {
    ServedStreamBody(config, userInput, mode, history, Opened(items), local);
    CloudFragmentsKeepText(items);
  }

  /** An admitted chat request answers with the generation's mode and text
      when it succeeds, and with status 500 and the failure's message when
      it fails. */
  lemma AdmittedChatReply(config: Engine.Config, probe: Engine.Probe, p: ChatPayload,
                          outcome: nat -> Engine.Attempt)
    requires Gate(config, probe, p).Admit?
    ensures var d := Gate(config, probe, p);
      var g := Engine.Dispatch(config, ContextFor(d.userInput, p.history), d.mode, outcome);
      (g.result.Ok? ==> ChatReplyFor(config, probe, p, outcome) == Answer(g.result.value.0, g.result.value.1))
      && (g.result.Err? ==> ChatReplyFor(config, probe, p, outcome) == ErrorReply(500, g.result.error.message))
  {
  }

  /** An admitted chat request whose first attempt answers gets, with
      status 200, the resolved mode and the stripped reply text. */
  lemma FirstAnswerIsReturned(config: Engine.Config, probe: Engine.Probe, p: ChatPayload,
                              outcome: nat -> Engine.Attempt, text: string)
    requires Gate(config, probe, p).Admit?
    requires outcome(1) == Engine.Answered(Engine.Text(text))
    ensures var d := Gate(config, probe, p);
      ChatReplyFor(config, probe, p, outcome)
      == Answer(Engine.SelectedMode(ContextFor(d.userInput, p.history), d.mode), Trim(text))
  {
    var d := Gate(config, probe, p);
    var context := ContextFor(d.userInput, p.history);
    Engine.SelectableModeHasInstruction(context, d.mode);
    var backend := if config.provider == "ollama" then Engine.Local else Engine.Cloud;
    assert Engine.RetryFrom(backend, outcome, 1) == Engine.RetryRun(Ok(Trim(text)), 1, []);
  }

  /** A served local stream that opens and ends cleanly delivers, joined,
      exactly the content the server sent. */
  lemma CleanLocalStreamKeepsText(config: Engine.Config, userInput: string, mode: string, history: HistoryField,
                                  cloud: Opening<CloudItem>, lines: seq<LocalLine>)
    requires Engine.IsSelectable(mode) && config.provider == "ollama"
    requires Emitted(LocalSteps(lines)).failure.None?
    ensures Concat(Served(config, userInput, mode, history, cloud, Opened(lines)).fragments) == LocalText(lines)
  {
    ServedStreamBody(config, userInput, mode, history, cloud, Opened(lines));
    LocalFragmentsKeepText(lines);
  }
}
