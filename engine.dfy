/** The engine of main.py: the readiness check, mode resolution, parameter
    derivation, the two backends' bounded retry loops, and the check the
    command line applies to a typed mode. */
module Engine {
  import opened Base
  import opened Strings
  import Evaluator
  import Prompts

  /** The process configuration read once at start-up (AI_PROVIDER,
      OPENAI_API_KEY, OPENAI_MODEL, OLLAMA_BASE_URL, OLLAMA_MODEL). */
  datatype Config = Config(
    provider: string,
    apiKey: string,
    model: string,
    ollamaBaseUrl: string,
    ollamaModel: string)

  // ---------------------------------------------------------------------
  // Readiness check (startup_check)

  /** One entry of the `models` list of `GET /api/tags`: a JSON object with
      an optional "name", or some other JSON value. */
  datatype ModelRecord = Named(name: Option<string>) | NotADict

  /** The probe's body: the "models" list (absent reads as empty), or the
      failure raised while decoding it (not JSON, not an object). */
  datatype TagsBody = Tags(models: seq<ModelRecord>) | BadBody(failure: Failure)

  /** What the status probe of the local server gives. */
  datatype Probe =
    | ProbeConnectError              // httpx.ConnectError
    | ProbeHttpError(message: string) // any other httpx.HTTPError, with its text
    | ProbeReply(body: TagsBody)

  datatype Readiness = Readiness(ok: bool, message: string)

  /** `model.get("name", "")`. */
  function NameOf(r: ModelRecord): string
    requires r.Named?
  {
    match r.name
    case Some(n) => n
    case None => ""
  }

  /** The set comprehension `installed_names`. */
  function InstalledNames(models: seq<ModelRecord>): set<string> {
    set r | r in models && r.Named? :: NameOf(r)
  }

  /** Some record of the list is a dict whose name is exactly `model`. */
  ghost predicate Installed(models: seq<ModelRecord>, model: string) {
    exists i :: 0 <= i < |models| && models[i].Named? && NameOf(models[i]) == model
  }

  /** `startup_check()`. The probe is only consulted for the local provider;
      a body that cannot be decoded escapes as the failure it raised. */
  function StartupCheck(config: Config, probe: Probe): (r: Result<Readiness>)
    ensures r.Err? <==> config.provider == "ollama" && probe.ProbeReply? && probe.body.BadBody?
    ensures r.Ok? ==> (r.value.ok <==>
      (config.provider == "openai" && config.apiKey != [])
      || (config.provider == "ollama" && probe.ProbeReply? && probe.body.Tags?
          && Installed(probe.body.models, config.ollamaModel)))
    ensures r.Ok? && r.value.ok ==> r.value.message == ""
    ensures r.Ok? && !r.value.ok ==> r.value.message != ""
  {
    if config.provider != "ollama" && config.provider != "openai" then
      Ok(Readiness(false, "Invalid AI_PROVIDER. Use 'ollama' or 'openai'."))
    else if config.provider == "openai" then
      if config.apiKey == [] then
        Ok(Readiness(false, "OPENAI_API_KEY is not set. Set it in your environment before running."))
      else Ok(Readiness(true, ""))
    else
      match probe
      case ProbeConnectError =>
        Ok(Readiness(false, "Could not connect to Ollama at " + config.ollamaBaseUrl + ". "
                            + "Start Ollama using: ollama serve"))
      case ProbeHttpError(message) =>
        Ok(Readiness(false, "Failed to check Ollama status: " + message))
      case ProbeReply(BadBody(failure)) => Err(failure)
      case ProbeReply(Tags(models)) =>
        assert config.ollamaModel in InstalledNames(models) <==> Installed(models, config.ollamaModel) by {
          if config.ollamaModel in InstalledNames(models) {
            var r :| r in models && r.Named? && NameOf(r) == config.ollamaModel;
            var i :| 0 <= i < |models| && models[i] == r;
          }
        }
        if config.ollamaModel !in InstalledNames(models) then
          Ok(Readiness(false, "Model '" + config.ollamaModel + "' is not installed. Run: ollama pull "
                              + config.ollamaModel))
        else Ok(Readiness(true, ""))
  }

  // ---------------------------------------------------------------------
  // Mode resolution and generation parameters

  /** `choose_mode(user_input) if mode == "auto" else mode`. */
  function SelectedMode(userInput: string, mode: string): string {
    if mode == "auto" then Evaluator.ModeChoice(userInput, "detailed") else mode
  }

  /** The two sampling temperatures, 0.3 and 0.7. */
  datatype Temperature = Low | High

  /** `0.7 if selected_mode == "creative" else 0.3`. */
  function TemperatureFor(mode: string): Temperature {
    if mode == "creative" then High else Low
  }

  /** `400 if selected_mode == "technical" else 512`. */
  function NumPredictFor(mode: string): nat {
    if mode == "technical" then 400 else 512
  }

  datatype Message = Message(role: string, content: string)

  /** What the engine sends to a backend: the model, the two-message exchange,
      the temperature, the output budget (local server only) and whether
      the reply is streamed. */
  datatype ChatRequest = ChatRequest(
    model: string,
    messages: seq<Message>,
    temperature: Temperature,
    numPredict: Option<nat>,
    stream: bool)

  /** Which of the two backends serves a call. */
  datatype Backend = Cloud | Local

  /** The request for `mode` with instruction `system` and user text `userInput`. */
  function RequestFor(backend: Backend, config: Config, userInput: string, mode: string,
                      system: string, stream: bool): (req: ChatRequest)
    ensures req.messages == [Message("system", system), Message("user", userInput)]
    ensures req.temperature == High <==> mode == "creative"
    ensures req.numPredict == None <==> backend == Cloud
    ensures backend == Local ==> (req.numPredict == Some(400) <==> mode == "technical")
    ensures backend == Local ==> (req.numPredict == Some(512) <==> mode != "technical")
    ensures req.model == (if backend == Cloud then config.model else config.ollamaModel)
    ensures req.stream == stream
  {
    var messages := [Message("system", system), Message("user", userInput)];
    match backend
    case Cloud => ChatRequest(config.model, messages, TemperatureFor(mode), None, stream)
    case Local => ChatRequest(config.ollamaModel, messages, TemperatureFor(mode), Some(NumPredictFor(mode)), stream)
  }

  // ---------------------------------------------------------------------
  // The retry policy

  const MaxAttempts: nat := 3

  /** The content field of a reply: missing, JSON null, or a string. */
  datatype Content = Absent | Null | Text(text: string)

  /** What one attempt gives: a reply, or a raised failure. */
  datatype Attempt = Answered(content: Content) | Raised(failure: Failure)

  /** The failures worth another attempt: a connection error for the cloud
      SDK; a connection error or a read timeout for the local server. */
  predicate Retryable(backend: Backend, f: Failure) {
    match backend
    case Cloud => f.kind == ApiConnectionErr
    case Local => f.kind == ConnectErr || f.kind == ReadTimeout
  }

  /** The reply's text, stripped. The cloud path reads a missing or None
      content as ""; the local path reads a missing one as "" but calls
      `.strip()` on a JSON null, which raises. */
  function ReplyText(backend: Backend, c: Content): (r: Result<string>)
    ensures r.Ok? && c.Text? ==> r.value == Trim(c.text)
    ensures r.Ok? && !c.Text? ==> r.value == ""
    ensures r.Err? <==> backend.Local? && c.Null?
  {
    match c
    case Text(t) => Ok(Trim(t))
    case Absent => Ok("")
    case Null =>
      if backend.Cloud? then Ok("")
      else Err(Failure(AttributeErr, "'NoneType' object has no attribute 'strip'"))
  }

  /** How a retry loop ends: its result, how many attempts it made and the
      delays it slept, in order. */
  datatype RetryRun = RetryRun(result: Result<string>, attempts: nat, sleeps: seq<nat>)

  /** The retry loop from attempt `k` on, where `outcome(j)` is what
      attempt `j` gives. */
  function RetryFrom(backend: Backend, outcome: nat -> Attempt, k: nat): RetryRun
    requires 1 <= k <= MaxAttempts
    decreases MaxAttempts - k
  {
    match outcome(k)
    case Answered(c) => RetryRun(ReplyText(backend, c), k, [])
    case Raised(e) =>
      if Retryable(backend, e) && k < MaxAttempts then
        var rest := RetryFrom(backend, outcome, k + 1);
        RetryRun(rest.result, rest.attempts, [k] + rest.sleeps)
      else RetryRun(Err(e), k, [])
  }

  /** A run whose first delays were `sleeps`. */
  function Resumed(sleeps: seq<nat>, rest: RetryRun): RetryRun {
    RetryRun(rest.result, rest.attempts, sleeps + rest.sleeps)
  }

  /** `for attempt in range(1, max_attempts + 1)`: try, and on a retryable
      failure sleep `attempt` units unless this was the last attempt. */
  method RetryLoop(backend: Backend, outcome: nat -> Attempt)
    returns (result: Result<string>, attempts: nat, sleeps: seq<nat>)
    ensures RetryRun(result, attempts, sleeps) == RetryFrom(backend, outcome, 1)
  {
    attempts, sleeps := 0, [];
    result := Err(Failure(RuntimeErr, ""));
    var pending := true;
    while pending
      invariant attempts <= MaxAttempts
      invariant pending ==> attempts < MaxAttempts
      invariant pending ==> RetryFrom(backend, outcome, 1) == Resumed(sleeps, RetryFrom(backend, outcome, attempts + 1))
      invariant !pending ==> RetryRun(result, attempts, sleeps) == RetryFrom(backend, outcome, 1)
      decreases MaxAttempts - attempts, pending
    {
      attempts := attempts + 1;
      match outcome(attempts)
      case Answered(c) =>
        result := ReplyText(backend, c);
        pending := false;
      case Raised(e) =>
        if Retryable(backend, e) && attempts < MaxAttempts {
          sleeps := sleeps + [attempts];
        } else {
          result := Err(e);
          pending := false;
        }
    }
  }

  // ---------------------------------------------------------------------
  // Dispatch (generate_response and the two backends)

  /** One single-shot generation: the result (mode used and text), the
      attempts made, the delays slept and the request sent, if any. */
  datatype Generation = Generation(
    result: Result<(string, string)>,
    attempts: nat,
    sleeps: seq<nat>,
    request: Option<ChatRequest>)

  function Tagged(mode: string, r: Result<string>): Result<(string, string)> {
    match r
    case Ok(text) => Ok((mode, text))
    case Err(e) => Err(e)
  }

  const MissingKeyMessage := "OPENAI_API_KEY is not set. Set it in your environment and run again."
  const InvalidProviderMessage := "Invalid AI_PROVIDER. Use 'ollama' or 'openai'."

  /** `generate_response(user_input, mode)` as a value. */
  function Dispatch(config: Config, userInput: string, mode: string, outcome: nat -> Attempt): Generation {
    var selected := SelectedMode(userInput, mode);
    match Prompts.GetSystemPrompt(selected)
    case Err(e) => Generation(Err(e), 0, [], None)
    case Ok(system) =>
      if config.provider == "ollama" then
        var run := RetryFrom(Local, outcome, 1);
        Generation(Tagged(selected, run.result), run.attempts, run.sleeps,
                   Some(RequestFor(Local, config, userInput, selected, system, false)))
      else if config.provider == "openai" then
        if config.apiKey == [] then Generation(Err(Failure(RuntimeErr, MissingKeyMessage)), 0, [], None)
        else
          var run := RetryFrom(Cloud, outcome, 1);
          Generation(Tagged(selected, run.result), run.attempts, run.sleeps,
                     Some(RequestFor(Cloud, config, userInput, selected, system, false)))
      else Generation(Err(Failure(ValueErr, InvalidProviderMessage)), 0, [], None)
  }

  /** `generate_response_ollama`. */
  method GenerateResponseOllama(config: Config, userInput: string, selectedMode: string,
                                systemPrompt: string, outcome: nat -> Attempt)
    returns (g: Generation)
    ensures var run := RetryFrom(Local, outcome, 1);
      g == Generation(Tagged(selectedMode, run.result), run.attempts, run.sleeps,
                      Some(RequestFor(Local, config, userInput, selectedMode, systemPrompt, false)))
  {
    var request := RequestFor(Local, config, userInput, selectedMode, systemPrompt, false);
    var result, attempts, sleeps := RetryLoop(Local, outcome);
    g := Generation(Tagged(selectedMode, result), attempts, sleeps, Some(request));
  }

  /** `generate_response_openai`: refuses to start without a key. */
  method GenerateResponseOpenai(config: Config, userInput: string, selectedMode: string,
                                systemPrompt: string, outcome: nat -> Attempt)
    returns (g: Generation)
    ensures config.apiKey == [] ==> g == Generation(Err(Failure(RuntimeErr, MissingKeyMessage)), 0, [], None)
    ensures config.apiKey != [] ==> var run := RetryFrom(Cloud, outcome, 1);
      g == Generation(Tagged(selectedMode, run.result), run.attempts, run.sleeps,
                      Some(RequestFor(Cloud, config, userInput, selectedMode, systemPrompt, false)))
  {
    if config.apiKey == [] {
      return Generation(Err(Failure(RuntimeErr, MissingKeyMessage)), 0, [], None);
    }
    var request := RequestFor(Cloud, config, userInput, selectedMode, systemPrompt, false);
    var result, attempts, sleeps := RetryLoop(Cloud, outcome);
    g := Generation(Tagged(selectedMode, result), attempts, sleeps, Some(request));
  }

  /** `generate_response`: resolve the mode, look up its instruction (which
      fails before any backend call for an unknown mode), then hand over to
      the configured backend. */
  method GenerateResponse(config: Config, userInput: string, mode: string, outcome: nat -> Attempt)
    returns (g: Generation)
    ensures g == Dispatch(config, userInput, mode, outcome)
  {
    var selected := mode;
    if mode == "auto" {
      selected := Evaluator.ChooseMode(userInput, "detailed");
    }
    var system := Prompts.GetSystemPrompt(selected);
    if system.Err? {
      return Generation(Err(system.error), 0, [], None);
    }
    if config.provider == "ollama" {
      g := GenerateResponseOllama(config, userInput, selected, system.value, outcome);
    } else if config.provider == "openai" {
      g := GenerateResponseOpenai(config, userInput, selected, system.value, outcome);
    } else {
      g := Generation(Err(Failure(ValueErr, InvalidProviderMessage)), 0, [], None);
    }
  }

  // ---------------------------------------------------------------------
  // The command line's mode prompt

  /** `input(...).strip().lower() or "auto"`. */
  function NormaliseMode(raw: string): string {
    var m := Lower(Trim(raw));
    if m == [] then "auto" else m
  }

  /** A mode a user may pick: "auto" or a catalog key. */
  predicate IsSelectable(mode: string) {
    mode == "auto" || Prompts.InCatalog(mode)
  }

  datatype ModeSelection = Selected(mode: string) | Rejected(message: string)

  /** The check at main.py:178-182 and 206-212 (and the web gate's): the
      normalised mode, or the message naming the valid choices. */
  function SelectMode(raw: string): (r: ModeSelection)
    ensures r.Selected? <==> IsSelectable(NormaliseMode(raw))
    ensures r.Selected? ==> r.mode == NormaliseMode(raw)
  {
    var mode := NormaliseMode(raw);
    if mode != "auto" && !Prompts.InCatalog(mode) then
      Rejected("Invalid mode: " + mode + ". Use auto or one of: " + Prompts.SupportedList())
    else Selected(mode)
  }

  // ---------------------------------------------------------------------
  // Properties of the retry policy

  /** The delays `from`, `from + 1`, ..., `to - 1`. */
  function Ascending(from: nat, to: nat): (d: seq<nat>)
    ensures |d| == (if from <= to then to - from else 0)
    ensures forall i :: 0 <= i < |d| ==> d[i] == from + i
    decreases if from <= to then to - from else 0
  {
    if from >= to then [] else [from] + Ascending(from + 1, to)
  }

  /** A retry loop entered at attempt `k` makes between `k` and three
      attempts and sleeps `k`, `k + 1`, ... after each failed one but the
      last. */
  lemma {:induction false} RetryRunShape(backend: Backend, outcome: nat -> Attempt, k: nat)
    requires 1 <= k <= MaxAttempts
    ensures k <= RetryFrom(backend, outcome, k).attempts <= MaxAttempts
    ensures RetryFrom(backend, outcome, k).sleeps == Ascending(k, RetryFrom(backend, outcome, k).attempts)
    decreases MaxAttempts - k
  {
    match outcome(k)
    case Answered(_) =>
    case Raised(e) =>
      if Retryable(backend, e) && k < MaxAttempts {
        RetryRunShape(backend, outcome, k + 1);
      }
  }

  /** Why a retry loop stops where it does: every earlier attempt raised a
      retryable failure, and the last one either answered (its text is the
      result) or raised a failure that is not retryable or came on the last
      allowed attempt (that failure is the result). */
  lemma {:induction false} RetryRunStops(backend: Backend, outcome: nat -> Attempt, k: nat)
    requires 1 <= k <= MaxAttempts
    ensures var run := RetryFrom(backend, outcome, k);
      k <= run.attempts <= MaxAttempts
      && (forall j :: k <= j < run.attempts ==> outcome(j).Raised? && Retryable(backend, outcome(j).failure))
      && match outcome(run.attempts)
         case Answered(c) => run.result == ReplyText(backend, c)
         case Raised(e) => run.result == Err(e) && (!Retryable(backend, e) || run.attempts == MaxAttempts)
    decreases MaxAttempts - k
  {
    match outcome(k)
    case Answered(_) =>
    case Raised(e) =>
      if Retryable(backend, e) && k < MaxAttempts {
        RetryRunStops(backend, outcome, k + 1);
      }
  }

  /** Two connection failures then an answer: the answer is returned after
      three attempts and sleeps of 1 and 2. */
  lemma RecoversOnThirdAttempt(backend: Backend, outcome: nat -> Attempt, text: string)
    requires outcome(1).Raised? && Retryable(backend, outcome(1).failure)
    requires outcome(2).Raised? && Retryable(backend, outcome(2).failure)
    requires outcome(3) == Answered(Text(text))
    ensures RetryFrom(backend, outcome, 1) == RetryRun(Ok(Trim(text)), 3, [1, 2])
  {
    var third := RetryFrom(backend, outcome, 3);
    assert third == RetryRun(Ok(Trim(text)), 3, []);
    assert RetryFrom(backend, outcome, 2) == Resumed([2], third);
  }

  /** Three retryable failures: the third is re-raised, and no fourth
      attempt is made. */
  lemma ExhaustionReraisesLast(backend: Backend, outcome: nat -> Attempt)
    requires forall j :: 1 <= j <= MaxAttempts ==> outcome(j).Raised? && Retryable(backend, outcome(j).failure)
    ensures RetryFrom(backend, outcome, 1) == RetryRun(Err(outcome(3).failure), 3, [1, 2])
  {
    assert outcome(1).Raised? && outcome(2).Raised?;
  }

  /** A failure that is not retryable (an authentication error, a rate
      limit, an HTTP status error, ...) surfaces at once. */
  lemma OtherFailureNotRetried(backend: Backend, outcome: nat -> Attempt)
    requires outcome(1).Raised? && !Retryable(backend, outcome(1).failure)
    ensures RetryFrom(backend, outcome, 1) == RetryRun(Err(outcome(1).failure), 1, [])
  {
  }

  /** An answer on attempt `k` ends the loop there. */
  lemma SuccessStopsRetrying(backend: Backend, outcome: nat -> Attempt, k: nat)
    requires 1 <= k <= MaxAttempts
    requires forall j :: 1 <= j < k ==> outcome(j).Raised? && Retryable(backend, outcome(j).failure)
    requires outcome(k).Answered?
    ensures RetryFrom(backend, outcome, 1).attempts == k
    ensures RetryFrom(backend, outcome, 1).result == ReplyText(backend, outcome(k).content)
  {
    RetryRunStops(backend, outcome, 1);
    var n := RetryFrom(backend, outcome, 1).attempts;
    var last := outcome(n);
  }

  // ---------------------------------------------------------------------
  // Properties of dispatch

  /** A mode that is neither "auto" nor in the catalog is refused with the
      catalog's error before any request is made. */
  lemma InvalidModeRefusedBeforeBackend(config: Config, userInput: string, mode: string,
                                        outcome: nat -> Attempt)
    requires mode != "auto" && !Prompts.InCatalog(mode)
    ensures var g := Dispatch(config, userInput, mode, outcome);
      g.result == Err(Failure(ValueErr, "Unsupported mode: " + mode + ". Supported modes: "
                                        + Prompts.SupportedList()))
      && g.attempts == 0 && g.sleeps == [] && g.request == None
  {
  }

  /** "auto" and every catalog key get past the instruction lookup. */
  lemma SelectableModeHasInstruction(userInput: string, mode: string)
    requires IsSelectable(mode)
    ensures Prompts.GetSystemPrompt(SelectedMode(userInput, mode)).Ok?
  {
    if mode == "auto" {
      Prompts.ClassifiedModeHasInstruction(userInput);
    }
  }

  /** The mode reported with a reply is the classifier's choice for "auto"
      and the caller's mode otherwise. */
  lemma ModeUsedIsResolvedMode(config: Config, userInput: string, mode: string, outcome: nat -> Attempt)
    ensures var g := Dispatch(config, userInput, mode, outcome);
      g.result.Ok? ==> g.result.value.0 == (if mode == "auto" then Evaluator.ModeChoice(userInput, "detailed") else mode)
  {
  }

  /** A provider other than "ollama" and "openai" gets the ValueError,
      after the instruction lookup and before any request. */
  lemma UnknownProviderRefused(config: Config, userInput: string, mode: string, outcome: nat -> Attempt)
    requires config.provider != "ollama" && config.provider != "openai" && IsSelectable(mode)
    ensures Dispatch(config, userInput, mode, outcome)
      == Generation(Err(Failure(ValueErr, InvalidProviderMessage)), 0, [], None)
  {
    SelectableModeHasInstruction(userInput, mode);
  }

  /** Each provider gets its own backend's retry policy and reply
      handling: "ollama" the local loop, "openai" with a key the cloud one. */
  lemma DispatchUsesProviderBackend(config: Config, userInput: string, mode: string, outcome: nat -> Attempt)
    requires IsSelectable(mode)
    ensures var g := Dispatch(config, userInput, mode, outcome);
      var run := RetryFrom(Local, outcome, 1);
      config.provider == "ollama" ==>
        (g.result, g.attempts, g.sleeps) == (Tagged(SelectedMode(userInput, mode), run.result), run.attempts, run.sleeps)
    ensures var g := Dispatch(config, userInput, mode, outcome);
      var run := RetryFrom(Cloud, outcome, 1);
      config.provider == "openai" && config.apiKey != [] ==>
        (g.result, g.attempts, g.sleeps) == (Tagged(SelectedMode(userInput, mode), run.result), run.attempts, run.sleeps)
  {
    SelectableModeHasInstruction(userInput, mode);
  }

  /** The cloud provider without a key fails before any attempt. */
  lemma MissingKeyFailsBeforeAttempt(config: Config, userInput: string, mode: string,
                                     outcome: nat -> Attempt)
    requires config.provider == "openai" && config.apiKey == [] && IsSelectable(mode)
    ensures var g := Dispatch(config, userInput, mode, outcome);
      g.result == Err(Failure(RuntimeErr, MissingKeyMessage)) && g.attempts == 0 && g.request == None
  {
    SelectableModeHasInstruction(userInput, mode);
  }

  /** A request that is sent carries the selected mode's instruction and
      its derived parameters, and the call makes at most three attempts
      with sleeps 1, 2, ... between them. */
  lemma DispatchedRequestShape(config: Config, userInput: string, mode: string, outcome: nat -> Attempt)
    ensures var g := Dispatch(config, userInput, mode, outcome);
      var selected := SelectedMode(userInput, mode);
      g.request.Some? ==>
        (config.provider == "ollama" || config.provider == "openai")
        && Prompts.GetSystemPrompt(selected).Ok?
        && g.request.value.messages
           == [Message("system", Prompts.GetSystemPrompt(selected).value), Message("user", userInput)]
        && (g.request.value.temperature == High <==> selected == "creative")
        && g.request.value.numPredict
           == (if config.provider == "ollama" then Some(if selected == "technical" then 400 else 512) else None)
        && !g.request.value.stream
        && 1 <= g.attempts <= MaxAttempts
        && g.sleeps == Ascending(1, g.attempts)
    ensures var g := Dispatch(config, userInput, mode, outcome);
      g.request.None? ==> g.attempts == 0 && g.sleeps == []
  {
    var g := Dispatch(config, userInput, mode, outcome);
    var backend := if config.provider == "ollama" then Local else Cloud;
    RetryRunShape(backend, outcome, 1);
    if g.request.Some? {
      assert g.sleeps == RetryFrom(backend, outcome, 1).sleeps;
    }
  }

  // ---------------------------------------------------------------------
  // Properties of the readiness check and the mode prompt

  /** Only the local provider consults the probe. */
  lemma ProbeOnlyForLocal(config: Config, p: Probe, q: Probe)
    requires config.provider != "ollama"
    ensures StartupCheck(config, p) == StartupCheck(config, q)
  {
  }

  /** The message of each outcome of the readiness check that does not
      consult the local server: an unknown provider, and the cloud provider
      with and without a key. */
  lemma StartupCheckMessages(config: Config, probe: Probe)
    ensures config.provider != "ollama" && config.provider != "openai" ==>
      StartupCheck(config, probe) == Ok(Readiness(false, InvalidProviderMessage))
    ensures config.provider == "openai" && config.apiKey == [] ==>
      StartupCheck(config, probe)
      == Ok(Readiness(false, "OPENAI_API_KEY is not set. Set it in your environment before running."))
    ensures config.provider == "openai" && config.apiKey != [] ==>
      StartupCheck(config, probe) == Ok(Readiness(true, ""))
  {
    if config.provider != "ollama" {
      ProbeOnlyForLocal(config, probe, ProbeConnectError);
    }
  }

  /** The local provider's outcomes: a refused connection, another HTTP
      failure, a model list without or with the configured model, and a
      body that cannot be decoded. */
  lemma LocalStartupMessages(config: Config, probe: Probe)
    requires config.provider == "ollama"
    ensures probe.ProbeConnectError? ==>
      StartupCheck(config, probe)
      == Ok(Readiness(false, "Could not connect to Ollama at " + config.ollamaBaseUrl + ". "
                             + "Start Ollama using: ollama serve"))
    ensures probe.ProbeHttpError? ==>
      StartupCheck(config, probe) == Ok(Readiness(false, "Failed to check Ollama status: " + probe.message))
    ensures probe.ProbeReply? && probe.body.Tags? && !Installed(probe.body.models, config.ollamaModel) ==>
      StartupCheck(config, probe)
      == Ok(Readiness(false, "Model '" + config.ollamaModel + "' is not installed. Run: ollama pull "
                             + config.ollamaModel))
    ensures probe.ProbeReply? && probe.body.Tags? && Installed(probe.body.models, config.ollamaModel) ==>
      StartupCheck(config, probe) == Ok(Readiness(true, ""))
    ensures probe.ProbeReply? && probe.body.BadBody? ==>
      StartupCheck(config, probe) == Err(probe.body.failure)
  {
  }

  /** With the default fallback, "auto" always resolves to a catalog key. */
  lemma AutoResolvesToCatalogMode(userInput: string)
    ensures Prompts.InCatalog(SelectedMode(userInput, "auto"))
  {
    Evaluator.ClassifyResultRange(Evaluator.Table, userInput, "detailed");
    Prompts.CatalogMatchesClassifier();
    assert Prompts.CatalogModes()[1] == "detailed";
  }

  /** The failure kinds each backend retries, and the ones it surfaces at
      once: an HTTP status error on the local path; an authentication
      error, a rate limit or any other API error on the cloud path. */
  lemma RetryableKinds(f: Failure)
    ensures Retryable(Cloud, f) <==> f.kind == ApiConnectionErr
    ensures Retryable(Local, f) <==> f.kind == ConnectErr || f.kind == ReadTimeout
    ensures f.kind == HttpStatusErr ==> !Retryable(Local, f)
    ensures f.kind == AuthenticationErr || f.kind == RateLimitErr || f.kind == ApiErr ==> !Retryable(Cloud, f)
  {
  }

  /** A selected mode never makes dispatch fail on its instruction lookup,
      and a rejected one names the normalised input. */
  lemma SelectedModesDispatch(raw: string, userInput: string)
    ensures SelectMode(raw).Selected? ==> Prompts.GetSystemPrompt(SelectedMode(userInput, SelectMode(raw).mode)).Ok?
    ensures SelectMode(raw).Rejected? ==>
      SelectMode(raw).message == "Invalid mode: " + NormaliseMode(raw) + ". Use auto or one of: "
                                 + Prompts.SupportedList()
  {
    if SelectMode(raw).Selected? {
      SelectableModeHasInstruction(userInput, SelectMode(raw).mode);
    }
  }
}
