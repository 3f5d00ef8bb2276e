/**
 * Lifecycle of the on-device vision-language service: activation, the
 * one-frame-per-second throttle, the single running analysis, cached model
 * loading and the token callback that stops generation.
 *
 * Time is an integer number of milliseconds; `Date.distantPast` is `None`.
 * The model container is an opaque token; loading it and running inference
 * are inputs (`LoadOutcome`, `GenerationOutcome`). Each Swift `Task` running
 * an analysis is an index into `taskCancelled`.
 */
module FastVLMService {
  import opened Wrappers
  import opened Json

  datatype EvaluationState = Idle | Loading | ProcessingPrompt | GeneratingResponse

  /** The raw values of `EvaluationState`. */
  function Label(s: EvaluationState): (t: string)
    ensures t != []
  {
    match s
    case Idle => "Idle"
    case Loading => "Loading Model"
    case ProcessingPrompt => "Processing"
    case GeneratingResponse => "Generating"
  }

  lemma LabelInjective(a: EvaluationState, b: EvaluationState)
    requires Label(a) == Label(b)
    ensures a == b
  {
  }

  datatype LoadState = NotLoaded | Loaded(container: nat)

  datatype LoadOutcome = LoadSucceeds(container: nat) | LoadFails(error: string)

  datatype GenerationOutcome = Generated(text: string) | GenerationFails(error: string)

  const MaxTokens: nat := 240
  const DisplayEveryNTokens: nat := 4
  const FrameIntervalMs: int := 1000
  const DefaultPrompt: string := "Describe what you see briefly, about 15 words or less."

  // ---------------------------------------------------------------------------
  // The token callback

  /** What the generate callback decides after seeing `count` tokens. */
  datatype TokenDecision = TokenDecision(stop: bool, refreshOutput: bool, reportFirstToken: bool)

  function OnTokens(count: nat, cancelled: bool, seenFirstToken: bool): (d: TokenDecision)
    ensures d.stop <==> cancelled || count >= MaxTokens
    ensures d.refreshOutput <==> !cancelled && count % DisplayEveryNTokens == 0
    ensures d.reportFirstToken <==> !cancelled && !seenFirstToken
  {
    if cancelled then TokenDecision(true, false, false)
    else TokenDecision(count >= MaxTokens, count % DisplayEveryNTokens == 0, !seenFirstToken)
  }

  /**
   * How many tokens a generation produces when the model could produce
   * `available` of them: the library calls the callback after each token
   * with all tokens so far (`produced + 1` of them) and stops when it says
   * stop or the model is done.
   */
  function TokensProduced(available: nat, produced: nat): (r: nat)
    requires produced <= available
    ensures produced <= r <= available
    decreases available - produced
  {
    if produced == available then produced
    else if OnTokens(produced + 1, false, true).stop then produced + 1
    else TokensProduced(available, produced + 1)
  }

  /** An uncancelled generation yields `min(available, 240)` tokens. */
  lemma {:induction false} TokensProducedBound(available: nat, produced: nat)
    requires produced <= available && produced < MaxTokens
    ensures TokensProduced(available, produced) == if available < MaxTokens then available else MaxTokens
    decreases available - produced
  {
    if produced < available && produced + 1 < MaxTokens {
      TokensProducedBound(available, produced + 1);
    }
  }

  // ---------------------------------------------------------------------------
  // The frame throttle

  /** `now.timeIntervalSince(lastFrameTime) >= frameInterval` */
  predicate ThrottleAllows(lastFrameTime: Option<int>, now: int): (b: bool)
    ensures lastFrameTime.None? ==> b
    ensures lastFrameTime.Some? ==> (b <==> now >= lastFrameTime.value + FrameIntervalMs)
  {
    lastFrameTime.None? || now - lastFrameTime.value >= FrameIntervalMs
  }

  /** The frame times, out of `times`, that the throttle lets through. */
  function AcceptedFrames(lastFrameTime: Option<int>, times: seq<int>): (r: seq<int>)
    ensures |r| <= |times|
    decreases times
  {
    if times == [] then []
    else if ThrottleAllows(lastFrameTime, times[0])
    then [times[0]] + AcceptedFrames(Some(times[0]), times[1..])
    else AcceptedFrames(lastFrameTime, times[1..])
  }

  /** Every accepted frame time is at least `bound`. */
  lemma {:induction false} AcceptedFramesAbove(last: int, times: seq<int>, k: nat)
    requires k < |AcceptedFrames(Some(last), times)|
    ensures AcceptedFrames(Some(last), times)[k] >= last + FrameIntervalMs
    decreases times
  {
    if ThrottleAllows(Some(last), times[0]) {
      if k > 0 {
        AcceptedFramesAbove(times[0], times[1..], k - 1);
      }
    } else {
      AcceptedFramesAbove(last, times[1..], k);
    }
  }

  /** Analyses are started at most once per second: accepted times are 1000 ms apart. */
  lemma {:induction false} AcceptedFramesSpaced(lastFrameTime: Option<int>, times: seq<int>, k: nat)
    requires k + 1 < |AcceptedFrames(lastFrameTime, times)|
    ensures AcceptedFrames(lastFrameTime, times)[k + 1] - AcceptedFrames(lastFrameTime, times)[k] >= FrameIntervalMs
    decreases times
  {
    if ThrottleAllows(lastFrameTime, times[0]) {
      if k == 0 {
        AcceptedFramesAbove(times[0], times[1..], 0);
      } else {
        AcceptedFramesSpaced(Some(times[0]), times[1..], k - 1);
      }
    } else {
      AcceptedFramesSpaced(lastFrameTime, times[1..], k);
    }
  }

  // ---------------------------------------------------------------------------
  // The service

  class Service {
    var isActive: bool
    var isRunning: bool
    var output: string
    var ttft: string
    var modelInfo: string
    var evaluationState: EvaluationState
    var prompt: string
    var loadState: LoadState
    var currentTask: Option<nat>
    /** `Task.isCancelled` of every analysis task created so far. */
    var taskCancelled: seq<bool>
    /** Whether the body of each analysis task has already run. */
    ghost var taskFinished: seq<bool>
    var lastFrameTime: Option<int>
    /** How many times the model factory was asked to load the container. */
    ghost var loaderCalls: nat

    ghost predicate Valid()
      reads this
    {
      && |taskFinished| == |taskCancelled|
      && (currentTask.Some? ==> currentTask.value < |taskCancelled|)
    }

    constructor ()
      ensures Valid()
      ensures !isActive && !isRunning && output == "" && ttft == "" && modelInfo == ""
      ensures evaluationState == Idle && prompt == DefaultPrompt && loadState == NotLoaded
      ensures currentTask == None && taskCancelled == [] && lastFrameTime == None && loaderCalls == 0
      ensures taskFinished == []
    {
      isActive, isRunning := false, false;
      output, ttft, modelInfo := "", "", "";
      evaluationState := Idle;
      prompt := DefaultPrompt;
      loadState := NotLoaded;
      currentTask := None;
      taskCancelled := [];
      taskFinished := [];
      lastFrameTime := None;
      loaderCalls := 0;
    }

    /** `_load()`: load once, then hand out the cached container. */
    method LoadContainer(outcome: LoadOutcome) returns (r: Result<nat, string>)
      modifies this
      ensures old(loadState).Loaded? ==>
        r == Ok(old(loadState).container) && loadState == old(loadState)
        && evaluationState == old(evaluationState) && modelInfo == old(modelInfo)
        && loaderCalls == old(loaderCalls)
      ensures old(loadState).NotLoaded? ==> loaderCalls == old(loaderCalls) + 1
      ensures old(loadState).NotLoaded? && outcome.LoadSucceeds? ==>
        r == Ok(outcome.container) && loadState == Loaded(outcome.container)
        && evaluationState == Idle && modelInfo == "Model loaded"
      ensures old(loadState).NotLoaded? && outcome.LoadFails? ==>
        r == Err(outcome.error) && loadState == NotLoaded
        && evaluationState == Loading && modelInfo == old(modelInfo)
      ensures isActive == old(isActive) && isRunning == old(isRunning)
      ensures output == old(output) && ttft == old(ttft) && prompt == old(prompt)
      ensures currentTask == old(currentTask) && taskCancelled == old(taskCancelled)
      ensures taskFinished == old(taskFinished) && lastFrameTime == old(lastFrameTime)
    {
      match loadState {
        case NotLoaded =>
          evaluationState := Loading;
          loaderCalls := loaderCalls + 1;
          match outcome {
            case LoadSucceeds(container) =>
              modelInfo := "Model loaded";
              evaluationState := Idle;
              loadState := Loaded(container);
              r := Ok(container);
            case LoadFails(error) =>
              r := Err(error);
          }
        case Loaded(container) =>
          r := Ok(container);
      }
    }

    /** The progress callback posted while the container loads. */
    method ReportLoadProgress(percent: int)
      modifies this`modelInfo
      ensures modelInfo == "Loading model: " + IntToString(percent) + "%"
    {
      modelInfo := "Loading model: " + IntToString(percent) + "%";
    }

    /** `load()`: a failure is reported and the evaluation state returns to idle. */
    method Load(outcome: LoadOutcome)
      modifies this
      ensures old(loadState).Loaded? ==>
        loadState == old(loadState) && evaluationState == old(evaluationState)
        && modelInfo == old(modelInfo) && loaderCalls == old(loaderCalls)
      ensures old(loadState).NotLoaded? ==> evaluationState == Idle && loaderCalls == old(loaderCalls) + 1
      ensures old(loadState).NotLoaded? && outcome.LoadSucceeds? ==>
        loadState == Loaded(outcome.container) && modelInfo == "Model loaded"
      ensures old(loadState).NotLoaded? && outcome.LoadFails? ==>
        loadState == NotLoaded && modelInfo == "Error loading model: " + outcome.error
      ensures isActive == old(isActive) && isRunning == old(isRunning)
      ensures output == old(output) && ttft == old(ttft) && prompt == old(prompt)
      ensures currentTask == old(currentTask) && taskCancelled == old(taskCancelled)
      ensures taskFinished == old(taskFinished) && lastFrameTime == old(lastFrameTime)
    {
      var r := LoadContainer(outcome);
      if r.Err? {
        modelInfo := "Error loading model: " + r.error;
        evaluationState := Idle;
      }
    }

    /**
     * `analyze(_:)`: unless an analysis is running, cancel the previous task
     * and install a new one. `imageOk` says whether the frame converts to a
     * `CIImage`.
     */
    method Analyze(imageOk: bool) returns (started: Option<nat>)
      requires Valid()
      modifies this
      ensures Valid()
      ensures started.Some? <==> imageOk && !old(isRunning)
      ensures started.None? ==>
        && isRunning == old(isRunning) && currentTask == old(currentTask)
        && taskCancelled == old(taskCancelled) && taskFinished == old(taskFinished)
      ensures started.Some? ==>
        && started.value == old(|taskCancelled|)
        && isRunning && currentTask == started
        && taskCancelled == (if old(currentTask).Some?
                             then old(taskCancelled)[old(currentTask).value := true]
                             else old(taskCancelled)) + [false]
        && taskFinished == old(taskFinished) + [false]
      ensures isActive == old(isActive) && output == old(output) && ttft == old(ttft)
      ensures modelInfo == old(modelInfo) && evaluationState == old(evaluationState)
      ensures prompt == old(prompt) && loadState == old(loadState) && lastFrameTime == old(lastFrameTime)
      ensures loaderCalls == old(loaderCalls)
    {
      if !imageOk {
        return None;
      }
      if isRunning {
        return None;
      }
      isRunning := true;
      if currentTask.Some? {
        taskCancelled := taskCancelled[currentTask.value := true];
      }
      var handle := |taskCancelled|;
      taskCancelled := taskCancelled + [false];
      taskFinished := taskFinished + [false];
      currentTask := Some(handle);
      started := Some(handle);
    }

    /**
     * The body of analysis task `handle`. A cancelled task keeps its output
     * out of `output`; one cancelled after the model is ready returns before
     * the clean-up, any other resets a `generatingResponse` state to idle and
     * clears `isRunning`.
     */
    method RunAnalysis(handle: nat, loadOutcome: LoadOutcome, generation: GenerationOutcome)
      requires Valid() && handle < |taskCancelled| && !taskFinished[handle]
      modifies this
      ensures Valid()
      ensures currentTask == old(currentTask) && taskCancelled == old(taskCancelled)
      ensures taskFinished == old(taskFinished)[handle := true]
      ensures isActive == old(isActive) && lastFrameTime == old(lastFrameTime) && prompt == old(prompt)
      ensures ttft == old(ttft)
      ensures old(loadState).Loaded? ==> loadState == old(loadState) && loaderCalls == old(loaderCalls)
      ensures old(loadState).NotLoaded? ==> loaderCalls == old(loaderCalls) + 1
      ensures old(loadState).NotLoaded? ==>
        && loadState == (if loadOutcome.LoadSucceeds? then Loaded(loadOutcome.container) else NotLoaded)
        && modelInfo == (if loadOutcome.LoadSucceeds? then "Model loaded" else old(modelInfo))
      ensures old(loadState).Loaded? ==> modelInfo == old(modelInfo)
      ensures var loaded := old(loadState).Loaded? || loadOutcome.LoadSucceeds?;
        var cancelled := taskCancelled[handle];
        var before := if old(loadState).NotLoaded? && loadOutcome.LoadSucceeds? then Idle
                      else if old(loadState).NotLoaded? then Loading
                      else old(evaluationState);
        && (loaded && cancelled ==> isRunning == old(isRunning) && evaluationState == before
                                    && output == old(output))
        && (!(loaded && cancelled) ==>
              && !isRunning
              && evaluationState == (if before == GeneratingResponse then Idle else before)
              && output == (if cancelled then old(output)
                            else if !loaded then "Failed: " + loadOutcome.error
                            else if generation.Generated? then generation.text
                            else "Failed: " + generation.error))
    {
      taskFinished := taskFinished[handle := true];
      var container := LoadContainer(loadOutcome);
      if container.Err? {
        if !taskCancelled[handle] {
          output := "Failed: " + container.error;
        }
      } else {
        if taskCancelled[handle] {
          return;
        }
        match generation {
          case Generated(text) =>
            if !taskCancelled[handle] {
              output := text;
            }
          case GenerationFails(error) =>
            if !taskCancelled[handle] {
              output := "Failed: " + error;
            }
        }
      }
      if evaluationState == GeneratingResponse {
        evaluationState := Idle;
      }
      isRunning := false;
    }

    /** Posted when the prompt starts being processed. */
    method OnProcessingPrompt()
      modifies this`evaluationState
      ensures evaluationState == ProcessingPrompt
    {
      evaluationState := ProcessingPrompt;
    }

    /** Posted on the first token: the text so far and the time to first token. */
    method OnFirstToken(text: string, durationMs: int)
      modifies this`evaluationState, this`output, this`ttft
      ensures evaluationState == GeneratingResponse && output == text
      ensures ttft == IntToString(durationMs) + "ms"
    {
      evaluationState := GeneratingResponse;
      output := text;
      ttft := IntToString(durationMs) + "ms";
    }

    /** Posted every `DisplayEveryNTokens` tokens with the text so far. */
    method OnDisplayRefresh(text: string)
      modifies this`output
      ensures output == text
    {
      output := text;
    }

    /**
     * `analyzeIfReady(image:)`: when active and a second has passed since the
     * last accepted frame, remember `now` and schedule an analysis.
     */
    method AnalyzeIfReady(now: int) returns (scheduled: bool)
      modifies this`lastFrameTime
      ensures scheduled <==> old(isActive) && ThrottleAllows(old(lastFrameTime), now)
      ensures lastFrameTime == if scheduled then Some(now) else old(lastFrameTime)
    {
      if !isActive {
        return false;
      }
      if !ThrottleAllows(lastFrameTime, now) {
        return false;
      }
      lastFrameTime := Some(now);
      scheduled := true;
    }

    /** `cancel()` */
    method Cancel()
      requires Valid()
      modifies this
      ensures Valid()
      ensures currentTask == None && !isRunning && output == "" && ttft == "" && evaluationState == Idle
      ensures taskCancelled == if old(currentTask).Some?
                               then old(taskCancelled)[old(currentTask).value := true]
                               else old(taskCancelled)
      ensures taskFinished == old(taskFinished)
      ensures isActive == old(isActive) && modelInfo == old(modelInfo) && prompt == old(prompt)
      ensures loadState == old(loadState) && lastFrameTime == old(lastFrameTime)
      ensures loaderCalls == old(loaderCalls)
    {
      if currentTask.Some? {
        taskCancelled := taskCancelled[currentTask.value := true];
      }
      currentTask := None;
      isRunning := false;
      output := "";
      ttft := "";
      evaluationState := Idle;
    }

    /** `stop()`: deactivate, then everything `cancel()` does. */
    method Stop()
      requires Valid()
      modifies this
      ensures Valid()
      ensures !isActive
      ensures currentTask == None && !isRunning && output == "" && ttft == "" && evaluationState == Idle
      ensures taskCancelled == if old(currentTask).Some?
                               then old(taskCancelled)[old(currentTask).value := true]
                               else old(taskCancelled)
      ensures taskFinished == old(taskFinished)
      ensures modelInfo == old(modelInfo) && prompt == old(prompt)
      ensures loadState == old(loadState) && lastFrameTime == old(lastFrameTime)
      ensures loaderCalls == old(loaderCalls)
    {
      isActive := false;
      Cancel();
    }

    /** `start()`: activate, clear the output, and load the model. */
    method Start(outcome: LoadOutcome)
      requires Valid()
      modifies this
      ensures Valid()
      ensures isActive && output == "" && ttft == ""
      ensures old(loadState).Loaded? ==>
        loadState == old(loadState) && evaluationState == old(evaluationState)
        && loaderCalls == old(loaderCalls)
      ensures old(loadState).NotLoaded? ==> evaluationState == Idle && loaderCalls == old(loaderCalls) + 1
      ensures old(loadState).NotLoaded? ==>
        loadState == if outcome.LoadSucceeds? then Loaded(outcome.container) else NotLoaded
      ensures old(loadState).NotLoaded? ==>
        modelInfo == if outcome.LoadSucceeds? then "Model loaded" else "Error loading model: " + outcome.error
      ensures old(loadState).Loaded? ==> modelInfo == old(modelInfo)
      ensures isRunning == old(isRunning) && currentTask == old(currentTask)
      ensures taskCancelled == old(taskCancelled) && taskFinished == old(taskFinished)
      ensures lastFrameTime == old(lastFrameTime) && prompt == old(prompt)
    {
      isActive := true;
      output := "";
      ttft := "";
      Load(outcome);
    }
  }

  /**
   * A worked example of the cache: two distinct analysis tasks in a row, the
   * first of which loads the model, ask the loader only once.
   */
  method AnalysesLoadOnce(s: Service, h1: nat, h2: nat, container: nat, second: LoadOutcome,
                          g1: GenerationOutcome, g2: GenerationOutcome)
    requires s.Valid() && h1 < |s.taskCancelled| && h2 < |s.taskCancelled| && h1 != h2
    requires !s.taskFinished[h1] && !s.taskFinished[h2] && s.loadState == NotLoaded
    modifies s
    ensures s.loadState == Loaded(container) && s.loaderCalls == old(s.loaderCalls) + 1
  {
    s.RunAnalysis(h1, LoadSucceeds(container), g1);
    s.RunAnalysis(h2, second, g2);
  }
}
