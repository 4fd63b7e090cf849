/**
 * What both JUnit rules share: the test method's body and annotations as the rule sees them,
 * the events of an evaluation, running a list of callbacks in order, and defaulting the
 * runner's provider state and interaction description from the annotations.
 */
module RuleLifecycle {
  import opened Wrappers
  import opened PactModel
  import opened Runner
  import opened EositRequestBuilder

  /** The `@ProviderState` and `@InteractionDescription` annotations of the test method, when
      present. */
  datatype TestDescription = TestDescription(providerState: Option<string>, interactionDescription: Option<string>)

  /** The test method: the configuration calls it makes on the rule's runner, in order, and
      whether it then throws. */
  datatype TestBody = TestBody(actions: seq<ConfigAction>, throws: bool)

  datatype Phase = Before | After

  /** What an evaluation does, in order. */
  datatype RuleEvent =
    | CallbackCalled(phase: Phase, callback: Callback)
    | BodyEvaluated
    | RunnerRan(pacts: set<Pact>, config: RunnerConfig, outcome: RunOutcome)

  /** The events of an evaluation and the exception it ends with, if any. */
  datatype Evaluation = Evaluation(events: seq<RuleEvent>, error: Option<Exception>)

  const BeforeCallbackFailure := UserCodeFailure("before callback")
  const AfterCallbackFailure := UserCodeFailure("after callback")
  const BodyFailure := UserCodeFailure("test body")

  /** The position of the first callback that throws, or the length when none does. */
  function FirstThrow(callbacks: seq<Callback>): (r: nat)
    ensures r <= |callbacks|
    ensures forall k :: 0 <= k < r ==> !callbacks[k].throws
    ensures r < |callbacks| ==> callbacks[r].throws
  {
    if callbacks == [] then 0
    else if callbacks[0].throws then 0
    else 1 + FirstThrow(callbacks[1..])
  }

  /** The callbacks a for-each over the list calls: all of them, or those up to and
      including the first that throws. */
  function CallsMade(callbacks: seq<Callback>): seq<Callback> {
    if FirstThrow(callbacks) < |callbacks| then callbacks[..FirstThrow(callbacks) + 1] else callbacks
  }

  function Calls(phase: Phase, callbacks: seq<Callback>): seq<RuleEvent> {
    seq(|callbacks|, k requires 0 <= k < |callbacks| => CallbackCalled(phase, callbacks[k]))
  }

  /** `callbacks.forEach(Runnable::run)`: the callbacks are called in list order until one
      throws. */
  method RunCallbacks(phase: Phase, callbacks: seq<Callback>) returns (events: seq<RuleEvent>, threw: bool)
    ensures threw <==> FirstThrow(callbacks) < |callbacks|
    ensures events == Calls(phase, CallsMade(callbacks))
  {
    events := [];
    for k := 0 to |callbacks|
      invariant k <= FirstThrow(callbacks)
      invariant events == Calls(phase, callbacks[..k])
    {
      events := events + [CallbackCalled(phase, callbacks[k])];
      if callbacks[k].throws {
        return events, true;
      }
    }
    assert callbacks[..|callbacks|] == callbacks;
    threw := false;
  }

  /** `if (!runner.providerState().isPresent()) runner.providerState(annotation)`. */
  function DefaultState(c: RunnerConfig, annotation: Option<string>): RunnerConfig {
    if c.providerState.Some? then c else c.(providerState := annotation)
  }

  /** The same for the interaction description. */
  function DefaultDescription(c: RunnerConfig, annotation: Option<string>): RunnerConfig {
    if c.interactionDescription.Some? then c else c.(interactionDescription := annotation)
  }

  /** Explicit configuration wins: the provider state a run uses is the last one the test body
      set, and the annotation's only when the body set none (or last reset it to null). */
  lemma {:induction false} ExplicitStateWins(actions: seq<ConfigAction>, annotation: Option<string>)
    ensures DefaultState(UpdatedAll(InitialConfig, actions), annotation).providerState
         == if LastState(None, actions).Some? then LastState(None, actions) else annotation
  {
    UpdatedAllLast(InitialConfig, actions);
  }

  /** The same precedence for the interaction description. */
  lemma {:induction false} ExplicitDescriptionWins(actions: seq<ConfigAction>, annotation: Option<string>)
    ensures DefaultDescription(UpdatedAll(InitialConfig, actions), annotation).interactionDescription
         == if LastDescription(None, actions).Some? then LastDescription(None, actions) else annotation
  {
    UpdatedAllLast(InitialConfig, actions);
  }

  /** An evaluation that got past the before-callbacks: the before-callbacks and the body ran;
      unless the body threw, the runner ran with the pacts and with `config`, the settings the
      body left after defaulting, and did what `RunMeets` says; then the after-callbacks ran in
      order until one threw. The evaluation ends with the after-callback's exception, else the
      body's, else the run's. */
  predicate EvaluatedAs(pacts: set<Pact>, before: seq<Callback>, after: seq<Callback>, body: TestBody,
                        config: RunnerConfig, decode: Decoder, e: Evaluation)
  {
    EvaluationShape(pacts, before, after, body, config, e)
    && (!body.throws ==> RunMeets(pacts, config, decode, e.events[|Calls(Before, before)| + 1].outcome))
  }

  /** The order of events and the final exception of such an evaluation, leaving aside what the
      run itself did. */
  predicate EvaluationShape(pacts: set<Pact>, before: seq<Callback>, after: seq<Callback>, body: TestBody,
                            config: RunnerConfig, e: Evaluation)
  {
    var pre := Calls(Before, before) + [BodyEvaluated];
    var post := Calls(After, CallsMade(after));
    var afterError := if FirstThrow(after) < |after| then Some(AfterCallbackFailure) else None;
    if body.throws then
      e.events == pre + post
      && e.error == if afterError.Some? then afterError else Some(BodyFailure)
    else
      |e.events| == |pre| + 1 + |post|
      && e.events[..|pre|] == pre
      && e.events[|pre| + 1..] == post
      && e.events[|pre|].RunnerRan?
      && e.events[|pre|].pacts == pacts
      && e.events[|pre|].config == config
      && e.error == if afterError.Some? then afterError else e.events[|pre|].outcome.error
  }

  /** The evaluation assembled from its parts: the before-callbacks, the body, the run when
      there was one, and the after-callbacks. */
  lemma EvaluatedAsIntro(pacts: set<Pact>, before: seq<Callback>, after: seq<Callback>, body: TestBody,
                         config: RunnerConfig, decode: Decoder, run: Option<RunOutcome>, e: Evaluation)
    requires run.None? <==> body.throws
    requires run.Some? ==> RunMeets(pacts, config, decode, run.value)
    requires e.events == Calls(Before, before) + [BodyEvaluated]
                         + (if run.Some? then [RunnerRan(pacts, config, run.value)] else [])
                         + Calls(After, CallsMade(after))
    requires e.error == if FirstThrow(after) < |after| then Some(AfterCallbackFailure)
                        else if run.None? then Some(BodyFailure) else run.value.error
    ensures EvaluatedAs(pacts, before, after, body, config, decode, e)
  {
    ShapeIntro(pacts, before, after, body, config, run, e);
  }

  lemma ShapeIntro(pacts: set<Pact>, before: seq<Callback>, after: seq<Callback>, body: TestBody,
                   config: RunnerConfig, run: Option<RunOutcome>, e: Evaluation)
    requires run.None? <==> body.throws
    requires e.events == Calls(Before, before) + [BodyEvaluated]
                         + (if run.Some? then [RunnerRan(pacts, config, run.value)] else [])
                         + Calls(After, CallsMade(after))
    requires e.error == if FirstThrow(after) < |after| then Some(AfterCallbackFailure)
                        else if run.None? then Some(BodyFailure) else run.value.error
    ensures EvaluationShape(pacts, before, after, body, config, e)
    ensures run.Some? ==> e.events[|Calls(Before, before)| + 1] == RunnerRan(pacts, config, run.value)
  {
    var pre := Calls(Before, before) + [BodyEvaluated];
    var post := Calls(After, CallsMade(after));
    if run.Some? {
      RanShape(pre, RunnerRan(pacts, config, run.value), post, e.events);
    } else {
      assert pre + [] == pre;
      assert e.events == pre + post;
    }
  }

  lemma RanShape(pre: seq<RuleEvent>, ran: RuleEvent, post: seq<RuleEvent>, events: seq<RuleEvent>)
    requires events == pre + [ran] + post
    ensures |events| == |pre| + 1 + |post|
    ensures events[..|pre|] == pre && events[|pre|] == ran && events[|pre| + 1..] == post
  {
  }

  /** The part of an evaluation inside the `try`, for a fresh runner: the body configures the
      runner; unless it throws, what it left unset is taken from the annotations (the
      description only when `withDescription`) and the runner runs. */
  method RunBody(r: PactTestRunner, body: TestBody, description: TestDescription, withDescription: bool,
                 decode: Decoder)
    returns (run: Option<RunOutcome>)
    requires r.Config() == InitialConfig
    modifies r
    ensures r.pacts == old(r.pacts)
    ensures run.None? <==> body.throws
    ensures run.Some? ==> RunMeets(r.pacts, BodyConfig(body, description, withDescription), decode, run.value)
  {
    r.ApplyAll(body.actions);
    if body.throws {
      return None;
    }
    if r.providerState.None? {
      r.Apply(SetProviderState(description.providerState));
    }
    if withDescription && r.interactionDescription.None? {
      r.Apply(SetInteractionDescription(description.interactionDescription));
    }
    var outcome := r.Run(decode);
    run := Some(outcome);
  }

  /** The settings a run uses: the body's, then the annotations for what it left unset. */
  function BodyConfig(body: TestBody, description: TestDescription, withDescription: bool): RunnerConfig {
    var c := DefaultState(UpdatedAll(InitialConfig, body.actions), description.providerState);
    if withDescription then DefaultDescription(c, description.interactionDescription) else c
  }

  /** Once the body has started, the after-callbacks run whatever the body or the run does:
      the evaluation ends with the calls of all of them when none throws, and with the calls up
      to the first throwing one otherwise, whose exception it then reports. */
  lemma AfterCallbacksRun(pacts: set<Pact>, before: seq<Callback>, after: seq<Callback>, body: TestBody,
                          config: RunnerConfig, decode: Decoder, e: Evaluation)
    requires EvaluatedAs(pacts, before, after, body, config, decode, e)
    ensures |CallsMade(after)| <= |e.events|
    ensures e.events[|e.events| - |CallsMade(after)|..] == Calls(After, CallsMade(after))
    ensures FirstThrow(after) == |after| ==> CallsMade(after) == after
    ensures FirstThrow(after) < |after| ==> e.error == Some(AfterCallbackFailure)
  {
  }
}
