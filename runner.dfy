/**
 * `PactTestRunner`: holds the pacts and the settings of one provider test, selects the
 * interaction for the configured provider state among the pacts that pass the provider and
 * consumer filters, performs its request on the MockMvc and hands every expectation derived
 * from the declared response, plus the extra result matchers, to the result.
 */
module Runner {
  import opened Wrappers
  import opened PactModel
  import opened Streams
  import opened ConversionUtils
  import opened MockMvc
  import opened EositRequestBuilder

  /** A `MockMvc` instance, known only by identity. */
  datatype Server = Server(id: nat)

  /** A piece of user code the runner or the rule calls; `throws` says whether it ends by
      throwing. What else it does is not modelled. */
  datatype Callback = Callback(id: nat, throws: bool)

  /** A `ResultMatcher`: the three kinds derived from a declared response, and matchers the
      user adds, known only by identity. */
  datatype Expectation =
    | Status(code: int)
    | JsonBody(json: string)
    | Header(name: string, value: string)
    | UserMatcher(id: nat)

  /** What a run does, in order, up to the expectations. */
  datatype RunEvent =
    | RequestCallbackCalled(callback: Callback)
    | Performed(server: Server, request: MockRequest)
    | ResponseCallbackCalled(callback: Callback)

  /** The interaction a run selected, its events, the expectations handed to the result (in
      the order they were handed over), and the exception it ended with, if any. */
  datatype RunOutcome = RunOutcome(
    selected: Option<Interaction>, events: seq<RunEvent>, expectations: seq<Expectation>,
    error: Option<Exception>)

  /** Every setting of a runner except its pacts. */
  datatype RunnerConfig = RunnerConfig(
    consumer: Option<string>, provider: Option<string>, providerState: Option<string>,
    interactionDescription: Option<string>, contextPath: Option<string>,
    mockMvc: Option<Server>, requestCallback: Option<Callback>, responseCallback: Option<Callback>,
    resultMatchers: set<Expectation>)

  /** One call a test makes on the runner to configure it. */
  datatype ConfigAction =
    | SetConsumer(consumer: Option<string>)
    | SetProvider(provider: Option<string>)
    | SetProviderState(state: Option<string>)
    | SetInteractionDescription(description: Option<string>)
    | SetContextPath(path: Option<string>)
    | SetMockMvc(server: Option<Server>)
    | SetRequestCallback(callback: Option<Callback>)
    | SetResponseCallback(callback: Option<Callback>)
    | AddResultMatchers(matchers: seq<Expectation>)

  const NoStateMessage := "No provider state defined. Set one explicitly or use the ProviderState annotation"
  const NoMockMvcMessage := "A MockMvc must be provided to perform the request."

  /** The settings of a fresh runner: nothing set, no extra matchers. */
  const InitialConfig := RunnerConfig(None, None, None, None, None, None, None, None, {})

  /** The effect of one configuration call. */
  function Updated(c: RunnerConfig, a: ConfigAction): RunnerConfig {
    match a
    case SetConsumer(x) => c.(consumer := x)
    case SetProvider(x) => c.(provider := x)
    case SetProviderState(x) => c.(providerState := x)
    case SetInteractionDescription(x) => c.(interactionDescription := x)
    case SetContextPath(x) => c.(contextPath := x)
    case SetMockMvc(x) => c.(mockMvc := x)
    case SetRequestCallback(x) => c.(requestCallback := x)
    case SetResponseCallback(x) => c.(responseCallback := x)
    case AddResultMatchers(ms) => c.(resultMatchers := c.resultMatchers + set m | m in ms)
  }

  /** The effect of a series of configuration calls, in order. */
  function UpdatedAll(c: RunnerConfig, actions: seq<ConfigAction>): RunnerConfig
    decreases |actions|
  {
    if actions == [] then c else UpdatedAll(Updated(c, actions[0]), actions[1..])
  }

  /** The last value a series of calls gave the provider state, or `initial` when none of
      them set it. */
  function LastState(initial: Option<string>, actions: seq<ConfigAction>): Option<string>
    decreases |actions|
  {
    if actions == [] then initial
    else LastState(if actions[0].SetProviderState? then actions[0].state else initial, actions[1..])
  }

  /** The last value a series of calls gave the interaction description, or `initial`. */
  function LastDescription(initial: Option<string>, actions: seq<ConfigAction>): Option<string>
    decreases |actions|
  {
    if actions == [] then initial
    else LastDescription(if actions[0].SetInteractionDescription? then actions[0].description else initial,
                         actions[1..])
  }

  /** Setters overwrite: after a series of calls the provider state and the interaction
      description are the ones the last calls setting them gave, and the extra matchers have
      only grown. */
  lemma {:induction false} UpdatedAllLast(c: RunnerConfig, actions: seq<ConfigAction>)
    ensures UpdatedAll(c, actions).providerState == LastState(c.providerState, actions)
    ensures UpdatedAll(c, actions).interactionDescription == LastDescription(c.interactionDescription, actions)
    ensures c.resultMatchers <= UpdatedAll(c, actions).resultMatchers
    decreases |actions|
  {
    if actions != [] {
      UpdatedAllLast(Updated(c, actions[0]), actions[1..]);
    }
  }

  /** The provider filter of `findInteraction` (and of the rule builders). */
  function ProviderMatch(provider: Option<string>): Pact -> bool {
    (p: Pact) => Admits(provider, Some(p.provider))
  }

  /** The consumer filter of `findInteraction` (and of the rule builders). */
  function ConsumerMatch(consumer: Option<string>): Pact -> bool {
    (p: Pact) => Admits(consumer, Some(p.consumer))
  }

  /** The pacts that pass the provider filter and then the consumer filter, as a set; an
      unset filter admits every pact. */
  function PactFilter(pacts: set<Pact>, provider: Option<string>, consumer: Option<string>): (r: set<Pact>)
    ensures r <= pacts
    ensures provider.None? && consumer.None? ==> r == pacts
  {
    set p | p in pacts && ProviderMatch(provider)(p) && ConsumerMatch(consumer)(p)
  }

  /** Filtering a stream over the pact set keeps exactly the pacts of `PactFilter`, whatever
      order the set is streamed in. */
  lemma PactFilterStream(order: seq<Pact>, pacts: set<Pact>, provider: Option<string>, consumer: Option<string>)
    requires forall p :: p in order <==> p in pacts
    ensures forall p :: p in Filter(Filter(order, ProviderMatch(provider)), ConsumerMatch(consumer))
                        <==> p in PactFilter(pacts, provider, consumer)
  {
    var byProvider := Filter(order, ProviderMatch(provider));
    FilterSound(order, ProviderMatch(provider));
    FilterComplete(order, ProviderMatch(provider));
    FilterSound(byProvider, ConsumerMatch(consumer));
    FilterComplete(byProvider, ConsumerMatch(consumer));
  }

  /** `pacts.stream()` with the provider filter and then the consumer filter applied. */
  method FilterPacts(pacts: set<Pact>, provider: Option<string>, consumer: Option<string>)
    returns (r: seq<Pact>)
    ensures forall p :: p in r <==> p in PactFilter(pacts, provider, consumer)
  {
    var stream := StreamOf(pacts);
    PactFilterStream(stream, pacts, provider, consumer);
    r := Filter(Filter(stream, ProviderMatch(provider)), ConsumerMatch(consumer));
  }

  /** The interactions `findInteraction` may return: those of a filtered pact whose provider
      state is the configured one and whose description passes the description filter. */
  function Candidates(pacts: set<Pact>, c: RunnerConfig, state: string): set<Interaction> {
    set p, i | p in PactFilter(pacts, c.provider, c.consumer) && i in p.interactions
                 && i.providerState == Some(state)
                 && Admits(c.interactionDescription, Some(i.description)) :: i
  }

  /** The candidates are exactly what `getInteractions` yields for the filtered pacts,
      streamed in any order, with the configured state and description. */
  lemma CandidatesAreSelected(order: seq<Pact>, pacts: set<Pact>, c: RunnerConfig, state: string)
    requires forall p :: p in order <==> p in PactFilter(pacts, c.provider, c.consumer)
    ensures forall i :: i in GetInteractions(order, Some(state), c.interactionDescription)
                        <==> i in Candidates(pacts, c, state)
  {
    var d := c.interactionDescription;
    forall i | i in GetInteractions(order, Some(state), d)
      ensures i in Candidates(pacts, c, state)
    {
      AllInteractionsMembership(order, i);
      var p :| p in order && i in p.interactions;
      assert p in PactFilter(pacts, c.provider, c.consumer);
    }
    forall i | i in Candidates(pacts, c, state)
      ensures i in GetInteractions(order, Some(state), d)
    {
      var p :| p in PactFilter(pacts, c.provider, c.consumer) && i in p.interactions
               && i.providerState == Some(state) && Admits(d, Some(i.description));
      GetInteractionsComplete(order, Some(state), d, p, i);
    }
  }

  /** A selection of at most one interaction from a candidate set: one of them, or nothing
      when there are none. */
  predicate SelectedFrom(selected: Option<Interaction>, candidates: set<Interaction>) {
    (selected.Some? ==> selected.value in candidates) && (selected.None? ==> candidates == {})
  }

  /** The header expectations of a declared header map: one per entry. */
  function HeaderExpectations(headers: seq<HeaderEntry>): set<Expectation> {
    set e | e in headers :: Header(e.0, e.1)
  }

  /** The expectations `responseMatchers(Response)` derives: the status when declared, the
      body as JSON when present, and every declared header. */
  function DerivedExpectations(response: Response): (r: set<Expectation>)
    ensures forall n :: Status(n) in r <==> response.status == Some(n)
    ensures forall s :: JsonBody(s) in r <==> response.body == Some(s)
    ensures forall k, v :: Header(k, v) in r <==> response.headers.Some? && (k, v) in response.headers.value
    ensures forall e :: e in r ==> !e.UserMatcher?
  {
    (if response.status.Some? then {Status(response.status.value)} else {})
    + (if response.body.Some? then {JsonBody(response.body.value)} else {})
    + HeaderExpectations(response.headers.GetOr([]))
  }

  /** The expectations `responseMatchers(Interaction)` derives: none for a null or non
      request/response interaction or a missing response. */
  function InteractionExpectations(interaction: Option<Interaction>): (r: set<Expectation>)
    ensures interaction.None? || interaction.value.OtherInteraction? || interaction.value.response.None?
            ==> r == {}
  {
    if interaction.None? || interaction.value.OtherInteraction? || interaction.value.response.None? then {}
    else DerivedExpectations(interaction.value.response.value)
  }

  /** `responseMatchers(Response)`. */
  method ResponseMatchers(response: Response) returns (r: set<Expectation>)
    ensures r == DerivedExpectations(response)
  {
    r := {};
    if response.status.Some? {
      r := r + {Status(response.status.value)};
    }
    if response.body.Some? {
      r := r + {JsonBody(response.body.value)};
    }
    var base := r;
    if response.headers.Some? && |response.headers.value| > 0 {
      var headers := response.headers.value;
      for k := 0 to |headers|
        invariant r == base + HeaderExpectations(headers[..k])
      {
        assert headers[..k + 1] == headers[..k] + [headers[k]];
        r := r + {Header(headers[k].0, headers[k].1)};
      }
      assert headers[..|headers|] == headers;
    }
  }

  /** `responseMatchers(Interaction)`. */
  method ResponseMatchersFor(interaction: Option<Interaction>) returns (r: set<Expectation>)
    ensures r == InteractionExpectations(interaction)
  {
    if interaction.None? || !interaction.value.RequestResponseInteraction? {
      return {};
    }
    if interaction.value.response.None? {
      return {};
    }
    r := ResponseMatchers(interaction.value.response.value);
  }

  /** The events of a run that got as far as a request: the request callback when set. */
  function RequestEvents(requestCallback: Option<Callback>): seq<RunEvent> {
    if requestCallback.Some? then [RequestCallbackCalled(requestCallback.value)] else []
  }

  class PactTestRunner {
    var pacts: set<Pact>
    var consumer: Option<string>
    var provider: Option<string>
    var providerState: Option<string>
    var interactionDescription: Option<string>
    var contextPath: Option<string>
    var mockMvc: Option<Server>
    var requestCallback: Option<Callback>
    var responseCallback: Option<Callback>
    var resultMatchers: set<Expectation>

    function Config(): RunnerConfig
      reads this
    {
      RunnerConfig(consumer, provider, providerState, interactionDescription, contextPath,
                   mockMvc, requestCallback, responseCallback, resultMatchers)
    }

    /** `PactTestRunner(Iterable<Pact>)`: the pacts of the list (none for a null list), nothing
        else set. */
    constructor (pacts: Option<seq<Pact>>)
      ensures this.pacts == if pacts.None? then {} else set p | p in pacts.value
      ensures Config() == InitialConfig
    {
      this.pacts := if pacts.None? then {} else set p | p in pacts.value;
      consumer, provider, providerState, interactionDescription, contextPath := None, None, None, None, None;
      mockMvc, requestCallback, responseCallback, resultMatchers := None, None, None, {};
    }

    /** `PactTestRunner(Pact)`: that one pact (none for null), nothing else set. */
    constructor FromPact(pact: Option<Pact>)
      ensures pacts == if pact.None? then {} else {pact.value}
      ensures Config() == InitialConfig
    {
      pacts := if pact.None? then {} else {pact.value};
      consumer, provider, providerState, interactionDescription, contextPath := None, None, None, None, None;
      mockMvc, requestCallback, responseCallback, resultMatchers := None, None, None, {};
    }

    /** `pacts()`: the runner's pacts, as a value the caller cannot change them through. */
    method Pacts() returns (r: set<Pact>)
      ensures r == pacts
    {
      r := pacts;
    }

    /** The setters, `addResultMatchers` (both overloads) included: each changes only its own
        setting; `null` resets a filter. */
    method Apply(a: ConfigAction)
      modifies this
      ensures Config() == Updated(old(Config()), a)
      ensures pacts == old(pacts)
    {
      match a
      case SetConsumer(x) => consumer := x;
      case SetProvider(x) => provider := x;
      case SetProviderState(x) => providerState := x;
      case SetInteractionDescription(x) => interactionDescription := x;
      case SetContextPath(x) => contextPath := x;
      case SetMockMvc(x) => mockMvc := x;
      case SetRequestCallback(x) => requestCallback := x;
      case SetResponseCallback(x) => responseCallback := x;
      case AddResultMatchers(ms) => resultMatchers := resultMatchers + set m | m in ms;
    }

    /** A series of configuration calls, in order. */
    method ApplyAll(actions: seq<ConfigAction>)
      modifies this
      ensures Config() == UpdatedAll(old(Config()), actions)
      ensures pacts == old(pacts)
    {
      for k := 0 to |actions|
        invariant UpdatedAll(Config(), actions[k..]) == UpdatedAll(old(Config()), actions)
        invariant pacts == old(pacts)
      {
        assert actions[k..][1..] == actions[k + 1..];
        Apply(actions[k]);
      }
    }

    /** `findInteraction()`: an `IllegalStateException` without a provider state; otherwise
        the pact stream, filtered by provider and consumer, is searched for an interaction with
        that state (and the configured description): one of the candidates, or none when there
        is no candidate. */
    method FindInteraction() returns (r: Result<Option<Interaction>, Exception>)
      ensures r.Err? <==> providerState.None?
      ensures r.Err? ==> r.error == IllegalState(NoStateMessage)
      ensures r.Ok? ==> SelectedFrom(r.value, Candidates(pacts, Config(), providerState.value))
    {
      if providerState.None? {
        return Err(IllegalState(NoStateMessage));
      }
      var stream := FilterPacts(pacts, provider, consumer);
      var matching := GetInteractions(stream, providerState, interactionDescription);
      CandidatesAreSelected(stream, pacts, Config(), providerState.value);
      if matching == [] {
        return Ok(None);
      }
      assert matching[0] in matching;
      var i :| i in matching;
      r := Ok(Some(i));
    }

    /** `run()`, as `RunMeets` describes it. */
    method Run(decode: Decoder) returns (outcome: RunOutcome)
      ensures RunMeets(pacts, Config(), decode, outcome)
    {
      var found := FindInteraction();
      if found.Err? {
        return RunOutcome(None, [], [], Some(found.error));
      }
      var interaction := found.value;
      var built := BuildRequestFor(interaction, decode);
      if built.Err? {
        return RunOutcome(interaction, [], [], Some(built.error));
      }
      if built.value.None? {
        return RunOutcome(interaction, [], [], None);
      }
      var request := built.value.value;
      var rejected := request.ContextPath(contextPath);
      if rejected.Some? {
        return RunOutcome(interaction, [], [], rejected);
      }
      var events := RequestEvents(requestCallback);
      if requestCallback.Some? && requestCallback.value.throws {
        return RunOutcome(interaction, events, [], Some(RequestCallbackFailure));
      }
      if mockMvc.None? {
        return RunOutcome(interaction, events, [], Some(IllegalState(NoMockMvcMessage)));
      }
      events := events + [Performed(mockMvc.value, request.Snapshot())];
      if responseCallback.Some? {
        events := events + [ResponseCallbackCalled(responseCallback.value)];
        if responseCallback.value.throws {
          return RunOutcome(interaction, events, [], Some(ResponseCallbackFailure));
        }
      }
      var derived := ResponseMatchersFor(interaction);
      var checked := StreamOf(derived + resultMatchers);
      outcome := RunOutcome(interaction, events, checked, None);
    }
  }

  const RequestCallbackFailure := UserCodeFailure("request callback")
  const ResponseCallbackFailure := UserCodeFailure("response callback")

  /** What `run()` does for a runner with these pacts and settings. Without a provider state
      it throws before anything happens. Otherwise an interaction is selected from the
      candidates. A request is built from it; a failure to build throws, and a null or non
      request/response interaction ends the run quietly, without needing a MockMvc. A built
      request gets the context path, which the builder may reject with an
      `IllegalArgumentException` before anything else happens; the request is then shown to the
      request callback, performed on the MockMvc, which must be set, and the result is shown to
      the response callback.
      Finally every expectation derived from the declared response and every extra matcher is
      handed to the result exactly once. A throwing callback ends the run there. */
  predicate RunMeets(pacts: set<Pact>, c: RunnerConfig, decode: Decoder, outcome: RunOutcome) {
    if c.providerState.None? then outcome == RunOutcome(None, [], [], Some(IllegalState(NoStateMessage)))
    else
      SelectedFrom(outcome.selected, Candidates(pacts, c, c.providerState.value))
      && var t := TranslateInteraction(outcome.selected, decode);
      if t.Err? then outcome == RunOutcome(outcome.selected, [], [], Some(t.error))
      else if t.value.None? then outcome == RunOutcome(outcome.selected, [], [], None)
      else if ContextPathFailure(c.contextPath).Some? then
        outcome == RunOutcome(outcome.selected, [], [], ContextPathFailure(c.contextPath))
      else
        var pre := RequestEvents(c.requestCallback);
        var performed := Performed(c.mockMvc.GetOr(Server(0)), t.value.value.(contextPath := c.contextPath.GetOr("")));
        var post := if c.responseCallback.Some? then [ResponseCallbackCalled(c.responseCallback.value)] else [];
        if c.requestCallback.Some? && c.requestCallback.value.throws then
          outcome == RunOutcome(outcome.selected, pre, [], Some(RequestCallbackFailure))
        else if c.mockMvc.None? then
          outcome == RunOutcome(outcome.selected, pre, [], Some(IllegalState(NoMockMvcMessage)))
        else if c.responseCallback.Some? && c.responseCallback.value.throws then
          outcome == RunOutcome(outcome.selected, pre + [performed] + post, [], Some(ResponseCallbackFailure))
        else
          outcome.events == pre + [performed] + post
          && outcome.error.None?
          && Enumerates(outcome.expectations, InteractionExpectations(outcome.selected) + c.resultMatchers)
  }

  /** A run without a provider state, or whose interaction yields no request, performs
      nothing; a run that builds a request and has no MockMvc fails with an
      `IllegalStateException` before performing anything, unless the context path was already
      rejected, which fails the run with the builder's `IllegalArgumentException`. */
  lemma RunWithoutRequest(pacts: set<Pact>, c: RunnerConfig, decode: Decoder, outcome: RunOutcome)
    requires RunMeets(pacts, c, decode, outcome)
    ensures c.providerState.None? || TranslateInteraction(outcome.selected, decode) == Ok(None)
            ==> outcome.events == [] && outcome.expectations == []
    ensures c.providerState.Some? && TranslateInteraction(outcome.selected, decode) == Ok(None)
            ==> outcome.error.None?
    ensures c.mockMvc.None? ==> forall e :: e in outcome.events ==> !e.Performed?
    ensures c.mockMvc.None? && c.providerState.Some? && TranslateInteraction(outcome.selected, decode).Ok?
            && TranslateInteraction(outcome.selected, decode).value.Some?
            && ContextPathFailure(c.contextPath).None?
            && !(c.requestCallback.Some? && c.requestCallback.value.throws)
            ==> outcome.error == Some(IllegalState(NoMockMvcMessage))
    ensures c.providerState.Some? && TranslateInteraction(outcome.selected, decode).Ok?
            && TranslateInteraction(outcome.selected, decode).value.Some?
            && ContextPathFailure(c.contextPath).Some?
            ==> outcome.events == [] && outcome.error == ContextPathFailure(c.contextPath)
  {
  }
}
