/**
 * The `de.eosit` JUnit rule: every test gets a fresh runner over the rule's pacts; the test
 * body configures it; the provider state defaults to the test's annotation; the runner runs;
 * and, in a `finally`, the runner is dropped. This variant has no callbacks and takes no
 * default for the interaction description. Its builder collects pacts and name filters.
 */
module EositRule {
  import opened Wrappers
  import opened PactModel
  import opened Streams
  import opened Runner
  import opened RuleLifecycle
  import opened PactLoader
  import opened EositRequestBuilder

  class PactMockMvcRule {
    var pacts: set<Pact>
    var runner: PactTestRunner?

    /** `PactMockMvcRule(Iterable<Pact>)`, and the no-argument constructor (`None`): the
        pacts of the list, none for null; no runner. */
    constructor (pacts: Option<seq<Pact>>)
      ensures this.pacts == if pacts.None? then {} else set p | p in pacts.value
      ensures runner == null
    {
      this.pacts := if pacts.None? then {} else set p | p in pacts.value;
      runner := null;
    }

    /** `configure()`: the runner of the evaluation in progress; null outside one. */
    method Configure() returns (r: PactTestRunner?)
      ensures r == runner
    {
      r := runner;
    }

    /** The statement `apply` returns, evaluated once: the body runs; unless it throws, the
        provider state defaults to the annotation and the runner runs; whatever happens, the
        runner is dropped afterwards. */
    method Evaluate(body: TestBody, description: TestDescription, decode: Decoder) returns (e: Evaluation)
      modifies this
      ensures pacts == old(pacts) && runner == null
      ensures EvaluatedAs(pacts, [], [], body, BodyConfig(body, description, false), decode, e)
    {
      var stream := StreamOf(pacts);
      var r := new PactTestRunner(Some(stream));
      runner := r;
      assert r.pacts == pacts;
      var run := RunBody(r, body, description, false, decode);
      var events := [BodyEvaluated] + (if run.Some? then [RunnerRan(pacts, BodyConfig(body, description, false), run.value)] else []);
      runner := null;
      e := Evaluation(events, if run.None? then Some(BodyFailure) else run.value.error);
      assert Calls(Before, []) == [] && CallsMade([]) == [] && Calls(After, []) == [];
      EvaluatedAsIntro(pacts, [], [], body, BodyConfig(body, description, false), decode, run, e);
    }
  }

  /** Everything a rule builder holds. */
  datatype BuilderState = BuilderState(pacts: set<Pact>, consumer: Option<string>, provider: Option<string>)

  /** `PactMockMvcRuleBuilder`, as returned by `PactMockMvcRule.create()`. */
  class PactMockMvcRuleBuilder {
    var pacts: set<Pact>
    var consumer: Option<string>
    var provider: Option<string>

    function State(): BuilderState
      reads this
    {
      BuilderState(pacts, consumer, provider)
    }

    constructor ()
      ensures State() == BuilderState({}, None, None)
    {
      pacts, consumer, provider := {}, None, None;
    }

    /** `withFile(location)`: adds the pact read from the resource, or throws what reading
        it throws and changes nothing. */
    method WithFile(location: string, locate: string -> Resource) returns (error: Option<Exception>)
      modifies this
      ensures var loaded := LoadPactByResource(location, locate);
              if loaded.Ok? then error.None? && State() == old(State()).(pacts := old(pacts) + {loaded.value})
              else error == Some(loaded.error) && State() == old(State())
    {
      var loaded := LoadPactByResource(location, locate);
      if loaded.Err? {
        return Some(loaded.error);
      }
      pacts := pacts + {loaded.value};
      error := None;
    }

    /** `withAllFrom(String folder)`: adds the pacts of every resource below the folder, or
        throws what loading them throws and changes nothing. */
    method WithAllFrom(folder: string, resolve: string -> Option<seq<Resource>>) returns (error: Option<Exception>)
      modifies this
      ensures var pattern := folder + "/**/*.json";
              var found := resolve(pattern);
              if found.None? then error == Some(IllegalState("Cannot load pact pactresources matching: " + pattern))
                                  && State() == old(State())
              else if ReadAll(found.value).Err? then error == Some(ReadAll(found.value).error) && State() == old(State())
              else error.None? && State() == old(State()).(pacts := old(pacts) + set p | p in ReadAll(found.value).value)
    {
      var loaded := LoadAllPactsByResourceFolder(folder, resolve);
      if loaded.Err? {
        return Some(loaded.error);
      }
      pacts := pacts + set p | p in loaded.value;
      error := None;
    }

    /** `withAllFrom(File)`: adds the pacts of the recursive walk. */
    method WithAllFromFile(file: Option<FsNode>)
      modifies this
      ensures State() == old(State()).(pacts := old(pacts) + set p | p in LoadAllPactsByFile(file))
    {
      pacts := pacts + set p | p in LoadAllPactsByFile(file);
    }

    /** `forConsumer(name)`; null resets the filter. */
    method ForConsumer(name: Option<string>)
      modifies this
      ensures State() == old(State()).(consumer := name)
    {
      consumer := name;
    }

    /** `forProvider(name)`; null resets the filter. */
    method ForProvider(name: Option<string>)
      modifies this
      ensures State() == old(State()).(provider := name)
    {
      provider := name;
    }

    /** `build()`: a rule over exactly the pacts that pass the provider and consumer filters. */
    method Build() returns (rule: PactMockMvcRule)
      ensures fresh(rule)
      ensures rule.pacts == PactFilter(pacts, provider, consumer)
      ensures rule.runner == null
    {
      var selected := FilterPacts(pacts, provider, consumer);
      rule := new PactMockMvcRule(Some(selected));
    }
  }
}
