/**
 * The `de.eosts` JUnit rule: every test gets a fresh runner over the rule's pacts; the
 * before-callbacks run, then the test body, which configures the runner; provider state and
 * interaction description default to the test's annotations; the runner runs; and, in a
 * `finally`, the after-callbacks run and the runner is dropped. Its builder collects pacts,
 * name filters and callbacks.
 */
module EostsRule {
  import opened Wrappers
  import opened PactModel
  import opened Streams
  import opened Runner
  import opened RuleLifecycle
  import opened PactLoader
  import opened EositRequestBuilder

  class PactMockMvcRule {
    var pacts: set<Pact>
    var runner: PactTestRunner?
    var beforeCallbacks: seq<Callback>
    var afterCallbacks: seq<Callback>

    /** `PactMockMvcRule(Iterable<Pact>)`, and the no-argument constructor (`None`): the
        pacts of the list, none for null; no callbacks; no runner. */
    constructor (pacts: Option<seq<Pact>>)
      ensures this.pacts == if pacts.None? then {} else set p | p in pacts.value
      ensures runner == null && beforeCallbacks == [] && afterCallbacks == []
    {
      this.pacts := if pacts.None? then {} else set p | p in pacts.value;
      runner := null;
      beforeCallbacks := [];
      afterCallbacks := [];
    }

    /** `configure()`: the runner of the evaluation in progress; null outside one. */
    method Configure() returns (r: PactTestRunner?)
      ensures r == runner
    {
      r := runner;
    }

    /** `addBeforeCallback` and `addBeforeCallbacks`: appended, in order. */
    method AddBeforeCallbacks(callbacks: seq<Callback>)
      modifies this
      ensures beforeCallbacks == old(beforeCallbacks) + callbacks
      ensures pacts == old(pacts) && runner == old(runner) && afterCallbacks == old(afterCallbacks)
    {
      beforeCallbacks := beforeCallbacks + callbacks;
    }

    /** `addAfterCallback` and `addAfterCallbacks`: appended, in order. */
    method AddAfterCallbacks(callbacks: seq<Callback>)
      modifies this
      ensures afterCallbacks == old(afterCallbacks) + callbacks
      ensures pacts == old(pacts) && runner == old(runner) && beforeCallbacks == old(beforeCallbacks)
    {
      afterCallbacks := afterCallbacks + callbacks;
    }

    /** The statement `apply` returns, evaluated once. A throwing before-callback ends the
        evaluation at once, outside the `try`: no body, no after-callbacks, and the runner stays
        set. Otherwise the rest happens as `EvaluatedAs` says, and the runner is dropped unless
        an after-callback throws (the `finally` block is then left early). */
    method Evaluate(body: TestBody, description: TestDescription, decode: Decoder) returns (e: Evaluation)
      modifies this
      ensures pacts == old(pacts) && beforeCallbacks == old(beforeCallbacks) && afterCallbacks == old(afterCallbacks)
      ensures FirstThrow(beforeCallbacks) < |beforeCallbacks| ==>
                e == Evaluation(Calls(Before, CallsMade(beforeCallbacks)), Some(BeforeCallbackFailure))
                && runner != null && fresh(runner)
      ensures FirstThrow(beforeCallbacks) == |beforeCallbacks| ==>
                EvaluatedAs(pacts, beforeCallbacks, afterCallbacks, body, BodyConfig(body, description, true), decode, e)
                && (runner == null <==> FirstThrow(afterCallbacks) == |afterCallbacks|)
    {
      var stream := StreamOf(pacts);
      var r := new PactTestRunner(Some(stream));
      runner := r;
      assert r.pacts == pacts;
      var events, threw := RunCallbacks(Before, beforeCallbacks);
      if threw {
        return Evaluation(events, Some(BeforeCallbackFailure));
      }
      var run := RunBody(r, body, description, true, decode);
      events := events + [BodyEvaluated] + (if run.Some? then [RunnerRan(pacts, BodyConfig(body, description, true), run.value)] else []);
      var after, afterThrew := RunCallbacks(After, afterCallbacks);
      events := events + after;
      if afterThrew {
        e := Evaluation(events, Some(AfterCallbackFailure));
      } else {
        runner := null;
        e := Evaluation(events, if run.None? then Some(BodyFailure) else run.value.error);
      }
      EvaluatedAsIntro(pacts, beforeCallbacks, afterCallbacks, body, BodyConfig(body, description, true), decode, run, e);
    }
  }

  /** Everything a rule builder holds. */
  datatype BuilderState = BuilderState(
    pacts: set<Pact>, consumer: Option<string>, provider: Option<string>,
    beforeCallbacks: seq<Callback>, afterCallbacks: seq<Callback>)

  /** `PactMockMvcRuleBuilder`, as returned by `PactMockMvcRule.create()`. */
  class PactMockMvcRuleBuilder {
    var pacts: set<Pact>
    var consumer: Option<string>
    var provider: Option<string>
    var beforeCallbacks: seq<Callback>
    var afterCallbacks: seq<Callback>

    function State(): BuilderState
      reads this
    {
      BuilderState(pacts, consumer, provider, beforeCallbacks, afterCallbacks)
    }

    constructor ()
      ensures State() == BuilderState({}, None, None, [], [])
    {
      pacts, consumer, provider, beforeCallbacks, afterCallbacks := {}, None, None, [], [];
    }

    /** `withFile(location)`: adds the pact read from the resource, or throws what reading
        it throws and changes nothing. */
    method WithFile(location: string, locate: string -> Resource) returns (error: Option<Exception>)
      modifies this
      ensures var loaded := LoadPactByResource(location, locate);
              if loaded.Ok? then error.None? && State() == old(State()).(pacts := old(pacts) + {loaded.value})
              else error == Some(loaded.error) && State() == old(State())
    {
      var loaded := LoadPactByResource(location, locate);
      if loaded.Err? {
        return Some(loaded.error);
      }
      pacts := pacts + {loaded.value};
      error := None;
    }

    /** `withAllFrom(String folder)`: adds the pacts of every resource below the folder, or
        throws what loading them throws and changes nothing. */
    method WithAllFrom(folder: string, resolve: string -> Option<seq<Resource>>) returns (error: Option<Exception>)
      modifies this
      ensures var pattern := folder + "/**/*.json";
              var found := resolve(pattern);
              if found.None? then error == Some(IllegalState("Cannot load pact pactresources matching: " + pattern))
                                  && State() == old(State())
              else if ReadAll(found.value).Err? then error == Some(ReadAll(found.value).error) && State() == old(State())
              else error.None? && State() == old(State()).(pacts := old(pacts) + set p | p in ReadAll(found.value).value)
    {
      var loaded := LoadAllPactsByResourceFolder(folder, resolve);
      if loaded.Err? {
        return Some(loaded.error);
      }
      pacts := pacts + set p | p in loaded.value;
      error := None;
    }

    /** `withAllFrom(File)`: adds the pacts of the recursive walk. */
    method WithAllFromFile(file: Option<FsNode>)
      modifies this
      ensures State() == old(State()).(pacts := old(pacts) + set p | p in LoadAllPactsByFile(file))
    {
      pacts := pacts + set p | p in LoadAllPactsByFile(file);
    }

    /** `withPactSource(source)`: adds the pact the contract library reads from the source. */
    method WithPactSource(pact: Pact)
      modifies this
      ensures State() == old(State()).(pacts := old(pacts) + {pact})
    {
      pacts := pacts + {pact};
    }

    method WithBeforeCallback(callback: Callback)
      modifies this
      ensures State() == old(State()).(beforeCallbacks := old(beforeCallbacks) + [callback])
    {
      beforeCallbacks := beforeCallbacks + [callback];
    }

    method WithAfterCallback(callback: Callback)
      modifies this
      ensures State() == old(State()).(afterCallbacks := old(afterCallbacks) + [callback])
    {
      afterCallbacks := afterCallbacks + [callback];
    }

    /** `forConsumer(name)`; null resets the filter. */
    method ForConsumer(name: Option<string>)
      modifies this
      ensures State() == old(State()).(consumer := name)
    {
      consumer := name;
    }

    /** `forProvider(name)`; null resets the filter. */
    method ForProvider(name: Option<string>)
      modifies this
      ensures State() == old(State()).(provider := name)
    {
      provider := name;
    }

    /** `build()`: a rule over exactly the pacts that pass the provider and consumer filters,
        with the builder's callbacks in the order they were added. */
    method Build() returns (rule: PactMockMvcRule)
      ensures fresh(rule)
      ensures rule.pacts == PactFilter(pacts, provider, consumer)
      ensures rule.beforeCallbacks == beforeCallbacks && rule.afterCallbacks == afterCallbacks
      ensures rule.runner == null
    {
      var selected := FilterPacts(pacts, provider, consumer);
      rule := new PactMockMvcRule(Some(selected));
      rule.AddBeforeCallbacks(beforeCallbacks);
      rule.AddAfterCallbacks(afterCallbacks);
    }
  }
}
