# pact-jvm-provider-spring-mockmvc, modelled in Dafny

This project models the provider-side glue between pact contract files and Spring MockMvc.
The code lives in two packages, `de.eosit` and `de.eosts`. Its parts are:

- Interaction selection. Every pact's interactions are flattened. They are then filtered by
  provider state and by interaction description, after a provider-name and consumer-name
  filter on the pacts (`ConversionUtils`, `PactTestRunner.findInteraction`, the rule
  builders).
- Request translation. A pact request becomes a MockMvc request builder (`RequestBuilder`, in
  both variants). This covers:
  - case-insensitive verb dispatch over six verbs;
  - splitting cookie strings at the first `=`;
  - dropping absent cookies;
  - assembling the query;
  - copying headers;
  - the default empty body;
  - the three outcomes of `buildRequest(Interaction)`: empty, exception, or builder.
- The runner. `PactTestRunner` holds fluent configuration state and derives the response
  expectations (status, JSON body, one per header). The control flow of `run()` is modelled
  with its exceptions and the points where it calls user callbacks.
- The JUnit rules (`PactMockMvcRule`, both variants):
  - a fresh runner per test;
  - before-callbacks, then the test body;
  - provider state, and in `de.eosts` also the interaction description, defaulted from the
    test's annotations only when unset;
  - the run;
  - in a `finally`, the after-callbacks and clearing the runner.
  
  The rule builders are modelled too.
- Pact loading (`PactLoader`):
  - the recursive and flat walks over a directory tree;
  - the resource location pattern, built step by step;
  - the mapping of resource failures to `IllegalStateException`.

How Java values are represented:

- A Java `null` is `Option.None`.
- A `Map` is its entry sequence in iteration order.
- A `HashSet` is a `set`.
- A stream over a set is some sequence that lists each element once (`Streams.StreamOf`).
- An exception is the `Exception` datatype, carried in a `Result` or in an outcome record.
- What user code (callbacks, the test body) does is reduced to an identity and whether it
  throws.
- What the rule and the runner do is recorded as a trace of events.

Classes whose fields the source updates in place are Dafny classes with `modifies` clauses:
`PactTestRunner`, both `PactMockMvcRule`s and their builders, Spring's
`MockHttpServletRequestBuilder` and `UriComponentsBuilder`. Pure stream pipelines are
functions. Loops are methods with invariants, proved against a specification function.

Files:

- `wrappers.dfy`: `Option` and `Result`.
- `pact_model.dfy`: pacts, interactions, requests, responses, exceptions.
- `streams.dfy`: stream filtering, and streaming a set.
- `strings.dfy`: joining, splitting, lower-casing.
- `conversion_utils.dfy`: interaction selection.
- `mock_mvc.dfy`: the Spring builders.
- `request_translation.dfy`: the translation steps both `RequestBuilder`s share.
- `eosit_request_builder.dfy` and `eosts_request_builder.dfy`: the two `RequestBuilder`s.
- `runner.dfy`: `PactTestRunner`.
- `rule_lifecycle.dfy`: what both rules share.
- `eosit_rule.dfy` and `eosts_rule.dfy`: the two rules.
- `pact_loader.dfy`: pact loading.

The lines 103-170 of the `de.eosts` `RequestBuilder` (verb, headers, body, cookies, `toCookie`)
are the same code as lines 77-144 of the `de.eosit` one. They are modelled once, in
`RequestTranslation`, and the `de.eosit` lines are cited.

## Model

| member | source | states |
|---|---|---|
| ConversionUtils.GetInteractions | src/main/java/de/eosit/fx/pact/provider/ConversionUtils.java:33-38 | every interaction returned belongs to some input pact, has exactly the requested provider state when one is given, and exactly the requested description when one is given |
| ConversionUtils.AllInteractionsMembership | src/main/java/de/eosit/fx/pact/provider/ConversionUtils.java:35 | the flattened stream holds an interaction exactly when some pact holds it |
| ConversionUtils.AllInteractionsAppend | src/main/java/de/eosit/fx/pact/provider/ConversionUtils.java:35 | flattening two pact streams one after the other concatenates their interactions, so the order is by pact, then by position in the pact |
| ConversionUtils.GetInteractionsCount | src/main/java/de/eosit/fx/pact/provider/ConversionUtils.java:35-37 | an interaction passing both present filters appears in the result as often as in the input; any other interaction never appears |
| ConversionUtils.GetInteractionsComplete | src/main/java/de/eosit/fx/pact/provider/ConversionUtils.java:35-37 | every interaction of every input pact that passes both present filters is returned |
| ConversionUtils.GetInteractionsOrdered | src/main/java/de/eosit/fx/pact/provider/ConversionUtils.java:35-37 | the result is a subsequence of the concatenated interaction lists |
| ConversionUtils.GetInteractionsUnfiltered | src/main/java/de/eosit/fx/pact/provider/ConversionUtils.java:35-37 | with neither filter the result is exactly the concatenation of all interactions |
| ConversionUtils.GetInteractionsNoPacts | src/main/java/de/eosit/fx/pact/provider/ConversionUtils.java:33-38 | no pacts give no interactions |
| ConversionUtils.GetInteractionsFilterOrder | src/main/java/de/eosit/fx/pact/provider/ConversionUtils.java:36-37 | filtering by state and description together equals filtering by either one first and then by the other |
| ConversionUtils.GetInteractionsNoMatch | src/main/java/de/eosit/fx/pact/provider/ConversionUtils.java:36-37 | a state or description that no interaction carries selects nothing |
| Streams.Filter | src/main/java/de/eosit/fx/pact/provider/ConversionUtils.java:36 | a stream filter never yields more elements than it is given |
| Streams.FilterSound | src/main/java/de/eosit/fx/pact/provider/ConversionUtils.java:36 | everything a filter yields comes from its input and passes the predicate |
| Streams.FilterComplete | src/main/java/de/eosit/fx/pact/provider/ConversionUtils.java:36 | every input element that passes the predicate is yielded |
| Streams.FilterCount | src/main/java/de/eosit/fx/pact/provider/ConversionUtils.java:36 | a filter keeps every occurrence of a passing element and none of a failing one |
| Streams.FilterIsSubsequence | src/main/java/de/eosit/fx/pact/provider/ConversionUtils.java:36 | a filter keeps the input order |
| Streams.FilterCommute | src/main/java/de/eosit/fx/pact/provider/ConversionUtils.java:36-37 | two filters applied in either order give the same stream |
| Streams.StreamOf | src/main/java/de/eosit/fx/pact/provider/PactTestRunner.java:334 | streaming a set yields each of its elements exactly once, in some order |
| Strings.SplitFirst | src/main/java/de/eosit/fx/pact/provider/RequestBuilder.java:136 | `split(sep, 2)`: the first part holds no separator; with no separator it is the whole string; otherwise the string is the first part, the separator and the rest |
| Strings.ToLower | src/main/java/de/eosit/fx/pact/provider/RequestBuilder.java:79 | lower-casing keeps the length and lower-cases each character on its own |
| Strings.ToLowerIdempotent | src/main/java/de/eosit/fx/pact/provider/RequestBuilder.java:79 | lower-casing twice is lower-casing once |
| Strings.SplitJoin | src/main/java/de/eosit/fx/pact/provider/RequestBuilder.java:60-62 | a list joined with a separator none of its pieces holds splits back into the list |
| RequestTranslation.HttpVerbOf | src/main/java/de/eosit/fx/pact/provider/RequestBuilder.java:77-97 | a verb is chosen exactly when the lower-cased method (a null method counting as "") is one of the six names, and it is the verb of that name; anything else is an `UnsupportedOperationException` naming the lower-cased method |
| RequestTranslation.HttpVerbOfIgnoresCase | src/main/java/de/eosit/fx/pact/provider/RequestBuilder.java:79-81 | a method and its lower-case form select the same verb or the same error |
| RequestTranslation.HttpVerbOfName | src/main/java/de/eosit/fx/pact/provider/RequestBuilder.java:81-93 | every verb is selected by its own name and by any spelling of it that lower-cases to that name |
| RequestTranslation.ToCookie | src/main/java/de/eosit/fx/pact/provider/RequestBuilder.java:131-144 | no cookie exactly for a null or empty string; the name never holds '='; without '=' the name is the whole string and the value is null; otherwise the string is name, '=' and value, so the value may hold further '=' |
| RequestTranslation.ToCookieRoundTrip | src/main/java/de/eosit/fx/pact/provider/RequestBuilder.java:136-140 | a non-empty cookie string is recovered from the cookie it parses to |
| RequestTranslation.CookieTextRoundTrip | src/main/java/de/eosit/fx/pact/provider/RequestBuilder.java:131-144 | a cookie is recovered from its own text exactly when its name holds no '=' and the text is not empty |
| RequestTranslation.CookieListRoundTrip | src/main/java/de/eosit/fx/pact/provider/RequestBuilder.java:116-129 | the cookies set are the input strings with the null and empty ones dropped, in their original order |
| RequestTranslation.BuildReqHeaders | src/main/java/de/eosit/fx/pact/provider/RequestBuilder.java:100-110 | a null header map leaves the builder unchanged; otherwise every entry is added, value unchanged, in order, and nothing else changes |
| RequestTranslation.BuildCookies | src/main/java/de/eosit/fx/pact/provider/RequestBuilder.java:116-129 | a null cookie list leaves the builder unchanged; otherwise the parsed cookies, absent ones dropped, are added in order, and an `IllegalArgumentException` is raised when none is left |
| RequestTranslation.CookiesFailureCases | src/main/java/de/eosit/fx/pact/provider/RequestBuilder.java:123-126 | building the cookies fails exactly when the cookie list is present and holds no non-null, non-empty string, and the failure is the empty-array `IllegalArgumentException` |
| RequestTranslation.BuildReqBody | src/main/java/de/eosit/fx/pact/provider/RequestBuilder.java:112-114 | the content is the body, or "" when the body is absent |
| RequestTranslation.CreateBuilder | src/main/java/de/eosit/fx/pact/provider/RequestBuilder.java:48-53 | either the method's or the cookies' exception, or a fresh builder holding the verb, the URI, all headers, the parsed cookies and the body (default "") |
| RequestTranslation.TranslatedCases | src/main/java/de/eosit/fx/pact/provider/RequestBuilder.java:48-53 | a translation succeeds exactly when the method is supported and the cookie list is absent or holds a non-empty string; the method is checked first, then the cookies; a success holds the verb, the URI, all headers, the non-empty cookie strings as cookies in order, the body or "", and an empty context path |
| EositRequestBuilder.DecodeAll | src/main/java/de/eosit/fx/pact/provider/RequestBuilder.java:61 | every value of a query entry is decoded, in order |
| EositRequestBuilder.QuerySegments | src/main/java/de/eosit/fx/pact/provider/RequestBuilder.java:60-61 | one `key=values` segment per map entry, in order |
| EositRequestBuilder.ToQuery | src/main/java/de/eosit/fx/pact/provider/RequestBuilder.java:55-63 | the query string is null exactly for a null map |
| EositRequestBuilder.ToQuerySegments | src/main/java/de/eosit/fx/pact/provider/RequestBuilder.java:55-63 | when no name or decoded value holds '&', the query string splits at '&' into one segment per entry, in order, each starting with the entry's name and '=' |
| EositRequestBuilder.JoinAvoids | src/main/java/de/eosit/fx/pact/provider/RequestBuilder.java:61-62 | joining introduces no character other than the separator |
| EositRequestBuilder.BuildRequest | src/main/java/de/eosit/fx/pact/provider/RequestBuilder.java:41-46 | the builder exists exactly when the translation succeeds, otherwise the method's or the cookies' exception; it holds the translated request with the decoded path and query |
| EositRequestBuilder.BuildRequestFor | src/main/java/de/eosit/fx/pact/provider/RequestBuilder.java:24-39 | the builder, emptiness or exception agree with `TranslateInteraction`, and a built request is fresh |
| EositRequestBuilder.TranslateInteractionCases | src/main/java/de/eosit/fx/pact/provider/RequestBuilder.java:24-39 | empty for a null or non request/response interaction; `IllegalStateException` for a missing request; otherwise the method's exception, then the cookies' exception, or the translated request |
| EostsRequestBuilder.ToQuery | src/main/java/de/eosts/fx/pact/provider/RequestBuilder.java:93-101 | nothing changes for a null map; otherwise exactly one query parameter is added per entry, carrying all the entry's values in order |
| EostsRequestBuilder.BuildRequest | src/main/java/de/eosts/fx/pact/provider/RequestBuilder.java:73-84 | null for a null request; otherwise the method's or the cookies' exception, or a fresh builder holding the translated request with one query parameter per map entry |
| EostsRequestBuilder.BuildRequestFor | src/main/java/de/eosts/fx/pact/provider/RequestBuilder.java:45-60 | empty for a null or non request/response interaction; `IllegalStateException` when the request is null; otherwise the method's or the cookies' exception or a fresh builder holding the translated request |
| MockMvc.MockRequestBuilder.constructor | src/main/java/de/eosit/fx/pact/provider/RequestBuilder.java:82-93 | a new builder holds the verb and URI, no headers, cookies or content, and an empty context path |
| MockMvc.MockRequestBuilder.Header | src/main/java/de/eosit/fx/pact/provider/RequestBuilder.java:107 | one header value is appended; nothing else changes |
| MockMvc.MockRequestBuilder.AddCookies | src/main/java/de/eosit/fx/pact/provider/RequestBuilder.java:126 | an empty cookie array raises `IllegalArgumentException`; otherwise the cookies are appended in order; nothing else changes |
| MockMvc.MockRequestBuilder.Content | src/main/java/de/eosit/fx/pact/provider/RequestBuilder.java:113 | the content is set; nothing else changes |
| MockMvc.MockRequestBuilder.ContextPath | src/main/java/de/eosit/fx/pact/provider/PactTestRunner.java:87 | a path with text that does not start with '/', or ends with '/', raises `IllegalArgumentException` and changes nothing; otherwise the path is stored, a null path as "", and nothing else changes |
| MockMvc.ContextPathFailure | src/main/java/de/eosit/fx/pact/provider/PactTestRunner.java:87 | no exception exactly for a null or blank path, or one that starts and does not end with '/'; the start is checked before the end |
| MockMvc.ContextPathExamples | src/main/java/de/eosts/fx/pact/provider/PactMockMvcRule.java:44 | "/app" (the documented configuration) and null are accepted; "app" fails for its start, "/" and "/app/" for their end |
| MockMvc.UriComponentsBuilder.FromUriString | src/main/java/de/eosts/fx/pact/provider/RequestBuilder.java:78 | a new URI builder holds the path and no parameters |
| MockMvc.UriComponentsBuilder.QueryParam | src/main/java/de/eosts/fx/pact/provider/RequestBuilder.java:99 | one parameter with all its values is appended |
| Runner.UpdatedAllLast | src/main/java/de/eosit/fx/pact/provider/PactTestRunner.java:186-189 | after a series of configuration calls the provider state and the description are those the last setting calls gave, and the extra matchers only grew |
| Runner.PactFilter | src/main/java/de/eosit/fx/pact/provider/PactTestRunner.java:334-345 | the filtered pacts are a subset of the pacts, and all of them when neither filter is set |
| Runner.PactFilterStream | src/main/java/de/eosit/fx/pact/provider/PactTestRunner.java:334-345 | filtering a stream of the pact set, in any order, by provider and then by consumer keeps exactly the pacts whose names equal the set filters |
| Runner.FilterPacts | src/main/java/de/eosit/fx/pact/provider/PactTestRunner.java:334-345 | the filtered stream holds exactly the pacts that pass both set filters |
| Runner.CandidatesAreSelected | src/main/java/de/eosit/fx/pact/provider/PactTestRunner.java:334-347 | `getInteractions` over the filtered pacts, with the configured state and description, yields exactly the candidate interactions |
| Runner.DerivedExpectations | src/main/java/de/eosit/fx/pact/provider/PactTestRunner.java:380-399 | a status expectation exactly when the status is set, a JSON body expectation exactly when the body is present, exactly the declared headers, and nothing else |
| Runner.InteractionExpectations | src/main/java/de/eosit/fx/pact/provider/PactTestRunner.java:357-371 | no expectations for a null or non request/response interaction or a missing response |
| Runner.ResponseMatchers | src/main/java/de/eosit/fx/pact/provider/PactTestRunner.java:380-399 | the matchers built step by step are the derived expectations of the response |
| Runner.ResponseMatchersFor | src/main/java/de/eosit/fx/pact/provider/PactTestRunner.java:357-371 | the matchers of an interaction are those of its response, or none |
| Runner.PactTestRunner.constructor | src/main/java/de/eosit/fx/pact/provider/PactTestRunner.java:54-58 | the pacts of the list, none for null; nothing else set |
| Runner.PactTestRunner.FromPact | src/main/java/de/eosit/fx/pact/provider/PactTestRunner.java:66-70 | just that pact, none for null; nothing else set |
| Runner.PactTestRunner.Pacts | src/main/java/de/eosit/fx/pact/provider/PactTestRunner.java:118-120 | the runner's pacts, as a value |
| Runner.PactTestRunner.Apply | src/main/java/de/eosit/fx/pact/provider/PactTestRunner.java:277-294 | a setter or `addResultMatchers` changes only its own setting; adding matchers unites them with the present ones; the pacts never change |
| Runner.PactTestRunner.ApplyAll | src/main/java/de/eosit/fx/pact/provider/PactTestRunner.java:139-142 | a series of configuration calls has the effect of each in order |
| Runner.PactTestRunner.FindInteraction | src/main/java/de/eosit/fx/pact/provider/PactTestRunner.java:330-348 | an `IllegalStateException` exactly when no provider state is set; otherwise one of the candidate interactions, and none only when there are no candidates |
| Runner.PactTestRunner.Run | src/main/java/de/eosit/fx/pact/provider/PactTestRunner.java:83-111 | the run meets `RunMeets`: no state throws at once; a missing request throws; no request means nothing is performed and no MockMvc is needed; a rejected context path throws before anything is performed; a built request without MockMvc throws; a throwing callback ends the run; otherwise every derived and extra expectation is checked exactly once |
| Runner.RunWithoutRequest | src/main/java/de/eosit/fx/pact/provider/PactTestRunner.java:86-95 | a run that builds no request performs nothing and checks nothing; without a MockMvc nothing is ever performed; a built request with an accepted context path then ends in `IllegalStateException`, and one with a rejected context path ends, with no events, in the builder's `IllegalArgumentException` |
| RuleLifecycle.FirstThrow | src/main/java/de/eosts/fx/pact/provider/PactMockMvcRule.java:83 | the position of the first throwing callback: all before it return normally |
| RuleLifecycle.RunCallbacks | src/main/java/de/eosts/fx/pact/provider/PactMockMvcRule.java:83 | the callbacks are called in order up to and including the first that throws, and the call throws exactly when one of them does |
| RuleLifecycle.ExplicitStateWins | src/main/java/de/eosts/fx/pact/provider/PactMockMvcRule.java:87-89 | the provider state a run uses is the last one the test body set, and the annotation's only when the body left it unset |
| RuleLifecycle.ExplicitDescriptionWins | src/main/java/de/eosts/fx/pact/provider/PactMockMvcRule.java:91-93 | the same precedence for the interaction description |
| RuleLifecycle.EvaluatedAsIntro | src/main/java/de/eosts/fx/pact/provider/PactMockMvcRule.java:83-99 | before-callbacks, body, the run when the body did not throw, and after-callbacks, in that order, with the after-callback's, the body's or the run's exception, make an evaluation as `EvaluatedAs` describes |
| RuleLifecycle.ShapeIntro | src/main/java/de/eosts/fx/pact/provider/PactMockMvcRule.java:83-99 | the same for the order of the events and the final exception, and the run event sits right after the body |
| RuleLifecycle.RunBody | src/main/java/de/eosts/fx/pact/provider/PactMockMvcRule.java:85-95 | the body configures a fresh runner; unless it throws, unset state (and description) are defaulted from the annotations and the run meets `RunMeets` for those settings |
| RuleLifecycle.AfterCallbacksRun | src/main/java/de/eosts/fx/pact/provider/PactMockMvcRule.java:96-98 | once the body has started, the evaluation ends with the calls of all after-callbacks, or of those up to the first throwing one, whose exception it then reports |
| EostsRule.PactMockMvcRule.constructor | src/main/java/de/eosts/fx/pact/provider/PactMockMvcRule.java:60-74 | the pacts of the list, none for null; no callbacks; no runner |
| EostsRule.PactMockMvcRule.Configure | src/main/java/de/eosts/fx/pact/provider/PactMockMvcRule.java:137-139 | the current runner, null outside an evaluation |
| EostsRule.PactMockMvcRule.AddBeforeCallbacks | src/main/java/de/eosts/fx/pact/provider/PactMockMvcRule.java:155-161 | the callbacks are appended in order; nothing else changes |
| EostsRule.PactMockMvcRule.AddAfterCallbacks | src/main/java/de/eosts/fx/pact/provider/PactMockMvcRule.java:166-172 | the callbacks are appended in order; nothing else changes |
| EostsRule.PactMockMvcRule.Evaluate | src/main/java/de/eosts/fx/pact/provider/PactMockMvcRule.java:77-103 | a throwing before-callback ends the evaluation with its exception, no body, no after-callbacks, and the fresh runner left in place; otherwise the evaluation is as `EvaluatedAs` says, and the runner is cleared unless an after-callback throws |
| EostsRule.PactMockMvcRuleBuilder.constructor | src/main/java/de/eosts/fx/pact/provider/PactMockMvcRule.java:178-183 | no pacts, no filters, no callbacks |
| EostsRule.PactMockMvcRuleBuilder.WithFile | src/main/java/de/eosts/fx/pact/provider/PactMockMvcRule.java:185-188 | the loaded pact is added, or loading throws and nothing changes |
| EostsRule.PactMockMvcRuleBuilder.WithAllFrom | src/main/java/de/eosts/fx/pact/provider/PactMockMvcRule.java:190-193 | the pacts of every resource matching the recursive pattern are added; an unresolvable pattern or unreadable resource throws and nothing changes |
| EostsRule.PactMockMvcRuleBuilder.WithAllFromFile | src/main/java/de/eosts/fx/pact/provider/PactMockMvcRule.java:195-198 | the pacts of the recursive walk are added |
| EostsRule.PactMockMvcRuleBuilder.WithPactSource | src/main/java/de/eosts/fx/pact/provider/PactMockMvcRule.java:200-203 | the pact read from the source is added |
| EostsRule.PactMockMvcRuleBuilder.WithBeforeCallback | src/main/java/de/eosts/fx/pact/provider/PactMockMvcRule.java:205-208 | the callback is appended |
| EostsRule.PactMockMvcRuleBuilder.WithAfterCallback | src/main/java/de/eosts/fx/pact/provider/PactMockMvcRule.java:210-213 | the callback is appended |
| EostsRule.PactMockMvcRuleBuilder.ForConsumer | src/main/java/de/eosts/fx/pact/provider/PactMockMvcRule.java:215-218 | the consumer filter is set; null resets it |
| EostsRule.PactMockMvcRuleBuilder.ForProvider | src/main/java/de/eosts/fx/pact/provider/PactMockMvcRule.java:220-223 | the provider filter is set; null resets it |
| EostsRule.PactMockMvcRuleBuilder.Build | src/main/java/de/eosts/fx/pact/provider/PactMockMvcRule.java:225-239 | a fresh rule over exactly the pacts passing the set provider and consumer filters, with the builder's callbacks in insertion order and no runner |
| EositRule.PactMockMvcRule.constructor | src/main/java/de/eosit/fx/pact/provider/PactMockMvcRule.java:23-33 | the pacts of the list, none for null; no runner |
| EositRule.PactMockMvcRule.Configure | src/main/java/de/eosit/fx/pact/provider/PactMockMvcRule.java:63-65 | the current runner, null outside an evaluation |
| EositRule.PactMockMvcRule.Evaluate | src/main/java/de/eosit/fx/pact/provider/PactMockMvcRule.java:36-56 | the body runs on a fresh runner; unless it throws, the provider state defaults to the annotation and the runner runs; the exception is the body's or the run's; the runner is cleared in every case |
| EositRule.PactMockMvcRuleBuilder.constructor | src/main/java/de/eosit/fx/pact/provider/PactMockMvcRule.java:71-74 | no pacts and no filters |
| EositRule.PactMockMvcRuleBuilder.WithFile | src/main/java/de/eosit/fx/pact/provider/PactMockMvcRule.java:76-79 | the loaded pact is added, or loading throws and nothing changes |
| EositRule.PactMockMvcRuleBuilder.WithAllFrom | src/main/java/de/eosit/fx/pact/provider/PactMockMvcRule.java:81-84 | the pacts of every resource matching the recursive pattern are added; an unresolvable pattern or unreadable resource throws and nothing changes |
| EositRule.PactMockMvcRuleBuilder.WithAllFromFile | src/main/java/de/eosit/fx/pact/provider/PactMockMvcRule.java:86-89 | the pacts of the recursive walk are added |
| EositRule.PactMockMvcRuleBuilder.ForConsumer | src/main/java/de/eosit/fx/pact/provider/PactMockMvcRule.java:91-94 | the consumer filter is set; null resets it |
| EositRule.PactMockMvcRuleBuilder.ForProvider | src/main/java/de/eosit/fx/pact/provider/PactMockMvcRule.java:96-99 | the provider filter is set; null resets it |
| EositRule.PactMockMvcRuleBuilder.Build | src/main/java/de/eosit/fx/pact/provider/PactMockMvcRule.java:101-111 | a fresh rule over exactly the pacts passing the set provider and consumer filters, and no runner |
| PactLoader.LoadPactsByFile | src/main/java/de/eosit/fx/pact/provider/PactLoader.java:143-150 | nothing for a null or missing path; a regular file yields exactly its pact, whatever its name |
| PactLoader.LoadAllPactsByFile | src/main/java/de/eosit/fx/pact/provider/PactLoader.java:121-123 | the one-argument form is the recursive walk |
| PactLoader.PactsOfAppend | src/main/java/de/eosit/fx/pact/provider/PactLoader.java:155 | the pacts of two file lists, joined, are those of each list, joined |
| PactLoader.FlatWalk | src/main/java/de/eosit/fx/pact/provider/PactLoader.java:152-157 | a non-recursive walk yields exactly the pacts of the direct children that are files named `*.json`, in listing order |
| PactLoader.DeepWalk | src/main/java/de/eosit/fx/pact/provider/PactLoader.java:152-157 | a recursive walk yields exactly the pacts of the `*.json` files reachable below the directory, each once, in depth-first order |
| PactLoader.DirectoryWalks | src/main/java/de/eosit/fx/pact/provider/PactLoader.java:143-160 | the two walks stated on `loadPactsByFile` for a listable directory, and nothing for one that cannot be listed |
| PactLoader.LocationPattern | src/main/java/de/eosit/fx/pact/provider/PactLoader.java:89-94 | the pattern is the folder, then "/**" when recursive, then "/*.json" |
| PactLoader.ReadResource | src/main/java/de/eosit/fx/pact/provider/PactLoader.java:175-181 | a pact exactly when the resource opens, and then the resource's own pact; otherwise an `IllegalStateException` naming the resource |
| PactLoader.ReadAll | src/main/java/de/eosit/fx/pact/provider/PactLoader.java:103-104 | all pacts, one per resource in order, exactly when every resource opens; otherwise the exception of the first one that does not |
| PactLoader.LoadPactsByResourceFolder | src/main/java/de/eosit/fx/pact/provider/PactLoader.java:88-105 | an `IllegalStateException` naming the pattern when resolving fails; otherwise the pacts of the matching resources or the first read failure |
| PactLoader.LoadAllPactsByResourceFolder | src/main/java/de/eosit/fx/pact/provider/PactLoader.java:63-65 | the one-argument form uses the recursive pattern |
| PactLoader.LoadPactByResource | src/main/java/de/eosit/fx/pact/provider/PactLoader.java:38-41 | a pact exactly when the located resource opens, and then that resource's own pact; otherwise an `IllegalStateException` naming it |
| PactLoader.LoadPactByResourceAsFolder | src/main/java/de/eosit/fx/pact/provider/PactLoader.java:38-41 | loading one located resource gives the same pact, or the same exception, as reading it as a one-element resource list the way the folder loader does |

## Left out

- Parsing pact JSON (`PactReader.loadPact`) belongs to the contract library. A pact, a regular
  file and a resource hold the pact they parse to. `loadPactGeneric` (PactLoader.java:171-173)
  and `withPactSource` therefore take the parsed pact. Splitting the Cookie header into cookie
  strings (`Request.cookie()`) also happens in that library, and the model starts from the
  list of cookie strings.
- File-system and Spring resource resolution are parameters. A directory tree is an `FsNode`
  value. A missing path is `None`. A directory whose listing fails is `listable == false`.
  `resolve` and `locate` stand for the resource pattern resolver and the resource loader. The
  listing order is the order of the children.
- `URLDecoder.decode` is an opaque parameter (`Decoder`). Its fallback to null on an
  unsupported encoding cannot happen with "UTF-8" and is not modelled.
- EositRequestBuilder.BuildRequest: the decoder is total here. `URLDecoder.decode` throws
  `IllegalArgumentException` on a '%' not followed by two hex digits, and `decode`
  (RequestBuilder.java:65-75) does not catch it. The query values are decoded once (line 61)
  and the joined query again (line 43), so an encoded value holding '%' can reach that
  exception on the second pass. That exception is not modelled. `UriComponentsBuilder`
  parsing and the conversion to `java.net.URI` are not modelled: a URI is its path and query
  as given.
- Performing requests on MockMvc and evaluating result matchers (`perform`, `andExpect`,
  JSON comparison) are not modelled. Expectations are an abstract datatype, and the run ends
  by handing them over. A failing matcher's exception is not modelled.
- What user code does besides returning or throwing is not modelled. This covers the request
  and response callbacks, the rule callbacks and the test body. In particular a request
  callback that changes the request builder is not modelled. Its exception is represented by
  one `UserCodeFailure` value per kind of callback.
- Reading the `@ProviderState` and `@InteractionDescription` annotations by reflection is
  replaced by `TestDescription`, which holds their values.
- `ConversionUtils.getInteraction` (singular), called at PactTestRunner.java:347, is not part
  of this model. `FindInteraction` promises only some interaction among the candidates, or
  none when there is none. No particular order is promised, since the pacts are a `HashSet`.
- The `de.eosts` `PactTestRunner` is not part of this model. Both rules drive the one runner
  class, which in addition has the `interactionDescription` setting the `de.eosts` rule uses
  (as a plain accessor). That runner filters the candidates by description when one is set.
  For the `de.eosit` rule the description is never defaulted and stays unset unless a body
  sets it, in which case selection is by state alone, as in the shown `de.eosit` runner. The
  `getProviderState` and `setProviderState` calls of the `de.eosit` rule are read as that
  runner's provider-state accessor and setter.
- EostsRule.PactMockMvcRule.Evaluate: the run it drives builds its request with the
  `de.eosit` translation (`EositRequestBuilder.TranslateInteraction`: decoded path, one raw
  `;`-joined query string). The `de.eosts` runner that would choose the translation is not part
  of this model, so the `de.eosts` translation (`EostsRequestBuilder`: path as given, one query
  parameter per entry, nothing decoded) is modelled on its own and not connected to the rule.
- The runner's getters (`consumer()`, `provider()`, `mockMvc()` and the others) are not
  modelled beyond `Config()`. `resultMatchers()` hands out the live set, which a caller could
  change; the model only changes it through `addResultMatchers`.
- Result matchers are compared by value here. The source's `HashSet<ResultMatcher>` compares
  matcher objects by identity. Two equal derived matchers therefore collapse into one in the
  model.
- `Character.isWhitespace`, which decides whether a context path is blank, is modelled on the
  ASCII range only.
- `toLowerCase` is modelled on ASCII letters only. Locale-specific and other Unicode case
  mappings are not modelled.
- A `Cookie` is not checked for a valid name. The servlet `Cookie` constructor rejects some
  names, and that exception is not modelled.
- `OptionalBody` is an `Option`: a present body is `Some`. Its empty and null states are both
  `None`.
- The `IllegalStateException` for an interaction without a request carries only the fixed
  text. The source appends the interaction's `toString`.
- The case-insensitive name matching that a `de.eosts` test asserts
  (ConversionUtilsTest.java:54-63) is not what the shown code does. The model follows the code:
  names are matched exactly.
- A `de.eosit` test expects `buildRequest(null)` to return null
  (RequestBuilderTest.java:90-94). The `de.eosit` `buildRequest(Request)` has no null guard, so
  the model's `EositRequestBuilder.BuildRequest` takes a request that is present.
- Streams.StreamOf: promises some order listing each element once, not the `HashSet`
  iteration order.
- Runner.PactTestRunner.FindInteraction: does not say which candidate is chosen, because the
  chosen interaction is decided by code not shown.
