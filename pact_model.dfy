/**
 * The parts of the contract-file library's object model that the adapter reads:
 * pacts, their interactions, and the declared request and response of an interaction.
 * A Java `null` is `None`; a Java map is the sequence of its entries in iteration order.
 */
module PactModel {
  import opened Wrappers

  /** A query map entry: a parameter name and its list of values. */
  type QueryEntry = (string, seq<string>)

  /** A header map entry: a header name and its value. */
  type HeaderEntry = (string, string)

  /** The request an interaction declares. `cookieStrings` is what `Request.cookie()` yields:
      the Cookie header already split into `name=value` strings by the library. */
  datatype Request = Request(
    httpMethod: Option<string>,
    path: string,
    query: Option<seq<QueryEntry>>,
    headers: Option<seq<HeaderEntry>>,
    body: Option<string>,
    cookieStrings: Option<seq<Option<string>>>)

  /** The response an interaction declares. */
  datatype Response = Response(
    status: Option<int>,
    body: Option<string>,
    headers: Option<seq<HeaderEntry>>)

  /** An interaction is either a request/response pair or some other kind (a message
      interaction), which the adapter cannot execute. */
  datatype Interaction =
    | RequestResponseInteraction(description: string, providerState: Option<string>,
                                 request: Option<Request>, response: Option<Response>)
    | OtherInteraction(description: string, providerState: Option<string>)

  /** A contract document between one consumer and one provider. */
  datatype Pact = Pact(provider: string, consumer: string, interactions: seq<Interaction>)

  /** The exceptions the adapter throws, and the failures of user code it calls. */
  datatype Exception =
    | IllegalState(message: string)
    | IllegalArgument(message: string)
    | UnsupportedOperation(message: string)
    | UserCodeFailure(origin: string)

  /** `Optional<String> expected` applied as `expected.map(e -> e.equals(actual)).orElse(true)`:
      an absent expectation admits everything, a present one admits only an exactly equal value
      (Java `String.equals`, case-sensitive; `equals(null)` is false). */
  predicate Admits(expected: Option<string>, actual: Option<string>) {
    expected.None? || actual == expected
  }
}
