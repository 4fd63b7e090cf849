/**
 * The parts of Spring's test web layer the adapter drives: the mock request builder that
 * accumulates method, URI, headers, cookies, body and context path, and the URI components
 * builder the query parameters are added to.
 */
module MockMvc {
  import opened Wrappers
  import opened PactModel

  datatype HttpVerb = GET | POST | PUT | DELETE | OPTIONS | HEAD

  /** A servlet cookie; `value` is `None` for a cookie built with a null value. */
  datatype Cookie = Cookie(name: string, value: Option<string>)

  /** A built URI: the path, and either a raw query string or the list of query parameters. */
  datatype Uri =
    | RawUri(path: string, rawQuery: Option<string>)
    | ParamUri(path: string, queryParams: seq<QueryEntry>)

  /** Everything a request builder holds. */
  datatype MockRequest = MockRequest(
    verb: HttpVerb, uri: Uri, headers: seq<HeaderEntry>, cookies: seq<Cookie>,
    content: Option<string>, contextPath: string)

  const EmptyCookiesMessage := "'cookies' must not be empty"

  /** `Character.isWhitespace`, on the ASCII range. */
  predicate IsWhitespace(c: char) {
    c == ' ' || 9 <= c as int <= 13 || 28 <= c as int <= 31
  }

  /** `StringUtils.hasText`: some character is not whitespace. */
  predicate HasText(s: string) {
    exists k :: 0 <= k < |s| && !IsWhitespace(s[k])
  }

  const ContextPathStartMessage := "Context path must start with a '/'"
  const ContextPathEndMessage := "Context path must not end with a '/'"

  /** The exception `contextPath(path)` raises: a path with text that does not start with '/',
      or else ends with '/', is rejected; a null or blank path is accepted. */
  function ContextPathFailure(path: Option<string>): (r: Option<Exception>)
    ensures r.None? <==> path.None? || !HasText(path.value)
                         || (path.value[0] == '/' && path.value[|path.value| - 1] != '/')
    ensures r.Some? ==> r.value == IllegalArgument(if path.value[0] != '/' then ContextPathStartMessage
                                                   else ContextPathEndMessage)
  {
    if path.None? || !HasText(path.value) then None
    else if path.value[0] != '/' then Some(IllegalArgument(ContextPathStartMessage))
    else if path.value[|path.value| - 1] == '/' then Some(IllegalArgument(ContextPathEndMessage))
    else None
  }

  /** Context paths as a test configures them: "/app" and null are accepted; "app", "/" and
      "/app/" are rejected, "app" for its start and the other two for their end. */
  lemma ContextPathExamples()
    ensures ContextPathFailure(Some("/app")).None? && ContextPathFailure(None).None?
    ensures ContextPathFailure(Some("app")) == Some(IllegalArgument(ContextPathStartMessage))
    ensures ContextPathFailure(Some("/")) == Some(IllegalArgument(ContextPathEndMessage))
    ensures ContextPathFailure(Some("/app/")) == Some(IllegalArgument(ContextPathEndMessage))
  {
    assert !IsWhitespace("app"[0]);
    assert !IsWhitespace("/"[0]);
  }

  /** A blank path has no first character to check, and is accepted as it is. */
  lemma {:induction false} BlankContextPath(n: nat)
    ensures var blank := seq(n, _ => ' ');
            !HasText(blank) && ContextPathFailure(Some(blank)).None?
  {
  }

  /** `MockHttpServletRequestBuilder`. */
  class MockRequestBuilder {
    const verb: HttpVerb
    const uri: Uri
    var headers: seq<HeaderEntry>
    var cookies: seq<Cookie>
    var content: Option<string>
    var contextPath: string

    function Snapshot(): MockRequest
      reads this
    {
      MockRequest(verb, uri, headers, cookies, content, contextPath)
    }

    /** `MockMvcRequestBuilders.get(uri)` and its five siblings. */
    constructor (verb: HttpVerb, uri: Uri)
      ensures Snapshot() == MockRequest(verb, uri, [], [], None, "")
    {
      this.verb := verb;
      this.uri := uri;
      headers := [];
      cookies := [];
      content := None;
      contextPath := "";
    }

    /** `header(name, value)`: adds one header value. */
    method Header(name: string, value: string)
      modifies this
      ensures Snapshot() == old(Snapshot()).(headers := old(headers) + [(name, value)])
    {
      headers := headers + [(name, value)];
    }

    /** `cookie(cookies...)`: rejects an empty array with an `IllegalArgumentException`
        (Spring's `Assert.notEmpty`), otherwise adds the cookies in order. */
    method AddCookies(cs: seq<Cookie>) returns (thrown: Option<Exception>)
      modifies this
      ensures thrown.Some? <==> cs == []
      ensures thrown.Some? ==> thrown.value == IllegalArgument(EmptyCookiesMessage)
      ensures Snapshot() == old(Snapshot()).(cookies := old(cookies) + cs)
    {
      if cs == [] {
        return Some(IllegalArgument(EmptyCookiesMessage));
      }
      cookies := cookies + cs;
      thrown := None;
    }

    /** `content(body)`. */
    method Content(body: string)
      modifies this
      ensures Snapshot() == old(Snapshot()).(content := Some(body))
    {
      content := Some(body);
    }

    /** `contextPath(path)`: a path with text must start and must not end with '/', or the
        call throws and changes nothing; otherwise the path is stored, a null path as "". */
    method ContextPath(path: Option<string>) returns (thrown: Option<Exception>)
      modifies this
      ensures thrown == ContextPathFailure(path)
      ensures thrown.Some? ==> Snapshot() == old(Snapshot())
      ensures thrown.None? ==> Snapshot() == old(Snapshot()).(contextPath := path.GetOr(""))
    {
      thrown := ContextPathFailure(path);
      if thrown.None? {
        contextPath := path.GetOr("");
      }
    }
  }

  /** `UriComponentsBuilder`, holding a path and the query parameters added so far. */
  class UriComponentsBuilder {
    const path: string
    var queryParams: seq<QueryEntry>

    /** `UriComponentsBuilder.fromUriString(path)`. */
    constructor FromUriString(path: string)
      ensures this.path == path && queryParams == []
    {
      this.path := path;
      queryParams := [];
    }

    /** `queryParam(name, values...)`: adds one parameter carrying all the values. An empty
        `values` stands for the single null value Spring records for an empty array. A repeated
        name would be merged into one entry by Spring's multi-value map; the query maps this
        builder is fed have unique keys, so that merge never happens here. */
    method QueryParam(name: string, values: seq<string>)
      modifies this
      ensures queryParams == old(queryParams) + [(name, values)]
    {
      queryParams := queryParams + [(name, values)];
    }

    /** `build()`. */
    function Build(): Uri
      reads this
    {
      ParamUri(path, queryParams)
    }
  }
}
