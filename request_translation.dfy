/**
 * The request translation steps both RequestBuilder variants share, line for line: choosing
 * the HTTP verb, parsing cookie strings, and copying headers, cookies and body onto the
 * mock request builder.
 */
module RequestTranslation {
  import opened Wrappers
  import opened PactModel
  import opened Strings
  import opened MockMvc

  /** The lower-case name under which a verb is dispatched. */
  function VerbName(v: HttpVerb): string {
    match v
    case GET => "get"
    case POST => "post"
    case PUT => "put"
    case DELETE => "delete"
    case OPTIONS => "options"
    case HEAD => "head"
  }

  /** The verb selected by `createBuilderByHttpMethod`: the method is lower-cased (a null method
      becomes ""), six names are known, anything else is an `UnsupportedOperationException`. */
  function HttpVerbOf(httpMethod: Option<string>): (r: Result<HttpVerb, Exception>)
    ensures r.Ok? <==> ToLower(httpMethod.GetOr("")) in {"get", "post", "put", "delete", "options", "head"}
    ensures r.Ok? ==> VerbName(r.value) == ToLower(httpMethod.GetOr(""))
    ensures r.Err? ==> r.error == UnsupportedOperation("Can't handle http method: " + ToLower(httpMethod.GetOr("")))
  {
    var m := if httpMethod.Some? then ToLower(httpMethod.value) else "";
    if m == "get" then Ok(GET)
    else if m == "post" then Ok(POST)
    else if m == "put" then Ok(PUT)
    else if m == "delete" then Ok(DELETE)
    else if m == "options" then Ok(OPTIONS)
    else if m == "head" then Ok(HEAD)
    else Err(UnsupportedOperation("Can't handle http method: " + m))
  }

  /** Dispatch ignores case: a method and its lower-case form select the same verb. */
  lemma HttpVerbOfIgnoresCase(m: string)
    ensures HttpVerbOf(Some(m)) == HttpVerbOf(Some(ToLower(m)))
  {
    ToLowerIdempotent(m);
  }

  /** Every verb is selected by its own name, and, dispatch ignoring case, by any spelling
      of it. */
  lemma HttpVerbOfName(v: HttpVerb, m: string)
    requires ToLower(m) == VerbName(v)
    ensures HttpVerbOf(Some(VerbName(v))) == Ok(v)
    ensures HttpVerbOf(Some(m)) == Ok(v)
  {
  }

  /** `toCookie`: no cookie for a null or empty string; otherwise the name is the text before
      the first '=' and the value the rest, or a null value when there is no '='. */
  function ToCookie(cookieString: Option<string>): (r: Option<Cookie>)
    ensures r.None? <==> cookieString.None? || cookieString.value == ""
    ensures r.Some? ==> '=' !in r.value.name
    ensures r.Some? && r.value.value.None? ==> r.value.name == cookieString.value && '=' !in cookieString.value
    ensures r.Some? && r.value.value.Some? ==>
              cookieString.value == r.value.name + "=" + r.value.value.value
  {
    if cookieString.None? || cookieString.value == "" then None
    else
      var parts := SplitFirst(cookieString.value, '=');
      Some(Cookie(parts.0, parts.1))
  }

  /** The `name=value` text a cookie stands for (just the name for a null value). */
  function CookieText(c: Cookie): string {
    if c.value.Some? then c.name + "=" + c.value.value else c.name
  }

  /** Splitting and re-joining a cookie string gives the string back. */
  lemma ToCookieRoundTrip(s: string)
    requires s != ""
    ensures ToCookie(Some(s)).Some? && CookieText(ToCookie(Some(s)).value) == s
  {
  }

  /** The other direction: a cookie is recovered from its text exactly when its name holds no
      '=' and the text is not empty. */
  lemma {:induction false} CookieTextRoundTrip(c: Cookie)
    ensures ToCookie(Some(CookieText(c))) == Some(c) <==> '=' !in c.name && CookieText(c) != ""
  {
    var t := CookieText(c);
    if '=' !in c.name && t != "" {
      var parts := SplitFirst(t, '=');
      if c.value.Some? {
        assert t == c.name + "=" + c.value.value;
        SplitFirstAt(c.name, c.value.value);
      } else {
        assert parts.1.None?;
      }
    }
  }

  lemma {:induction false} SplitFirstAt(name: string, rest: string)
    requires '=' !in name
    ensures SplitFirst(name + "=" + rest, '=') == (name, Some(rest))
  {
    if name == [] {
      assert name + "=" + rest == ['='] + rest;
      assert (name + "=" + rest)[1..] == rest;
    } else {
      assert (name + "=" + rest)[1..] == name[1..] + "=" + rest;
      SplitFirstAt(name[1..], rest);
      assert [name[0]] + name[1..] == name;
    }
  }

  /** The cookies `buildCookies` sets: `toCookie` of each string, the null results dropped. */
  function CookieList(cookieStrings: seq<Option<string>>): seq<Cookie> {
    if cookieStrings == [] then []
    else
      var head := ToCookie(cookieStrings[0]);
      (if head.Some? then [head.value] else []) + CookieList(cookieStrings[1..])
  }

  /** The strings of a cookie list that are present and not empty, in order. */
  function NonEmptyStrings(ss: seq<Option<string>>): seq<string> {
    if ss == [] then []
    else (if ss[0].Some? && ss[0].value != "" then [ss[0].value] else []) + NonEmptyStrings(ss[1..])
  }

  function CookieTexts(cs: seq<Cookie>): seq<string> {
    if cs == [] then [] else [CookieText(cs[0])] + CookieTexts(cs[1..])
  }

  /** The cookies set are exactly the non-empty input strings, in their original order:
      turning each cookie back into text gives those strings. */
  lemma {:induction false} CookieListRoundTrip(ss: seq<Option<string>>)
    ensures CookieTexts(CookieList(ss)) == NonEmptyStrings(ss)
    ensures |CookieList(ss)| == |NonEmptyStrings(ss)|
  {
    if ss != [] {
      CookieListRoundTrip(ss[1..]);
      var head := ToCookie(ss[0]);
      if head.Some? {
        ToCookieRoundTrip(ss[0].value);
        var cs := CookieList(ss);
        assert cs == [head.value] + CookieList(ss[1..]);
        assert cs[0] == head.value && cs[1..] == CookieList(ss[1..]);
        assert CookieTexts(cs) == [CookieText(head.value)] + CookieTexts(CookieList(ss[1..]));
        assert NonEmptyStrings(ss) == [ss[0].value] + NonEmptyStrings(ss[1..]);
      } else {
        assert CookieList(ss) == CookieList(ss[1..]);
        assert NonEmptyStrings(ss) == NonEmptyStrings(ss[1..]);
      }
    }
  }

  /** `buildReqHeaders`: a null header map leaves the builder alone; otherwise every entry is
      added with its value unchanged, in the map's iteration order. */
  method BuildReqHeaders(builder: MockRequestBuilder, request: Request)
    modifies builder
    ensures builder.Snapshot()
         == old(builder.Snapshot()).(headers := old(builder.headers) + request.headers.GetOr([]))
  {
    if request.headers.None? {
      return;
    }
    var entries := request.headers.value;
    for k := 0 to |entries|
      invariant builder.Snapshot()
             == old(builder.Snapshot()).(headers := old(builder.headers) + entries[..k])
    {
      builder.Header(entries[k].0, entries[k].1);
      assert entries[..k + 1] == entries[..k] + [entries[k]];
    }
    assert entries[..|entries|] == entries;
  }

  /** The exception `buildCookies` raises: a present cookie list that yields no cookie (it is
      empty, or all its strings are null or empty) hands an empty array to `cookie(...)`. */
  function CookiesFailure(request: Request): Option<Exception> {
    if request.cookieStrings.Some? && CookieList(request.cookieStrings.value) == [] then
      Some(IllegalArgument(EmptyCookiesMessage))
    else None
  }

  /** `buildCookies`: a null cookie list leaves the builder alone; otherwise the parsed cookies,
      the null ones dropped, are added in input order, and when none is left the builder
      throws. */
  method BuildCookies(builder: MockRequestBuilder, request: Request) returns (thrown: Option<Exception>)
    modifies builder
    ensures thrown == CookiesFailure(request)
    ensures builder.Snapshot()
         == old(builder.Snapshot()).(cookies := old(builder.cookies) + CookieList(request.cookieStrings.GetOr([])))
  {
    if request.cookieStrings.None? {
      return None;
    }
    thrown := builder.AddCookies(CookieList(request.cookieStrings.value));
  }

  /** A cookie list fails exactly when it is present and holds no non-empty string. */
  lemma {:induction false} CookiesFailureCases(request: Request)
    ensures CookiesFailure(request).Some?
        <==> request.cookieStrings.Some? && NonEmptyStrings(request.cookieStrings.value) == []
    ensures CookiesFailure(request).Some? ==> CookiesFailure(request).value == IllegalArgument(EmptyCookiesMessage)
  {
    if request.cookieStrings.Some? {
      CookieListRoundTrip(request.cookieStrings.value);
    }
  }

  /** `buildReqBody`: the body, or "" when the body is absent. */
  method BuildReqBody(builder: MockRequestBuilder, request: Request)
    modifies builder
    ensures builder.Snapshot() == old(builder.Snapshot()).(content := Some(request.body.GetOr("")))
  {
    builder.Content(request.body.GetOr(""));
  }

  /** What the finished builder holds for a request and the URI built from it, or the
      exception an unsupported method or an empty cookie array raises. */
  function Translated(request: Request, uri: Uri): Result<MockRequest, Exception> {
    var verb := HttpVerbOf(request.httpMethod);
    if verb.Err? then Err(verb.error)
    else if CookiesFailure(request).Some? then Err(CookiesFailure(request).value)
    else Ok(MockRequest(verb.value, uri, request.headers.GetOr([]),
                        CookieList(request.cookieStrings.GetOr([])),
                        Some(request.body.GetOr("")), ""))
  }

  /** The outcomes of a translation: the verb is checked first, then the cookies; a request
      passing both holds the verb, the URI, all headers, the non-empty cookie strings as
      cookies, in order, and the body or "". */
  lemma TranslatedCases(request: Request, uri: Uri)
    ensures var t := Translated(request, uri);
            (t.Ok? <==> HttpVerbOf(request.httpMethod).Ok?
                        && !(request.cookieStrings.Some? && NonEmptyStrings(request.cookieStrings.value) == []))
            && (HttpVerbOf(request.httpMethod).Err? ==> t == Err(HttpVerbOf(request.httpMethod).error))
            && (HttpVerbOf(request.httpMethod).Ok? && t.Err? ==> t.error == IllegalArgument(EmptyCookiesMessage))
            && (t.Ok? ==> t.value.verb == HttpVerbOf(request.httpMethod).value && t.value.uri == uri
                          && t.value.headers == request.headers.GetOr([])
                          && CookieTexts(t.value.cookies) == NonEmptyStrings(request.cookieStrings.GetOr([]))
                          && t.value.content == Some(request.body.GetOr("")) && t.value.contextPath == "")
  {
    CookiesFailureCases(request);
    CookieListRoundTrip(request.cookieStrings.GetOr([]));
  }

  /** `createBuilder`: pick the verb (or throw), then copy headers, cookies and body. */
  method CreateBuilder(request: Request, uri: Uri) returns (r: Result<MockRequestBuilder, Exception>)
    ensures r.Ok? <==> Translated(request, uri).Ok?
    ensures r.Err? ==> r.error == Translated(request, uri).error
    ensures r.Ok? ==> fresh(r.value) && r.value.Snapshot() == Translated(request, uri).value
  {
    var verb := HttpVerbOf(request.httpMethod);
    if verb.Err? {
      return Err(verb.error);
    }
    var builder := new MockRequestBuilder(verb.value, uri);
    BuildReqHeaders(builder, request);
    var thrown := BuildCookies(builder, request);
    if thrown.Some? {
      return Err(thrown.value);
    }
    BuildReqBody(builder, request);
    r := Ok(builder);
  }

  /** The fixed text of the `IllegalStateException` for an interaction without a request. */
  const NoRequestMessage := "No request information available in the current interaction"
}
