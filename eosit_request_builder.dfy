/**
 * The `de.eosit` RequestBuilder: the path and a query string assembled from the query map are
 * URL-decoded and handed to the URI builder; verb, headers, cookies and body are translated by
 * the shared steps.
 */
module EositRequestBuilder {
  import opened Wrappers
  import opened PactModel
  import opened Strings
  import opened MockMvc
  import opened RequestTranslation

  /** `URLDecoder.decode(s, "UTF-8")`, which this model does not interpret. */
  type Decoder = string -> string

  /** One `key=value1;value2;...` segment of the query string, the values decoded. */
  function QuerySegment(entry: QueryEntry, decode: Decoder): string {
    entry.0 + "=" + Join(';', DecodeAll(entry.1, decode))
  }

  function DecodeAll(values: seq<string>, decode: Decoder): (r: seq<string>)
    ensures |r| == |values| && forall k :: 0 <= k < |values| ==> r[k] == decode(values[k])
  {
    if values == [] then [] else [decode(values[0])] + DecodeAll(values[1..], decode)
  }

  function QuerySegments(entries: seq<QueryEntry>, decode: Decoder): (r: seq<string>)
    ensures |r| == |entries| && forall k :: 0 <= k < |entries| ==> r[k] == QuerySegment(entries[k], decode)
  {
    if entries == [] then [] else [QuerySegment(entries[0], decode)] + QuerySegments(entries[1..], decode)
  }

  /** `toQuery`: null for a null map, otherwise the segments joined by '&'. */
  function ToQuery(query: Option<seq<QueryEntry>>, decode: Decoder): (r: Option<string>)
    ensures r.None? <==> query.None?
  {
    if query.None? then None else Some(Join('&', QuerySegments(query.value, decode)))
  }

  /** The query string splits back into one segment per map entry, in order, provided no name
      or decoded value contains '&'; each segment starts with its entry's name and '='. */
  lemma ToQuerySegments(entries: seq<QueryEntry>, decode: Decoder)
    requires entries != []
    requires forall e :: e in entries ==> '&' !in e.0 && forall v :: v in e.1 ==> '&' !in decode(v)
    ensures Split(ToQuery(Some(entries), decode).value, '&') == QuerySegments(entries, decode)
    ensures forall k :: 0 <= k < |entries| ==>
              QuerySegments(entries, decode)[k][..|entries[k].0| + 1] == entries[k].0 + "="
  {
    var segs := QuerySegments(entries, decode);
    forall s | s in segs ensures '&' !in s {
      var k :| 0 <= k < |segs| && segs[k] == s;
      var e := entries[k];
      var vs := DecodeAll(e.1, decode);
      assert forall v :: v in vs ==> '&' !in v;
      JoinAvoids(';', vs, '&');
    }
    SplitJoin(segs, '&');
  }

  /** A joined string holds a character only if a piece or the separator holds it. */
  lemma {:induction false} JoinAvoids(sep: char, xs: seq<string>, c: char)
    requires c != sep && forall x :: x in xs ==> c !in x
    ensures c !in Join(sep, xs)
  {
    if |xs| > 1 {
      JoinAvoids(sep, xs[1..], c);
    }
  }

  /** The URI `buildRequest(Request)` builds: the decoded path and the decoded query string. */
  function RequestUri(request: Request, decode: Decoder): Uri {
    var q := ToQuery(request.query, decode);
    RawUri(decode(request.path), if q.Some? then Some(decode(q.value)) else None)
  }

  /** `buildRequest(Request)`: the request builder for a request, or the exception an
      unsupported method or an empty cookie array raises. */
  method BuildRequest(request: Request, decode: Decoder) returns (r: Result<MockRequestBuilder, Exception>)
    ensures r.Ok? <==> Translated(request, RequestUri(request, decode)).Ok?
    ensures r.Err? ==> r.error == Translated(request, RequestUri(request, decode)).error
    ensures r.Ok? ==> fresh(r.value) && r.value.Snapshot() == Translated(request, RequestUri(request, decode)).value
  {
    r := CreateBuilder(request, RequestUri(request, decode));
  }

  /** What `buildRequest(Interaction)` yields, as a value: nothing for a null or non
      request/response interaction, an `IllegalStateException` when there is no request, else the
      translated request or the exception its method raises. */
  function TranslateInteraction(interaction: Option<Interaction>, decode: Decoder)
    : Result<Option<MockRequest>, Exception>
  {
    if interaction.None? || interaction.value.OtherInteraction? then Ok(None)
    else if interaction.value.request.None? then Err(IllegalState(NoRequestMessage))
    else
      var request := interaction.value.request.value;
      var t := Translated(request, RequestUri(request, decode));
      if t.Err? then Err(t.error) else Ok(Some(t.value))
  }

  /** `buildRequest(Interaction)`. */
  method BuildRequestFor(interaction: Option<Interaction>, decode: Decoder)
    returns (r: Result<Option<MockRequestBuilder>, Exception>)
    ensures r.Ok? <==> TranslateInteraction(interaction, decode).Ok?
    ensures r.Err? ==> r.error == TranslateInteraction(interaction, decode).error
    ensures r.Ok? ==> (r.value.Some? <==> TranslateInteraction(interaction, decode).value.Some?)
    ensures r.Ok? && r.value.Some? ==>
              fresh(r.value.value) && r.value.value.Snapshot() == TranslateInteraction(interaction, decode).value.value
  {
    if interaction.None? || !interaction.value.RequestResponseInteraction? {
      return Ok(None);
    }
    var request := interaction.value.request;
    if request.None? {
      return Err(IllegalState(NoRequestMessage));
    }
    var built := BuildRequest(request.value, decode);
    if built.Err? {
      return Err(built.error);
    }
    r := Ok(Some(built.value));
  }

  /** The cases of `buildRequest(Interaction)`: empty for a null or non request/response
      interaction, an `IllegalStateException` for a missing request, the exception of an
      unsupported method or of an empty cookie array, and the translated request otherwise. */
  lemma TranslateInteractionCases(interaction: Option<Interaction>, decode: Decoder)
    ensures interaction.None? || interaction.value.OtherInteraction?
            ==> TranslateInteraction(interaction, decode) == Ok(None)
    ensures interaction.Some? && interaction.value.RequestResponseInteraction? && interaction.value.request.None?
            ==> TranslateInteraction(interaction, decode) == Err(IllegalState(NoRequestMessage))
    ensures interaction.Some? && interaction.value.RequestResponseInteraction? && interaction.value.request.Some?
            ==> var request := interaction.value.request.value;
                var t := TranslateInteraction(interaction, decode);
                (t.Ok? <==> HttpVerbOf(request.httpMethod).Ok? && CookiesFailure(request).None?)
                && (t.Err? ==> t.error == if HttpVerbOf(request.httpMethod).Err? then HttpVerbOf(request.httpMethod).error
                                          else CookiesFailure(request).value)
                && (t.Ok? ==> t.value == Some(MockRequest(HttpVerbOf(request.httpMethod).value,
                                                          RequestUri(request, decode),
                                                          request.headers.GetOr([]),
                                                          CookieList(request.cookieStrings.GetOr([])),
                                                          Some(request.body.GetOr("")), "")))
  {
  }
}
