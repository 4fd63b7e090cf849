/**
 * The `de.eosts` RequestBuilder: guards against a null request, and adds the query map to the
 * URI builder one parameter per entry; verb, headers, cookies and body are translated by the
 * shared steps.
 */
module EostsRequestBuilder {
  import opened Wrappers
  import opened PactModel
  import opened MockMvc
  import opened RequestTranslation

  /** `toQuery`: nothing happens for a null map or builder; otherwise each map entry becomes
      one query parameter carrying all of the entry's values, in order. */
  method ToQuery(query: Option<seq<QueryEntry>>, builder: UriComponentsBuilder?)
    modifies builder
    ensures builder != null ==>
              builder.queryParams == old(builder.queryParams) + query.GetOr([])
  {
    if query.None? || builder == null {
      return;
    }
    var entries := query.value;
    for k := 0 to |entries|
      invariant builder.queryParams == old(builder.queryParams) + entries[..k]
    {
      builder.QueryParam(entries[k].0, entries[k].1);
      assert entries[..k + 1] == entries[..k] + [entries[k]];
    }
    assert entries[..|entries|] == entries;
  }

  /** The URI `buildRequest(Request)` builds: the path as given and one parameter per query
      map entry. */
  function RequestUri(request: Request): Uri {
    ParamUri(request.path, request.query.GetOr([]))
  }

  /** `buildRequest(Request)`: null for a null request, else the request builder or the
      exception an unsupported method or an empty cookie array raises. */
  method BuildRequest(request: Option<Request>) returns (r: Result<MockRequestBuilder?, Exception>)
    ensures request.None? ==> r == Ok(null)
    ensures request.Some? ==>
              (r.Ok? <==> Translated(request.value, RequestUri(request.value)).Ok?)
              && (r.Err? ==> r.error == Translated(request.value, RequestUri(request.value)).error)
              && (r.Ok? ==> r.value != null && fresh(r.value)
                            && r.value.Snapshot() == Translated(request.value, RequestUri(request.value)).value)
  {
    if request.None? {
      return Ok(null);
    }
    var uriBuilder := new UriComponentsBuilder.FromUriString(request.value.path);
    ToQuery(request.value.query, uriBuilder);
    var uri := uriBuilder.Build();
    assert [] + request.value.query.GetOr([]) == request.value.query.GetOr([]);
    assert uri == RequestUri(request.value);
    var built := CreateBuilder(request.value, uri);
    if built.Err? {
      return Err(built.error);
    }
    r := Ok(built.value);
  }

  /** `buildRequest(Interaction)`: nothing for a null or non request/response interaction, an
      `IllegalStateException` when the interaction has no request, else the built request. */
  method BuildRequestFor(interaction: Option<Interaction>)
    returns (r: Result<Option<MockRequestBuilder>, Exception>)
    ensures interaction.None? || interaction.value.OtherInteraction? ==> r == Ok(None)
    ensures interaction.Some? && interaction.value.RequestResponseInteraction? && interaction.value.request.None?
            ==> r == Err(IllegalState(NoRequestMessage))
    ensures interaction.Some? && interaction.value.RequestResponseInteraction? && interaction.value.request.Some?
            ==> var request := interaction.value.request.value;
                var expected := Translated(request, RequestUri(request));
                (r.Ok? <==> expected.Ok?)
                && (r.Err? ==> r.error == expected.error)
                && (r.Ok? ==> r.value.Some? && fresh(r.value.value) && r.value.value.Snapshot() == expected.value)
  {
    if interaction.None? || !interaction.value.RequestResponseInteraction? {
      return Ok(None);
    }
    var request := interaction.value.request;
    if request.None? {
      return Err(IllegalState(NoRequestMessage));
    }
    var built := BuildRequest(request);
    if built.Err? {
      return Err(built.error);
    }
    r := Ok(Some(built.value));
  }
}
