/**
 * The GIPHY API client: each endpoint method turns its typed, possibly-null
 * arguments into a request description holding a fresh parameter map.
 */
module ApiClient {
  import opened Wrappers
  import opened Decimal
  import opened IdList

  /** The path format constants, one per endpoint; their text is not part of this model. */
  datatype PathTemplate = SearchPath | TrendingPath | TranslatePath | RandomPath | GifByIdPath | GifByIdsPath

  /** A path: a template formatted with one argument, or a template used as it is. */
  datatype Path = Formatted(template: PathTemplate, arg: string) | Fixed(template: PathTemplate)

  /** The response class the network layer is asked to decode into. */
  datatype ResponseKind = MultipleGifs | SingleGif | RandomGif

  /** What an endpoint hands to the network layer: path, HTTP method, response class, query parameters. */
  datatype Request = Request(path: Path, httpMethod: string, response: ResponseKind, params: map<string, string>)

  /** The value stored under `key`, or `None` when the key is absent. */
  function Lookup(params: map<string, string>, key: string): Option<string>
  {
    if key in params then Some(params[key]) else None
  }

  /** The key an optional argument contributes: itself when the argument is non-null, nothing otherwise. */
  function OptionalKey<T>(key: string, arg: Option<T>): set<string>
  {
    if arg.Some? then {key} else {}
  }

  /** A nullable `Integer` as the parameter value it becomes. */
  function Stringify(arg: Option<int32>): Option<string>
  {
    if arg.Some? then Some(IntToString(arg.value)) else None
  }

  /** A stringified integer parameter reads back as the caller's integer. */
  lemma StringifyRecoverable(arg: Option<int32>)
    requires arg.Some?
    ensures Stringify(arg).Some? && ParseInt(Stringify(arg).value) == Some(arg.value as int)
  {
    ParseIntToString(arg.value);
  }

  /** What `StringBuilder.append(String)` adds for one id: the id, or the four characters `null`. */
  function AppendText(id: Option<string>): (text: string)
    ensures id.Some? ==> text == id.value
    ensures text == "null" <==> id == None || id == Some("null")
  {
    if id.Some? then id.value else "null"
  }

  /** The texts the id loop appends, one per id, in order. */
  function IdTexts(ids: seq<Option<string>>): (texts: seq<string>)
    ensures |texts| == |ids|
    ensures forall i :: 0 <= i < |ids| ==> texts[i] == AppendText(ids[i])
  {
    seq(|ids|, i requires 0 <= i < |ids| => AppendText(ids[i]))
  }

  /** Every request carries the client's key under "api_key". */
  predicate Authenticated(req: Request, apiKey: string) {
    "api_key" in req.params && req.params["api_key"] == apiKey
  }

  class GPHApiClient {
    const apiKey: string

    constructor (apiKey: string)
      ensures this.apiKey == apiKey
    {
      this.apiKey := apiKey;
    }

    method Search(mediaType: string, searchQuery: string, limit: Option<int32>, offset: Option<int32>,
                  rating: Option<string>, lang: Option<string>) returns (req: Request)
      ensures req.path == Formatted(SearchPath, mediaType) && req.httpMethod == "GET"
      ensures req.response == MultipleGifs
      ensures req.params.Keys == {"api_key", "q"} + OptionalKey("limit", limit) + OptionalKey("offset", offset)
                                 + OptionalKey("rating", rating) + OptionalKey("lang", lang)
      ensures Authenticated(req, apiKey) && req.params["q"] == searchQuery
      ensures Lookup(req.params, "limit") == Stringify(limit)
      ensures Lookup(req.params, "offset") == Stringify(offset)
      ensures Lookup(req.params, "rating") == rating
      ensures Lookup(req.params, "lang") == lang
    {
      var params: map<string, string> := map[];
      params := params["api_key" := apiKey];
      params := params["q" := searchQuery];
      if limit.Some? {
        params := params["limit" := IntToString(limit.value)];
      }
      if offset.Some? {
        params := params["offset" := IntToString(offset.value)];
      }
      if rating.Some? {
        params := params["rating" := rating.value];
      }
      if lang.Some? {
        params := params["lang" := lang.value];
      }
      req := Request(Formatted(SearchPath, mediaType), "GET", MultipleGifs, params);
    }

    method Trending(mediaType: string, limit: Option<int32>, offset: Option<int32>, rating: Option<string>)
      returns (req: Request)
      ensures req.path == Formatted(TrendingPath, mediaType) && req.httpMethod == "GET"
      ensures req.response == MultipleGifs
      ensures req.params.Keys == {"api_key"} + OptionalKey("limit", limit) + OptionalKey("offset", offset)
                                 + OptionalKey("rating", rating)
      ensures "q" !in req.params && "s" !in req.params && "tag" !in req.params
      ensures "lang" !in req.params && "ids" !in req.params
      ensures Authenticated(req, apiKey)
      ensures Lookup(req.params, "limit") == Stringify(limit)
      ensures Lookup(req.params, "offset") == Stringify(offset)
      ensures Lookup(req.params, "rating") == rating
    {
      var params: map<string, string> := map[];
      params := params["api_key" := apiKey];
      if limit.Some? {
        params := params["limit" := IntToString(limit.value)];
      }
      if offset.Some? {
        params := params["offset" := IntToString(offset.value)];
      }
      if rating.Some? {
        params := params["rating" := rating.value];
      }
      req := Request(Formatted(TrendingPath, mediaType), "GET", MultipleGifs, params);
    }

    method Translate(mediaType: string, term: string, rating: Option<string>, lang: Option<string>)
      returns (req: Request)
      ensures req.path == Formatted(TranslatePath, mediaType) && req.httpMethod == "GET"
      ensures req.response == SingleGif
      ensures req.params.Keys == {"api_key", "s"} + OptionalKey("rating", rating) + OptionalKey("lang", lang)
      ensures "q" !in req.params
      ensures Authenticated(req, apiKey) && req.params["s"] == term
      ensures Lookup(req.params, "rating") == rating
      ensures Lookup(req.params, "lang") == lang
    {
      var params: map<string, string> := map[];
      params := params["api_key" := apiKey];
      params := params["s" := term];
      if rating.Some? {
        params := params["rating" := rating.value];
      }
      if lang.Some? {
        params := params["lang" := lang.value];
      }
      req := Request(Formatted(TranslatePath, mediaType), "GET", SingleGif, params);
    }

    /** The request asks for the envelope class; `Dispatch.DeliverRandom` adapts the outcome. */
    method Random(mediaType: string, tag: string, rating: Option<string>) returns (req: Request)
      ensures req.path == Formatted(RandomPath, mediaType) && req.httpMethod == "GET"
      ensures req.response == RandomGif
      ensures req.params.Keys == {"api_key", "tag"} + OptionalKey("rating", rating)
      ensures Authenticated(req, apiKey) && req.params["tag"] == tag
      ensures Lookup(req.params, "rating") == rating
    {
      var params: map<string, string> := map[];
      params := params["api_key" := apiKey];
      params := params["tag" := tag];
      if rating.Some? {
        params := params["rating" := rating.value];
      }
      req := Request(Formatted(RandomPath, mediaType), "GET", RandomGif, params);
    }

    /** The id goes into the path; the only parameter is the key. */
    method GifById(gifId: string) returns (req: Request)
      ensures req.path == Formatted(GifByIdPath, gifId) && req.httpMethod == "GET"
      ensures req.response == SingleGif
      ensures req.params == map["api_key" := apiKey]
    {
      var params: map<string, string> := map[];
      params := params["api_key" := apiKey];
      req := Request(Formatted(GifByIdPath, gifId), "GET", SingleGif, params);
    }

    /** The ids travel comma-joined, in the caller's order, under "ids". */
    method GifByIds(gifIds: seq<Option<string>>) returns (req: Request)
      ensures req.path == Fixed(GifByIdsPath) && req.httpMethod == "GET"
      ensures req.response == MultipleGifs
      ensures req.params.Keys == {"api_key", "ids"}
      ensures Authenticated(req, apiKey)
      ensures req.params["ids"] == Join(IdTexts(gifIds))
      ensures gifIds == [] ==> req.params["ids"] == ""
      ensures |gifIds| == 1 ==> req.params["ids"] == AppendText(gifIds[0])
    {
      var params: map<string, string> := map[];
      params := params["api_key" := apiKey];

      ghost var texts := IdTexts(gifIds);
      var str := "";
      for i := 0 to |gifIds|
        invariant i == 0 ==> str == ""
        invariant 0 < i < |gifIds| ==> str == Join(texts[..i]) + ","
        invariant 0 < i == |gifIds| ==> str == Join(texts[..i])
      {
        assert texts[..i + 1][..i] == texts[..i];
        str := str + AppendText(gifIds[i]);
        if i < |gifIds| - 1 {
          str := str + ",";
        }
      }
      assert texts[..|gifIds|] == texts;
      params := params["ids" := str];
      req := Request(Fixed(GifByIdsPath), "GET", MultipleGifs, params);
    }
  }
}
