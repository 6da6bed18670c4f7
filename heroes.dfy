/** e7/heroes.go: HeroesService.GetByID, which asks for hero/<id> and returns
    the first hero of the answer. */
module Heroes {
  import opened Wrappers
  import opened Json
  import opened Urls
  import opened Api

  /** The path GetByID asks for, fmt.Sprintf("hero/%v", hero); a reference
      url.Parse never reads as absolute. */
  function HeroPath(hero: string): (p: string)
    ensures !Unmodelled(p)
  {
    HeroPathModelled(hero);
    "hero/" + hero
  }

  lemma HeroPathModelled(hero: string)
    ensures !Unmodelled("hero/" + hero)
  {
    var ref := "hero/" + hero;
    assert ref[..5] == "hero/";
    CutKeepsPrefix(ref, '#', 5);
    var u := BeforeFragment(ref);
    CutKeepsPrefix(u, '?', 5);
    HeroPrefixScan(u);
    var p := PathPart(ref);
    assert p[..5] == "hero/";
    assert p[..2] != "//" by {
      assert p[..2][0] == p[..5][0] == 'h';
    }
  }

  /** Cutting at a character the first k characters do not hold keeps them. */
  lemma CutKeepsPrefix(s: string, c: char, k: nat)
    requires k <= |s| && c !in s[..k]
    ensures |Cut(s, c).0| >= k && Cut(s, c).0[..k] == s[..k]
  {
    var i := IndexOf(s, c);
    assert i == -1 || i >= k;
  }

  lemma HeroPrefixScan(u: string)
    requires |u| >= 5 && u[..5] == "hero/"
    ensures ScanScheme(u, 0) == NoScheme
  {
    assert u[0] == 'h' && u[1] == 'e' && u[2] == 'r' && u[3] == 'o' && u[4] == '/' by {
      assert forall i | 0 <= i < 5 :: u[i] == u[..5][i];
    }
    assert ScanScheme(u, 4) == NoScheme;
    assert ScanScheme(u, 3) == NoScheme;
    assert ScanScheme(u, 2) == NoScheme;
    assert ScanScheme(u, 1) == NoScheme;
  }

  /** `response.Results[0]` as written: the first element, or a run-time
      panic (index out of range) when the answer lists no heroes. */
  datatype Indexing = Element(hero: Option<Hero>) | IndexOutOfRange

  function FirstResultAsWritten(results: seq<Option<Hero>>): (r: Indexing)
    ensures r.IndexOutOfRange? <==> |results| == 0
    ensures r.Element? ==> r.hero == results[0]
  {
    if results == [] then IndexOutOfRange else Element(results[0])
  }

  /** The first result, or EmptyResult when there is none. */
  function FirstResult(results: seq<Option<Hero>>): (r: Result<Option<Hero>, ClientError>)
    ensures r.Failure? <==> |results| == 0
    ensures r.Failure? ==> r.error == EmptyResult
    ensures r.Success? ==> r.value == results[0]
  {
    if results == [] then Failure(EmptyResult) else Success(results[0])
  }

  /** The corrected lookup returns what the written one returns wherever that
      one does not panic, and reports EmptyResult exactly where it panics. */
  lemma FirstResultCorrects(results: seq<Option<Hero>>)
    ensures FirstResultAsWritten(results).IndexOutOfRange? <==> FirstResult(results) == Failure(EmptyResult)
    ensures FirstResultAsWritten(results).Element? ==>
      FirstResult(results) == Success(FirstResultAsWritten(results).hero)
    ensures FirstResult(results).Success? ==> FirstResult(results).value == results[0]
  {
  }

  /** A successful answer with an empty body, or with an empty "results"
      array, decodes without error into no heroes: as written, GetByID then
      indexes Results[0] out of range. */
  lemma EmptyAnswerPanics()
    ensures var (rs, md, e) := DecodeHeroesStream([], NoMetadata, NoValue);
      rs == [] && ReportedDecodeError(e) == None && FirstResultAsWritten(rs) == IndexOutOfRange
    ensures var (rs, md, e) := DecodeHeroesStream([], NoMetadata, Value(JObject(map["results" := JArray([])])));
      rs == [] && ReportedDecodeError(e) == None && FirstResultAsWritten(rs) == IndexOutOfRange
  {
    var m := map["results" := JArray([])];
    assert ResultsMember(m, []) == ([], false) by {
      assert m["results"] == JArray([]);
      assert |ResultsMember(m, []).0| == 0;
    }
    assert HeroesMetadataTagAsWritten !in m by {
      assert HeroesMetadataTagAsWritten != "results";
    }
    assert MetadataMember(m, HeroesMetadataTagAsWritten, NoMetadata) == (NoMetadata, false);
  }

  /** The answer of the heroes test: one hero and the metadata under "meta".
      As written the hero comes through and the metadata stays empty; with
      Metadata tagged "meta" the metadata comes through as well. */
  lemma OneHeroAnswer(hero: map<string, JsonValue>, date: string, version: string)
    requires date != "" && version != ""
    ensures var md := Metadata(date, version);
      var (rs, md', e) := DecodeHeroesStream([], NoMetadata, Value(EncodeHeroes(HeroesMetadataTag, [Some(Hero(hero))], md)));
      rs == [Some(Hero(hero))] && md' == NoMetadata && e == None && FirstResult(rs) == Success(Some(Hero(hero)))
    ensures var md := Metadata(date, version);
      DecodeHeroes(HeroesMetadataTag, [], NoMetadata, EncodeHeroes(HeroesMetadataTag, [Some(Hero(hero))], md))
        == ([Some(Hero(hero))], md, false)
  {
    MetadataTagAsWrittenLosesMetadata([Some(Hero(hero))], Metadata(date, version));
    HeroesRoundTrip([Some(Hero(hero))], Metadata(date, version));
  }

  /** What GetByID returns after a successful status, given what decoding the
      body into a new HeroesResponse gave: the decoder's error, else the first
      hero, else EmptyResult. */
  function Answer(rs: seq<Option<Hero>>, e: Option<DecodeError>): (r: (Option<Hero>, Option<ClientError>))
    ensures r.1.None? <==> ReportedDecodeError(e).None? && rs != []
    ensures r.1.None? ==> r.0 == rs[0]
    ensures r.1.Some? ==> r.0 == None
    ensures ReportedDecodeError(e).Some? ==> r.1 == ReportedDecodeError(e)
    ensures ReportedDecodeError(e).None? && rs == [] ==> r.1 == Some(EmptyResult)
  {
    if ReportedDecodeError(e).Some? then (None, ReportedDecodeError(e))
    else match FirstResult(rs)
      case Failure(x) => (None, Some(x))
      case Success(first) => (first, None)
  }

  /** HeroesService: the heroes methods over a client. */
  class HeroesService {
    const client: Client

    constructor (client: Client)
      ensures this.client == client
    {
      this.client := client;
    }

    /** GetByID: nothing but the NewRequest error when the request cannot be
        built; otherwise what Fetch gives for the request. */
    method GetByID(ctx: Option<Context>, hero: string)
      returns (h: Option<Hero>, resp: Option<Response>, err: Option<ClientError>)
      requires client.client.Ready()
      modifies client.client, client.client.Answered()
      ensures var rq := old(client.NewRequest("GET", HeroPath(hero)));
        rq.Failure? ==> h == None && resp == None && err == Some(rq.error) && client.client.sent == old(client.client.sent)
      ensures var rq := old(client.NewRequest("GET", HeroPath(hero)));
        rq.Success? ==> Fetched(rq.value, ctx, old(client.client.sent), old(client.client.Delivered()), h, resp, err)
    {
      GetIsValid();
      var rq := client.NewRequest("GET", HeroPath(hero));
      if rq.Failure? {
        return None, None, Some(rq.error);
      }
      h, resp, err := Fetch(ctx, rq.value);
    }

    /** What Fetch promises for request rq sent with ctx, given the requests
        sent before and what encoding/json reads from the body the transport's
        response came with. */
    ghost predicate Fetched(rq: Request, ctx: Option<Context>, sentBefore: seq<Request>, reading: JsonReading,
                            h: Option<Hero>, resp: Option<Response>, err: Option<ClientError>)
      reads client, client.client
    {
      && (ctx.None? ==> h == None && resp == None && err == Some(NilContext) && client.client.sent == sentBefore)
      && (ctx.Some? ==> client.client.sent == sentBefore + [rq.(ctx := ctx.value)])
      && (ctx.Some? && client.client.answer.Failed? ==>
            h == None && resp == None && err == Some(FailureError(ctx.value, client.client.answer.fault)))
      && (ctx.Some? && client.client.answer.Received? ==>
            var r := client.client.answer.response;
            && resp == Some(r)
            && (!IsSuccess(r.StatusCode) ==> h == None && err == Some(Status(ErrorResponseOf(r, reading))))
            && (IsSuccess(r.StatusCode) ==>
                  var (rs, md, e) := DecodeHeroesStream([], NoMetadata, reading);
                  (h, err) == Answer(rs, e)))
    }

    /** The rest of GetByID once the request is built: Do into a new
        HeroesResponse; Do's response and error when Do fails; otherwise the
        first hero, or EmptyResult when the answer lists none. */
    method Fetch(ctx: Option<Context>, rq: Request)
      returns (h: Option<Hero>, resp: Option<Response>, err: Option<ClientError>)
      requires client.client.Ready()
      modifies client.client, client.client.Answered()
      ensures Fetched(rq, ctx, old(client.client.sent), old(client.client.Delivered()), h, resp, err)
    {
      var response := new HeroesResponse();
      resp, err := client.Do(ctx, rq, HeroesTarget(response));
      if err.Some? {
        return None, resp, err;
      }
      match FirstResult(response.Results)
      case Failure(e) =>
        h, err := None, Some(e);
      case Success(first) =>
        h := first;
    }
  }
}
