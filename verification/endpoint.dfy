/** The verb dispatcher (`endpoint`, oai/views.py:30-53) and Identify's
    earliest datestamp (`identify`, oai/views.py:55-62). */
module Endpoint {
  import opened OaiTypes
  import opened Validation
  import opened Tokens
  import opened Pagination

  const NoVerbMessage: string := "No verb specified!"

  /** Identify's answer for an empty record store. */
  const EmptyStoreDatestamp: string := "1990-01-01"

  function NotImplemented(verb: string): string {
    "Verb \"" + verb + "\" is not implemented."
  }

  /** Where `endpoint` sends a request. */
  datatype Route =
    | NoVerb
    | IdentifyRoute
    | ResumeRoute(kind: ListKind, key: string)
    | FreshRoute(kind: ListKind)
    | UnknownVerb(verb: string)

  /** The list verb a verb string names, if it names one. */
  function ListKindOf(verb: string): (k: Option<ListKind>)
    ensures k == Some(ListRecords) <==> verb == "ListRecords"
    ensures k == Some(ListIdentifiers) <==> verb == "ListIdentifiers"
  {
    if verb == "ListRecords" then Some(ListRecords)
    else if verb == "ListIdentifiers" then Some(ListIdentifiers)
    else None
  }

  /** The routing decision of lines 37-53. A `resumptionToken` that is present,
      even empty, selects the resume path. */
  function RouteOf(ps: Params): (r: Route)
    ensures r.NoVerb? <==> !Supplied(Get(ps, "verb"))
    ensures r.IdentifyRoute? <==> Get(ps, "verb") == Some("Identify")
    ensures r.UnknownVerb? <==>
      Supplied(Get(ps, "verb")) && Get(ps, "verb").value !in {"Identify", "ListRecords", "ListIdentifiers"}
    ensures r.UnknownVerb? ==> r.verb == Get(ps, "verb").value
    ensures r.ResumeRoute? || r.FreshRoute? ==> Get(ps, "verb") == Some(if r.kind == ListRecords then "ListRecords" else "ListIdentifiers")
    ensures r.ResumeRoute? ==> Get(ps, "resumptionToken") == Some(r.key)
    ensures r.FreshRoute? ==> Get(ps, "resumptionToken").None?
  {
    var verb := Get(ps, "verb");
    if !Supplied(verb) then NoVerb
    else if verb.value == "Identify" then IdentifyRoute
    else match ListKindOf(verb.value)
      case Some(kind) =>
        if Get(ps, "resumptionToken").Some? then ResumeRoute(kind, Get(ps, "resumptionToken").value)
        else FreshRoute(kind)
      case None => UnknownVerb(verb.value)
  }

  /** With a `resumptionToken`, the route depends on the verb and the token's
      value alone: `metadataPrefix` and every other parameter are ignored. */
  lemma ResumeIgnoresOtherParameters(ps1: Params, ps2: Params)
    requires Get(ps1, "verb") == Get(ps2, "verb")
    requires Get(ps1, "resumptionToken") == Get(ps2, "resumptionToken")
    requires Get(ps1, "resumptionToken").Some?
    ensures RouteOf(ps1) == RouteOf(ps2)
    ensures !RouteOf(ps1).FreshRoute?
  {
  }

  /** A request that names the verb twice is routed by the later value, as
      Django's `request.GET.get` answers. */
  lemma LaterVerbWins()
    ensures RouteOf([Param("verb", "Identify"), Param("verb", "ListRecords"), Param("metadataPrefix", "oai_dc")])
         == FreshRoute(ListRecords)
  {
  }

  /** The smallest timestamp in the store: `order_by('timestamp').first()`. */
  function MinTimestamp(records: seq<Record>): (t: Timestamp)
    requires |records| > 0
    ensures forall r :: r in records ==> t <= r.timestamp
    ensures exists r :: r in records && r.timestamp == t
  {
    if |records| == 1 then records[0].timestamp
    else
      var rest := MinTimestamp(records[1..]);
      assert records[1..][0] in records;
      if records[0].timestamp <= rest then records[0].timestamp else rest
  }

  /** Identify's `earliestDatestamp` (lines 57-61). */
  function EarliestDatestamp(records: seq<Record>): (d: Datestamp)
    ensures d.Literal? <==> records == []
    ensures d.Literal? ==> d.text == EmptyStoreDatestamp
    ensures d.Stamp? ==> (exists r :: r in records && r.timestamp == d.t) && forall r :: r in records ==> d.t <= r.timestamp
  {
    if |records| == 0 then Literal(EmptyStoreDatestamp) else Stamp(MinTimestamp(records))
  }

  /** `endpoint`: `sets` is the set catalogue, `parse` the tolerant datestamp
      parser and `limit` the service's `results_limit`. Each route's answer is
      fixed by its own inputs; only a list page may add a row to the token
      store. */
  method Endpoint(ps: Params, records: seq<Record>, sets: set<string>, parse: string -> Option<Timestamp>,
                  limit: nat, store: TokenStore) returns (resp: Response)
    requires store.Valid()
    modifies store
    ensures store.Valid()
    ensures match RouteOf(ps)
      case NoVerb => resp == ErrorPage(BadVerb, NoVerbMessage) && store.rows == old(store.rows)
      case IdentifyRoute => resp == IdentifyPage(EarliestDatestamp(records)) && store.rows == old(store.rows)
      case UnknownVerb(verb) => resp == ErrorPage(BadVerb, NotImplemented(verb)) && store.rows == old(store.rows)
      case ResumeRoute(kind, key) => ResumeOutcome(resp, kind, key, records, limit, old(store.rows), store.rows)
      case FreshRoute(kind) =>
        match Validate(ps, sets, parse)
        case Err(e) => resp == ErrorPage(e.code, e.message) && store.rows == old(store.rows)
        case Ok(q) => ListOutcome(resp, kind, q, 0, records, limit, old(store.rows), store.rows)
  {
    var verb := Get(ps, "verb");
    if !Supplied(verb) {
      return ErrorPage(BadVerb, NoVerbMessage);
    }
    if verb.value == "Identify" {
      return IdentifyPage(EarliestDatestamp(records));
    }
    var kind := ListKindOf(verb.value);
    if kind.Some? {
      var token := Get(ps, "resumptionToken");
      if token.Some? {
        resp := ResumeRequest(kind.value, token.value, records, limit, store);
        return;
      }
      var query := GetListQuery(ps, sets, parse);
      if query.Err? {
        return ErrorPage(query.error.code, query.error.message);
      }
      resp := HandleListQuery(kind.value, query.value, 0, records, limit, store);
      return;
    }
    return ErrorPage(BadVerb, NotImplemented(verb.value));
  }

  /** Resuming the same token twice with no change to the records delivers the
      same page both times: resuming never invalidates the token it used. */
  method ResumeIsRepeatable(kind: ListKind, key: string, records: seq<Record>, limit: nat, store: TokenStore)
    returns (first: Response, second: Response)
    requires store.Valid()
    modifies store
    ensures first.ErrorPage? <==> second.ErrorPage?
    ensures first.ListPage? ==> second.ListPage? && second.matches == first.matches && (second.token.Some? <==> first.token.Some?)
  {
    first := ResumeRequest(kind, key, records, limit, store);
    second := ResumeRequest(kind, key, records, limit, store);
  }

  /** A page size of two over three matching records: the first page holds the
      first two records and a token with offset 2, cursor 0 and total count 3;
      resuming it delivers the third record and no further token. */
  lemma ThreeRecordHarvest(r1: Record, r2: Record, r3: Record)
    requires r1.format == "oai_dc" && r2.format == "oai_dc" && r3.format == "oai_dc"
    ensures var q := ListQuery("oai_dc", None, None, None);
      var m := Filter([r1, r2, r3], q);
      var t := NewToken(ListRecords, q, 0 + 2, |m|, 2);
      && PageOf(m, 0, 2) == [r1, r2] && MustIssue(|m|, 0, 2)
      && t.offset == 2 && t.cursor == 0 && t.totalCount == 3
      && PageOf(Filter([r1, r2, r3], RebuildQuery(t)), t.offset, 2) == [r3]
      && !MustIssue(|Filter([r1, r2, r3], RebuildQuery(t))|, t.offset, 2)
  {
    FilterAllMatch([r1, r2, r3], ListQuery("oai_dc", None, None, None));
  }
}
