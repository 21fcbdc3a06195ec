/** Values shared by the OAI-PMH protocol engine of oai/views.py: the request's
    parameter dictionary, records, list queries, resumption tokens, errors and
    the responses handed to the renderer. */
module OaiTypes {

  datatype Option<+T> = None | Some(value: T)

  datatype Result<+T, +E> = Ok(value: T) | Err(error: E)

  /** What a Python call does when it does not return normally: used only by the
      members that model the source exactly as written. */
  datatype Fallible<+T> = Returned(value: T) | Raised(exception: string)

  /** Record timestamps; timezone conversions are the identity on them. */
  type Timestamp = int

  /** The two list verbs, which are also the `queryType` of a resumption token. */
  datatype ListKind = ListRecords | ListIdentifiers

  /** The closed error taxonomy of this endpoint. */
  datatype ErrorCode = BadVerb | BadArgument | BadResumptionToken

  datatype OaiError = OaiError(code: ErrorCode, message: string)

  /** A harvestable record, as far as this engine sees it. */
  datatype Record = Record(timestamp: Timestamp, setName: string, identifier: string, format: string)

  /** The validated `queryParameters` dictionary: `format` is always there, the
      other three keys only when the request supplied them. */
  datatype ListQuery = ListQuery(format: string, setName: Option<string>, from: Option<Timestamp>, until: Option<Timestamp>)

  /** A `ResumptionToken` row without its key: the query it continues, where the
      next page starts (`offset`), where the page just delivered started
      (`cursor`) and the size of the result set when it was issued. */
  datatype ResumptionToken = ResumptionToken(
    queryType: ListKind,
    metadataPrefix: string,
    setName: Option<string>,
    from: Option<Timestamp>,
    until: Option<Timestamp>,
    offset: nat,
    cursor: int,
    totalCount: nat)

  /** A token handed to the client together with the key it resumes by. */
  datatype IssuedToken = IssuedToken(key: string, token: ResumptionToken)

  /** Identify's `earliestDatestamp`: a record timestamp or a literal date. */
  datatype Datestamp = Stamp(t: Timestamp) | Literal(text: string)

  /** The context handed to the renderer, reduced to what this engine decides:
      `formatError`'s error page, Identify's page, or a list page. */
  datatype Response =
    | ErrorPage(code: ErrorCode, message: string)
    | IdentifyPage(earliestDatestamp: Datestamp)
    | ListPage(kind: ListKind, matches: seq<Record>, token: Option<IssuedToken>)

  /** One `name=value` pair of the request. */
  datatype Param = Param(name: string, value: string)

  /** The request's parameter dictionary, in the order the request gave it. */
  type Params = seq<Param>

  /** `getParams.get(name)`: Django's `QueryDict` answers with the value of the
      last pair with that name, and `dict()` keeps that same value. */
  function Get(ps: Params, name: string): (r: Option<string>)
    ensures r.Some? ==> Param(name, r.value) in ps
  {
    if |ps| == 0 then None
    else
      var later := Get(ps[1..], name);
      if later.Some? then later
      else if ps[0].name == name then Some(ps[0].value)
      else None
  }

  /** `name in getParams` */
  predicate Has(ps: Params, name: string) {
    exists p :: p in ps && p.name == name
  }

  /** Python truthiness of an optional string: present and non-empty. */
  predicate Supplied(v: Option<string>) {
    v.Some? && v.value != ""
  }

  /** The dictionary with every pair whose name is in `names` removed. */
  function RemoveAll(ps: Params, names: set<string>): (r: Params)
    ensures |r| <= |ps|
  {
    if |ps| == 0 then []
    else if ps[0].name in names then RemoveAll(ps[1..], names)
    else [ps[0]] + RemoveAll(ps[1..], names)
  }

  /** `getParams.pop(name, None)`: the rest of the dictionary and the value. */
  function Pop(ps: Params, name: string): (Params, Option<string>) {
    (RemoveAll(ps, {name}), Get(ps, name))
  }

  /** Removing two sets of names one after the other removes their union. */
  lemma {:induction false} RemoveAllTwice(ps: Params, a: set<string>, b: set<string>)
    ensures RemoveAll(RemoveAll(ps, a), b) == RemoveAll(ps, a + b)
  {
    if |ps| > 0 {
      RemoveAllTwice(ps[1..], a, b);
      if ps[0].name !in a {
        assert RemoveAll(ps, a) == [ps[0]] + RemoveAll(ps[1..], a);
        assert RemoveAll(ps, a)[1..] == RemoveAll(ps[1..], a);
      }
    }
  }

  /** Removing other names does not change what `get` finds for a name. */
  lemma {:induction false} GetAfterRemoveAll(ps: Params, names: set<string>, name: string)
    requires name !in names
    ensures Get(RemoveAll(ps, names), name) == Get(ps, name)
  {
    if |ps| > 0 {
      GetAfterRemoveAll(ps[1..], names, name);
      if ps[0].name !in names {
        assert RemoveAll(ps, names) == [ps[0]] + RemoveAll(ps[1..], names);
        assert RemoveAll(ps, names)[1..] == RemoveAll(ps[1..], names);
      }
    }
  }

  /** `get` finds nothing exactly when no pair has the name, and otherwise the
      value of a pair with that name that no later pair overrides. */
  lemma {:induction false} GetIsLastValue(ps: Params, name: string)
    ensures Get(ps, name).None? <==> !Has(ps, name)
    ensures Get(ps, name).Some? ==>
      exists i :: 0 <= i < |ps| && ps[i] == Param(name, Get(ps, name).value) &&
        forall j :: i < j < |ps| ==> ps[j].name != name
  {
    if |ps| > 0 {
      GetIsLastValue(ps[1..], name);
      var later := Get(ps[1..], name);
      if later.Some? {
        var i :| 0 <= i < |ps[1..]| && ps[1..][i] == Param(name, later.value) &&
          forall j :: i < j < |ps[1..]| ==> ps[1..][j].name != name;
        assert ps[i + 1] == Param(name, later.value);
        forall j | i + 1 < j < |ps| ensures ps[j].name != name {
          assert ps[j] == ps[1..][j - 1];
        }
        assert ps[i + 1] in ps;
      } else if ps[0].name == name {
        forall j | 0 < j < |ps| ensures ps[j].name != name {
          assert ps[j] in ps[1..];
        }
        assert ps[0] in ps;
      } else {
        forall p | p in ps ensures p.name != name {
          assert p == ps[0] || p in ps[1..];
        }
      }
    }
  }

  /** `pop` keeps exactly the pairs whose names it was not asked to remove. */
  lemma {:induction false} RemoveAllKeeps(ps: Params, names: set<string>)
    ensures forall p :: p in RemoveAll(ps, names) <==> p in ps && p.name !in names
  {
    if |ps| > 0 {
      RemoveAllKeeps(ps[1..], names);
      assert forall p :: p in ps <==> p == ps[0] || p in ps[1..];
    }
  }
}
