/** Argument validation of the list verbs (`getListQuery`, oai/views.py:64-118):
    a raw parameter dictionary becomes a typed list query or exactly one
    `badArgument` error, the first rule that fails in a fixed order. */
module Validation {
  import opened OaiTypes

  /** The parameter names a list request may carry besides `resumptionToken`. */
  const Recognised: set<string> := {"verb", "metadataPrefix", "set", "from", "until"}

  const PrefixRequired: string := "The metadataPrefix argument is required."
  const FromAfterUntil: string := "\"from\" should not be after \"until\"."

  function UnknownSet(name: string): string {
    "The set \"" + name + "\" does not exist."
  }

  /** The source closes the quoted value with a single quote; kept as written. */
  function BadDate(param: string, value: string): string {
    "The parameter \"" + param + "\" expects a valid date, not \"" + value + "'."
  }

  function Illegal(name: string): string {
    "The argument \"" + name + "\" is illegal."
  }

  /** `from` is not after `until` whenever both are present. */
  predicate Ordered(q: ListQuery) {
    q.from.Some? && q.until.Some? ==> q.from.value <= q.until.value
  }

  /** What every query built by validation satisfies: a non-empty format, no
      empty set name, and `from` not after `until`. */
  predicate WellFormed(q: ListQuery) {
    q.format != "" && q.setName != Some("") && Ordered(q)
  }

  /** The name of the first parameter that no rule consumes, if any. */
  function FirstIllegal(ps: Params): (r: Option<string>)
    ensures r.None? <==> forall p :: p in ps ==> p.name in Recognised
    ensures r.Some? ==> r.value !in Recognised && Has(ps, r.value)
    ensures r.Some? ==> exists i :: 0 <= i < |ps| && ps[i].name == r.value && forall j :: 0 <= j < i ==> ps[j].name in Recognised
  {
    if |ps| == 0 then None
    else if ps[0].name !in Recognised then Some(ps[0].name)
    else
      var rest := FirstIllegal(ps[1..]);
      assert rest.Some? ==> exists i :: 0 <= i < |ps| && ps[i].name == rest.value && forall j :: 0 <= j < i ==> ps[j].name in Recognised by {
        if rest.Some? {
          var i :| 0 <= i < |ps[1..]| && ps[1..][i].name == rest.value && forall j :: 0 <= j < i ==> ps[1..][j].name in Recognised;
          assert ps[i + 1].name == rest.value;
          forall j | 0 <= j < i + 1 ensures ps[j].name in Recognised {
            if j > 0 { assert ps[j] == ps[1..][j - 1]; }
          }
        }
      }
      rest
  }

  /** Every rule holds: the independent reading of "validation succeeds". */
  predicate Acceptable(ps: Params, sets: set<string>, parse: string -> Option<Timestamp>) {
    var prefix, setArg, from, until := Get(ps, "metadataPrefix"), Get(ps, "set"), Get(ps, "from"), Get(ps, "until");
    && Supplied(prefix)
    && (Supplied(setArg) ==> setArg.value in sets)
    && (Supplied(from) ==> parse(from.value).Some?)
    && (Supplied(until) ==> parse(until.value).Some?)
    && (Supplied(from) && Supplied(until) ==> parse(from.value).value <= parse(until.value).value)
    && forall p :: p in ps ==> p.name in Recognised
  }

  /** The validation rules in the order the source checks them. `sets` is the
      set catalogue and `parse` the tolerant datestamp parser. */
  function Validate(ps: Params, sets: set<string>, parse: string -> Option<Timestamp>): (r: Result<ListQuery, OaiError>)
    ensures r.Err? ==> r.error.code == BadArgument
    ensures r.Ok? <==> Acceptable(ps, sets, parse)
    ensures r.Ok? ==> WellFormed(r.value)
    ensures r.Ok? ==> r.value.format == Get(ps, "metadataPrefix").value
    ensures r.Ok? ==> (r.value.setName.Some? <==> Supplied(Get(ps, "set")))
    ensures r.Ok? && r.value.setName.Some? ==> r.value.setName.value == Get(ps, "set").value && r.value.setName.value in sets
    ensures r.Ok? ==> (r.value.from.Some? <==> Supplied(Get(ps, "from")))
    ensures r.Ok? && r.value.from.Some? ==> Some(r.value.from.value) == parse(Get(ps, "from").value)
    ensures r.Ok? ==> (r.value.until.Some? <==> Supplied(Get(ps, "until")))
    ensures r.Ok? && r.value.until.Some? ==> Some(r.value.until.value) == parse(Get(ps, "until").value)
  {
    var prefix, setArg, from, until := Get(ps, "metadataPrefix"), Get(ps, "set"), Get(ps, "from"), Get(ps, "until");
    if !Supplied(prefix) then Err(OaiError(BadArgument, PrefixRequired))
    else if Supplied(setArg) && setArg.value !in sets then Err(OaiError(BadArgument, UnknownSet(setArg.value)))
    else if Supplied(from) && parse(from.value).None? then Err(OaiError(BadArgument, BadDate("from", from.value)))
    else if Supplied(until) && parse(until.value).None? then Err(OaiError(BadArgument, BadDate("until", until.value)))
    else
      var q := ListQuery(prefix.value,
                         if Supplied(setArg) then setArg else None,
                         if Supplied(from) then parse(from.value) else None,
                         if Supplied(until) then parse(until.value) else None);
      if !Ordered(q) then Err(OaiError(BadArgument, FromAfterUntil))
      else match FirstIllegal(ps)
        case Some(name) => Err(OaiError(BadArgument, Illegal(name)))
        case None => Ok(q)
  }

  /** Each rule reports its own error exactly when every earlier rule passed:
      the error is the first failure, and a later violation never masks it. */
  lemma FirstFailingRule(ps: Params, sets: set<string>, parse: string -> Option<Timestamp>)
    ensures var prefix := Get(ps, "metadataPrefix");
      !Supplied(prefix) ==> Validate(ps, sets, parse) == Err(OaiError(BadArgument, PrefixRequired))
    ensures var prefix, setArg := Get(ps, "metadataPrefix"), Get(ps, "set");
      Supplied(prefix) && Supplied(setArg) && setArg.value !in sets ==>
        Validate(ps, sets, parse) == Err(OaiError(BadArgument, UnknownSet(setArg.value)))
    ensures var prefix, setArg, from := Get(ps, "metadataPrefix"), Get(ps, "set"), Get(ps, "from");
      Supplied(prefix) && (Supplied(setArg) ==> setArg.value in sets) && Supplied(from) && parse(from.value).None? ==>
        Validate(ps, sets, parse) == Err(OaiError(BadArgument, BadDate("from", from.value)))
    ensures var prefix, setArg, from, until := Get(ps, "metadataPrefix"), Get(ps, "set"), Get(ps, "from"), Get(ps, "until");
      Supplied(prefix) && (Supplied(setArg) ==> setArg.value in sets) && (Supplied(from) ==> parse(from.value).Some?) &&
      Supplied(until) && parse(until.value).None? ==>
        Validate(ps, sets, parse) == Err(OaiError(BadArgument, BadDate("until", until.value)))
    ensures var prefix, setArg, from, until := Get(ps, "metadataPrefix"), Get(ps, "set"), Get(ps, "from"), Get(ps, "until");
      Supplied(prefix) && (Supplied(setArg) ==> setArg.value in sets) && Supplied(from) && Supplied(until) &&
      parse(from.value).Some? && parse(until.value).Some? && parse(from.value).value > parse(until.value).value ==>
        Validate(ps, sets, parse) == Err(OaiError(BadArgument, FromAfterUntil))
    ensures var prefix, setArg, from, until := Get(ps, "metadataPrefix"), Get(ps, "set"), Get(ps, "from"), Get(ps, "until");
      Supplied(prefix) && (Supplied(setArg) ==> setArg.value in sets) && (Supplied(from) ==> parse(from.value).Some?) &&
      (Supplied(until) ==> parse(until.value).Some?) &&
      (Supplied(from) && Supplied(until) ==> parse(from.value).value <= parse(until.value).value) &&
      FirstIllegal(ps).Some? ==>
        Validate(ps, sets, parse) == Err(OaiError(BadArgument, Illegal(FirstIllegal(ps).value)))
  {
  }

  /** The leftover dictionary is non-empty exactly when some name is illegal,
      and its first entry is the first illegal name. */
  lemma {:induction false} LeftoverHeadIsFirstIllegal(ps: Params)
    ensures |RemoveAll(ps, Recognised)| > 0 <==> FirstIllegal(ps).Some?
    ensures |RemoveAll(ps, Recognised)| > 0 ==> RemoveAll(ps, Recognised)[0].name == FirstIllegal(ps).value
  {
    if |ps| > 0 {
      LeftoverHeadIsFirstIllegal(ps[1..]);
    }
  }

  /** Popping the known keys one after the other: each pop still finds what the
      original dictionary holds, and what is left is the dictionary without them. */
  lemma {:induction false} PopChain(ps: Params)
    ensures var afterPrefix := RemoveAll(ps, {"metadataPrefix"});
      var afterSet := RemoveAll(afterPrefix, {"set"});
      var afterFrom := RemoveAll(afterSet, {"from"});
      var afterUntil := RemoveAll(afterFrom, {"until"});
      && Get(afterPrefix, "set") == Get(ps, "set")
      && Get(afterSet, "from") == Get(ps, "from")
      && Get(afterFrom, "until") == Get(ps, "until")
      && RemoveAll(afterUntil, {"verb"}) == RemoveAll(ps, Recognised)
  {
    var a, b, c, d := {"metadataPrefix"}, {"metadataPrefix", "set"}, {"metadataPrefix", "set", "from"}, {"metadataPrefix", "set", "from", "until"};
    GetAfterRemoveAll(ps, a, "set");
    RemoveAllTwice(ps, a, {"set"});
    assert a + {"set"} == b;
    GetAfterRemoveAll(ps, b, "from");
    RemoveAllTwice(ps, b, {"from"});
    assert b + {"from"} == c;
    GetAfterRemoveAll(ps, c, "until");
    RemoveAllTwice(ps, c, {"until"});
    assert c + {"until"} == d;
    RemoveAllTwice(ps, d, {"verb"});
    assert d + {"verb"} == Recognised;
  }

  /** `getListQuery` as the source runs it: pop the known keys one by one,
      building the query as it goes, then reject the first key left over. */
  method GetListQuery(ps: Params, sets: set<string>, parse: string -> Option<Timestamp>) returns (r: Result<ListQuery, OaiError>)
    ensures r == Validate(ps, sets, parse)
  {
    PopChain(ps);
    LeftoverHeadIsFirstIllegal(ps);
    var getParams := ps;
    var metadataPrefix: Option<string>;
    getParams, metadataPrefix := Pop(getParams, "metadataPrefix").0, Pop(getParams, "metadataPrefix").1;
    if !Supplied(metadataPrefix) {
      return Err(OaiError(BadArgument, PrefixRequired));
    }
    var format := metadataPrefix.value;

    var setArg: Option<string>;
    getParams, setArg := Pop(getParams, "set").0, Pop(getParams, "set").1;
    var qSet: Option<string> := None;
    if Supplied(setArg) {
      if setArg.value !in sets {
        return Err(OaiError(BadArgument, UnknownSet(setArg.value)));
      }
      qSet := setArg;
    }

    var from: Option<string>;
    getParams, from := Pop(getParams, "from").0, Pop(getParams, "from").1;
    var qFrom: Option<Timestamp> := None;
    if Supplied(from) {
      qFrom := parse(from.value);
      if qFrom.None? {
        return Err(OaiError(BadArgument, BadDate("from", from.value)));
      }
    }

    var until: Option<string>;
    getParams, until := Pop(getParams, "until").0, Pop(getParams, "until").1;
    var qUntil: Option<Timestamp> := None;
    if Supplied(until) {
      qUntil := parse(until.value);
      if qUntil.None? {
        return Err(OaiError(BadArgument, BadDate("until", until.value)));
      }
    }

    if qFrom.Some? && qUntil.Some? && qFrom.value > qUntil.value {
      return Err(OaiError(BadArgument, FromAfterUntil));
    }

    getParams := Pop(getParams, "verb").0;
    // The source's `for key in getParams: return ...` leaves at its first key.
    if |getParams| > 0 {
      return Err(OaiError(BadArgument, Illegal(getParams[0].name)));
    }
    return Ok(ListQuery(format, qSet, qFrom, qUntil));
  }

  /** `OaiSet.objects.get(name=set)` as written (line 86): Django's `get` raises
      when no set matches, so it never yields the falsy value that line 87 tests. */
  function SetGetAsWritten(sets: set<string>, name: string): (r: Fallible<string>)
    ensures r.Raised? <==> name !in sets
    ensures r.Returned? ==> r.value == name
  {
    if name in sets then Returned(name) else Raised("OaiSet.DoesNotExist")
  }

  /** A request naming an unknown set: as written the lookup raises instead of
      answering; the corrected validation answers `badArgument`. */
  lemma UnknownSetAsWrittenRaises()
    ensures SetGetAsWritten({}, "physics").Raised?
    ensures Validate([Param("verb", "ListRecords"), Param("metadataPrefix", "oai_dc"), Param("set", "physics")], {}, _ => None)
         == Err(OaiError(BadArgument, UnknownSet("physics")))
  {
  }
}
