/** The list engine (`handleListQuery`, `createResumptionToken`, `resumeRequest`,
    oai/views.py:121-159): filter the record store by a list query, deliver the
    page `[offset, offset + limit)`, and issue a resumption token exactly when
    records remain after that page. `limit` is the service's `results_limit`. */
module Pagination {
  import opened OaiTypes
  import opened Validation
  import opened Tokens

  const InvalidToken: string := "This resumption token is invalid."

  function Min(a: int, b: int): int {
    if a <= b then a else b
  }

  /** The reading this model gives `OaiRecord.objects.filter(**parameters)`:
      equal format and set, and a timestamp within the inclusive `from`/`until`
      bounds. */
  predicate Matches(q: ListQuery, r: Record) {
    && r.format == q.format
    && (q.setName.Some? ==> r.setName == q.setName.value)
    && (q.from.Some? ==> q.from.value <= r.timestamp)
    && (q.until.Some? ==> r.timestamp <= q.until.value)
  }

  /** The records matching `q`, in the store's order: each matching record as
      many times as the store holds it, and no other record. */
  function Filter(records: seq<Record>, q: ListQuery): (m: seq<Record>)
    ensures |m| <= |records|
    ensures forall r :: r in m ==> r in records && Matches(q, r)
    ensures forall r :: r in records && Matches(q, r) ==> r in m
    ensures forall r :: multiset(m)[r] == if Matches(q, r) then multiset(records)[r] else 0
  {
    if |records| == 0 then []
    else
      assert records == [records[0]] + records[1..];
      if Matches(q, records[0]) then [records[0]] + Filter(records[1..], q)
      else Filter(records[1..], q)
  }

  /** Filtering keeps the store's order: filtering two stretches of the store
      one after the other gives the matches of the whole store. */
  lemma {:induction false} FilterConcat(a: seq<Record>, b: seq<Record>, q: ListQuery)
    ensures Filter(a + b, q) == Filter(a, q) + Filter(b, q)
  {
    if |a| == 0 {
      assert a + b == b;
    } else {
      var ab := a + b;
      assert ab[0] == a[0] && ab[1..] == a[1..] + b;
      FilterConcat(a[1..], b, q);
      if Matches(q, a[0]) {
        calc {
          Filter(ab, q);
          [a[0]] + Filter(a[1..] + b, q);
          [a[0]] + (Filter(a[1..], q) + Filter(b, q));
          ([a[0]] + Filter(a[1..], q)) + Filter(b, q);
        }
      } else {
        calc {
          Filter(ab, q);
          Filter(a[1..] + b, q);
        }
      }
    }
  }

  /** A query every record of the store satisfies matches the whole store. */
  lemma {:induction false} FilterAllMatch(records: seq<Record>, q: ListQuery)
    requires forall i :: 0 <= i < |records| ==> Matches(q, records[i])
    ensures Filter(records, q) == records
  {
    if |records| > 0 {
      FilterAllMatch(records[1..], q);
    }
  }

  /** "Should we create a resumption token?" (line 127) */
  predicate MustIssue(count: nat, offset: nat, limit: nat) {
    count - offset > limit
  }

  /** `matches[offset:(offset+limit)]` (line 130), clipped to the result set. */
  function PageOf(m: seq<Record>, offset: nat, limit: nat): (page: seq<Record>)
    ensures |page| <= limit
    ensures |page| == if offset >= |m| then 0 else Min(limit, |m| - offset)
    ensures forall i :: 0 <= i < |page| ==> page[i] == m[offset + i]
  {
    if offset >= |m| then [] else m[offset..Min(offset + limit, |m|)]
  }

  /** The fields `createResumptionToken` gives a new token (lines 135-142), with
      `until` taken from the query. */
  function NewToken(kind: ListKind, q: ListQuery, offset: nat, totalCount: nat, limit: nat): ResumptionToken {
    ResumptionToken(kind, q.format, q.setName, q.from, q.until, offset, offset - limit, totalCount)
  }

  /** The same fields as the source writes them: line 140 reads the undefined
      name `queryParameter`, so a query with `until` raises before `save()`. */
  function NewTokenAsWritten(kind: ListKind, q: ListQuery, offset: nat, totalCount: nat, limit: nat): (r: Fallible<ResumptionToken>)
    ensures r.Raised? <==> q.until.Some?
    ensures r.Returned? ==> r.value == NewToken(kind, q, offset, totalCount, limit)
  {
    if q.until.Some? then Raised("NameError: name 'queryParameter' is not defined")
    else Returned(ResumptionToken(kind, q.format, q.setName, q.from, None, offset, offset - limit, totalCount))
  }

  /** A query with `until`: as written no token can be issued for it, while the
      corrected token keeps its `until`. */
  lemma UntilTokenAsWrittenRaises()
    ensures var q := ListQuery("oai_dc", None, None, Some(20));
      NewTokenAsWritten(ListRecords, q, 2, 3, 2).Raised? && NewToken(ListRecords, q, 2, 3, 2).until == Some(20)
  {
  }

  /** The parameters `resumeRequest` rebuilds from a token (lines 151-158): an
      empty set name is dropped, as Python's truthiness test drops it. */
  function RebuildQuery(t: ResumptionToken): ListQuery {
    ListQuery(t.metadataPrefix,
              if t.setName.Some? && t.setName.value != "" then t.setName else None,
              t.from, t.until)
  }

  /** A new token records the query it continues: rebuilding it gives back the
      very query, so resuming runs the same filter. */
  lemma TokenRoundTrip(kind: ListKind, q: ListQuery, offset: nat, totalCount: nat, limit: nat)
    requires WellFormed(q)
    ensures RebuildQuery(NewToken(kind, q, offset, totalCount, limit)) == q
  {
  }

  /** What `handleListQuery` produces for `(kind, q, offset)`: the page of the
      matching records at `offset`, and a new token, stored with a key no row
      had, exactly when records remain after the page; the store gains that one
      row and nothing else. */
  ghost predicate ListOutcome(resp: Response, kind: ListKind, q: ListQuery, offset: nat, records: seq<Record>, limit: nat,
                              before: seq<StoredToken>, after: seq<StoredToken>)
  {
    var m := Filter(records, q);
    && resp.ListPage?
    && resp.kind == kind
    && resp.matches == PageOf(m, offset, limit)
    && (resp.token.Some? <==> MustIssue(|m|, offset, limit))
    && (resp.token.Some? ==>
          && resp.token.value.token == NewToken(kind, q, offset + limit, |m|, limit)
          && resp.token.value.key !in KeysOf(before)
          && after == before + [StoredToken(resp.token.value.token, Some(resp.token.value.key))])
    && (resp.token.None? ==> after == before)
  }

  /** What `resumeRequest` produces for `(kind, key)`: `badResumptionToken` when
      no token has that kind and key, otherwise the outcome of the list engine on
      the token's rebuilt query at the token's offset. */
  ghost predicate ResumeOutcome(resp: Response, kind: ListKind, key: string, records: seq<Record>, limit: nat,
                                before: seq<StoredToken>, after: seq<StoredToken>)
  {
    match LookupRows(before, kind, key)
    case None => resp == ErrorPage(BadResumptionToken, InvalidToken) && after == before
    case Some(t) => ListOutcome(resp, kind, RebuildQuery(t), t.offset, records, limit, before, after)
  }

  /** A token is issued exactly when the page stops short of the end of the
      matching records. */
  lemma TokenIffRecordsRemain(m: seq<Record>, offset: nat, limit: nat)
    ensures MustIssue(|m|, offset, limit) <==> offset + |PageOf(m, offset, limit)| < |m|
  {
  }

  /** The fields of a token issued at `offset`: it points one page further, its
      cursor is the offset of the page just delivered, it never points at or past
      the end of the result set, and it carries the query's kind and filters. */
  lemma IssuedTokenFields(kind: ListKind, q: ListQuery, count: nat, offset: nat, limit: nat)
    requires MustIssue(count, offset, limit)
    ensures var t := NewToken(kind, q, offset + limit, count, limit);
      && t.offset == offset + limit && t.cursor == offset && t.cursor >= 0
      && t.totalCount == count && t.offset < t.totalCount
      && t.queryType == kind && t.metadataPrefix == q.format && t.setName == q.setName
      && t.from == q.from && t.until == q.until
  {
  }

  /** Resuming a token issued for `q` at `offset` delivers the same page, and
      decides about the next token the same way, as running `q` afresh at the
      token's offset. */
  lemma ResumeMatchesFreshQuery(kind: ListKind, q: ListQuery, records: seq<Record>, offset: nat, limit: nat)
    requires WellFormed(q)
    ensures var t := NewToken(kind, q, offset + limit, |Filter(records, q)|, limit);
      var m' := Filter(records, RebuildQuery(t));
      && m' == Filter(records, q)
      && PageOf(m', t.offset, limit) == PageOf(Filter(records, q), offset + limit, limit)
      && MustIssue(|m'|, t.offset, limit) == MustIssue(|Filter(records, q)|, offset + limit, limit)
  {
  }

  /** The records a client receives by starting at `offset` and following every
      token it is given, against an unchanged store. */
  function Harvest(m: seq<Record>, offset: nat, limit: nat): seq<Record>
    requires limit > 0
    decreases |m| - offset
  {
    PageOf(m, offset, limit) + if MustIssue(|m|, offset, limit) then Harvest(m, offset + limit, limit) else []
  }

  /** When a token is issued, the page and what follows the token's offset
      together make up everything from `offset` on. */
  lemma PageThenRest(m: seq<Record>, offset: nat, limit: nat)
    requires MustIssue(|m|, offset, limit)
    ensures PageOf(m, offset, limit) + m[offset + limit..] == m[offset..]
  {
  }

  /** When no token is issued, the page is everything from `offset` on. */
  lemma LastPage(m: seq<Record>, offset: nat, limit: nat)
    requires !MustIssue(|m|, offset, limit)
    ensures PageOf(m, offset, limit) == m[Min(offset, |m|)..]
  {
  }

  /** Following the token chain delivers every matching record from `offset` on
      exactly once and in order. */
  lemma {:induction false} HarvestDeliversEachRecordOnce(m: seq<Record>, offset: nat, limit: nat)
    requires limit > 0
    ensures Harvest(m, offset, limit) == m[Min(offset, |m|)..]
    decreases |m| - offset
  {
    if MustIssue(|m|, offset, limit) {
      HarvestDeliversEachRecordOnce(m, offset + limit, limit);
      PageThenRest(m, offset, limit);
    } else {
      LastPage(m, offset, limit);
      assert Harvest(m, offset, limit) == PageOf(m, offset, limit) + [];
    }
  }

  /** `createResumptionToken`: build the token, save it, then generate its key. */
  method CreateResumptionToken(kind: ListKind, q: ListQuery, offset: nat, totalCount: nat, limit: nat, store: TokenStore)
    returns (issued: IssuedToken)
    requires store.Valid()
    modifies store
    ensures store.Valid()
    ensures issued.token == NewToken(kind, q, offset, totalCount, limit)
    ensures issued.key !in KeysOf(old(store.rows))
    ensures store.rows == old(store.rows) + [StoredToken(issued.token, Some(issued.key))]
  {
    var token := NewToken(kind, q, offset, totalCount, limit);
    var id := store.Create(token);
    assert KeysOf(old(store.rows)) <= KeysOf(store.rows) by {
      forall x | x in KeysOf(old(store.rows)) ensures x in KeysOf(store.rows) {
        var i :| 0 <= i < |old(store.rows)| && old(store.rows)[i].key == Some(x);
        assert store.rows[i] == old(store.rows)[i];
      }
    }
    var key := store.GenKey(id);
    issued := IssuedToken(key, token);
  }

  /** `handleListQuery` */
  method HandleListQuery(kind: ListKind, q: ListQuery, offset: nat, records: seq<Record>, limit: nat, store: TokenStore)
    returns (resp: Response)
    requires store.Valid()
    modifies store
    ensures store.Valid()
    ensures ListOutcome(resp, kind, q, offset, records, limit, old(store.rows), store.rows)
  {
    var matches := Filter(records, q);
    var count := |matches|;
    var token: Option<IssuedToken> := None;
    if count - offset > limit {
      var issued := CreateResumptionToken(kind, q, offset + limit, count, limit, store);
      token := Some(issued);
    }
    resp := ListPage(kind, PageOf(matches, offset, limit), token);
  }

  /** `resumeRequest`. The token used is kept: its key resumes the same way
      afterwards. */
  method ResumeRequest(kind: ListKind, key: string, records: seq<Record>, limit: nat, store: TokenStore)
    returns (resp: Response)
    requires store.Valid()
    modifies store
    ensures store.Valid()
    ensures ResumeOutcome(resp, kind, key, records, limit, old(store.rows), store.rows)
    ensures store.Lookup(kind, key) == old(store.Lookup(kind, key))
  {
    var token := store.Lookup(kind, key);
    if token.None? {
      return ErrorPage(BadResumptionToken, InvalidToken);
    }
    var parameters := RebuildQuery(token.value);
    ghost var before := store.rows;
    resp := HandleListQuery(kind, parameters, token.value.offset, records, limit, store);
    if resp.token.Some? {
      var issued := resp.token.value;
      assert key in KeysOf(before) by {
        var i :| 0 <= i < |before| && before[i] == StoredToken(token.value, Some(key));
      }
      LookupAfterIssue(before, issued.token, issued.key, kind, key);
    }
  }
}
