/** The resumption-token store behind `ResumptionToken.objects`: an arena of rows
    where `save()` inserts a row without a key and `genkey()` then gives that
    row a key no other row has (oai/views.py:143-144, 148). */
module Tokens {
  import opened OaiTypes

  /** One row of the store: the token's fields and, once generated, its key. */
  datatype StoredToken = StoredToken(token: ResumptionToken, key: Option<string>)

  /** The keys already handed out. */
  function KeysOf(rows: seq<StoredToken>): set<string> {
    set i | 0 <= i < |rows| && rows[i].key.Some? :: rows[i].key.value
  }

  /** No two rows share a key. */
  predicate KeysUnique(rows: seq<StoredToken>) {
    forall i, j :: 0 <= i < j < |rows| && rows[i].key.Some? ==> rows[i].key != rows[j].key
  }

  /** `ResumptionToken.objects.get(queryType=kind, key=key)`, with "nothing
      matches" as `None` rather than an exception. */
  function LookupRows(rows: seq<StoredToken>, kind: ListKind, key: string): (r: Option<ResumptionToken>)
    ensures r.Some? ==> r.value.queryType == kind && StoredToken(r.value, Some(key)) in rows
    ensures r.None? <==> forall s :: s in rows ==> !(s.key == Some(key) && s.token.queryType == kind)
  {
    if |rows| == 0 then None
    else if rows[0].key == Some(key) && rows[0].token.queryType == kind then Some(rows[0].token)
    else LookupRows(rows[1..], kind, key)
  }

  /** A length no key in use reaches. */
  function KeyLengthBound(rows: seq<StoredToken>): (n: nat)
    ensures forall i :: 0 <= i < |rows| && rows[i].key.Some? ==> |rows[i].key.value| < n
  {
    if |rows| == 0 then 0
    else
      var rest := KeyLengthBound(rows[1..]);
      var here := if rows[0].key.Some? then |rows[0].key.value| + 1 else 0;
      assert forall i :: 1 <= i < |rows| ==> rows[i] == rows[1..][i - 1];
      if here > rest then here else rest
  }

  /** The key `genkey()` assigns: its only promise is that no row has it yet. */
  function FreshKey(rows: seq<StoredToken>): (k: string)
    ensures k !in KeysOf(rows)
    ensures k != ""
  {
    seq(KeyLengthBound(rows) + 1, _ => 'k')
  }

  /** Issuing a token with a fresh key leaves every other lookup as it was; the
      new key finds the new token under its own kind and nothing under the
      other kind. */
  lemma {:induction false} LookupAfterIssue(rows: seq<StoredToken>, t: ResumptionToken, k: string, kind: ListKind, key: string)
    requires k !in KeysOf(rows)
    ensures key != k ==> LookupRows(rows + [StoredToken(t, Some(k))], kind, key) == LookupRows(rows, kind, key)
    ensures key == k && t.queryType == kind ==> LookupRows(rows + [StoredToken(t, Some(k))], kind, key) == Some(t)
    ensures key == k && t.queryType != kind ==> LookupRows(rows + [StoredToken(t, Some(k))], kind, key).None?
  {
    if |rows| > 0 {
      assert (rows + [StoredToken(t, Some(k))])[1..] == rows[1..] + [StoredToken(t, Some(k))];
      assert KeysOf(rows[1..]) <= KeysOf(rows) by {
        forall x | x in KeysOf(rows[1..]) ensures x in KeysOf(rows) {
          var i :| 0 <= i < |rows[1..]| && rows[1..][i].key == Some(x);
          assert rows[i + 1].key == Some(x);
        }
      }
      assert rows[0].key != Some(k) by {
        assert rows[0].key.Some? ==> rows[0].key.value in KeysOf(rows);
      }
      LookupAfterIssue(rows[1..], t, k, kind, key);
    }
  }

  /** `ResumptionToken.objects.get(...)` as written (line 148): Django's `get`
      raises when no row matches, so line 149's test never sees a falsy token. */
  function TokenGetAsWritten(rows: seq<StoredToken>, kind: ListKind, key: string): (r: Fallible<ResumptionToken>)
    ensures r.Raised? <==> LookupRows(rows, kind, key).None?
    ensures r.Returned? ==> Some(r.value) == LookupRows(rows, kind, key)
  {
    match LookupRows(rows, kind, key)
    case None => Raised("ResumptionToken.DoesNotExist")
    case Some(t) => Returned(t)
  }

  /** An unknown key in an empty store: as written the lookup raises; the
      corrected lookup answers `None`, which resuming reports as
      `badResumptionToken`. */
  lemma UnknownTokenAsWrittenRaises()
    ensures TokenGetAsWritten([], ListRecords, "XYZ").Raised?
    ensures LookupRows([], ListRecords, "XYZ") == None
  {
  }

  /** The token table. */
  class TokenStore {
    var rows: seq<StoredToken>

    ghost predicate Valid()
      reads this
    {
      KeysUnique(rows)
    }

    constructor ()
      ensures Valid() && rows == []
    {
      rows := [];
    }

    /** `ResumptionToken.objects.get(queryType=kind, key=key)` */
    function Lookup(kind: ListKind, key: string): (r: Option<ResumptionToken>)
      reads this
      ensures r.Some? ==> StoredToken(r.value, Some(key)) in rows && r.value.queryType == kind
      ensures r.None? <==> forall s :: s in rows ==> !(s.key == Some(key) && s.token.queryType == kind)
    {
      LookupRows(rows, kind, key)
    }

    /** `token.save()`: a new row without a key; its id is its position. */
    method Create(t: ResumptionToken) returns (id: nat)
      requires Valid()
      modifies this
      ensures Valid()
      ensures id == |old(rows)| && rows == old(rows) + [StoredToken(t, None)]
    {
      id := |rows|;
      rows := rows + [StoredToken(t, None)];
    }

    /** `token.genkey()`: give the row `id`, which has no key yet, a key that no
        row has. */
    method GenKey(id: nat) returns (key: string)
      requires Valid() && id < |rows| && rows[id].key.None?
      modifies this
      ensures Valid()
      ensures key !in KeysOf(old(rows)) && key != ""
      ensures rows == old(rows)[id := StoredToken(old(rows)[id].token, Some(key))]
    {
      key := FreshKey(rows);
      var before := rows;
      rows := rows[id := StoredToken(rows[id].token, Some(key))];
      forall i, j | 0 <= i < j < |rows| && rows[i].key.Some?
        ensures rows[i].key != rows[j].key
      {
        if i != id && j != id {
          assert rows[i] == before[i] && rows[j] == before[j];
        } else if i == id {
          if rows[j].key.Some? { assert rows[j].key.value in KeysOf(before); }
        } else {
          assert rows[i].key.value in KeysOf(before);
        }
      }
    }
  }
}
