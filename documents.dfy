/**
  The values the document table holds and returns: JSON-like documents with the
  reserved `_id` and `_rev` properties, the rows of an `allDocs` listing, the reply
  to `put`, and the shape of generated ids and revisions.
 */
module Documents {
  import opened Results
  import opened Text

  /** A JSON value. Numbers are kept as reals; their floating-point rounding is not modelled. */
  datatype Json =
    | JNull
    | JBool(b: bool)
    | JNum(n: real)
    | JStr(s: string)
    | JObject(members: map<string, Json>)

  /**
    A stored object. `_id` and `_rev` are held apart from its other properties
    (`fields`); `None` stands for a property that is absent or undefined.
    `fields` never holds the keys "_id" or "_rev": a JavaScript object with such a
    property is represented with it in `id` or `rev` instead.
   */
  datatype Doc = Doc(id: Option<string>, rev: Option<string>, fields: map<string, Json>)

  /** `doc._id` is truthy: present and not the empty string. */
  predicate HasId(doc: Doc)
  {
    doc.id.Some? && doc.id.value != ""
  }

  /** The reply of `put`. */
  datatype PutResponse = PutResponse(ok: bool, id: string, rev: string)

  /** The `value` member of a listing row. */
  datatype RowValue = RowValue(rev: Option<string>)

  /** One row of an `allDocs` listing. */
  datatype Row = Row(id: Option<string>, key: Option<string>, value: RowValue, doc: Option<Doc>)

  /** The reply of `allDocs`. */
  datatype AllDocsResult = AllDocsResult(totalRows: nat, rows: seq<Row>)

  const NotFoundMessage: string := "Document not found"

  /** The id `put` makes up: `doc_<Date.now()>_<random base-36 digits>`. */
  function GeneratedId(now: nat, suffix: string): string
  {
    "doc_" + Decimal(now) + "_" + suffix
  }

  /** The revision `put` stamps: `1-<random base-36 digits>`. */
  function FirstRevision(suffix: string): string
  {
    "1-" + suffix
  }

  /** A revision token of the only generation the store ever writes. */
  predicate IsFirstRevision(rev: string)
  {
    |rev| >= 2 && rev[..2] == "1-"
  }

  /** Recovers the clock reading and the random part from a generated id. */
  function ParseGeneratedId(id: string): Option<(nat, string)>
  {
    if |id| < 4 || id[..4] != "doc_" then None
    else
      var rest := id[4..];
      match IndexOf(rest, '_')
      case None => None
      case Some(i) =>
        if Canonical(rest[..i]) && IsRandomToken(rest[i + 1..])
        then Some((ParseDecimal(rest[..i]), rest[i + 1..]))
        else None
  }

  /** A generated id carries the clock reading and random part it was made from. */
  lemma GeneratedIdRoundTrip(now: nat, suffix: string)
    requires IsRandomToken(suffix)
    ensures ParseGeneratedId(GeneratedId(now, suffix)) == Some((now, suffix))
  {
    var digits := Decimal(now);
    ParseDecimalOfDecimal(now);
    var id := GeneratedId(now, suffix);
    var rest := digits + "_" + suffix;
    assert id[..4] == "doc_";
    assert id[4..] == rest;
    assert rest[|digits|] == '_';
    var i := IndexOf(rest, '_').value;
    assert forall j :: 0 <= j < |digits| ==> rest[j] == digits[j] && IsDigit(digits[j]);
    assert i == |digits|;
    assert rest[..i] == digits;
    assert rest[i + 1..] == suffix;
  }

  /** Only generated ids parse, so a parsed id is exactly the one its parts generate. */
  lemma ParsedIdIsGenerated(id: string, now: nat, suffix: string)
    requires ParseGeneratedId(id) == Some((now, suffix))
    ensures IsRandomToken(suffix)
    ensures id == GeneratedId(now, suffix)
  {
    var rest := id[4..];
    var i := IndexOf(rest, '_').value;
    DecimalOfParseDecimal(rest[..i]);
    assert rest == rest[..i] + "_" + rest[i + 1..];
    assert id == id[..4] + rest;
  }

  /** Two generated ids are equal only when their clock readings and random parts are. */
  lemma {:induction false} GeneratedIdInjective(n1: nat, s1: string, n2: nat, s2: string)
    requires IsRandomToken(s1) && IsRandomToken(s2)
    ensures GeneratedId(n1, s1) == GeneratedId(n2, s2) <==> n1 == n2 && s1 == s2
  {
    if GeneratedId(n1, s1) == GeneratedId(n2, s2) {
      GeneratedIdRoundTrip(n1, s1);
      GeneratedIdRoundTrip(n2, s2);
    }
  }

  /** Generated ids never read as array indexes: their first character is a letter. */
  lemma GeneratedIdIsNotIndex(now: nat, suffix: string)
    ensures !Canonical(GeneratedId(now, suffix))
  {
  }

  /**
    Every entry was written by `put`: its `_id` is its key and its `_rev` is a
    first-generation revision.
   */
  ghost predicate Stamped(data: map<string, Doc>)
  {
    forall k :: k in data ==>
      data[k].id == Some(k) && data[k].rev.Some? && IsFirstRevision(data[k].rev.value)
  }
}
