/**
  The in-memory document table `MockPouchDB`: a plain object from id to document,
  restored from saved JSON when the table is opened, written by `put`, read by `get`
  and listed by `allDocs`.
 */
module Store {
  import opened Results
  import opened Text
  import opened PropertyKeys
  import opened Documents

  /** The keys of saved members, in the text's order. */
  function KeysOf(entries: seq<(string, Doc)>): (keys: seq<string>)
    ensures |keys| == |entries|
    ensures forall i :: 0 <= i < |entries| ==> keys[i] == entries[i].0
  {
    seq(|entries|, i requires 0 <= i < |entries| => entries[i].0)
  }

  /** The document of the last saved member with key `k`, if any member has that key. */
  function LastSaved(entries: seq<(string, Doc)>, k: string): Option<Doc>
  {
    if entries == [] then None
    else if entries[|entries| - 1].0 == k then Some(entries[|entries| - 1].1)
    else LastSaved(entries[..|entries| - 1], k)
  }

  /** The member saved last overrides what the members before it left under its key. */
  lemma LastSavedStep(entries: seq<(string, Doc)>, before: map<string, Doc>)
    requires entries != []
    requires forall k :: k in before ==> LastSaved(entries[..|entries| - 1], k) == Some(before[k])
    ensures var last := entries[|entries| - 1];
      forall k :: k in before[last.0 := last.1] ==> LastSaved(entries, k) == Some(before[last.0 := last.1][k])
  {
    var last := entries[|entries| - 1];
    var after := before[last.0 := last.1];
    forall k | k in after
      ensures LastSaved(entries, k) == Some(after[k])
    {
      if k != last.0 {
        assert LastSaved(entries, k) == LastSaved(entries[..|entries| - 1], k);
      }
    }
  }

  /**
    The table `JSON.parse` builds from the saved members `entries`, in the text's
    order: exactly the saved keys, each with the document of its last member; the
    keys listed in property order, with the non-index keys in first-seen order.
   */
  function Restore(entries: seq<(string, Doc)>): (t: (map<string, Doc>, seq<string>))
    ensures PropertyOrdered(t.1)
    ensures forall k :: k in t.1 <==> k in t.0
    ensures forall k :: k in t.0 <==> k in KeysOf(entries)
    ensures forall k :: k in t.0 ==> LastSaved(entries, k) == Some(t.0[k])
    ensures NonIndexKeys(t.1) == FirstSeen(NonIndexKeys(KeysOf(entries)))
  {
    if entries == [] then (map[], [])
    else
      var init := entries[..|entries| - 1];
      var prev := Restore(init);
      var k := entries[|entries| - 1].0;
      RestoreStep(entries, prev.0, prev.1);
      (prev.0[k := entries[|entries| - 1].1], AddKey(prev.1, k))
  }

  /** Restoring one more member keeps every property `Restore` promises. */
  lemma RestoreStep(entries: seq<(string, Doc)>, data: map<string, Doc>, order: seq<string>)
    requires entries != []
    requires PropertyOrdered(order)
    requires forall k :: k in order <==> k in data
    requires forall k :: k in data <==> k in KeysOf(entries[..|entries| - 1])
    requires forall k :: k in data ==> LastSaved(entries[..|entries| - 1], k) == Some(data[k])
    requires NonIndexKeys(order) == FirstSeen(NonIndexKeys(KeysOf(entries[..|entries| - 1])))
    ensures var last := entries[|entries| - 1];
      var t := (data[last.0 := last.1], AddKey(order, last.0));
      && PropertyOrdered(t.1)
      && (forall k :: k in t.1 <==> k in t.0)
      && (forall k :: k in t.0 <==> k in KeysOf(entries))
      && (forall k :: k in t.0 ==> LastSaved(entries, k) == Some(t.0[k]))
      && NonIndexKeys(t.1) == FirstSeen(NonIndexKeys(KeysOf(entries)))
  {
    var init := entries[..|entries| - 1];
    var k := entries[|entries| - 1].0;
    AddKeyProperties(order, k);
    assert KeysOf(entries) == KeysOf(init) + [k];
    AddKeyFirstSeen(order, KeysOf(init), k);
    LastSavedStep(entries, data);
  }

  class MockPouchDB {
    /** The name the table is saved under. */
    const name: string
    /** The documents by id. */
    var data: map<string, Doc>
    /** The ids in the order the object lists them. */
    var order: seq<string>

    ghost predicate Valid()
      reads this
    {
      PropertyOrdered(order) && forall k :: k in order <==> k in data
    }

    /** Opens the table named `name`, whose saved JSON object has the members `saved`. */
    constructor (name: string, saved: seq<(string, Doc)>)
      ensures Valid()
      ensures this.name == name
      ensures (data, order) == Restore(saved)
    {
      this.name := name;
      var t := Restore(saved);
      data := t.0;
      order := t.1;
    }

    /** `Object.values(this.data)`. */
    function Values(): (docs: seq<Doc>)
      reads this
      requires Valid()
      ensures |docs| == |data| == |order|
      ensures forall i :: 0 <= i < |docs| ==> docs[i] == data[order[i]]
      ensures forall d :: d in docs <==> d in data.Values
    {
      DistinctCardinality(order);
      assert (set x | x in order) == data.Keys;
      var table, keys := data, order;
      var docs := seq(|keys|, i requires 0 <= i < |keys| => table[keys[i]]);
      assert forall d :: d in data.Values ==> d in docs by {
        forall d | d in data.Values ensures d in docs {
          var k :| k in data && data[k] == d;
          var i :| 0 <= i < |order| && order[i] == k;
          assert docs[i] == d;
        }
      }
      docs
    }

    /**
      Stores `doc` under its own id, or under a generated one when it has none, with a
      fresh first-generation revision; an entry with the same id is overwritten.
      `now` is the clock reading and `idSuffix`, `revSuffix` the random parts.
      Returns the caller's document as `put` leaves it (with `_id` and `_rev` set)
      and the reply.
     */
    method Put(doc: Doc, now: nat, idSuffix: string, revSuffix: string)
      returns (stored: Doc, response: PutResponse)
      requires Valid()
      requires IsRandomToken(idSuffix) && IsRandomToken(revSuffix)
      modifies this
      ensures Valid()
      ensures response.ok
      ensures HasId(doc) ==> response.id == doc.id.value
      ensures !HasId(doc) ==> response.id == GeneratedId(now, idSuffix)
      ensures response.rev == FirstRevision(revSuffix) && IsFirstRevision(response.rev)
      ensures stored == doc.(id := Some(response.id), rev := Some(response.rev))
      ensures data == old(data)[response.id := stored]
      ensures order == AddKey(old(order), response.id)
      ensures !HasId(doc) && response.id !in old(data) ==> order == old(order) + [response.id]
      ensures Get(response.id) == Success(stored)
      ensures forall k :: k != response.id ==> Get(k) == old(Get(k))
      ensures Stamped(old(data)) ==> Stamped(data)
    {
      var id := if HasId(doc) then doc.id.value else GeneratedId(now, idSuffix);
      var rev := FirstRevision(revSuffix);
      stored := doc.(id := Some(id), rev := Some(rev));
      AddKeyKeepsOrder(order, id);
      GeneratedIdIsNotIndex(now, idSuffix);
      data := data[id := stored];
      order := AddKey(order, id);
      response := PutResponse(true, id, rev);
    }

    /** `allDocs`: one row per stored document, in listing order. */
    function AllDocs(includeDocs: bool): (r: AllDocsResult)
      reads this
      requires Valid()
      ensures r.totalRows == |data| == |r.rows| == |order|
      ensures forall i :: 0 <= i < |r.rows| ==>
        r.rows[i].id == r.rows[i].key == data[order[i]].id && r.rows[i].value.rev == data[order[i]].rev
      ensures forall i :: 0 <= i < |r.rows| ==> (r.rows[i].doc.Some? <==> includeDocs)
      ensures includeDocs ==> forall i :: 0 <= i < |r.rows| ==> r.rows[i].doc == Some(data[order[i]])
      ensures Stamped(data) ==> forall i :: 0 <= i < |r.rows| ==>
        r.rows[i].id == r.rows[i].key == Some(order[i]) && IsFirstRevision(r.rows[i].value.rev.value)
    {
      var docs := Values();
      AllDocsResult(|docs|, seq(|docs|, i requires 0 <= i < |docs| =>
        Row(docs[i].id, docs[i].id, RowValue(docs[i].rev), if includeDocs then Some(docs[i]) else None)))
    }

    /** `get`: the document stored under `id`, or the error "Document not found". */
    function Get(id: string): (r: Result<Doc, string>)
      reads this
      ensures r.Success? <==> id in data
      ensures r.Success? ==> r.value == data[id]
      ensures r.Failure? ==> r.error == NotFoundMessage
    {
      if id in data then Success(data[id]) else Failure(NotFoundMessage)
    }
  }

  /**
    The names a plain object inherits from `Object.prototype` (ECMA-262, section
    20.1.3, with the legacy accessors of Annex B.2.2). Reading any of them from the
    table object finds an inherited member even when no document has that id.
   */
  const ObjectPrototypeMembers: set<string> := {
    "constructor", "hasOwnProperty", "isPrototypeOf", "propertyIsEnumerable",
    "toLocaleString", "toString", "valueOf", "__proto__",
    "__defineGetter__", "__defineSetter__", "__lookupGetter__", "__lookupSetter__"
  }

  /** What `this.data[id]` followed by the `!doc` test yields in the source. */
  datatype Lookup = Stored(doc: Doc) | InheritedMember(name: string) | Thrown(message: string)

  /**
    `get` as written: an own entry is returned; otherwise the property read falls
    through to `Object.prototype`, whose members are truthy, so only an id outside
    both throws.
   */
  function GetAsWritten(data: map<string, Doc>, id: string): (r: Lookup)
    ensures r.Stored? <==> id in data
    ensures r.Thrown? <==> id !in data && id !in ObjectPrototypeMembers
    ensures r.Stored? ==> r.doc == data[id]
    ensures r.InheritedMember? ==> r.name == id
    ensures r.Thrown? ==> r.message == NotFoundMessage
  {
    if id in data then Stored(data[id])
    else if id in ObjectPrototypeMembers then InheritedMember(id)
    else Thrown(NotFoundMessage)
  }

  /**
    On a table with no document "toString", `get("toString")` as written returns the
    inherited method instead of failing, while the corrected `Get` fails with
    "Document not found".
   */
  lemma GetAsWrittenReturnsInheritedMember(db: MockPouchDB)
    requires "toString" !in db.data
    ensures GetAsWritten(db.data, "toString") == InheritedMember("toString")
    ensures db.Get("toString") == Failure(NotFoundMessage)
  {
  }
}
