/**
  The customer-record rules of the registration screen: capturing a location into the
  form, building the record that `saveCustomer` stores, and the customer list that
  `loadCustomers` derives from the table.
 */
module Customers {
  import opened Results
  import opened Text
  import opened Documents
  import opened Geolocation
  import opened Store
  import opened PropertyKeys

  /** The registration form's state. */
  datatype CustomerForm = CustomerForm(
    businessName: string,
    contactPerson: string,
    phone: string,
    email: string,
    address: string,
    geolocation: Option<Reading>)

  /** The form's state after a location request, and the location error it shows ("" for none). */
  datatype Capture = Capture(form: CustomerForm, error: string)

  const UnsupportedMessage: string := "Geolocation is not supported by this browser"

  /**
    `getCurrentLocation`: without a geolocation provider the form shows
    `UnsupportedMessage`; a fix replaces the form's reading wholesale, stamped with
    `capturedAt`; a failure shows its message and leaves the form, and any earlier
    reading, as it was.
   */
  function CaptureLocation(form: CustomerForm, supported: bool, answer: Answer, capturedAt: string): (r: Capture)
    ensures r.error == "" <==> supported && answer.Fix?
    ensures r.error == "" ==> r.form == form.(geolocation := r.form.geolocation)
    ensures r.error == "" ==>
      r.form.geolocation == Some(Reading(answer.latitude, answer.longitude, answer.accuracy, capturedAt))
    ensures r.error != "" ==> r.form == form
    ensures !supported ==> r.error == UnsupportedMessage
    ensures supported && answer.PositionError? ==> r.error == ErrorMessage(answer.code)
  {
    if !supported then Capture(form, UnsupportedMessage)
    else match answer
      case Fix(lat, lon, acc) =>
        Capture(form.(geolocation := Some(Reading(lat, lon, acc, capturedAt))), "")
      case PositionError(code) => Capture(form, ErrorMessage(code))
  }

  /** A reading as the JSON object the record holds. */
  function ReadingJson(g: Reading): Json
  {
    JObject(map[
      "latitude" := JNum(g.latitude),
      "longitude" := JNum(g.longitude),
      "accuracy" := JNum(g.accuracy),
      "timestamp" := JStr(g.timestamp)])
  }

  /** Reads a reading back from a record's `geolocation` value. */
  function ReadingOf(j: Json): Option<Reading>
  {
    match j
    case JObject(m) =>
      if && "latitude" in m && m["latitude"].JNum?
         && "longitude" in m && m["longitude"].JNum?
         && "accuracy" in m && m["accuracy"].JNum?
         && "timestamp" in m && m["timestamp"].JStr?
      then Some(Reading(m["latitude"].n, m["longitude"].n, m["accuracy"].n, m["timestamp"].s))
      else None
    case _ => None
  }

  /** The reading stored in a document, if it has one. */
  function GeolocationOf(d: Doc): Option<Reading>
  {
    if "geolocation" in d.fields then ReadingOf(d.fields["geolocation"]) else None
  }

  /** The form's own properties, as `...formData` copies them. */
  function FormFields(form: CustomerForm): map<string, Json>
  {
    map[
      "businessName" := JStr(form.businessName),
      "contactPerson" := JStr(form.contactPerson),
      "phone" := JStr(form.phone),
      "email" := JStr(form.email),
      "address" := JStr(form.address),
      "geolocation" := match form.geolocation case None => JNull case Some(g) => ReadingJson(g)]
  }

  /** The properties the record adds to the form's. */
  const RecordKeys: set<string> :=
    {"type", "createdAt", "updatedAt", "syncStatus", "balance", "totalDeliveries"}

  /** `row.doc && row.doc.type === 'customer'`. */
  predicate IsCustomer(d: Doc)
  {
    "type" in d.fields && d.fields["type"] == JStr("customer")
  }

  /** The properties the record literal sets after the spread of the form. */
  function RecordFields(createdAt: string, updatedAt: string, online: bool): (m: map<string, Json>)
    ensures m.Keys == RecordKeys
  {
    map[
      "type" := JStr("customer"),
      "createdAt" := JStr(createdAt),
      "updatedAt" := JStr(updatedAt),
      "syncStatus" := JStr(if online then "synced" else "pending"),
      "balance" := JNum(0.0),
      "totalDeliveries" := JNum(0.0)]
  }

  /**
    The record `saveCustomer` builds from the form: the form's properties, the type
    `customer`, the two clock readings, a sync status that records whether the device
    was online, and zeroed counters. It has no `_id`, so `put` generates one.
   */
  function CustomerRecord(form: CustomerForm, createdAt: string, updatedAt: string, online: bool): (d: Doc)
    ensures d.id.None? && d.rev.None?
    ensures IsCustomer(d)
    ensures d.fields.Keys == FormFields(form).Keys + RecordKeys
    ensures forall k :: k in FormFields(form) ==> d.fields[k] == FormFields(form)[k]
    ensures GeolocationOf(d) == form.geolocation
    ensures d.fields["createdAt"] == JStr(createdAt) && d.fields["updatedAt"] == JStr(updatedAt)
    ensures d.fields["syncStatus"] == JStr("synced") <==> online
    ensures d.fields["syncStatus"] == JStr("pending") <==> !online
    ensures d.fields["balance"] == JNum(0.0) && d.fields["totalDeliveries"] == JNum(0.0)
  {
    var own := FormFields(form);
    var added := RecordFields(createdAt, updatedAt, online);
    assert own.Keys !! RecordKeys;
    assert own["geolocation"] == match form.geolocation case None => JNull case Some(g) => ReadingJson(g);
    Doc(None, None, own + added)
  }

  predicate IsCustomerRow(row: Row)
  {
    row.doc.Some? && IsCustomer(row.doc.value)
  }

  /** The `filter`/`map` of `loadCustomers`: the documents of the customer rows, in row order. */
  function CustomerDocs(rows: seq<Row>): (r: seq<Doc>)
    ensures |r| <= |rows|
    ensures forall d :: d in r <==>
      exists i :: 0 <= i < |rows| && rows[i].doc == Some(d) && IsCustomer(d)
  {
    if rows == [] then []
    else
      var rest := CustomerDocs(rows[1..]);
      assert forall i :: 0 < i < |rows| ==> rows[i] == rows[1..][i - 1];
      (if IsCustomerRow(rows[0]) then [rows[0].doc.value] else []) + rest
  }

  /** Filtering a listing in two parts is filtering it whole: the list keeps the listing's order. */
  lemma {:induction false} CustomerDocsAppend(a: seq<Row>, b: seq<Row>)
    ensures CustomerDocs(a + b) == CustomerDocs(a) + CustomerDocs(b)
  {
    if a != [] {
      assert (a + b)[1..] == a[1..] + b;
      CustomerDocsAppend(a[1..], b);
    } else {
      assert a + b == b;
    }
  }

  /** A listing with documents holds each stored document... */
  lemma ListingHoldsEveryDocument(db: MockPouchDB)
    requires db.Valid()
    ensures var rows := db.AllDocs(true).rows;
      forall d :: d in db.data.Values ==> exists i :: 0 <= i < |rows| && rows[i].doc == Some(d)
  {
    var rows := db.AllDocs(true).rows;
    forall d | d in db.data.Values
      ensures exists i :: 0 <= i < |rows| && rows[i].doc == Some(d)
    {
      var k :| k in db.data && db.data[k] == d;
      assert k in db.order;
      var i :| 0 <= i < |db.order| && db.order[i] == k;
      assert rows[i].doc == Some(d);
    }
  }

  /** ...and only stored documents. */
  lemma ListingHoldsOnlyStoredDocuments(db: MockPouchDB)
    requires db.Valid()
    ensures var rows := db.AllDocs(true).rows;
      forall d :: (exists i :: 0 <= i < |rows| && rows[i].doc == Some(d)) ==> d in db.data.Values
  {
    var rows := db.AllDocs(true).rows;
    forall d | exists i :: 0 <= i < |rows| && rows[i].doc == Some(d)
      ensures d in db.data.Values
    {
      var i :| 0 <= i < |rows| && rows[i].doc == Some(d);
      assert db.order[i] in db.data;
    }
  }

  /** `loadCustomers`: exactly the stored documents of type `customer`, in listing order. */
  function LoadCustomers(db: MockPouchDB): (r: seq<Doc>)
    reads db
    requires db.Valid()
    ensures |r| <= |db.data|
    ensures forall d :: d in r <==> d in db.data.Values && IsCustomer(d)
  {
    var rows := db.AllDocs(true).rows;
    ListingHoldsEveryDocument(db);
    ListingHoldsOnlyStoredDocuments(db);
    CustomerDocs(rows)
  }

  /** What `saveCustomer` ends with. */
  datatype SaveOutcome =
    | LocationRequired
    | Saved(record: Doc, response: PutResponse, customers: seq<Doc>)

  /**
    `saveCustomer`: refuses a form without a location and writes nothing; otherwise
    puts the customer record (under a generated id) and reloads the customer list.
    `createdAt`, `updatedAt` and `now` are clock readings, `idSuffix` and `revSuffix`
    random parts, `online` the connectivity flag.
   */
  method SaveCustomer(db: MockPouchDB, form: CustomerForm, online: bool,
                      createdAt: string, updatedAt: string,
                      now: nat, idSuffix: string, revSuffix: string)
    returns (outcome: SaveOutcome)
    requires db.Valid()
    requires IsRandomToken(idSuffix) && IsRandomToken(revSuffix)
    modifies db
    ensures db.Valid()
    ensures outcome.LocationRequired? <==> form.geolocation.None?
    ensures outcome.LocationRequired? ==> db.data == old(db.data) && db.order == old(db.order)
    ensures outcome.Saved? ==>
      && outcome.response == PutResponse(true, GeneratedId(now, idSuffix), FirstRevision(revSuffix))
      && outcome.record == CustomerRecord(form, createdAt, updatedAt, online).(
           id := Some(outcome.response.id), rev := Some(FirstRevision(revSuffix)))
      && db.data == old(db.data)[outcome.response.id := outcome.record]
      && db.order == AddKey(old(db.order), outcome.response.id)
      && outcome.customers == LoadCustomers(db)
      && outcome.record in outcome.customers
    ensures outcome.Saved? && outcome.response.id !in old(db.data) ==>
      outcome.customers == old(LoadCustomers(db)) + [outcome.record]
  {
    if form.geolocation.None? {
      return LocationRequired;
    }
    ghost var before := db.AllDocs(true).rows;
    ghost var oldData, oldOrder := db.data, db.order;
    var customer := CustomerRecord(form, createdAt, updatedAt, online);
    var stored, response := db.Put(customer, now, idSuffix, revSuffix);
    assert stored in db.data.Values by {
      assert db.data[response.id] == stored;
    }
    var customers := LoadCustomers(db);
    if response.id !in oldData {
      NewCustomerIsListedLast(db, before, oldData, oldOrder, response.id, stored);
    }
    outcome := Saved(stored, response, customers);
  }

  /** After a customer is put under a new id, the listing is the old one plus its row. */
  lemma NewCustomerIsListedLast(db: MockPouchDB, before: seq<Row>,
                                oldData: map<string, Doc>, oldOrder: seq<string>,
                                id: string, stored: Doc)
    requires db.Valid()
    requires id !in oldData && (forall k :: k in oldOrder <==> k in oldData)
    requires |before| == |oldOrder|
    requires forall i :: 0 <= i < |before| ==>
      before[i] == Row(oldData[oldOrder[i]].id, oldData[oldOrder[i]].id,
                       RowValue(oldData[oldOrder[i]].rev), Some(oldData[oldOrder[i]]))
    requires db.data == oldData[id := stored] && db.order == oldOrder + [id]
    requires IsCustomer(stored)
    ensures LoadCustomers(db) == CustomerDocs(before) + [stored]
  {
    var rows := db.AllDocs(true).rows;
    assert rows[|before|].doc == Some(stored);
    forall i | 0 <= i < |before|
      ensures rows[i] == before[i]
    {
      assert db.order[i] == oldOrder[i] && oldOrder[i] != id;
    }
    ListingGrows(before, rows, stored);
  }

  /** A listing that extends another by one customer row yields one more customer, last. */
  lemma ListingGrows(before: seq<Row>, rows: seq<Row>, stored: Doc)
    requires |rows| == |before| + 1 && rows[|before|].doc == Some(stored) && IsCustomer(stored)
    requires forall i :: 0 <= i < |before| ==> rows[i] == before[i]
    ensures CustomerDocs(rows) == CustomerDocs(before) + [stored]
  {
    var last := rows[|before|];
    assert rows == before + [last];
    CustomerDocsAppend(before, [last]);
    assert CustomerDocs([last]) == [stored] by {
      assert [last][1..] == [];
    }
  }
}
