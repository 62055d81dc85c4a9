/** The record loop of `MedicalDataProcessor.upload_medical_records`: each
    record is checked for its three fields, turned into a document and handed
    to the store's `create_item`; successes are counted and every failure
    leaves one message tagged with the record's position. */
module Upload {
  import opened Wrappers
  import opened PyJson
  import Text

  const RequiredFields: seq<string> := ["MEDCode", "Slot", "Value"]
  const MissingFieldsDetail := "Missing required fields (MEDCode, Slot, Value)"

  /** The document handed to `create_item`. Its random `id` and its
      `timestamp` are not modelled; `value` is `str()` of the record's Value. */
  datatype Document = Document(medCode: Json, slot: Json, value: string)

  /** What became of one record. */
  datatype Attempt =
    | Skipped(detail: string)                     // rejected before `create_item`
    | Sent(doc: Document, failure: Option<string>) // `create_item` was called; `failure` is what it raised
  {
    predicate Stored() {
      Sent? && failure.None?
    }

    /** The text after "Record i: " in the error message of a record that was not stored. */
    function Detail(): string
      requires !Stored()
    {
      if Skipped? then detail else failure.value
    }
  }

  /** `all(field in record for field in fields)`: the first field found
      missing ends the test; an `in` that raises propagates. */
  function AllPresent(record: Json, fields: seq<string>): Result<bool> {
    if fields == [] then Ok(true)
    else
      match Contains(record, fields[0])
      case Err(e) => Err(e)
      case Ok(found) => if found then AllPresent(record, fields[1..]) else Ok(false)
  }

  /** The document built from a record, or the exception indexing it raises. */
  function BuildDocument(record: Json): Result<Document> {
    match GetItem(record, "MEDCode")
    case Err(e) => Err(e)
    case Ok(code) =>
      match GetItem(record, "Slot")
      case Err(e) => Err(e)
      case Ok(slot) =>
        match GetItem(record, "Value")
        case Err(e) => Err(e)
        case Ok(value) => Ok(Document(code, slot, Str(value)))
  }

  /** One pass of the loop body for a record; `createFailure` is what
      `create_item` raises for it, if anything. */
  function AttemptRecord(record: Json, createFailure: Option<string>): Attempt {
    match AllPresent(record, RequiredFields)
    case Err(e) => Skipped(e)
    case Ok(complete) =>
      if !complete then Skipped(MissingFieldsDetail)
      else
        match BuildDocument(record)
        case Err(e) => Skipped(e)
        case Ok(doc) => Sent(doc, createFailure)
  }

  /** The attempts for all records; `createFailure(i)` is the store's answer to the i-th record. */
  function Attempts(records: seq<Json>, createFailure: nat -> Option<string>): (atts: seq<Attempt>)
    ensures |atts| == |records|
  {
    seq(|records|, i requires 0 <= i < |records| => AttemptRecord(records[i], createFailure(i)))
  }

  /** `f"Record {i}: {detail}"` */
  function ErrorLine(i: nat, detail: string): string {
    "Record " + Text.Decimal(i) + ": " + detail
  }

  /** Number of records stored by a run of the loop over `atts`. */
  function StoredCount(atts: seq<Attempt>): nat {
    if atts == [] then 0
    else StoredCount(atts[..|atts| - 1]) + (if atts[|atts| - 1].Stored() then 1 else 0)
  }

  /** The error list the loop builds: one line per record not stored, in record order. */
  function ErrorLines(atts: seq<Attempt>): seq<string> {
    if atts == [] then []
    else
      var last := atts[|atts| - 1];
      ErrorLines(atts[..|atts| - 1]) + (if last.Stored() then [] else [ErrorLine(|atts| - 1, last.Detail())])
  }

  /** The positions the error lines are tagged with. */
  function ErrorIndices(atts: seq<Attempt>): seq<nat> {
    if atts == [] then []
    else ErrorIndices(atts[..|atts| - 1]) + (if atts[|atts| - 1].Stored() then [] else [|atts| - 1])
  }

  /** The documents handed to `create_item`, in call order. */
  function SentDocuments(atts: seq<Attempt>): seq<Document> {
    if atts == [] then []
    else
      var last := atts[|atts| - 1];
      SentDocuments(atts[..|atts| - 1]) + (if last.Sent? then [last.doc] else [])
  }

  /** The result dictionary of `upload_medical_records`, without its timestamp. */
  datatype UploadSummary = UploadSummary(uploadedCount: nat, totalRecords: nat, errors: seq<string>, success: bool)

  /** The loop of `upload_medical_records` and the summary it returns. Every
      record is accounted for exactly once: stored, or named in one error. */
  method UploadRecords(records: seq<Json>, createFailure: nat -> Option<string>)
    returns (summary: UploadSummary, sent: seq<Document>)
    ensures summary.totalRecords == |records|
    ensures summary.uploadedCount + |summary.errors| == |records|
    ensures summary.success <==> summary.uploadedCount > 0
    ensures summary.uploadedCount == StoredCount(Attempts(records, createFailure))
    ensures summary.errors == ErrorLines(Attempts(records, createFailure))
    ensures sent == SentDocuments(Attempts(records, createFailure))
  {
    ghost var atts := Attempts(records, createFailure);
    var uploaded: nat := 0;
    var errors: seq<string> := [];
    sent := [];
    for i := 0 to |records|
      invariant uploaded == StoredCount(atts[..i])
      invariant errors == ErrorLines(atts[..i])
      invariant sent == SentDocuments(atts[..i])
      invariant uploaded + |errors| == i
    {
      assert atts[..i + 1][..i] == atts[..i];
      var attempt := AttemptRecord(records[i], createFailure(i));
      match attempt
      case Skipped(detail) =>
        errors := errors + [ErrorLine(i, detail)];
      case Sent(doc, failure) =>
        sent := sent + [doc];
        if failure.Some? {
          errors := errors + [ErrorLine(i, failure.value)];
        } else {
          uploaded := uploaded + 1;
        }
    }
    assert atts[..|records|] == atts;
    summary := UploadSummary(uploaded, |records|, errors, uploaded > 0);
  }

  /** The error lines are tagged, in strictly ascending order, with exactly
      the positions of the records that were not stored, each with its detail. */
  lemma {:induction false} ErrorIndicesExact(atts: seq<Attempt>)
    ensures |ErrorIndices(atts)| == |ErrorLines(atts)|
    ensures forall k :: 0 <= k < |ErrorIndices(atts)| ==>
      ErrorIndices(atts)[k] < |atts| && !atts[ErrorIndices(atts)[k]].Stored() &&
      ErrorLines(atts)[k] == ErrorLine(ErrorIndices(atts)[k], atts[ErrorIndices(atts)[k]].Detail())
    ensures forall k, l :: 0 <= k < l < |ErrorIndices(atts)| ==> ErrorIndices(atts)[k] < ErrorIndices(atts)[l]
    ensures forall i :: 0 <= i < |atts| ==> (i in ErrorIndices(atts) <==> !atts[i].Stored())
  {
    if atts != [] {
      var init := atts[..|atts| - 1];
      ErrorIndicesExact(init);
      forall i | 0 <= i < |init|
        ensures atts[i] == init[i]
      {
      }
    }
  }

  /** The count of stored records and the error lines split the records between them. */
  lemma {:induction false} StoredPlusErrors(atts: seq<Attempt>)
    ensures StoredCount(atts) + |ErrorLines(atts)| == |atts|
    ensures StoredCount(atts) <= |SentDocuments(atts)|
  {
    if atts != [] {
      StoredPlusErrors(atts[..|atts| - 1]);
    }
  }

  /** A record without all of MEDCode, Slot and Value never reaches the store:
      it is skipped with the missing-fields message. */
  lemma IncompleteRecordSkipped(records: seq<Json>, createFailure: nat -> Option<string>, i: nat)
    requires i < |records|
    requires AllPresent(records[i], RequiredFields) == Ok(false)
    ensures Attempts(records, createFailure)[i] == Skipped(MissingFieldsDetail)
    ensures i in ErrorIndices(Attempts(records, createFailure))
  {
    var atts := Attempts(records, createFailure);
    assert atts[i] == AttemptRecord(records[i], createFailure(i));
    assert !atts[i].Stored();
    assert i in ErrorIndices(atts) by {
      ErrorIndicesExact(atts);
    }
  }

  /** A dict record is complete exactly when it has all three keys, and then
      its document carries their values. */
  lemma {:induction false} CompleteDictRecord(members: seq<(string, Json)>)
    ensures AllPresent(JObject(members), RequiredFields) ==
      Ok(HasMember(members, "MEDCode") && HasMember(members, "Slot") && HasMember(members, "Value"))
    ensures HasMember(members, "MEDCode") && HasMember(members, "Slot") && HasMember(members, "Value") ==>
      BuildDocument(JObject(members)) ==
        Ok(Document(Member(members, "MEDCode").value, Member(members, "Slot").value, Str(Member(members, "Value").value)))
  {
    var r := JObject(members);
    var fields := RequiredFields;
    assert fields[0] == "MEDCode" && fields[1..] == ["Slot", "Value"];
    assert fields[1..][0] == "Slot" && fields[1..][1..] == ["Value"];
    assert fields[1..][1..][0] == "Value" && fields[1..][1..][1..] == [];
    assert AllPresent(r, fields[1..][1..]) == Ok(HasMember(members, "Value"));
    assert AllPresent(r, fields[1..]) == Ok(HasMember(members, "Slot") && HasMember(members, "Value"));
  }

  /** The thirteen records `initialize_sample_data` uploads into an empty
      store, as (MEDCode, Slot, Value) triples. */
  const SampleTriples: seq<(int, int, string)> := [
    (1302, 150, "19928"),
    (1302, 151, "Blood pressure systolic"),
    (1302, 152, "120"),
    (1303, 150, "Blood pressure diastolic"),
    (1303, 151, "80"),
    (1304, 150, "Heart rate"),
    (1304, 151, "72"),
    (1305, 150, "Temperature"),
    (1305, 151, "98.6"),
    (1306, 150, "Sodium level"),
    (1306, 151, "142"),
    (1307, 150, "Glucose"),
    (1307, 151, "95")
  ]

  function SampleRecord(code: int, slot: int, value: string): Json {
    JObject([("MEDCode", JInt(code)), ("Slot", JInt(slot)), ("Value", JStr(value))])
  }

  function SampleRecords(): seq<Json> {
    seq(|SampleTriples|, i requires 0 <= i < |SampleTriples| =>
      SampleRecord(SampleTriples[i].0, SampleTriples[i].1, SampleTriples[i].2))
  }

  /** Every sample record is complete, so each one reaches `create_item` with its own values. */
  lemma SampleRecordSent(code: int, slot: int, value: string, failure: Option<string>)
    ensures AttemptRecord(SampleRecord(code, slot, value), failure) ==
      Sent(Document(JInt(code), JInt(slot), value), failure)
  {
    var ms := [("MEDCode", JInt(code)), ("Slot", JInt(slot)), ("Value", JStr(value))];
    assert ms[0].0 == "MEDCode" && ms[1].0 == "Slot" && ms[2].0 == "Value";
    CompleteDictRecord(ms);
    assert Member(ms, "Value") == Some(JStr(value));
    assert Member(ms[..2], "Slot") == Some(JInt(slot));
    assert Member(ms[..1], "MEDCode") == Some(JInt(code));
  }

  /** A run in which every record reached `create_item` sent one document per record. */
  lemma {:induction false} AllSentDocuments(atts: seq<Attempt>)
    requires forall i :: 0 <= i < |atts| ==> atts[i].Sent?
    ensures |SentDocuments(atts)| == |atts|
    ensures forall i :: 0 <= i < |atts| ==> SentDocuments(atts)[i] == atts[i].doc
  {
    if atts != [] {
      AllSentDocuments(atts[..|atts| - 1]);
    }
  }

  /** A run in which every record was stored counts them all and reports no error. */
  lemma {:induction false} AllStored(atts: seq<Attempt>)
    requires forall i :: 0 <= i < |atts| ==> atts[i].Stored()
    ensures StoredCount(atts) == |atts| && ErrorLines(atts) == []
  {
    if atts != [] {
      AllStored(atts[..|atts| - 1]);
    }
  }

  /** The sample upload sends all thirteen documents, each with its record's
      values; when the store accepts them all, all thirteen are counted and
      no error is reported. */
  lemma SampleUpload(createFailure: nat -> Option<string>)
    ensures var atts := Attempts(SampleRecords(), createFailure);
      && |SentDocuments(atts)| == 13
      && (forall i :: 0 <= i < 13 ==>
            SentDocuments(atts)[i] ==
              Document(JInt(SampleTriples[i].0), JInt(SampleTriples[i].1), SampleTriples[i].2))
      && ((forall i :: 0 <= i < 13 ==> createFailure(i).None?) ==>
            StoredCount(atts) == 13 && ErrorLines(atts) == [])
  {
    var atts := Attempts(SampleRecords(), createFailure);
    forall i | 0 <= i < 13
      ensures atts[i] ==
        Sent(Document(JInt(SampleTriples[i].0), JInt(SampleTriples[i].1), SampleTriples[i].2), createFailure(i))
    {
      SampleRecordSent(SampleTriples[i].0, SampleTriples[i].1, SampleTriples[i].2, createFailure(i));
    }
    AllSentDocuments(atts);
    if forall i :: 0 <= i < 13 ==> createFailure(i).None? {
      AllStored(atts);
    }
  }
}
