/**
 * The stock.picking status script: one write of the status fields to all the
 * given pickings, then a verification that reads the pickings back and
 * compares every expected field.
 *
 * The comparison follows the script's three rules: a boolean expectation is
 * compared with the truthiness of the stored value (a missing or null value
 * reads as false); a non-empty list (a many2one `[id, name]` pair) is compared
 * by its first element; anything else is compared as it is.
 */
module PickingStatus {
  import opened Json
  import opened Protocol
  import opened JsonRpcClient
  import opened UpdateData

  /** A record as search_read returns it: field name to value. */
  type Record = map<string, Json>

  /** The expected fields, in the order of the dict they come from. */
  type Expected = seq<(string, Json)>

  // ---- update_stock_picking_status ----

  /** The write report, plus the `picking_ids` entry the guard replies do not have. */
  datatype StatusReport = StatusReport(write: BatchReport, pickingIds: Option<seq<Json>>)

  /** The report of the single write: the ids are listed only when the write was accepted. */
  function StatusWriteReport(ids: seq<Json>, outcome: Result<Json>): (r: StatusReport)
    ensures r.write == SingleWriteReport(ids, outcome)
    ensures r.pickingIds.Some?
    ensures r.write.success ==> r.pickingIds.value == ids && r.write.updated == |ids|
    ensures !r.write.success ==> r.pickingIds.value == [] && r.write.failed == |ids|
  {
    StatusReport(SingleWriteReport(ids, outcome), Some(if Accepted(outcome) then ids else []))
  }

  /**
   * `update_stock_picking_status`: no fields or no ids is refused without a
   * call; otherwise one stock.picking write of all the ids.
   */
  method UpdateStockPickingStatus(client: OdooClient, fieldUpdates: map<string, Json>, pickingIds: seq<Json>)
    returns (report: StatusReport)
    modifies client, client.server
    ensures fieldUpdates == map[] ==>
      report == StatusReport(BatchReport(false, Some(NoFieldsMessage), 0, 0, []), None)
      && unchanged(client, client.server)
    ensures fieldUpdates != map[] && pickingIds == [] ==>
      report == StatusReport(BatchReport(false, Some(NoPickingIdsMessage), 0, 0, []), None)
      && unchanged(client, client.server)
    ensures fieldUpdates != map[] && pickingIds != [] ==>
      var n := |old(client.calls)|;
      && |client.calls| == n + 1 && client.calls[..n] == old(client.calls)
      && IsWriteOf(client.calls[n], StockPicking, Group(fieldUpdates, pickingIds))
      && report == StatusWriteReport(pickingIds, client.calls[n].outcome)
  {
    if fieldUpdates == map[] {
      return StatusReport(BatchReport(false, Some(NoFieldsMessage), 0, 0, []), None);
    }
    if pickingIds == [] {
      return StatusReport(BatchReport(false, Some(NoPickingIdsMessage), 0, 0, []), None);
    }
    var outcome := WriteBatch(client, StockPicking, Group(fieldUpdates, pickingIds));
    report := StatusWriteReport(pickingIds, outcome);
  }

  // ---- comparing one field ----

  /** `record.get(field)`: null when the field is missing. */
  function FieldValue(record: Record, field: string): Json {
    if field in record then record[field] else JNull
  }

  /**
   * The value the script compares with (and reports for) an expectation:
   * the truthiness for a boolean expectation, the first element of a
   * non-empty list, otherwise the value itself.
   */
  function Compared(expected: Json, actual: Json): Json {
    if expected.JBool? then JBool(Truthy(actual))
    else if actual.JList? && |actual.items| >= 1 then actual.items[0]
    else actual
  }

  /** The field check passes: no error is reported for it. */
  predicate FieldMatches(expected: Json, actual: Json) {
    Compared(expected, actual) == expected
  }

  /** A boolean expectation passes exactly when the stored value's truthiness agrees. */
  lemma BoolFieldMatchesTruthiness(b: bool, actual: Json)
    ensures FieldMatches(JBool(b), actual) <==> Truthy(actual) == b
  {
  }

  /** A missing field satisfies an expected `false` and fails an expected `true`. */
  lemma MissingFieldReadsFalse(record: Record, field: string)
    requires field !in record
    ensures FieldMatches(JBool(false), FieldValue(record, field))
    ensures !FieldMatches(JBool(true), FieldValue(record, field))
  {
  }

  /** A many2one `[id, name]` pair matches the expected id, whatever the name. */
  lemma Many2oneComparesId(id: int, name: string)
    ensures FieldMatches(JInt(id), JList([JInt(id), JStr(name)]))
    ensures forall other :: other != id ==> !FieldMatches(JInt(other), JList([JInt(id), JStr(name)]))
  {
  }

  /** A stored value equal to a non-list, non-boolean expectation passes. */
  lemma EqualScalarMatches(v: Json)
    requires !v.JList?
    ensures FieldMatches(v, v)
  {
  }

  /**
   * An expected non-empty list passes exactly against a stored list whose
   * first element is that list, since the check compares the stored list's
   * first element. So it fails against an equal stored list: that first
   * element is strictly smaller than the list.
   */
  lemma ExpectedListComparesFirstElement(v: Json, actual: Json)
    requires v.JList? && v.items != []
    ensures FieldMatches(v, actual) <==> actual.JList? && |actual.items| >= 1 && actual.items[0] == v
    ensures !FieldMatches(v, v)
  {
  }

  // ---- comparing one record ----

  datatype VerifyError =
    | PickingNotFound(id: Json)                                        // "Picking ... not found"
    | FieldMismatch(id: Json, field: string, shown: Json, expected: Json) // "Picking ...: field = ... (expected ...)"
    | VerificationFailed(cause: Failure)                               // "Verification error: ..."

  /** The errors the field loop reports for one record, in the order of the expected fields. */
  function Mismatches(id: Json, record: Record, expected: Expected): seq<VerifyError>
  {
    if expected == [] then []
    else
      var field, want := expected[|expected| - 1].0, expected[|expected| - 1].1;
      var actual := FieldValue(record, field);
      Mismatches(id, record, expected[..|expected| - 1])
        + if FieldMatches(want, actual) then [] else [FieldMismatch(id, field, Compared(want, actual), want)]
  }

  /** A record is reported clean exactly when every expected field matches. */
  lemma {:induction false} MismatchesEmptyIff(id: Json, record: Record, expected: Expected)
    ensures Mismatches(id, record, expected) == [] <==>
      forall i :: 0 <= i < |expected| ==> FieldMatches(expected[i].1, FieldValue(record, expected[i].0))
    decreases |expected|
  {
    if expected != [] {
      var init := expected[..|expected| - 1];
      MismatchesEmptyIff(id, record, init);
      assert forall i :: 0 <= i < |init| ==> init[i] == expected[i];
    }
  }

  /** One error at most per expected field, each naming the picking and the values compared. */
  lemma {:induction false} MismatchesDescribeFields(id: Json, record: Record, expected: Expected)
    ensures |Mismatches(id, record, expected)| <= |expected|
    ensures forall e :: e in Mismatches(id, record, expected) ==>
      e.FieldMismatch? && e.id == id && !FieldMatches(e.expected, FieldValue(record, e.field))
      && e.shown == Compared(e.expected, FieldValue(record, e.field))
    decreases |expected|
  {
    if expected != [] {
      MismatchesDescribeFields(id, record, expected[..|expected| - 1]);
    }
  }

  /** Every expected field that does not match is reported, with the value compared. */
  lemma {:induction false} MismatchesReportEveryField(id: Json, record: Record, expected: Expected, i: int)
    requires 0 <= i < |expected|
    requires !FieldMatches(expected[i].1, FieldValue(record, expected[i].0))
    ensures FieldMismatch(id, expected[i].0, Compared(expected[i].1, FieldValue(record, expected[i].0)), expected[i].1)
              in Mismatches(id, record, expected)
    decreases |expected|
  {
    var init := expected[..|expected| - 1];
    if i < |init| {
      assert init[i] == expected[i];
      MismatchesReportEveryField(id, record, init, i);
    }
  }

  /** The inner loop of the verification: every expected field of one record. */
  method FieldErrors(id: Json, record: Record, expected: Expected) returns (errors: seq<VerifyError>, allMatch: bool)
    ensures errors == Mismatches(id, record, expected)
    ensures allMatch <==> errors == []
  {
    errors := [];
    allMatch := true;
    for i := 0 to |expected|
      invariant errors == Mismatches(id, record, expected[..i])
      invariant allMatch <==> errors == []
    {
      assert expected[..i + 1][..i] == expected[..i];
      var field, want := expected[i].0, expected[i].1;
      var actual := FieldValue(record, field);
      if !FieldMatches(want, actual) {
        allMatch := false;
        errors := errors + [FieldMismatch(id, field, Compared(want, actual), want)];
      }
    }
    assert expected[..|expected|] == expected;
  }

  // ---- indexing the records by id ----

  /** The `id` of a record usable as a dict key; None when `record['id']` or the hashing raises. */
  function KeyOf(x: Json): Option<Json> {
    if x.JObject? && "id" in x.fields && Hashable(x.fields["id"]) then Some(x.fields["id"]) else None
  }

  /** `{record['id']: record for record in records}` over a list; None when it raises. */
  function IndexList(xs: seq<Json>): Option<map<Json, Record>>
  {
    if xs == [] then Some(map[])
    else
      var x := xs[|xs| - 1];
      match IndexList(xs[..|xs| - 1])
      case None => None
      case Some(m) => if KeyOf(x).Some? then Some(m[KeyOf(x).value := x.fields]) else None
  }

  /** The index of what search_read returned; iterating anything but a list of records raises. */
  function IndexRecords(v: Json): Option<map<Json, Record>> {
    if v.JList? then IndexList(v.items) else None
  }

  /** The index is built exactly when every element is a record with a hashable id. */
  lemma {:induction false} IndexListSomeIff(xs: seq<Json>)
    ensures IndexList(xs).Some? <==> forall i :: 0 <= i < |xs| ==> KeyOf(xs[i]).Some?
    decreases |xs|
  {
    if xs != [] {
      var init := xs[..|xs| - 1];
      IndexListSomeIff(init);
      assert forall i :: 0 <= i < |init| ==> init[i] == xs[i];
    }
  }

  /** The index holds the ids of the records and nothing else. */
  lemma {:induction false} IndexedIdsAreRecordIds(xs: seq<Json>, id: Json)
    requires IndexList(xs).Some?
    ensures id in IndexList(xs).value <==> exists i :: 0 <= i < |xs| && KeyOf(xs[i]) == Some(id)
    decreases |xs|
  {
    if xs != [] {
      var init := xs[..|xs| - 1];
      IndexedIdsAreRecordIds(init, id);
      if exists i :: 0 <= i < |init| && KeyOf(init[i]) == Some(id) {
        var i :| 0 <= i < |init| && KeyOf(init[i]) == Some(id);
        assert xs[i] == init[i];
      }
      if exists i :: 0 <= i < |xs| && KeyOf(xs[i]) == Some(id) {
        var i :| 0 <= i < |xs| && KeyOf(xs[i]) == Some(id);
        if i < |init| {
          assert init[i] == xs[i];
        }
      }
    }
  }

  /** When two records share an id, the later one is the one kept. */
  lemma {:induction false} LastRecordWins(xs: seq<Json>, i: int)
    requires IndexList(xs).Some? && 0 <= i < |xs|
    requires forall j :: i < j < |xs| ==> KeyOf(xs[j]) != KeyOf(xs[i])
    ensures KeyOf(xs[i]).Some? && KeyOf(xs[i]).value in IndexList(xs).value
    ensures IndexList(xs).value[KeyOf(xs[i]).value] == xs[i].fields
    decreases |xs|
  {
    var init := xs[..|xs| - 1];
    IndexListSomeIff(xs);
    if i < |init| {
      assert forall j :: i < j < |init| ==> init[j] == xs[j];
      LastRecordWins(init, i);
      assert init[i] == xs[i];
    }
  }

  // ---- the loop over the picking ids ----

  datatype VerifyReport = VerifyReport(verified: nat, failed: nat, errors: seq<VerifyError>)

  /** The report so far, and whether an exception has ended the loop. */
  datatype Progress = Progress(report: VerifyReport, stopped: bool)

  /**
   * One picking id: an unhashable id raises in `records_map.get`, which ends
   * the loop with a "Verification error"; a missing record fails; otherwise
   * the picking is verified when no field mismatches.
   */
  function CheckId(r: VerifyReport, id: Json, index: map<Json, Record>, expected: Expected): Progress {
    if !Hashable(id) then
      Progress(VerifyReport(r.verified, r.failed, r.errors + [VerificationFailed(TypeMismatch)]), true)
    else if id !in index then
      Progress(VerifyReport(r.verified, r.failed + 1, r.errors + [PickingNotFound(id)]), false)
    else
      var m := Mismatches(id, index[id], expected);
      if m == [] then Progress(VerifyReport(r.verified + 1, r.failed, r.errors), false)
      else Progress(VerifyReport(r.verified, r.failed + 1, r.errors + m), false)
  }

  /** The loop over all the ids, in order; nothing changes once it has stopped. */
  function CheckAll(ids: seq<Json>, index: map<Json, Record>, expected: Expected): Progress
  {
    if ids == [] then Progress(VerifyReport(0, 0, []), false)
    else
      var p := CheckAll(ids[..|ids| - 1], index, expected);
      if p.stopped then p else CheckId(p.report, ids[|ids| - 1], index, expected)
  }

  /** Once the loop has stopped at a prefix, the later ids add nothing. */
  lemma {:induction false} StoppedStays(ids: seq<Json>, k: int, index: map<Json, Record>, expected: Expected)
    requires 0 <= k <= |ids| && CheckAll(ids[..k], index, expected).stopped
    ensures CheckAll(ids, index, expected) == CheckAll(ids[..k], index, expected)
    decreases |ids|
  {
    if k < |ids| {
      var init := ids[..|ids| - 1];
      assert init[..k] == ids[..k];
      StoppedStays(init, k, index, expected);
    } else {
      assert ids[..k] == ids;
    }
  }

  /** The loop stops exactly when some picking id is unhashable. */
  lemma {:induction false} StoppedIffUnhashable(ids: seq<Json>, index: map<Json, Record>, expected: Expected)
    ensures CheckAll(ids, index, expected).stopped <==> exists i :: 0 <= i < |ids| && !Hashable(ids[i])
    decreases |ids|
  {
    if ids != [] {
      var init := ids[..|ids| - 1];
      StoppedIffUnhashable(init, index, expected);
      if exists i :: 0 <= i < |init| && !Hashable(init[i]) {
        var i :| 0 <= i < |init| && !Hashable(init[i]);
        assert ids[i] == init[i];
      }
      if exists i :: 0 <= i < |ids| && !Hashable(ids[i]) {
        var i :| 0 <= i < |ids| && !Hashable(ids[i]);
        if i < |init| {
          assert init[i] == ids[i];
        }
      }
    }
  }

  /**
   * Every picking checked is counted once, duplicates included, and each
   * failure is explained by at least one error.
   */
  lemma {:induction false} CountsAddUp(ids: seq<Json>, index: map<Json, Record>, expected: Expected)
    ensures var p := CheckAll(ids, index, expected);
      && (!p.stopped ==> p.report.verified + p.report.failed == |ids|)
      && p.report.verified + p.report.failed <= |ids|
      && p.report.failed <= |p.report.errors|
    decreases |ids|
  {
    if ids != [] {
      CountsAddUp(ids[..|ids| - 1], index, expected);
    }
  }

  /** Without an unhashable id, every picking is verified exactly when each is found and matches. */
  lemma {:induction false} AllVerifiedIff(ids: seq<Json>, index: map<Json, Record>, expected: Expected)
    requires forall i :: 0 <= i < |ids| ==> Hashable(ids[i])
    ensures CheckAll(ids, index, expected).report.verified == |ids| <==>
      forall i :: 0 <= i < |ids| ==> ids[i] in index && Mismatches(ids[i], index[ids[i]], expected) == []
    decreases |ids|
  {
    if ids != [] {
      var init := ids[..|ids| - 1];
      assert forall i :: 0 <= i < |init| ==> init[i] == ids[i];
      AllVerifiedIff(init, index, expected);
      StoppedIffUnhashable(init, index, expected);
      CountsAddUp(init, index, expected);
    }
  }

  /** The loop over the picking ids, stopping at the first exception. */
  method CheckPickings(ids: seq<Json>, index: map<Json, Record>, expected: Expected) returns (report: VerifyReport)
    ensures report == CheckAll(ids, index, expected).report
  {
    var verified, failed, errors := 0, 0, [];
    var i := 0;
    while i < |ids|
      invariant 0 <= i <= |ids|
      invariant CheckAll(ids[..i], index, expected) == Progress(VerifyReport(verified, failed, errors), false)
    {
      assert ids[..i + 1][..i] == ids[..i];
      var id := ids[i];
      if !Hashable(id) {
        errors := errors + [VerificationFailed(TypeMismatch)];
        StoppedStays(ids, i + 1, index, expected);
        return VerifyReport(verified, failed, errors);
      }
      if id !in index {
        failed := failed + 1;
        errors := errors + [PickingNotFound(id)];
      } else {
        var fieldErrors, allMatch := FieldErrors(id, index[id], expected);
        errors := errors + fieldErrors;
        if allMatch {
          verified := verified + 1;
        } else {
          failed := failed + 1;
        }
      }
      i := i + 1;
    }
    assert ids[..i] == ids;
    report := VerifyReport(verified, failed, errors);
  }

  // ---- verify_picking_updates ----

  /** `[('id', 'in', picking_ids)]`. */
  function PickingDomain(ids: seq<Json>): Json {
    JList([JList([JStr("id"), JStr("in"), JList(ids)])])
  }

  /** `list(expected_fields.keys())`. */
  function FieldNamesOf(expected: Expected): (names: seq<string>)
    ensures |names| == |expected| && forall i :: 0 <= i < |expected| ==> names[i] == expected[i].0
  {
    seq(|expected|, i requires 0 <= i < |expected| => expected[i].0)
  }

  /** The report once the search has returned `records`: an exception keeps the counts reached. */
  function VerifyOutcome(ids: seq<Json>, expected: Expected, records: Result<Json>): (r: VerifyReport)
    ensures records.Err? ==> r == VerifyReport(0, 0, [VerificationFailed(records.error)])
    ensures records.Ok? && IndexRecords(records.value).None? ==> r == VerifyReport(0, 0, [VerificationFailed(TypeMismatch)])
  {
    if records.Err? then VerifyReport(0, 0, [VerificationFailed(records.error)])
    else match IndexRecords(records.value)
      case None => VerifyReport(0, 0, [VerificationFailed(TypeMismatch)])
      case Some(index) => CheckAll(ids, index, expected).report
  }

  /** The search call of the verification. */
  predicate IsPickingSearch(c: Call, ids: seq<Json>, expected: Expected) {
    c.model == StockPicking && c.methodName == "search_read" && c.args == SearchArgs(PickingDomain(ids))
    && c.kwargs == FieldsKwargs(FieldNamesOf(expected))
  }

  /** One search_read of the pickings, asking for the expected fields. */
  method SearchPickings(client: OdooClient, ids: seq<Json>, expected: Expected) returns (records: Result<Json>)
    modifies client, client.server
    ensures expected == [] ==> records == Err(MissingFields) && unchanged(client, client.server)
    ensures expected != [] ==>
      var n := |old(client.calls)|;
      && |client.calls| == n + 1 && client.calls[..n] == old(client.calls)
      && IsPickingSearch(client.calls[n], ids, expected)
      && records == OrEmptyList(client.calls[n].outcome)
  {
    records := client.SearchRead(StockPicking, PickingDomain(ids), FieldNamesOf(expected));
  }

  /**
   * `verify_picking_updates`: no ids gives an empty report without a call;
   * otherwise one search of the pickings, then the check of every id.
   */
  method VerifyPickingUpdates(client: OdooClient, ids: seq<Json>, expected: Expected) returns (report: VerifyReport)
    modifies client, client.server
    ensures ids == [] ==> report == VerifyReport(0, 0, []) && unchanged(client, client.server)
    ensures ids != [] && expected == [] ==>
      report == VerifyReport(0, 0, [VerificationFailed(MissingFields)]) && unchanged(client, client.server)
    ensures ids != [] && expected != [] ==>
      var n := |old(client.calls)|;
      && |client.calls| == n + 1 && client.calls[..n] == old(client.calls)
      && IsPickingSearch(client.calls[n], ids, expected)
      && report == VerifyOutcome(ids, expected, OrEmptyList(client.calls[n].outcome))
  {
    if ids == [] {
      return VerifyReport(0, 0, []);
    }
    var records := SearchPickings(client, ids, expected);
    if records.Err? {
      return VerifyReport(0, 0, [VerificationFailed(records.error)]);
    }
    var index := IndexRecords(records.value);
    if index.None? {
      return VerifyReport(0, 0, [VerificationFailed(TypeMismatch)]);
    }
    report := CheckPickings(ids, index.value, expected);
  }

  /**
   * A picking whose boolean field is stored as null fails an expected `true`,
   * and the error reports the value as `false`.
   */
  lemma NullBooleanFieldFails(id: Json, field: string)
    requires Hashable(id)
    ensures var index := map[id := map[field := JNull]];
      CheckAll([id], index, [(field, JBool(true))])
        == Progress(VerifyReport(0, 1, [FieldMismatch(id, field, JBool(false), JBool(true))]), false)
  {
    var expected := [(field, JBool(true))];
    var record := map[field := JNull];
    assert expected[..0] == [];
    assert FieldValue(record, field) == JNull;
    assert Mismatches(id, record, expected) == [FieldMismatch(id, field, JBool(false), JBool(true))];
    assert [id][..0] == [];
    assert CheckAll([id][..0], map[id := record], expected) == Progress(VerifyReport(0, 0, []), false);
  }

  // ---- the configured vector ----

  /** The configured status fields: order status 2 and delivered. */
  const ConfiguredPickingFields: Expected := [("salla_order_status_id", JInt(2)), ("x_studio_delivered", JBool(true))]

  /**
   * The configured picking, read back with its status as a many2one pair and
   * delivered set, is verified with no error.
   */
  lemma ConfiguredPickingVerified(name: string)
    ensures VerifyOutcome([JInt(108080)], ConfiguredPickingFields,
      Ok(JList([JObject(map["id" := JInt(108080), "salla_order_status_id" := JList([JInt(2), JStr(name)]),
                            "x_studio_delivered" := JBool(true)])])))
      == VerifyReport(1, 0, [])
  {
    var rec := map["id" := JInt(108080), "salla_order_status_id" := JList([JInt(2), JStr(name)]),
                   "x_studio_delivered" := JBool(true)];
    var xs := [JObject(rec)];
    assert xs[..0] == [];
    assert IndexList(xs) == Some(map[JInt(108080) := rec]);
    var expected := ConfiguredPickingFields;
    assert expected[..1][..0] == [] && expected[..1] == [expected[0]];
    assert FieldMatches(JInt(2), FieldValue(rec, "salla_order_status_id"));
    assert Mismatches(JInt(108080), rec, expected[..1]) == [];
    assert Mismatches(JInt(108080), rec, expected) == [];
    var index := map[JInt(108080) := rec];
    assert [JInt(108080)][..0] == [];
    assert CheckAll([JInt(108080)], index, expected) == Progress(VerifyReport(1, 0, []), false);
  }
}
