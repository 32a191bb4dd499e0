/**
 * The update script for stock.move and stock.picking records.
 *
 * An update entry is a dict holding an `id` and the field values to write.
 * `bulk_update_records` normalises the entries (for stock.move, `quantity`
 * is mirrored into `product_uom_qty`), rejects entries without a usable id
 * or without fields, groups the ids of entries that write the same values,
 * and writes each group with one call, in the order the groups were first
 * seen. The grouping key `json.dumps(values, sort_keys=True)` is modelled by
 * the value map itself: two maps have the same key exactly when they are
 * equal, since Bool, Int and String are distinct JSON constructors here.
 */
module UpdateData {
  import opened Json
  import opened Protocol
  import opened JsonRpcClient

  /** One update: `id` and the field values to write. */
  type Entry = map<string, Json>

  const StockMove: string := "stock.move"
  const StockPicking: string := "stock.picking"
  const NoRecordsMessage: string := "No records to update"
  const NoFieldsMessage: string := "No fields to update"
  const NoPickingIdsMessage: string := "No picking IDs provided"

  // ---- normalize_updates ----

  /** The stock.move rule applies: the model is stock.move and the entry sets `quantity`. */
  predicate MirrorsQuantity(model: string, u: Entry) {
    model == StockMove && "quantity" in u
  }

  /** One entry after normalisation, a new map: the input entry is left as it was. */
  function NormalizeEntry(model: string, u: Entry): (r: Entry)
    ensures MirrorsQuantity(model, u) ==>
              r.Keys == u.Keys + {"product_uom_qty"} && r["product_uom_qty"] == u["quantity"]
    ensures forall k :: k in u && k != "product_uom_qty" ==> k in r && r[k] == u[k]
    ensures !MirrorsQuantity(model, u) ==> r == u
  {
    if MirrorsQuantity(model, u) then u["product_uom_qty" := u["quantity"]] else u
  }

  /** Every entry normalised, in order. */
  function Normalized(model: string, updates: seq<Entry>): (r: seq<Entry>)
    ensures |r| == |updates|
  {
    seq(|updates|, i requires 0 <= i < |updates| => NormalizeEntry(model, updates[i]))
  }

  /** `normalize_updates`: a copy of each entry, with the stock.move rule applied. */
  method NormalizeUpdates(updates: seq<Entry>, model: string) returns (normalized: seq<Entry>)
    ensures |normalized| == |updates|
    ensures forall i :: 0 <= i < |updates| ==> normalized[i] == NormalizeEntry(model, updates[i])
  {
    normalized := [];
    for i := 0 to |updates|
      invariant |normalized| == i
      invariant forall j :: 0 <= j < i ==> normalized[j] == NormalizeEntry(model, updates[j])
    {
      var entry := updates[i];
      if MirrorsQuantity(model, entry) {
        entry := entry["product_uom_qty" := entry["quantity"]];
      }
      normalized := normalized + [entry];
    }
  }

  /** Normalising twice changes nothing more: the mirrored value is already in place. */
  lemma NormalizeIdempotent(model: string, u: Entry)
    ensures NormalizeEntry(model, NormalizeEntry(model, u)) == NormalizeEntry(model, u)
  {
  }

  // ---- rejection and grouping ----

  /** `{k: v for k, v in update.items() if k != 'id'}`. */
  function FieldsOf(u: Entry): (r: Entry)
    ensures "id" !in r
    ensures forall k :: k in r <==> k in u && k != "id"
    ensures forall k :: k in r ==> r[k] == u[k]
  {
    u - {"id"}
  }

  /** `update.get('id')` is truthy. */
  predicate HasId(u: Entry) {
    "id" in u && Truthy(u["id"])
  }

  /** The entry takes part in a write: a truthy id and at least one field. */
  predicate Writable(u: Entry) {
    HasId(u) && FieldsOf(u) != map[]
  }

  /** What goes into the report's `errors` list. */
  datatype UpdateError =
    | MissingId(entry: Entry)                     // "Missing 'id' in update"
    | NoFields(id: Json)                          // "No fields to update for record"
    | WriteRejected(ids: seq<Json>)               // "Update returned False for IDs"
    | WriteFailed(ids: seq<Json>, cause: Failure) // "Error updating IDs"

  /** A batch: the values to write and the ids that write them. */
  datatype Group = Group(values: Entry, ids: seq<Json>)

  /** The error an entry that does not take part in a write adds. */
  function Rejection(u: Entry): (e: UpdateError)
    requires !Writable(u)
    ensures !HasId(u) ==> e == MissingId(u)
    ensures HasId(u) ==> e == NoFields(u["id"])
  {
    if !HasId(u) then MissingId(u) else NoFields(u["id"])
  }

  /** The errors of the rejected entries, in input order. */
  function Rejections(es: seq<Entry>): seq<UpdateError>
  {
    if es == [] then []
    else
      var u := es[|es| - 1];
      Rejections(es[..|es| - 1]) + if Writable(u) then [] else [Rejection(u)]
  }

  /** The number of entries that take part in a write. */
  function ValidCount(es: seq<Entry>): nat
  {
    if es == [] then 0
    else ValidCount(es[..|es| - 1]) + if Writable(es[|es| - 1]) then 1 else 0
  }

  /** The distinct value maps of the writable entries, in the order first seen. */
  function FirstSeen(es: seq<Entry>): seq<Entry>
  {
    if es == [] then []
    else
      var seen := FirstSeen(es[..|es| - 1]);
      var u := es[|es| - 1];
      if Writable(u) && FieldsOf(u) !in seen then seen + [FieldsOf(u)] else seen
  }

  /** The ids of the writable entries whose values are `v`, in input order. */
  function IdsWith(es: seq<Entry>, v: Entry): seq<Json>
  {
    if es == [] then []
    else
      var u := es[|es| - 1];
      IdsWith(es[..|es| - 1], v) + if Writable(u) && FieldsOf(u) == v then [u["id"]] else []
  }

  /** The batches `bulk_update_records` writes: one per distinct value map, first seen first. */
  function GroupsOf(es: seq<Entry>): (gs: seq<Group>)
    ensures |gs| == |FirstSeen(es)|
  {
    var seen := FirstSeen(es);
    seq(|seen|, i requires 0 <= i < |seen| => Group(seen[i], IdsWith(es, seen[i])))
  }

  /** The number of ids over all batches. */
  function TotalIds(gs: seq<Group>): nat
  {
    if gs == [] then 0 else TotalIds(gs[..|gs| - 1]) + |gs[|gs| - 1].ids|
  }

  /** No value map is listed twice. */
  lemma {:induction false} FirstSeenDistinct(es: seq<Entry>)
    ensures forall i, j :: 0 <= i < j < |FirstSeen(es)| ==> FirstSeen(es)[i] != FirstSeen(es)[j]
    decreases |es|
  {
    if es != [] {
      FirstSeenDistinct(es[..|es| - 1]);
    }
  }

  /** The value maps listed are exactly those of the writable entries. */
  lemma {:induction false} FirstSeenIsWritableValues(es: seq<Entry>, v: Entry)
    ensures v in FirstSeen(es) <==> exists u :: u in es && Writable(u) && FieldsOf(u) == v
    decreases |es|
  {
    if es != [] {
      var init, u := es[..|es| - 1], es[|es| - 1];
      FirstSeenIsWritableValues(init, v);
      assert es == init + [u];
      if exists w :: w in init && Writable(w) && FieldsOf(w) == v {
        var w :| w in init && Writable(w) && FieldsOf(w) == v;
        assert w in es;
      }
    }
  }

  /** A value map is listed exactly when some id writes it. */
  lemma {:induction false} SeenIffIds(es: seq<Entry>, v: Entry)
    ensures v in FirstSeen(es) <==> IdsWith(es, v) != []
    decreases |es|
  {
    if es != [] {
      SeenIffIds(es[..|es| - 1], v);
    }
  }

  /** The batches after one more entry, when it is not writable. */
  lemma GroupsSkipRejected(es: seq<Entry>, u: Entry)
    requires !Writable(u)
    ensures GroupsOf(es + [u]) == GroupsOf(es)
  {
    assert (es + [u])[..|es|] == es && (es + [u])[|es|] == u;
    var v := FirstSeen(es);
    forall i | 0 <= i < |v|
      ensures IdsWith(es + [u], v[i]) == IdsWith(es, v[i])
    {
    }
  }

  /** The batches after one more writable entry whose values were seen at position `i`. */
  lemma GroupsJoinSeen(es: seq<Entry>, u: Entry, i: nat)
    requires Writable(u) && i < |FirstSeen(es)| && FirstSeen(es)[i] == FieldsOf(u)
    ensures GroupsOf(es + [u]) == GroupsOf(es)[i := Group(FieldsOf(u), GroupsOf(es)[i].ids + [u["id"]])]
  {
    assert (es + [u])[..|es|] == es && (es + [u])[|es|] == u;
    FirstSeenDistinct(es);
    var v := FirstSeen(es);
    assert FirstSeen(es + [u]) == v;
    var after := GroupsOf(es + [u]);
    var expected := GroupsOf(es)[i := Group(FieldsOf(u), GroupsOf(es)[i].ids + [u["id"]])];
    forall j | 0 <= j < |v|
      ensures after[j] == expected[j]
    {
      assert IdsWith(es + [u], v[j]) == IdsWith(es, v[j]) + if j == i then [u["id"]] else [];
    }
  }

  /** The batches after one more writable entry whose values are new: a batch of its own, last. */
  lemma GroupsOpenNew(es: seq<Entry>, u: Entry)
    requires Writable(u) && FieldsOf(u) !in FirstSeen(es)
    ensures GroupsOf(es + [u]) == GroupsOf(es) + [Group(FieldsOf(u), [u["id"]])]
  {
    assert (es + [u])[..|es|] == es && (es + [u])[|es|] == u;
    var v := FirstSeen(es);
    assert FirstSeen(es + [u]) == v + [FieldsOf(u)];
    SeenIffIds(es, FieldsOf(u));
    var after := GroupsOf(es + [u]);
    var expected := GroupsOf(es) + [Group(FieldsOf(u), [u["id"]])];
    forall j | 0 <= j <= |v|
      ensures after[j] == expected[j]
    {
      if j < |v| {
        assert IdsWith(es + [u], v[j]) == IdsWith(es, v[j]);
      }
    }
  }

  lemma {:induction false} TotalIdsUpdate(gs: seq<Group>, i: nat, g: Group)
    requires i < |gs|
    ensures TotalIds(gs[i := g]) + |gs[i].ids| == TotalIds(gs) + |g.ids|
    decreases |gs|
  {
    var n := |gs| - 1;
    if i < n {
      TotalIdsUpdate(gs[..n], i, g);
      assert gs[i := g][..n] == gs[..n][i := g];
    } else {
      assert gs[i := g][..n] == gs[..n];
    }
  }

  /** Every writable entry's id lands in exactly one batch. */
  lemma {:induction false} GroupedIdsCount(es: seq<Entry>)
    ensures TotalIds(GroupsOf(es)) == ValidCount(es)
    decreases |es|
  {
    if es == [] {
      assert GroupsOf(es) == [];
    } else {
      var init, u := es[..|es| - 1], es[|es| - 1];
      assert es == init + [u];
      GroupedIdsCount(init);
      var gs := GroupsOf(init);
      if !Writable(u) {
        GroupsSkipRejected(init, u);
      } else if FieldsOf(u) in FirstSeen(init) {
        var i :| 0 <= i < |FirstSeen(init)| && FirstSeen(init)[i] == FieldsOf(u);
        GroupsJoinSeen(init, u, i);
        TotalIdsUpdate(gs, i, Group(FieldsOf(u), gs[i].ids + [u["id"]]));
      } else {
        GroupsOpenNew(init, u);
        assert (gs + [Group(FieldsOf(u), [u["id"]])])[..|gs|] == gs;
      }
    }
  }

  /** Each entry is either rejected with one error or counted as writable. */
  lemma {:induction false} RejectedPlusValid(es: seq<Entry>)
    ensures |Rejections(es)| + ValidCount(es) == |es|
    decreases |es|
  {
    if es != [] {
      RejectedPlusValid(es[..|es| - 1]);
    }
  }

  /** Every batch writes at least one id. */
  lemma BatchesAreNonEmpty(es: seq<Entry>)
    ensures forall i :: 0 <= i < |GroupsOf(es)| ==> GroupsOf(es)[i].ids != []
  {
    forall i | 0 <= i < |GroupsOf(es)|
      ensures GroupsOf(es)[i].ids != []
    {
      SeenIffIds(es, FirstSeen(es)[i]);
    }
  }

  /**
   * The grouping loop of `bulk_update_records`: rejected entries add an
   * error; the others join the batch of their value map, which is opened
   * (with no ids yet) the first time the map is seen. `index` plays the part
   * of the `value_groups` dict, `groups` its insertion order.
   */
  method GroupUpdates(es: seq<Entry>) returns (groups: seq<Group>, rejected: seq<UpdateError>)
    ensures groups == GroupsOf(es)
    ensures rejected == Rejections(es)
  {
    groups := [];
    rejected := [];
    var index: map<Entry, nat> := map[];
    for k := 0 to |es|
      invariant groups == GroupsOf(es[..k])
      invariant rejected == Rejections(es[..k])
      invariant forall v :: v in index <==> v in FirstSeen(es[..k])
      invariant forall v :: v in index ==> index[v] < |groups| && groups[index[v]].values == v
    {
      var u := es[k];
      assert (es[..k] + [u])[..k] == es[..k];
      assert es[..k + 1] == es[..k] + [u];
      if !HasId(u) {
        rejected := rejected + [MissingId(u)];
        GroupsSkipRejected(es[..k], u);
      } else {
        var values := FieldsOf(u);
        if values == map[] {
          rejected := rejected + [NoFields(u["id"])];
          GroupsSkipRejected(es[..k], u);
        } else {
          if values !in index {
            GroupsOpenNew(es[..k], u);
            index := index[values := |groups|];
            groups := groups + [Group(values, [])];
          } else {
            GroupsJoinSeen(es[..k], u, index[values]);
          }
          var j := index[values];
          groups := groups[j := Group(groups[j].values, groups[j].ids + [u["id"]])];
        }
      }
    }
    assert es[..|es|] == es;
  }

  // ---- the write loop and the report ----

  /** The dict `bulk_update_records` and `update_stock_pickings` return. */
  datatype BatchReport = BatchReport(success: bool, message: Option<string>, updated: nat, failed: nat,
                                     errors: seq<UpdateError>)

  /** `updated`, `failed` and `errors` as the loops leave them. */
  datatype Counts = Counts(updated: nat, failed: nat, errors: seq<UpdateError>)

  /** `result is True`, for the outcome of a write call. */
  predicate Accepted(outcome: Result<Json>) {
    outcome.Ok? && WriteAccepted(outcome.value)
  }

  /** The error a write that was not accepted adds: a raised exception, or any result but `true`. */
  function WriteError(ids: seq<Json>, outcome: Result<Json>): UpdateError {
    if outcome.Err? then WriteFailed(ids, outcome.error) else WriteRejected(ids)
  }

  /** The counters after the write of one batch. */
  function AddWrite(c: Counts, g: Group, outcome: Result<Json>): (r: Counts)
    ensures r.updated + r.failed == c.updated + c.failed + |g.ids|
    ensures Accepted(outcome) ==> r.failed == c.failed && r.errors == c.errors
    ensures !Accepted(outcome) ==> r.updated == c.updated && r.errors == c.errors + [WriteError(g.ids, outcome)]
  {
    if Accepted(outcome) then Counts(c.updated + |g.ids|, c.failed, c.errors)
    else Counts(c.updated, c.failed + |g.ids|, c.errors + [WriteError(g.ids, outcome)])
  }

  /** The counters after writing the batches `gs` with the outcomes `outs`, in order. */
  function AddWrites(c: Counts, gs: seq<Group>, outs: seq<Result<Json>>): Counts
    requires |gs| == |outs|
  {
    if gs == [] then c
    else AddWrite(AddWrites(c, gs[..|gs| - 1], outs[..|outs| - 1]), gs[|gs| - 1], outs[|outs| - 1])
  }

  /** The outcomes of a run of logged calls. */
  function Outcomes(calls: seq<Call>): (outs: seq<Result<Json>>)
    ensures |outs| == |calls| && forall i :: 0 <= i < |calls| ==> outs[i] == calls[i].outcome
  {
    seq(|calls|, i requires 0 <= i < |calls| => calls[i].outcome)
  }

  /** The report of a non-empty bulk update: rejections first, then one entry per failed write. */
  function BulkReport(rejected: seq<UpdateError>, gs: seq<Group>, outs: seq<Result<Json>>): BatchReport
    requires |gs| == |outs|
  {
    var c := AddWrites(Counts(0, |rejected|, rejected), gs, outs);
    BatchReport(c.failed == 0, None, c.updated, c.failed, c.errors)
  }

  /** Every id of every batch is counted once, as updated or as failed. */
  lemma {:induction false} WritesCountEveryId(c: Counts, gs: seq<Group>, outs: seq<Result<Json>>)
    requires |gs| == |outs|
    ensures var r := AddWrites(c, gs, outs);
      r.updated + r.failed == c.updated + c.failed + TotalIds(gs)
    decreases |gs|
  {
    if gs != [] {
      WritesCountEveryId(c, gs[..|gs| - 1], outs[..|outs| - 1]);
    }
  }

  /**
   * Nothing fails exactly when every write is accepted, given batches that
   * are not empty; the failed writes each add one error.
   */
  lemma {:induction false} FailedIffRejectedWrite(c: Counts, gs: seq<Group>, outs: seq<Result<Json>>)
    requires |gs| == |outs|
    requires forall i :: 0 <= i < |gs| ==> gs[i].ids != []
    ensures var r := AddWrites(c, gs, outs);
      && (r.failed == c.failed <==> forall i :: 0 <= i < |outs| ==> Accepted(outs[i]))
      && r.failed >= c.failed
      && |r.errors| == |c.errors| + |outs| - CountAccepted(outs)
    decreases |gs|
  {
    if gs != [] {
      var n := |gs| - 1;
      FailedIffRejectedWrite(c, gs[..n], outs[..n]);
      var p := AddWrites(c, gs[..n], outs[..n]);
      if p.failed == c.failed && !Accepted(outs[n]) {
        assert !Accepted(outs[n]);
      }
      if forall i :: 0 <= i < n ==> Accepted(outs[..n][i]) {
        assert forall i :: 0 <= i < n ==> Accepted(outs[i]);
      }
      if !(forall i :: 0 <= i < n ==> Accepted(outs[..n][i])) {
        var i :| 0 <= i < n && !Accepted(outs[..n][i]);
        assert !Accepted(outs[i]);
      }
    }
  }

  /** The number of accepted outcomes. */
  function CountAccepted(outs: seq<Result<Json>>): (n: nat)
    ensures n <= |outs|
  {
    if outs == [] then 0 else CountAccepted(outs[..|outs| - 1]) + if Accepted(outs[|outs| - 1]) then 1 else 0
  }

  /**
   * For a non-empty update list, every entry is counted once, as updated or
   * as failed, and the run succeeds exactly when nothing failed, that is
   * when no entry was rejected and every batch write returned `true`.
   */
  lemma BulkCountsAddUp(model: string, updates: seq<Entry>, outs: seq<Result<Json>>)
    requires |outs| == |GroupsOf(Normalized(model, updates))|
    ensures var es := Normalized(model, updates);
      var r := BulkReport(Rejections(es), GroupsOf(es), outs);
      && r.updated + r.failed == |updates|
      && (r.success <==> r.failed == 0)
      && (r.success <==> Rejections(es) == [] && forall i :: 0 <= i < |outs| ==> Accepted(outs[i]))
      && |r.errors| == |Rejections(es)| + |outs| - CountAccepted(outs)
  {
    var es := Normalized(model, updates);
    var rejected := Rejections(es);
    var c := Counts(0, |rejected|, rejected);
    WritesCountEveryId(c, GroupsOf(es), outs);
    GroupedIdsCount(es);
    RejectedPlusValid(es);
    BatchesAreNonEmpty(es);
    FailedIffRejectedWrite(c, GroupsOf(es), outs);
  }

  /** The logged call is the write of batch `g` to `model`: `write([ids], values)` with no kwargs. */
  predicate IsWriteOf(c: Call, model: string, g: Group) {
    c.model == model && c.methodName == "write" && c.args == WriteArgs(g.ids, g.values) && c.kwargs == EmptyObject
  }

  /** The guarded write of one batch: one `write` call, whose outcome is logged. */
  method WriteBatch(client: OdooClient, model: string, g: Group) returns (outcome: Result<Json>)
    modifies client, client.server
    ensures client.calls == old(client.calls) + [Call(model, "write", WriteArgs(g.ids, g.values), EmptyObject, outcome)]
  {
    outcome := client.CallKw(model, "write", WriteArgs(g.ids, g.values), EmptyObject);
  }

  /**
   * The write loop of `bulk_update_records`: one write per batch, in order,
   * every outcome tallied; a failed write does not stop the later ones.
   */
  method WriteBatches(client: OdooClient, model: string, groups: seq<Group>, start: Counts) returns (counts: Counts)
    modifies client, client.server
    ensures var n := |old(client.calls)|;
      && |client.calls| == n + |groups| && client.calls[..n] == old(client.calls)
      && (forall i :: 0 <= i < |groups| ==> IsWriteOf(client.calls[n + i], model, groups[i]))
      && counts == AddWrites(start, groups, Outcomes(client.calls[n..]))
  {
    ghost var calls0 := client.calls;
    counts := start;
    for i := 0 to |groups|
      invariant |client.calls| == |calls0| + i && client.calls[..|calls0|] == calls0
      invariant forall j :: 0 <= j < i ==> IsWriteOf(client.calls[|calls0| + j], model, groups[j])
      invariant counts == AddWrites(start, groups[..i], Outcomes(client.calls[|calls0|..]))
    {
      var g := groups[i];
      ghost var before := client.calls;
      var outcome := WriteBatch(client, model, g);
      ghost var outs := Outcomes(client.calls[|calls0|..]);
      assert groups[..i + 1][..i] == groups[..i];
      assert outs[..i] == Outcomes(before[|calls0|..]);
      counts := AddWrite(counts, g, outcome);
    }
    assert groups[..|groups|] == groups;
  }

  /**
   * `bulk_update_records`: an empty list is refused without a call;
   * otherwise one write per batch, in the order the batches were first seen,
   * and the report the outcomes of those writes give.
   */
  method BulkUpdateRecords(client: OdooClient, model: string, updates: seq<Entry>) returns (report: BatchReport)
    modifies client, client.server
    ensures updates == [] ==>
      report == BatchReport(false, Some(NoRecordsMessage), 0, 0, []) && unchanged(client, client.server)
    ensures updates != [] ==>
      var es := Normalized(model, updates);
      var gs := GroupsOf(es);
      var n := |old(client.calls)|;
      && |client.calls| == n + |gs| && client.calls[..n] == old(client.calls)
      && (forall i :: 0 <= i < |gs| ==> IsWriteOf(client.calls[n + i], model, gs[i]))
      && report == BulkReport(Rejections(es), gs, Outcomes(client.calls[n..]))
  {
    if updates == [] {
      return BatchReport(false, Some(NoRecordsMessage), 0, 0, []);
    }
    var normalized := NormalizeUpdates(updates, model);
    assert normalized == Normalized(model, updates);
    var groups, rejected := GroupUpdates(normalized);
    var counts := WriteBatches(client, model, groups, Counts(0, |rejected|, rejected));
    report := BatchReport(counts.failed == 0, None, counts.updated, counts.failed, counts.errors);
  }

  /**
   * The report of a single write of all `ids`: every id updated when the
   * result is exactly `true`, otherwise every id failed with one error.
   */
  function SingleWriteReport(ids: seq<Json>, outcome: Result<Json>): (r: BatchReport)
    ensures r.updated + r.failed == |ids| && r.message.None?
    ensures r.success <==> Accepted(outcome)
    ensures r.success ==> r.updated == |ids| && r.errors == []
    ensures !r.success ==> r.failed == |ids| && r.errors == [WriteError(ids, outcome)]
  {
    if Accepted(outcome) then BatchReport(true, None, |ids|, 0, [])
    else BatchReport(false, None, 0, |ids|, [WriteError(ids, outcome)])
  }

  /**
   * `update_stock_pickings`: no fields or no ids is refused without a call;
   * otherwise one stock.picking write of all the ids.
   */
  method UpdateStockPickings(client: OdooClient, fieldUpdates: map<string, Json>, pickingIds: seq<Json>)
    returns (report: BatchReport)
    modifies client, client.server
    ensures fieldUpdates == map[] ==>
      report == BatchReport(false, Some(NoFieldsMessage), 0, 0, []) && unchanged(client, client.server)
    ensures fieldUpdates != map[] && pickingIds == [] ==>
      report == BatchReport(false, Some(NoPickingIdsMessage), 0, 0, []) && unchanged(client, client.server)
    ensures fieldUpdates != map[] && pickingIds != [] ==>
      var n := |old(client.calls)|;
      && |client.calls| == n + 1 && client.calls[..n] == old(client.calls)
      && IsWriteOf(client.calls[n], StockPicking, Group(fieldUpdates, pickingIds))
      && report == SingleWriteReport(pickingIds, client.calls[n].outcome)
  {
    if fieldUpdates == map[] {
      return BatchReport(false, Some(NoFieldsMessage), 0, 0, []);
    }
    if pickingIds == [] {
      return BatchReport(false, Some(NoPickingIdsMessage), 0, 0, []);
    }
    var outcome := WriteBatch(client, StockPicking, Group(fieldUpdates, pickingIds));
    report := SingleWriteReport(pickingIds, outcome);
  }

  // ---- the configured vector ----

  /** The configured stock.move updates: ids 299986 and 299987, both setting quantity 99. */
  const ConfiguredUpdates: seq<Entry> :=
    [map["id" := JInt(299986), "quantity" := JInt(99)], map["id" := JInt(299987), "quantity" := JInt(99)]]

  /** Two writable entries with the same values form one batch of both ids, in order. */
  lemma SameValuesFormOneBatch(e0: Entry, e1: Entry)
    requires Writable(e0) && Writable(e1) && FieldsOf(e0) == FieldsOf(e1)
    ensures GroupsOf([e0, e1]) == [Group(FieldsOf(e0), [e0["id"], e1["id"]])]
    ensures Rejections([e0, e1]) == []
  {
    var es, v := [e0, e1], FieldsOf(e0);
    assert es[..1] == [e0] && [e0][..0] == [];
    assert FirstSeen([e0]) == [v];
    assert IdsWith([e0], v) == [e0["id"]];
    assert FirstSeen(es) == [v];
    assert IdsWith(es, v) == [e0["id"], e1["id"]];
    assert Rejections([e0]) == [];
  }

  /**
   * The configured updates normalise to quantity and product_uom_qty 99 and
   * form a single batch of both ids, written with one call.
   */
  lemma ConfiguredUpdatesFormOneBatch()
    ensures GroupsOf(Normalized(StockMove, ConfiguredUpdates))
      == [Group(map["quantity" := JInt(99), "product_uom_qty" := JInt(99)], [JInt(299986), JInt(299987)])]
    ensures Rejections(Normalized(StockMove, ConfiguredUpdates)) == []
  {
    var e0 := map["id" := JInt(299986), "quantity" := JInt(99), "product_uom_qty" := JInt(99)];
    var e1 := map["id" := JInt(299987), "quantity" := JInt(99), "product_uom_qty" := JInt(99)];
    var v := map["quantity" := JInt(99), "product_uom_qty" := JInt(99)];
    assert Normalized(StockMove, ConfiguredUpdates) == [e0, e1];
    assert FieldsOf(e0) == v;
    assert FieldsOf(e1) == v;
    SameValuesFormOneBatch(e0, e1);
  }
}
