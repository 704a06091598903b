/** Every plan of scripts/telnyx_reconcile.py runs without a refusal and leaves a proper account behind. */
module PlanValidity {
  import opened Wrappers
  import opened TelnyxAccount
  import opened Reconciler
  import opened PlanExecution

  // ----- accounts

  /** Ids are unique in a family, and every number has its voice record. */
  ghost predicate Valid(a: Account) {
    && (forall f :: Unique(Rows(a, f)))
    && (forall f, r :: r in Rows(a, f) ==> Clean(r.fields))
    && (forall r :: r in Rows(a, Numbers) ==> Find(Rows(a, Voices), r.id).Some?)
  }

  /** The server hands out ids it does not use yet. */
  predicate Fresh(a: Account, ids: Minted) {
    && Find(Rows(a, Connections), ids.connection).None?
    && Find(Rows(a, Fqdns), ids.fqdn).None?
    && Find(Rows(a, Profiles), ids.profile).None?
  }

  /** Each of `families` gets at most one new record, under its minted id. */
  predicate PostsOnly(ops: seq<Op>, families: set<Family>, ids: Minted)
    decreases |ops|
  {
    ops == [] ||
    (if ops[0].PostOp?
     then ops[0].family in families && ops[0].id == IdFor(ids, ops[0].family)
          && PostsOnly(ops[1..], families - {ops[0].family}, ids)
     else PostsOnly(ops[1..], families, ids))
  }

  lemma {:induction false} PostsConcat(x: seq<Op>, y: seq<Op>, f: set<Family>, g: set<Family>, ids: Minted)
    requires PostsOnly(x, f, ids) && PostsOnly(y, g, ids) && f !! g
    ensures PostsOnly(x + y, f + g, ids)
    decreases |x|
  {
    if x == [] {
      assert x + y == y;
      PostsWider(y, g, f + g, ids);
    } else {
      assert (x + y)[0] == x[0] && (x + y)[1..] == x[1..] + y;
      if x[0].PostOp? {
        PostsConcat(x[1..], y, f - {x[0].family}, g, ids);
        assert (f - {x[0].family}) + g == (f + g) - {x[0].family};
      } else {
        PostsConcat(x[1..], y, f, g, ids);
      }
    }
  }

  lemma {:induction false} PostsWider(y: seq<Op>, g: set<Family>, h: set<Family>, ids: Minted)
    requires PostsOnly(y, g, ids) && g <= h
    ensures PostsOnly(y, h, ids)
    decreases |y|
  {
    if y != [] {
      if y[0].PostOp? { PostsWider(y[1..], g - {y[0].family}, h - {y[0].family}, ids); }
      else { PostsWider(y[1..], g, h, ids); }
    }
  }

  lemma {:induction false} PatchesOnly(ops: seq<Op>, ids: Minted)
    requires forall i :: 0 <= i < |ops| ==> ops[i].PatchOp?
    ensures PostsOnly(ops, {}, ids)
    decreases |ops|
  {
    if ops != [] {
      assert forall i :: 0 <= i < |ops[1..]| ==> ops[1..][i] == ops[i + 1];
      PatchesOnly(ops[1..], ids);
    }
  }

  lemma OpKeepsValid(a: Account, op: Op)
    requires Valid(a) && Tame(op)
    requires op.PostOp? ==> Find(Rows(a, op.family), op.id).None? && op.family !in {Numbers, Voices}
    ensures Valid(Perform(a, op))
  {
    var b := Perform(a, op);
    forall f ensures Unique(Rows(b, f)) && forall r :: r in Rows(b, f) ==> Clean(r.fields) {
      if f == op.family { RowsKeepValid(Rows(a, f), op); } else { assert Rows(b, f) == Rows(a, f); }
    }
    forall r | r in Rows(b, Numbers) ensures Find(Rows(b, Voices), r.id).Some? {
      FindAfter(a, op, Voices, r.id);
      NumbersKeepIds(a, op, r);
    }
  }

  lemma RowsKeepValid(rs: seq<Record>, op: Op)
    requires Unique(rs) && (forall r :: r in rs ==> Clean(r.fields)) && Clean(op.body)
    requires op.PostOp? ==> Find(rs, op.id).None?
    ensures var ts := if op.PatchOp? then Merge(rs, op.id, op.body) else rs + [Record(op.id, op.body)];
            Unique(ts) && forall r :: r in ts ==> Clean(r.fields)
  {
    if op.PatchOp? { MergeKeepsValid(rs, op.id, op.body); } else { NotFound(rs, op.id); }
  }

  lemma MergeKeepsValid(rs: seq<Record>, id: Id, body: Body)
    requires Unique(rs) && (forall r :: r in rs ==> Clean(r.fields)) && Clean(body)
    ensures Unique(Merge(rs, id, body)) && forall r :: r in Merge(rs, id, body) ==> Clean(r.fields)
  {
    MergeShape(rs, id, body);
    var ts := Merge(rs, id, body);
    assert forall i :: 0 <= i < |rs| ==> ts[i].id == rs[i].id;
    forall r | r in ts ensures Clean(r.fields) {
      var i :| 0 <= i < |ts| && r == ts[i];
      CleanMerged(rs[i], id, body);
    }
  }

  lemma CleanMerged(r: Record, id: Id, body: Body)
    requires Clean(r.fields) && Clean(body)
    ensures Clean(Merged(r, id, body).fields)
  {
  }

  lemma NumbersKeepIds(a: Account, op: Op, r: Record)
    requires r in Rows(Perform(a, op), Numbers) && (op.PostOp? ==> op.family != Numbers)
    ensures exists q :: q in Rows(a, Numbers) && q.id == r.id
  {
    var rs := Rows(a, Numbers);
    if op.family == Numbers {
      MergeShape(rs, op.id, op.body);
      var i :| 0 <= i < |rs| && Merge(rs, op.id, op.body)[i] == r;
      assert rs[i] in rs && rs[i].id == r.id;
    } else {
      assert r in rs;
    }
  }

  lemma {:induction false} NotFound(rs: seq<Record>, id: Id)
    requires Find(rs, id).None?
    ensures forall i :: 0 <= i < |rs| ==> rs[i].id != id
    decreases |rs|
  {
    if rs != [] {
      NotFound(rs[1..], id);
      assert forall i :: 1 <= i < |rs| ==> rs[i] == rs[1..][i - 1];
    }
  }

  lemma {:induction false} OpsKeepValid(a: Account, ops: seq<Op>, families: set<Family>, ids: Minted)
    requires Valid(a) && AllTame(ops) && RunOps(a, ops).Some?
    requires PostsOnly(ops, families, ids) && families !! {Numbers, Voices}
    requires forall f :: f in families ==> Find(Rows(a, f), IdFor(ids, f)).None?
    ensures Valid(RunOps(a, ops).value)
    decreases |ops|
  {
    if ops != [] {
      var b := Perform(a, ops[0]);
      OpKeepsValid(a, ops[0]);
      assert forall i :: 0 <= i < |ops[1..]| ==> ops[1..][i] == ops[i + 1];
      var rest := if ops[0].PostOp? then families - {ops[0].family} else families;
      forall f | f in rest ensures Find(Rows(b, f), IdFor(ids, f)).None? {
        FindAfter(a, ops[0], f, IdFor(ids, f));
      }
      OpsKeepValid(b, ops[1..], rest, ids);
    }
  }

  // ----- the rows of a plan

  function RowOp(row: Row, e: Env): Op
    requires row.Managed?
  {
    PatchOp(row.family, row.record.id, ResBody(Drift(row.record, row.want, row.flat), e))
  }

  predicate Drifts(row: Row) { row.Managed? && Drift(row.record, row.want, row.flat) != map[] }

  /** The operations of the row steps are the patches of the rows that drift. */
  lemma {:induction false} RowOps(rows: seq<Row>, e: Env, ids: Minted)
    ensures forall op ::
              op in Ops(Calls(RowSteps(rows)), e, ids)
              <==> exists i :: 0 <= i < |rows| && Drifts(rows[i]) && op == RowOp(rows[i], e)
    decreases |rows|
  {
    if rows != [] {
      var rest := rows[1..];
      RowOps(rest, e, ids);
      CallsConcat(RowStep(rows[0]), RowSteps(rest));
      OpsConcat(Calls(RowStep(rows[0])), Calls(RowSteps(rest)), e, ids);
      RowStepOps(rows[0], e, ids);
      assert forall i :: 0 <= i < |rest| ==> rest[i] == rows[i + 1];
      forall op ensures op in Ops(Calls(RowSteps(rows)), e, ids)
          <==> exists i :: 0 <= i < |rows| && Drifts(rows[i]) && op == RowOp(rows[i], e) {
        if i :| 0 <= i < |rows| && Drifts(rows[i]) && op == RowOp(rows[i], e) {
          if i > 0 { assert Drifts(rest[i - 1]) && op == RowOp(rest[i - 1], e); }
        }
      }
    }
  }

  lemma RowStepOps(row: Row, e: Env, ids: Minted)
    ensures Ops(Calls(RowStep(row)), e, ids) == if Drifts(row) then [RowOp(row, e)] else []
  {
    if Drifts(row) {
      var call := Patch(row.family, Known(row.record.id), Drift(row.record, row.want, row.flat));
      OneStep([call]);
      OneCall(call, e, ids);
    } else {
      assert Calls(RowStep(row)) == [] by {
        if row.Unresolved? { assert RowStep(row)[1..] == []; }
      }
    }
  }

  lemma OneStep(calls: seq<Call>)
    ensures Calls([Do(calls)]) == calls
  {
    assert [Do(calls)][1..] == [];
    assert calls + [] == calls;
  }

  lemma OneCall(call: Call, e: Env, ids: Minted)
    ensures Ops([call], e, ids) == OpsOf(call, e, ids)
  {
    assert [call][1..] == [];
    assert OpsOf(call, e, ids) + [] == OpsOf(call, e, ids);
  }

  /** A row may use the profile's placeholder once the profile has an id. */
  predicate RowBound(row: Row, st: Stage) { row.Managed? ==> BodyBound(row.want, false, st) }

  lemma {:induction false} RowsBound(rows: seq<Row>, conn: bool, st: Stage, e: Env)
    requires forall i :: 0 <= i < |rows| ==> RowBound(rows[i], st)
    ensures Bound(Calls(RowSteps(rows)), conn, st, e)
    decreases |rows|
  {
    if rows != [] {
      var rest := rows[1..];
      assert forall i :: 0 <= i < |rest| ==> rest[i] == rows[i + 1];
      RowsBound(rest, conn, st, e);
      CallsConcat(RowStep(rows[0]), RowSteps(rest));
      var x := Calls(RowStep(rows[0]));
      if Drifts(rows[0]) {
        var row := rows[0];
        var call := Patch(row.family, Known(row.record.id), Drift(row.record, row.want, row.flat));
        OneStep([call]);
        assert x == [call] && x[1..] == [];
      } else {
        assert x == [] by { if rows[0].Unresolved? { assert RowStep(rows[0])[1..] == []; } }
      }
      BoundConcat(x, Calls(RowSteps(rest)), conn, st, e);
    }
  }

  /** A resolved row names a record of the account, and wants nothing of the fields records are found by. */
  predicate RowOk(a: Account, row: Row) {
    row.Managed? ==>
      && Find(Rows(a, row.family), row.record.id) == Some(row.record)
      && row.family != Fqdns && row.family != Profiles && row.want.Keys !! LOOKED_UP
      && (row.family == Connections && Ovp in row.want ==> !Is(row.record, Kind, FQDN_KIND))
  }

  lemma ResClean(b: Body, e: Env)
    ensures Clean(ResBody(b, e)) && ResBody(b, e).Keys == b.Keys
  {
  }

  lemma RowJust(a: Account, seen: seq<Op>, row: Row, e: Env)
    requires RowOk(a, row) && row.Managed?
    ensures Just(a, seen, RowOp(row, e))
  {
    ResClean(Drift(row.record, row.want, row.flat), e);
  }

  lemma RowsJust(a: Account, seen: seq<Op>, rows: seq<Row>, e: Env, ids: Minted)
    requires forall i :: 0 <= i < |rows| ==> RowOk(a, rows[i])
    ensures AllJust(a, seen, Ops(Calls(RowSteps(rows)), e, ids))
    ensures PostsOnly(Ops(Calls(RowSteps(rows)), e, ids), {}, ids)
  {
    var ops := Ops(Calls(RowSteps(rows)), e, ids);
    RowOps(rows, e, ids);
    forall op | op in ops ensures Just(a, seen, op) && op.PatchOp? {
      var i :| 0 <= i < |rows| && Drifts(rows[i]) && op == RowOp(rows[i], e);
      RowJust(a, seen, rows[i], e);
    }
    JustAnyway(a, seen, ops);
    PatchesOnly(ops, ids);
  }

  // ----- the rows of the families are in order

  lemma LookedUp(a: Account, f: Family, k: Field, v: Value, j: Field, w: Value)
    requires Valid(a)
    ensures var r := Lookup2(Rows(a, f), k, v, j, w);
            r.Some? ==>
              Find(Rows(a, f), r.value.id) == r && Is(r.value, k, v) && Is(r.value, j, w) && Clean(r.value.fields)
  {
    LookupFinds(Rows(a, f), k, v, j, w);
    var r := Lookup2(Rows(a, f), k, v, j, w);
    if r.Some? { FoundById(Rows(a, f), r.value); }
  }

  lemma NumberRowOk(d: Desired, a: Account, pin: NumberPin)
    requires Valid(a)
    ensures RowOk(a, NumberRow(d, a, pin))
    ensures RowBound(NumberRow(d, a, pin), if CoreProfile(d, a).Some? then Existing else Created)
  {
    NumberRowPlaced(d, a, pin);
    NumberRowBound(d, a, pin);
  }

  lemma NumberRowPlaced(d: Desired, a: Account, pin: NumberPin)
    requires Valid(a)
    ensures RowOk(a, NumberRow(d, a, pin))
  {
    LookedUp(a, Numbers, PhoneNumber, S(pin.number), PhoneNumber, S(pin.number));
  }

  lemma NumberRowBound(d: Desired, a: Account, pin: NumberPin)
    ensures RowBound(NumberRow(d, a, pin), if CoreProfile(d, a).Some? then Existing else Created)
  {
  }

  lemma NamedRowsOk(a: Account, pin: NamedPin)
    requires Valid(a)
    ensures RowOk(a, AssistantRow(a, pin)) && RowOk(a, CredentialRow(a, pin)) && RowOk(a, TexmlRow(a, pin))
  {
    LookedUp(a, Assistants, Name, S(pin.name), Name, S(pin.name));
    LookedUp(a, Connections, Kind, CREDENTIAL_KIND, ConnName, S(pin.name));
    var assistant := AssistantNamed(a, pin.name);
    if assistant.Some? {
      var name := S(TexmlName(assistant.value.id));
      LookedUp(a, TexmlApps, FriendlyName, name, FriendlyName, name);
    }
  }

  lemma ListRowOk(a: Account, pin: ListPin)
    requires Valid(a)
    ensures RowOk(a, ListRow(a, pin))
  {
    LookedUp(a, VoiceProfiles, Name, S(pin.name), Name, S(pin.name));
  }

  lemma AppRowOk(a: Account, pin: AppPin)
    ensures RowOk(a, AppRow(a, pin)) && RowBound(AppRow(a, pin), Absent)
  {
    var row := AppRow(a, pin);
    if row.Managed? {
      assert row.want.Keys <= {Active, WebhookEvent, Ovp};
      assert forall k :: k in row.want ==> row.want[k].B? || row.want[k].S?;
    }
  }

  lemma RecordingRowOk(d: Desired, a: Account, number: Record)
    requires Valid(a) && RecordingValid(d) && d.recording.Some? && number in Rows(a, Numbers)
    ensures RowOk(a, RecordingRow(a, d.recording.value, number))
            && RowBound(RecordingRow(a, d.recording.value, number), Absent)
  {
    var w := d.recording.value;
    forall k | k in w ensures w[k] != TheConnection && w[k] != TheProfile {
      assert k in {RecEnabled, RecChannels, RecFormat};
    }
  }

  /** Everything the rest needs to know of the rows of a plan. */
  lemma AllRowsOk(d: Desired, a: Account)
    requires Valid(a) && RecordingValid(d)
    ensures forall i :: 0 <= i < |AllRows(d, a)| ==>
              RowOk(a, AllRows(d, a)[i]) && RowBound(AllRows(d, a)[i],
                                                     if CoreProfile(d, a).Some? then Existing else Created)
  {
    var st := if CoreProfile(d, a).Some? then Existing else Created;
    forall row | row in AllRows(d, a) ensures RowOk(a, row) && RowBound(row, st) {
      if row in NumberRows(d, a) { NumberLaneOk(d, a, row); }
      else if row in RecordingRows(d, a) { RecordingLaneOk(d, a, row); }
      else if row in AssistantRows(d, a) { AssistantLaneOk(d, a, row); }
      else if row in AppRows(d, a) { AppLaneOk(d, a, row); }
      else if row in ListRows(d, a) { ListLaneOk(d, a, row); }
      else if row in CredentialRows(d, a) { CredentialLaneOk(d, a, row); }
      else { TexmlLaneOk(d, a, row); }
    }
  }

  lemma NumberLaneOk(d: Desired, a: Account, row: Row)
    requires Valid(a) && row in NumberRows(d, a)
    ensures RowOk(a, row) && RowBound(row, if CoreProfile(d, a).Some? then Existing else Created)
  {
    var i :| 0 <= i < |d.numbers| && row == NumberRow(d, a, d.numbers[i]);
    NumberRowOk(d, a, d.numbers[i]);
  }

  lemma RecordingLaneOk(d: Desired, a: Account, row: Row)
    requires Valid(a) && RecordingValid(d) && row in RecordingRows(d, a)
    ensures RowOk(a, row) && RowBound(row, Absent)
  {
    var i :| 0 <= i < |Rows(a, Numbers)| && row == RecordingRow(a, d.recording.value, Rows(a, Numbers)[i]);
    RecordingRowOk(d, a, Rows(a, Numbers)[i]);
  }

  lemma AssistantLaneOk(d: Desired, a: Account, row: Row)
    requires Valid(a) && row in AssistantRows(d, a)
    ensures RowOk(a, row) && RowBound(row, Absent)
  {
    var i :| 0 <= i < |d.assistants| && row == AssistantRow(a, d.assistants[i]);
    NamedRowsOk(a, d.assistants[i]);
  }

  lemma AppLaneOk(d: Desired, a: Account, row: Row)
    requires Valid(a) && row in AppRows(d, a)
    ensures RowOk(a, row) && RowBound(row, Absent)
  {
    var i :| 0 <= i < |d.apps| && row == AppRow(a, d.apps[i]);
    AppRowOk(a, d.apps[i]);
  }

  lemma ListLaneOk(d: Desired, a: Account, row: Row)
    requires Valid(a) && row in ListRows(d, a)
    ensures RowOk(a, row) && RowBound(row, Absent)
  {
    var i :| 0 <= i < |d.ovpLists| && row == ListRow(a, d.ovpLists[i]);
    ListRowOk(a, d.ovpLists[i]);
  }

  lemma CredentialLaneOk(d: Desired, a: Account, row: Row)
    requires Valid(a) && row in CredentialRows(d, a)
    ensures RowOk(a, row) && RowBound(row, Absent)
  {
    var i :| 0 <= i < |d.credentialOvps| && row == CredentialRow(a, d.credentialOvps[i]);
    NamedRowsOk(a, d.credentialOvps[i]);
  }

  lemma TexmlLaneOk(d: Desired, a: Account, row: Row)
    requires Valid(a) && row in TexmlRows(d, a)
    ensures RowOk(a, row) && RowBound(row, Absent)
  {
    var i :| 0 <= i < |d.texmlOvps| && row == TexmlRow(a, d.texmlOvps[i]);
    NamedRowsOk(a, d.texmlOvps[i]);
  }
}
