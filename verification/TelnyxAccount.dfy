/**
 * A Telnyx account as scripts/telnyx_reconcile.py sees it: families of JSON records, PATCH calls
 * that merge a body into one record, POST calls that add one. The nested `outbound` object is
 * spelled out in its two fields, Auth and Ovp.
 */
module TelnyxAccount {
  import opened Wrappers

  type Id = string

  datatype Family =
    | Connections | Fqdns | Numbers | Profiles | WhatsApp
    | Assistants | Applications | VoiceProfiles | TexmlApps | Voices

  datatype Field =
    | Kind | ConnName | Transport | Active | Auth | Ovp | FlatOvp
    | FqdnName | Port | DnsType | ConnId
    | PhoneNumber | ProfileId
    | Name | Webhook | WebhookVersion | Enabled | Mms | Destinations | AlphaSender
    | Model | FriendlyName | WebhookEvent
    | RecEnabled | RecChannels | RecFormat

  /** TheConnection and TheProfile stand for ids an apply closure looks up when it runs. */
  datatype Value = S(s: string) | B(b: bool) | N(n: int) | Names(names: set<string>) | TheConnection | TheProfile

  type Body = map<Field, Value>

  datatype Record = Record(id: Id, fields: Body)

  type Account = map<Family, seq<Record>>

  function Rows(a: Account, f: Family): seq<Record> {
    if f in a then a[f] else []
  }

  predicate Is(r: Record, k: Field, v: Value) { k in r.fields && r.fields[k] == v }

  /** Python's next((record for record in records if ...), None), with a condition on two fields. */
  function Lookup2(rs: seq<Record>, k: Field, v: Value, j: Field, w: Value): Option<Record> {
    if rs == [] then None
    else if Is(rs[0], k, v) && Is(rs[0], j, w) then Some(rs[0])
    else Lookup2(rs[1..], k, v, j, w)
  }

  function Lookup(rs: seq<Record>, k: Field, v: Value): Option<Record> { Lookup2(rs, k, v, k, v) }

  function Find(rs: seq<Record>, id: Id): (r: Option<Record>)
    ensures r.Some? ==> r.value.id == id && r.value in rs
  {
    if rs == [] then None else if rs[0].id == id then Some(rs[0]) else Find(rs[1..], id)
  }

  predicate Unique(rs: seq<Record>) { forall i, j :: 0 <= i < j < |rs| ==> rs[i].id != rs[j].id }

  // ----- the server

  function Merged(r: Record, id: Id, body: Body): Record {
    if r.id == id then r.(fields := r.fields + body) else r
  }

  function Merge(rs: seq<Record>, id: Id, body: Body): seq<Record> {
    if rs == [] then [] else [Merged(rs[0], id, body)] + Merge(rs[1..], id, body)
  }

  datatype Op = PatchOp(family: Family, id: Id, body: Body) | PostOp(family: Family, id: Id, body: Body)

  /** 404 for an unknown id; 422 for a voice profile on an inbound connection that has no authentication method yet. */
  predicate Accepts(a: Account, op: Op) {
    op.PatchOp? ==>
      var r := Find(Rows(a, op.family), op.id);
      r.Some? && (op.family == Connections && Ovp in op.body && Is(r.value, Kind, S("fqdn_connection")) ==>
                  Auth in r.value.fields)
  }

  function Perform(a: Account, op: Op): Account {
    match op
    case PatchOp(f, id, body) => a[f := Merge(Rows(a, f), id, body)]
    case PostOp(f, id, body) => a[f := Rows(a, f) + [Record(id, body)]]
  }

  /** None when some call is refused. */
  function RunOps(a: Account, ops: seq<Op>): Option<Account>
    decreases |ops|
  {
    if ops == [] then Some(a)
    else if !Accepts(a, ops[0]) then None
    else RunOps(Perform(a, ops[0]), ops[1..])
  }

  // ----- reading a field the way the planner does

  /**
   * An absent destination list counts as empty. With `flat`, an absent nested voice profile
   * falls back on the flat field of the summary view.
   */
  function Get(r: Record, k: Field, flat: bool): Option<Value> {
    if k in r.fields then Some(r.fields[k])
    else if k == Destinations then Some(Names({}))
    else if flat && k == Ovp && FlatOvp in r.fields then Some(r.fields[FlatOvp])
    else None
  }

  /** The entries of `want` the record does not have yet. */
  function Drift(r: Record, want: Body, flat: bool): (body: Body) {
    map k | k in want && Get(r, k, flat) != Some(want[k]) :: want[k]
  }

  predicate Holds(a: Account, f: Family, id: Id, k: Field, v: Value, flat: bool) {
    var r := Find(Rows(a, f), id);
    r.Some? && Get(r.value, k, flat) == Some(v)
  }

  // ----- lookups and patches

  lemma {:induction false} FindMerge(rs: seq<Record>, id: Id, body: Body, j: Id)
    ensures Find(Merge(rs, id, body), j)
         == MergedFound(Find(rs, j), id, body)
    decreases |rs|
  {
    if rs != [] { FindMerge(rs[1..], id, body, j); }
  }

  lemma {:induction false} FindAppend(rs: seq<Record>, r: Record, j: Id)
    ensures Find(rs + [r], j) == if Find(rs, j).Some? then Find(rs, j) else if r.id == j then Some(r) else None
    decreases |rs|
  {
    if rs == [] {
      assert rs + [r] == [r] && [r][1..] == [];
    } else {
      assert (rs + [r])[1..] == rs[1..] + [r];
      FindAppend(rs[1..], r, j);
    }
  }

  lemma {:induction false} LookupAppend(rs: seq<Record>, r: Record, k: Field, v: Value, j: Field, w: Value)
    ensures Lookup2(rs + [r], k, v, j, w)
         == if Lookup2(rs, k, v, j, w).Some? then Lookup2(rs, k, v, j, w)
            else if Is(r, k, v) && Is(r, j, w) then Some(r) else None
    decreases |rs|
  {
    if rs == [] {
      assert rs + [r] == [r] && [r][1..] == [];
    } else {
      assert (rs + [r])[1..] == rs[1..] + [r];
      LookupAppend(rs[1..], r, k, v, j, w);
    }
  }

  lemma {:induction false} LookupFinds(rs: seq<Record>, k: Field, v: Value, j: Field, w: Value)
    ensures var r := Lookup2(rs, k, v, j, w); r.Some? ==> r.value in rs && Is(r.value, k, v) && Is(r.value, j, w)
    decreases |rs|
  {
    if rs != [] { LookupFinds(rs[1..], k, v, j, w); }
  }

  /** With unique ids a record is found under its own id. */
  lemma {:induction false} FoundById(rs: seq<Record>, r: Record)
    requires Unique(rs) && r in rs
    ensures Find(rs, r.id) == Some(r)
    decreases |rs|
  {
    if rs[0] != r {
      assert r in rs[1..];
      FoundById(rs[1..], r);
    }
  }

  lemma LookupCons(r: Record, rs: seq<Record>, k: Field, v: Value, j: Field, w: Value)
    ensures Lookup2([r] + rs, k, v, j, w) == if Is(r, k, v) && Is(r, j, w) then Some(r) else Lookup2(rs, k, v, j, w)
  {
    assert ([r] + rs)[1..] == rs;
  }

  lemma IsMerged(r: Record, id: Id, body: Body, k: Field, v: Value)
    requires k !in body
    ensures Is(Merged(r, id, body), k, v) == Is(r, k, v)
  {
  }

  function MergedFound(found: Option<Record>, id: Id, body: Body): Option<Record> {
    match found
    case None => None
    case Some(r) => Some(Merged(r, id, body))
  }

  /** A patch that leaves the two fields alone does not change what is looked up by them. */
  lemma {:induction false} LookupMerge(rs: seq<Record>, id: Id, body: Body, k: Field, v: Value, j: Field, w: Value)
    requires k !in body && j !in body
    ensures Lookup2(Merge(rs, id, body), k, v, j, w) == MergedFound(Lookup2(rs, k, v, j, w), id, body)
    decreases |rs|
  {
    if rs != [] {
      var r, rest := rs[0], rs[1..];
      LookupMerge(rest, id, body, k, v, j, w);
      IsMerged(r, id, body, k, v);
      IsMerged(r, id, body, j, w);
      LookupCons(Merged(r, id, body), Merge(rest, id, body), k, v, j, w);
      assert Merge(rs, id, body) == [Merged(r, id, body)] + Merge(rest, id, body);
    }
  }

  lemma {:induction false} MergeShape(rs: seq<Record>, id: Id, body: Body)
    ensures |Merge(rs, id, body)| == |rs|
    ensures forall i :: 0 <= i < |rs| ==>
              Merge(rs, id, body)[i] == Merged(rs[i], id, body)
    decreases |rs|
  {
    if rs != [] {
      MergeShape(rs[1..], id, body);
      assert forall i :: 1 <= i < |rs| ==> rs[i] == rs[1..][i - 1];
    }
  }

  // ----- running calls

  lemma {:induction false} RunConcat(a: Account, x: seq<Op>, y: seq<Op>)
    ensures RunOps(a, x + y) == (match RunOps(a, x)
                                 case None => None
                                 case Some(b) => RunOps(b, y))
    decreases |x|
  {
    if x == [] {
      assert x + y == y;
    } else {
      assert (x + y)[1..] == x[1..] + y;
      if Accepts(a, x[0]) { RunConcat(Perform(a, x[0]), x[1..], y); }
    }
  }

  /** Record `id` after one call. */
  lemma FindAfter(a: Account, op: Op, f: Family, id: Id)
    ensures Find(Rows(Perform(a, op), f), id)
         == if op.family != f then Find(Rows(a, f), id)
            else match op
                 case PatchOp(_, j, body) =>
                   MergedFound(Find(Rows(a, f), id), j, body)
                 case PostOp(_, j, body) =>
                   if Find(Rows(a, f), id).Some? then Find(Rows(a, f), id)
                   else if id == j then Some(Record(j, body)) else None
  {
    match op
    case PatchOp(_, j, body) => FindMerge(Rows(a, op.family), j, body, id);
    case PostOp(_, j, body) => FindAppend(Rows(a, op.family), Record(j, body), id);
  }

  /** What a call writes to one field of one record, if anything, is `v`; nobody writes the flat voice profile. */
  predicate Agrees(op: Op, f: Family, id: Id, k: Field, v: Value) {
    op.PatchOp? ==> FlatOvp !in op.body && (op.family == f && op.id == id && k in op.body ==> op.body[k] == v)
  }

  predicate Writes(op: Op, f: Family, id: Id, k: Field) {
    op.PatchOp? && op.family == f && op.id == id && k in op.body
  }

  lemma FieldStep(a: Account, op: Op, f: Family, id: Id, k: Field, v: Value, flat: bool)
    requires Agrees(op, f, id, k, v) && Find(Rows(a, f), id).Some?
    ensures Find(Rows(Perform(a, op), f), id).Some?
    ensures Holds(a, f, id, k, v, flat) || Writes(op, f, id, k) ==> Holds(Perform(a, op), f, id, k, v, flat)
  {
    FindAfter(a, op, f, id);
    if op.PatchOp? && op.family == f { MergedField(Find(Rows(a, f), id).value, op.id, op.body, k, v, flat); }
  }

  lemma MergedField(r: Record, id: Id, body: Body, k: Field, v: Value, flat: bool)
    requires FlatOvp !in body && (r.id == id && k in body ==> body[k] == v)
    ensures Get(r, k, flat) == Some(v) || (r.id == id && k in body) ==> Get(Merged(r, id, body), k, flat) == Some(v)
  {
  }

  /** A field that is right stays right, and a call that writes it makes it right. */
  lemma {:induction false} FieldArrives(a: Account, ops: seq<Op>, f: Family, id: Id, k: Field, v: Value, flat: bool)
    requires forall i :: 0 <= i < |ops| ==> Agrees(ops[i], f, id, k, v)
    requires RunOps(a, ops).Some? && Find(Rows(a, f), id).Some?
    requires Holds(a, f, id, k, v, flat) || exists i :: 0 <= i < |ops| && Writes(ops[i], f, id, k)
    ensures Holds(RunOps(a, ops).value, f, id, k, v, flat)
    decreases |ops|
  {
    if ops != [] {
      FieldStep(a, ops[0], f, id, k, v, flat);
      var rest := ops[1..];
      assert forall i :: 0 <= i < |rest| ==> rest[i] == ops[i + 1];
      if !Holds(Perform(a, ops[0]), f, id, k, v, flat) {
        var i :| 0 <= i < |ops| && Writes(ops[i], f, id, k);
        assert Writes(rest[i - 1], f, id, k);
      }
      FieldArrives(Perform(a, ops[0]), rest, f, id, k, v, flat);
    }
  }

  /** Records that are there stay there, and keep their kind, their name and an authentication method. */
  lemma {:induction false} RecordsStay(a: Account, ops: seq<Op>, f: Family, id: Id)
    requires forall i :: 0 <= i < |ops| ==> ops[i].PatchOp? ==> Kind !in ops[i].body
    requires RunOps(a, ops).Some? && Find(Rows(a, f), id).Some?
    ensures var r, t := Find(Rows(a, f), id).value, Find(Rows(RunOps(a, ops).value, f), id);
            && t.Some? && (Auth in r.fields ==> Auth in t.value.fields)
            && (Kind in t.value.fields <==> Kind in r.fields)
            && (Kind in r.fields ==> t.value.fields[Kind] == r.fields[Kind])
    decreases |ops|
  {
    if ops != [] {
      FindAfter(a, ops[0], f, id);
      RecordsStay(Perform(a, ops[0]), ops[1..], f, id);
    }
  }

  /** Calls that would be accepted one by one are accepted one after the other. */
  lemma {:induction false} AcceptedTogether(a: Account, ops: seq<Op>)
    requires forall i :: 0 <= i < |ops| ==> Accepts(a, ops[i])
    requires forall i :: 0 <= i < |ops| ==> ops[i].PatchOp? ==> Kind !in ops[i].body
    ensures RunOps(a, ops).Some?
    decreases |ops|
  {
    if ops != [] {
      var b := Perform(a, ops[0]);
      forall i | 0 <= i < |ops[1..]| ensures Accepts(b, ops[1..][i]) {
        StillAccepts(a, [ops[0]], ops[i + 1]);
      }
      AcceptedTogether(b, ops[1..]);
    }
  }

  lemma StillAccepts(a: Account, ops: seq<Op>, op: Op)
    requires forall i :: 0 <= i < |ops| ==> ops[i].PatchOp? ==> Kind !in ops[i].body
    requires RunOps(a, ops).Some? && Accepts(a, op)
    ensures Accepts(RunOps(a, ops).value, op)
  {
    if op.PatchOp? { RecordsStay(a, ops, op.family, op.id); }
  }
}
