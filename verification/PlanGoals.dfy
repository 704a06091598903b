/**
 * What a plan of scripts/telnyx_reconcile.py is after: for each record it manages, the fields that
 * record must have. A run establishes every goal as long as no two goals contradict each other.
 */
module PlanGoals {
  import opened Wrappers
  import opened TelnyxAccount
  import opened Reconciler
  import opened PlanExecution
  import opened PlanValidity
  import opened PlanCore

  datatype Goal = Goal(family: Family, id: Id, want: Body, flat: bool)

  predicate Met(a: Account, g: Goal) {
    Find(Rows(a, g.family), g.id).Some? && forall k :: k in g.want ==> Holds(a, g.family, g.id, k, g.want[k], g.flat)
  }

  predicate Compatible(g: Goal, h: Goal) {
    g.family == h.family && g.id == h.id ==> forall k :: k in g.want && k in h.want ==> g.want[k] == h.want[k]
  }

  /** No two rows of the desired file want different things of one record. */
  ghost predicate Consistent(gs: seq<Goal>) { forall g, h :: g in gs && h in gs ==> Compatible(g, h) }

  /** What a patch writes, a goal wants. */
  predicate Covers(g: Goal, op: Op) {
    g.family == op.family && g.id == op.id && forall k :: k in op.body ==> k in g.want && g.want[k] == op.body[k]
  }

  ghost predicate AllCovered(ops: seq<Op>, gs: seq<Goal>) {
    forall op :: op in ops && op.PatchOp? ==> exists g :: g in gs && Covers(g, op)
  }

  /** Each field a goal wants is right from the start, or written by some operation. */
  ghost predicate Planned(a: Account, ops: seq<Op>, g: Goal) {
    forall k :: k in g.want ==>
      || Holds(a, g.family, g.id, k, g.want[k], g.flat)
      || exists op :: op in ops && Writes(op, g.family, g.id, k)
  }

  lemma AllAgree(ops: seq<Op>, gs: seq<Goal>, g: Goal, k: Field)
    requires AllTame(ops) && AllCovered(ops, gs) && Consistent(gs) && g in gs && k in g.want
    ensures forall i :: 0 <= i < |ops| ==> Agrees(ops[i], g.family, g.id, k, g.want[k])
  {
    forall i | 0 <= i < |ops| ensures Agrees(ops[i], g.family, g.id, k, g.want[k]) {
      var op := ops[i];
      assert Tame(op) && op in ops;
      if op.PatchOp? {
        var h :| h in gs && Covers(h, op);
        assert Compatible(g, h);
      }
    }
  }

  /** A goal about a record that was there is met after the run. */
  lemma GoalArrives(a: Account, ops: seq<Op>, gs: seq<Goal>, g: Goal)
    requires AllTame(ops) && AllCovered(ops, gs) && Consistent(gs) && g in gs
    requires RunOps(a, ops).Some? && Find(Rows(a, g.family), g.id).Some? && Planned(a, ops, g)
    ensures Met(RunOps(a, ops).value, g)
  {
    RecordsStay(a, ops, g.family, g.id);
    forall k | k in g.want ensures Holds(RunOps(a, ops).value, g.family, g.id, k, g.want[k], g.flat) {
      AllAgree(ops, gs, g, k);
      if !Holds(a, g.family, g.id, k, g.want[k], g.flat) {
        var op :| op in ops && Writes(op, g.family, g.id, k);
        var i :| 0 <= i < |ops| && ops[i] == op;
      }
      FieldArrives(a, ops, g.family, g.id, k, g.want[k], g.flat);
    }
  }

  lemma {:induction false} StillAbsent(a: Account, ops: seq<Op>, f: Family, id: Id)
    requires RunOps(a, ops).Some? && Find(Rows(a, f), id).None?
    requires forall op :: op in ops && op.PostOp? ==> op.family != f
    ensures Find(Rows(RunOps(a, ops).value, f), id).None?
    decreases |ops|
  {
    if ops != [] {
      FindAfter(a, ops[0], f, id);
      StillAbsent(Perform(a, ops[0]), ops[1..], f, id);
    }
  }

  /** A goal about a record the run creates: what it is not created with, a later operation writes. */
  lemma CreatedGoalArrives(a: Account, x: seq<Op>, post: Op, y: seq<Op>, gs: seq<Goal>, g: Goal)
    requires AllTame(x + [post] + y) && AllCovered(x + [post] + y, gs) && Consistent(gs) && g in gs
    requires RunOps(a, x + [post] + y).Some? && Find(Rows(a, g.family), g.id).None?
    requires post == PostOp(g.family, g.id, post.body) && forall op :: op in x && op.PostOp? ==> op.family != g.family
    requires forall k :: k in g.want ==>
               Get(Record(g.id, post.body), k, g.flat) == Some(g.want[k])
                   || exists op :: op in y && Writes(op, g.family, g.id, k)
    ensures Met(RunOps(a, x + [post] + y).value, g)
  {
    RunConcat(a, x + [post], y);
    RunConcat(a, x, [post]);
    var b := RunOps(a, x).value;
    StillAbsent(a, x, g.family, g.id);
    OneOp(b, post);
    var c := Perform(b, post);
    FindAfter(b, post, g.family, g.id);
    forall i | 0 <= i < |y| ensures Tame(y[i]) { assert (x + [post] + y)[|x| + 1 + i] == y[i]; }
    GoalArrives(c, y, gs, g);
  }

  /** A value nobody writes does not appear. */
  lemma {:induction false} NeverBecomes(a: Account, ops: seq<Op>, f: Family, id: Id, k: Field, v: Value)
    requires RunOps(a, ops).Some?
    requires Find(Rows(a, f), id).Some? ==> !Is(Find(Rows(a, f), id).value, k, v)
    requires forall op :: op in ops && op.family == f && op.id == id && k in op.body ==> op.body[k] != v
    ensures var r := Find(Rows(RunOps(a, ops).value, f), id); r.Some? ==> !Is(r.value, k, v)
    decreases |ops|
  {
    if ops != [] {
      FindAfter(a, ops[0], f, id);
      NeverBecomes(Perform(a, ops[0]), ops[1..], f, id, k, v);
    }
  }

  // ----- lookups after a run

  function IdOf(r: Option<Record>): Option<Id> {
    match r
    case None => None
    case Some(x) => Some(x.id)
  }

  function LookId(a: Account, f: Family, k: Field, v: Value, j: Field, w: Value): Option<Id> {
    IdOf(Lookup2(Rows(a, f), k, v, j, w))
  }

  predicate Introduces(op: Op, f: Family, k: Field, v: Value, j: Field, w: Value) {
    op.PostOp? && op.family == f && Is(Record(op.id, op.body), k, v) && Is(Record(op.id, op.body), j, w)
  }

  /** The first record of the run that would be found. */
  function FirstPost(ops: seq<Op>, f: Family, k: Field, v: Value, j: Field, w: Value): Option<Id> {
    if ops == [] then None
    else if Introduces(ops[0], f, k, v, j, w) then Some(ops[0].id)
    else FirstPost(ops[1..], f, k, v, j, w)
  }

  predicate LeavesAlone(op: Op, f: Family, k: Field, j: Field) {
    op.PatchOp? && op.family == f ==> k !in op.body && j !in op.body
  }

  function Else(x: Option<Id>, y: Option<Id>): Option<Id> { if x.Some? then x else y }

  lemma LookAfter(a: Account, op: Op, f: Family, k: Field, v: Value, j: Field, w: Value)
    requires LeavesAlone(op, f, k, j)
    ensures LookId(Perform(a, op), f, k, v, j, w)
         == Else(LookId(a, f, k, v, j, w), if Introduces(op, f, k, v, j, w) then Some(op.id) else None)
  {
    if op.family == f {
      if op.PatchOp? {
        LookupMerge(Rows(a, f), op.id, op.body, k, v, j, w);
      } else {
        LookupAppend(Rows(a, f), Record(op.id, op.body), k, v, j, w);
      }
    } else {
      assert Rows(Perform(a, op), f) == Rows(a, f);
    }
  }

  /** What was found is still found; otherwise the first fitting record of the run is. */
  lemma {:induction false} LooksAfter(a: Account, ops: seq<Op>, f: Family, k: Field, v: Value, j: Field, w: Value)
    requires RunOps(a, ops).Some? && forall op :: op in ops ==> LeavesAlone(op, f, k, j)
    ensures LookId(RunOps(a, ops).value, f, k, v, j, w) == Else(LookId(a, f, k, v, j, w), FirstPost(ops, f, k, v, j, w))
    decreases |ops|
  {
    if ops != [] {
      var b, rest := Perform(a, ops[0]), ops[1..];
      LookAfter(a, ops[0], f, k, v, j, w);
      assert RunOps(a, ops) == RunOps(b, rest);
      LooksAfter(b, rest, f, k, v, j, w);
    }
  }

  lemma {:induction false} FirstPostConcat(x: seq<Op>, y: seq<Op>, f: Family, k: Field, v: Value, j: Field, w: Value)
    ensures FirstPost(x + y, f, k, v, j, w) == Else(FirstPost(x, f, k, v, j, w), FirstPost(y, f, k, v, j, w))
    decreases |x|
  {
    if x == [] {
      assert x + y == y;
    } else {
      assert (x + y)[0] == x[0] && (x + y)[1..] == x[1..] + y;
      FirstPostConcat(x[1..], y, f, k, v, j, w);
    }
  }

  lemma {:induction false} NoPost(ops: seq<Op>, f: Family, k: Field, v: Value, j: Field, w: Value)
    requires forall op :: op in ops && op.PostOp? ==> op.family != f
    ensures FirstPost(ops, f, k, v, j, w) == None
    decreases |ops|
  {
    if ops != [] { NoPost(ops[1..], f, k, v, j, w); }
  }

  // ----- the goals of a plan

  function FqdnId(d: Desired, a: Account, ids: Minted): Id {
    match CoreFqdn(d, a)
    case None => ids.fqdn
    case Some(r) => r.id
  }

  function ProfileGoal(d: Desired, a: Account): Body {
    match CoreProfile(d, a)
    case None => map[Webhook := S(d.webhook), Mms := B(d.mms)]
    case Some(r) => ProfileWant(d, r)
  }

  function CoreGoals(d: Desired, a: Account, ids: Minted, number: Record): seq<Goal> {
    var e := EnvOf(d, a, ids);
    [Goal(Connections, e.connection, ConnectionWant(d) + OutboundWant(d), false),
     Goal(Fqdns, FqdnId(d, a, ids), map[Port := N(d.fqdnPort)], false),
     Goal(Numbers, number.id, map[ConnId := S(e.connection)], false),
     Goal(Numbers, number.id, map[ProfileId := S(e.profile)], false),
     Goal(Profiles, e.profile, ProfileGoal(d, a), false),
     Goal(Profiles, e.profile, ExtrasWant(d), false)]
  }

  function RowGoal(row: Row, e: Env): Goal
    requires row.Managed?
  {
    Goal(row.family, row.record.id, ResBody(row.want, e), row.flat)
  }

  function RowGoals(rows: seq<Row>, e: Env): seq<Goal> {
    if rows == [] then [] else (if rows[0].Managed? then [RowGoal(rows[0], e)] else []) + RowGoals(rows[1..], e)
  }

  function Goals(d: Desired, a: Account, ids: Minted, number: Record): seq<Goal> {
    CoreGoals(d, a, ids, number) + RowGoals(AllRows(d, a), EnvOf(d, a, ids))
  }

  lemma {:induction false} RowGoalsOf(rows: seq<Row>, e: Env)
    ensures forall g ::
              g in RowGoals(rows, e)
              <==> exists i :: 0 <= i < |rows| && rows[i].Managed? && g == RowGoal(rows[i], e)
    decreases |rows|
  {
    if rows != [] {
      var rest := rows[1..];
      RowGoalsOf(rest, e);
      assert forall i :: 0 <= i < |rest| ==> rest[i] == rows[i + 1];
      forall g ensures g in RowGoals(rows, e)
          <==> exists i :: 0 <= i < |rows| && rows[i].Managed? && g == RowGoal(rows[i], e) {
        if i :| 0 <= i < |rows| && rows[i].Managed? && g == RowGoal(rows[i], e) {
          if i > 0 { assert rest[i - 1].Managed? && g == RowGoal(rest[i - 1], e); }
        }
      }
    }
  }
}
