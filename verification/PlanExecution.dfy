/**
 * Running a reconciler plan call by call (scripts/telnyx_reconcile.py): once it is known which ids
 * the placeholders stand for, a plan is a list of server operations, and a list that never patches
 * what is not there yet, nor attaches a voice profile before an authentication method, is accepted.
 */
module PlanExecution {
  import opened Wrappers
  import opened TelnyxAccount
  import opened Reconciler

  /** What the two placeholders stand for in a run, and the fields a profile created in it gets. */
  datatype Env = Env(connection: Id, profile: Id, created: Body)

  /** Whether the core profile exists before the run, not yet, or since a call of the run. */
  datatype Stage = Absent | Existing | Created

  function Res(v: Value, e: Env): Value {
    match v
    case TheConnection => S(e.connection)
    case TheProfile => S(e.profile)
    case _ => v
  }

  function ResBody(b: Body, e: Env): Body { map k | k in b :: Res(b[k], e) }

  function OpsOf(call: Call, e: Env, ids: Minted): seq<Op> {
    match call
    case Post(f, b) => [PostOp(f, IdFor(ids, f), ResBody(b, e))]
    case Patch(f, t, b) =>
      [PatchOp(f, (match t case Known(id) => id case Connection => e.connection case Profile => e.profile),
               ResBody(b, e))]
    case ExtrasOnCreated(want) =>
      var b := Drift(Record(e.profile, e.created), want, false);
      if b == map[] then [] else [PatchOp(Profiles, e.profile, b)]
  }

  function Ops(calls: seq<Call>, e: Env, ids: Minted): seq<Op> {
    if calls == [] then [] else OpsOf(calls[0], e, ids) + Ops(calls[1..], e, ids)
  }

  // ----- no placeholder is used before it stands for something

  predicate BodyBound(b: Body, conn: bool, st: Stage) {
    forall k :: k in b ==> (b[k] == TheConnection ==> conn) && (b[k] == TheProfile ==> st != Absent)
  }

  predicate CallBound(call: Call, conn: bool, st: Stage, e: Env) {
    match call
    case Post(f, b) =>
      BodyBound(b, conn, st) && (f == Connections ==> !conn)
          && (f == Profiles ==> st == Absent && ResBody(b, e) == e.created)
    case Patch(f, t, b) =>
      BodyBound(b, conn, st) && (t == Connection ==> conn) && (t == Profile ==> st != Absent)
    case ExtrasOnCreated(_) => st == Created
  }

  function StageAfter(call: Call, st: Stage): Stage { if call.Post? && call.family == Profiles then Created else st }

  predicate PostsConnection(call: Call) { call.Post? && call.family == Connections }

  predicate Bound(calls: seq<Call>, conn: bool, st: Stage, e: Env)
    decreases |calls|
  {
    calls == [] || (CallBound(calls[0], conn, st, e)
                    && Bound(calls[1..], conn || PostsConnection(calls[0]), StageAfter(calls[0], st), e))
  }

  function ConnAfter(calls: seq<Call>, conn: bool): bool {
    if calls == [] then conn else ConnAfter(calls[1..], conn || PostsConnection(calls[0]))
  }

  function StagesAfter(calls: seq<Call>, st: Stage): Stage {
    if calls == [] then st else StagesAfter(calls[1..], StageAfter(calls[0], st))
  }

  lemma {:induction false} BoundConcat(x: seq<Call>, y: seq<Call>, conn: bool, st: Stage, e: Env)
    requires Bound(x, conn, st, e) && Bound(y, ConnAfter(x, conn), StagesAfter(x, st), e)
    ensures Bound(x + y, conn, st, e)
    ensures ConnAfter(x + y, conn) == ConnAfter(y, ConnAfter(x, conn))
    ensures StagesAfter(x + y, st) == StagesAfter(y, StagesAfter(x, st))
    decreases |x|
  {
    if x == [] {
      assert x + y == y;
    } else {
      assert (x + y)[0] == x[0] && (x + y)[1..] == x[1..] + y;
      BoundConcat(x[1..], y, conn || PostsConnection(x[0]), StageAfter(x[0], st), e);
    }
  }

  lemma {:induction false} OpsConcat(x: seq<Call>, y: seq<Call>, e: Env, ids: Minted)
    ensures Ops(x + y, e, ids) == Ops(x, e, ids) + Ops(y, e, ids)
    decreases |x|
  {
    if x == [] {
      assert x + y == y;
    } else {
      assert (x + y)[0] == x[0] && (x + y)[1..] == x[1..] + y;
      OpsConcat(x[1..], y, e, ids);
    }
  }

  /** The run knows what the static reading knows. */
  predicate Matches(l: Live, conn: bool, st: Stage, e: Env, ids: Minted) {
    && (if conn then l.connection == Some(e.connection) else l.connection == None && ids.connection == e.connection)
    && match st
       case Absent => l.profile == None && ids.profile == e.profile
       case Existing => l.profile.Some? && l.profile.value.id == e.profile
       case Created => l.profile == Some(Record(e.profile, e.created))
  }

  lemma BindsTo(b: Body, l: Live, conn: bool, st: Stage, e: Env, ids: Minted)
    requires Matches(l, conn, st, e, ids) && BodyBound(b, conn, st)
    ensures Bind(b, l) == Some(ResBody(b, e))
  {
    assert forall k :: k in b ==> BindValue(b[k], l) == Some(Res(b[k], e));
    assert Bind(b, l).Some?;
    var bound := Bind(b, l).value;
    assert bound.Keys == b.Keys == ResBody(b, e).Keys;
    assert forall k :: k in b ==> bound[k] == ResBody(b, e)[k];
    assert bound == ResBody(b, e);
  }

  lemma CallRuns(call: Call, l: Live, conn: bool, st: Stage, e: Env, ids: Minted)
    requires Matches(l, conn, st, e, ids) && CallBound(call, conn, st, e)
    ensures match Execute(call, l, ids)
            case None => RunOps(l.account, OpsOf(call, e, ids)) == None
            case Some(m) =>
              RunOps(l.account, OpsOf(call, e, ids)) == Some(m.account)
              && Matches(m, conn || PostsConnection(call), StageAfter(call, st), e, ids)
  {
    match call
    case Post(f, b) =>
      BindsTo(b, l, conn, st, e, ids);
      OneOp(l.account, OpsOf(call, e, ids)[0]);
    case Patch(f, t, b) =>
      BindsTo(b, l, conn, st, e, ids);
      OneOp(l.account, OpsOf(call, e, ids)[0]);
    case ExtrasOnCreated(want) =>
      if OpsOf(call, e, ids) != [] { OneOp(l.account, OpsOf(call, e, ids)[0]); }
  }

  lemma OneOp(a: Account, op: Op)
    ensures RunOps(a, [op]) == if Accepts(a, op) then Some(Perform(a, op)) else None
  {
    assert [op][1..] == [];
  }

  /** Executing a plan is running its operations. */
  lemma {:induction false} PlanRuns(calls: seq<Call>, l: Live, conn: bool, st: Stage, e: Env, ids: Minted)
    requires Matches(l, conn, st, e, ids) && Bound(calls, conn, st, e)
    ensures match ExecuteAll(calls, l, ids)
            case None => RunOps(l.account, Ops(calls, e, ids)) == None
            case Some(m) => RunOps(l.account, Ops(calls, e, ids)) == Some(m.account)
    decreases |calls|
  {
    if calls != [] {
      CallRuns(calls[0], l, conn, st, e, ids);
      RunConcat(l.account, OpsOf(calls[0], e, ids), Ops(calls[1..], e, ids));
      match Execute(calls[0], l, ids)
      case None =>
      case Some(m) => PlanRuns(calls[1..], m, conn || PostsConnection(calls[0]), StageAfter(calls[0], st), e, ids);
    }
  }

  // ----- no call is refused

  predicate Clean(b: Body) { forall k :: k in b ==> b[k] != TheConnection && b[k] != TheProfile }

  const LOOKED_UP: set<Field> := {Kind, ConnName, FqdnName, PhoneNumber, Name, FriendlyName, FlatOvp}

  /** The fields records are looked up by are never patched, and no placeholder reaches the server. */
  predicate Tame(op: Op) {
    Clean(op.body) && (op.PatchOp? ==> op.body.Keys !! LOOKED_UP)
  }

  /** `op` will be accepted after the operations `seen`, all of them run on `a`. */
  ghost predicate Just(a: Account, seen: seq<Op>, op: Op) {
    && Tame(op)
    && (op.PatchOp? ==>
          var r := Find(Rows(a, op.family), op.id);
          && (r.Some? || exists s :: s in seen && s.PostOp? && s.family == op.family && s.id == op.id)
          && (op.family == Connections && Ovp in op.body ==>
                || (r.Some? && (!Is(r.value, Kind, FQDN_KIND) || Auth in r.value.fields))
                || exists s :: s in seen && s.PatchOp? && s.family == op.family && s.id == op.id && Auth in s.body))
  }

  ghost predicate AllJust(a: Account, seen: seq<Op>, ops: seq<Op>)
    decreases |ops|
  {
    ops == [] || (Just(a, seen, ops[0]) && AllJust(a, seen + [ops[0]], ops[1..]))
  }

  lemma {:induction false} JustConcat(a: Account, seen: seq<Op>, x: seq<Op>, y: seq<Op>)
    requires AllJust(a, seen, x) && AllJust(a, seen + x, y)
    ensures AllJust(a, seen, x + y)
    decreases |x|
  {
    if x == [] {
      assert x + y == y && seen + x == seen;
    } else {
      assert (x + y)[0] == x[0] && (x + y)[1..] == x[1..] + y;
      assert seen + x == (seen + [x[0]]) + x[1..];
      JustConcat(a, seen + [x[0]], x[1..], y);
    }
  }

  /** Operations justified by what is there already are justified after anything else too. */
  lemma {:induction false} JustAnyway(a: Account, seen: seq<Op>, ops: seq<Op>)
    requires forall op :: op in ops ==> Just(a, seen, op)
    ensures AllJust(a, seen, ops)
    decreases |ops|
  {
    if ops != [] {
      var more := seen + [ops[0]];
      assert forall s :: s in seen ==> s in more;
      forall op | op in ops[1..] ensures Just(a, more, op) { assert Just(a, seen, op); }
      JustAnyway(a, more, ops[1..]);
    }
  }

  predicate AllTame(ops: seq<Op>) { forall i :: 0 <= i < |ops| ==> Tame(ops[i]) }

  lemma {:induction false} JustIsTame(a: Account, seen: seq<Op>, ops: seq<Op>)
    requires AllJust(a, seen, ops)
    ensures AllTame(ops)
    decreases |ops|
  {
    if ops != [] {
      JustIsTame(a, seen + [ops[0]], ops[1..]);
      assert forall i :: 1 <= i < |ops| ==> ops[i] == ops[1..][i - 1];
    }
  }

  /** What a call of the run posted or authenticated is there afterwards. */
  lemma {:induction false} EarlierCallCounts(a: Account, seen: seq<Op>, s: Op)
    requires AllTame(seen) && RunOps(a, seen).Some? && s in seen
    ensures var r := Find(Rows(RunOps(a, seen).value, s.family), s.id);
            r.Some? && (s.PatchOp? && Auth in s.body ==> Auth in r.value.fields)
    decreases |seen|
  {
    var b := Perform(a, seen[0]);
    var rest := seen[1..];
    assert forall i :: 0 <= i < |rest| ==> rest[i] == seen[i + 1];
    if s == seen[0] {
      FindAfter(a, s, s.family, s.id);
      RecordsStay(b, rest, s.family, s.id);
    } else {
      assert s in rest;
      EarlierCallCounts(b, rest, s);
    }
  }

  lemma JustAccepted(a: Account, seen: seq<Op>, op: Op)
    requires AllTame(seen) && RunOps(a, seen).Some? && Just(a, seen, op)
    ensures Accepts(RunOps(a, seen).value, op)
  {
    if op.PatchOp? {
      if Find(Rows(a, op.family), op.id).Some? {
        RecordsStay(a, seen, op.family, op.id);
      }
      forall s | s in seen && s.family == op.family && s.id == op.id
        ensures var r := Find(Rows(RunOps(a, seen).value, s.family), s.id);
                r.Some? && (s.PatchOp? && Auth in s.body ==> Auth in r.value.fields)
      {
        EarlierCallCounts(a, seen, s);
      }
    }
  }

  lemma {:induction false} JustRuns(a: Account, seen: seq<Op>, ops: seq<Op>)
    requires AllTame(seen) && RunOps(a, seen).Some? && AllJust(a, seen, ops)
    ensures RunOps(RunOps(a, seen).value, ops).Some?
    decreases |ops|
  {
    if ops != [] {
      var b := RunOps(a, seen).value;
      JustAccepted(a, seen, ops[0]);
      RunConcat(a, seen, [ops[0]]);
      OneOp(b, ops[0]);
      JustRuns(a, seen + [ops[0]], ops[1..]);
    }
  }
}
