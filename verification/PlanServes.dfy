/** Each section of a plan of scripts/telnyx_reconcile.py writes what its goals want, and nothing else. */
module PlanServes {
  import opened Wrappers
  import opened TelnyxAccount
  import opened Reconciler
  import opened PlanExecution
  import opened PlanValidity
  import opened PlanCore
  import opened PlanGoals

  /** The operations of a section patch only towards `g`, and bring it about. */
  ghost predicate Serves(a: Account, ops: seq<Op>, g: Goal) {
    (forall op :: op in ops ==> op.PatchOp? && Covers(g, op)) && Planned(a, ops, g)
  }

  lemma OptionalOps(f: Family, id: Id, b: Body, e: Env, ids: Minted)
    ensures Ops(Calls(if b != map[] then [Do([Patch(f, Known(id), b)])] else []), e, ids)
         == if b != map[] then [PatchOp(f, id, ResBody(b, e))] else []
  {
    if b != map[] {
      OneStep([Patch(f, Known(id), b)]);
      OneCall(Patch(f, Known(id), b), e, ids);
    }
  }

  function DriftOps(f: Family, r: Record, want: Body, flat: bool, e: Env): seq<Op> {
    var b := Drift(r, want, flat);
    if b != map[] then [PatchOp(f, r.id, ResBody(b, e))] else []
  }

  /** Patching exactly the drift serves the goal. */
  lemma DriftServes(a: Account, f: Family, r: Record, want: Body, flat: bool, e: Env)
    requires Find(Rows(a, f), r.id) == Some(r) && Clean(r.fields)
    ensures Serves(a, DriftOps(f, r, want, flat, e), Goal(f, r.id, ResBody(want, e), flat))
  {
    var b := Drift(r, want, flat);
    var g := Goal(f, r.id, ResBody(want, e), flat);
    var ops := DriftOps(f, r, want, flat, e);
    forall k | k in g.want ensures Holds(a, f, r.id, k, g.want[k], flat)
        || exists op :: op in ops && Writes(op, f, r.id, k) {
      if k in b {
        assert ops[0] in ops && Writes(ops[0], f, r.id, k);
      } else {
        GetClean(r, k, flat);
        assert Get(r, k, flat) == Some(want[k]);
      }
    }
  }

  lemma GetClean(r: Record, k: Field, flat: bool)
    requires Clean(r.fields)
    ensures Get(r, k, flat) != Some(TheConnection) && Get(r, k, flat) != Some(TheProfile)
  {
  }

  // ----- the connection

  function SentOps(c: Id, b: Body): seq<Op> { if b != map[] then [PatchOp(Connections, c, b)] else [] }

  function Only(b: Body, k: Field): Body { if k in b then map[k := b[k]] else map[] }

  lemma SentAlone(nested: Body, k: Field, e: Env, ids: Minted)
    requires Plain(nested)
    ensures Ops(if k in nested then [Patch(Connections, Connection, map[k := nested[k]])] else [], e, ids)
         == SentOps(e.connection, Only(nested, k))
  {
    if k in nested {
      var b := Only(nested, k);
      assert k in b && b != map[];
      OneCall(Patch(Connections, Connection, b), e, ids);
      ResPlain(b, e);
    }
  }

  lemma OutboundOps(nested: Body, e: Env, ids: Minted)
    requires nested.Keys <= {Auth, Ovp} && Plain(nested)
    ensures Ops(OutboundStep(nested).calls, e, ids) == SentOps(e.connection, Only(nested, Auth))
            + SentOps(e.connection, Only(nested, Ovp))
  {
    var x := if Auth in nested then [Patch(Connections, Connection, map[Auth := nested[Auth]])] else [];
    var y := if Ovp in nested then [Patch(Connections, Connection, map[Ovp := nested[Ovp]])] else [];
    OpsConcat(x, y, e, ids);
    SentAlone(nested, Auth, e, ids);
    SentAlone(nested, Ovp, e, ids);
  }

  /** Three patches that cover the drift of the two halves. */
  lemma SentServes(a: Account, r: Record, want: Body, out: Body, ops: seq<Op>)
    requires Find(Rows(a, Connections), r.id) == Some(r) && want.Keys !! out.Keys && out.Keys == {Auth, Ovp}
    requires var drift, nested := Drift(r, want, false), Drift(r, out, false);
             ops == SentOps(r.id, drift) + SentOps(r.id, Only(nested, Auth)) + SentOps(r.id, Only(nested, Ovp))
    ensures Serves(a, ops, Goal(Connections, r.id, want + out, false))
  {
    var g := Goal(Connections, r.id, want + out, false);
    var drift, nested := Drift(r, want, false), Drift(r, out, false);
    SentCovers(r.id, drift, g);
    SentCovers(r.id, Only(nested, Auth), g);
    SentCovers(r.id, Only(nested, Ovp), g);
    SentPlans(a, r, want, out, ops);
  }

  lemma SentPlans(a: Account, r: Record, want: Body, out: Body, ops: seq<Op>)
    requires Find(Rows(a, Connections), r.id) == Some(r) && want.Keys !! out.Keys && out.Keys == {Auth, Ovp}
    requires var drift, nested := Drift(r, want, false), Drift(r, out, false);
             ops == SentOps(r.id, drift) + SentOps(r.id, Only(nested, Auth)) + SentOps(r.id, Only(nested, Ovp))
    ensures Planned(a, ops, Goal(Connections, r.id, want + out, false))
  {
    var g := Goal(Connections, r.id, want + out, false);
    forall k | k in g.want ensures Holds(a, Connections, r.id, k, g.want[k], false)
        || exists op :: op in ops && Writes(op, Connections, r.id, k) {
      if k in out { SentField(a, r, out, Only(Drift(r, out, false), k), k, ops); } else {
        SentField(a, r, want, Drift(r, want, false), k, ops);
      }
    }
  }

  lemma SentField(a: Account, r: Record, want: Body, b: Body, k: Field, ops: seq<Op>)
    requires Find(Rows(a, Connections), r.id) == Some(r) && k in want && (k in Drift(r, want, false) ==> k in b)
    requires forall op :: op in SentOps(r.id, b) ==> op in ops
    ensures Holds(a, Connections, r.id, k, want[k], false) || exists op :: op in ops && Writes(op, Connections, r.id, k)
  {
    if k in Drift(r, want, false) { SentIn(r.id, b, k, ops); }
  }

  lemma SentCovers(c: Id, b: Body, g: Goal)
    requires g.family == Connections && g.id == c && forall k :: k in b ==> k in g.want && g.want[k] == b[k]
    ensures forall op :: op in SentOps(c, b) ==> op.PatchOp? && Covers(g, op)
  {
  }

  lemma SentIn(c: Id, b: Body, k: Field, ops: seq<Op>)
    requires k in b && forall op :: op in SentOps(c, b) ==> op in ops
    ensures exists op :: op in ops && Writes(op, Connections, c, k)
  {
    var op := PatchOp(Connections, c, b);
    assert b != map[];
    assert op in SentOps(c, b) && Writes(op, Connections, c, k);
  }

  lemma ConnectionServes(d: Desired, a: Account, r: Record, e: Env, ids: Minted)
    requires Valid(a) && CoreConnection(d, a) == Some(r) && e.connection == r.id
    ensures Serves(a, Ops(Calls(ConnectionSteps(d, a)), e, ids),
                   Goal(Connections, r.id, ConnectionWant(d) + OutboundWant(d), false))
  {
    LookedUp(a, Connections, Kind, FQDN_KIND, ConnName, S(d.connectionName));
    PlainDrifts(d, r);
    OldConnectionCalls(d, a, r);
    ConnectionCallsServe(a, r, ConnectionWant(d), OutboundWant(d), e, ids);
  }

  lemma ConnectionCallsServe(a: Account, r: Record, want: Body, out: Body, e: Env, ids: Minted)
    requires Find(Rows(a, Connections), r.id) == Some(r) && want.Keys !! out.Keys && out.Keys == {Auth, Ovp}
             && e.connection == r.id
    requires Plain(Drift(r, want, false)) && Plain(Drift(r, out, false))
    ensures Serves(a, Ops(DriftCalls(Drift(r, want, false)) + OutboundCalls(Drift(r, out, false)), e, ids),
                   Goal(Connections, r.id, want + out, false))
  {
    var drift, nested := Drift(r, want, false), Drift(r, out, false);
    ConnectionOps(drift, nested, DriftCalls(drift), OutboundCalls(nested), e, ids);
    SentServes(a, r, want, out, Ops(DriftCalls(drift) + OutboundCalls(nested), e, ids));
  }

  lemma PlainDrifts(d: Desired, r: Record)
    ensures var drift, nested := Drift(r, ConnectionWant(d), false), Drift(r, OutboundWant(d), false);
            nested.Keys <= {Auth, Ovp} && Plain(nested) && Plain(drift)
  {
  }

  lemma ConnectionOps(drift: Body, nested: Body, first: seq<Call>, second: seq<Call>, e: Env, ids: Minted)
    requires nested.Keys <= {Auth, Ovp} && Plain(nested) && Plain(drift)
    requires first == DriftCalls(drift) && second == OutboundCalls(nested)
    ensures Ops(first + second, e, ids)
         == SentOps(e.connection, drift) + SentOps(e.connection, Only(nested, Auth))
             + SentOps(e.connection, Only(nested, Ovp))
  {
    OpsConcat(first, second, e, ids);
    if drift != map[] {
      OneCall(first[0], e, ids);
      ResPlain(drift, e);
    }
    OutboundOps(nested, e, ids);
  }

  // ----- the other core sections

  lemma FqdnServes(d: Desired, a: Account, r: Record, e: Env, ids: Minted)
    requires Valid(a) && CoreConnection(d, a).Some? && CoreFqdn(d, a) == Some(r)
    ensures Serves(a, Ops(Calls(FqdnSteps(d, a)), e, ids), Goal(Fqdns, r.id, map[Port := N(d.fqdnPort)], false))
  {
    FqdnLookedUp(d, a);
    var want: Body := map[Port := N(d.fqdnPort)];
    var port := Drift(r, want, false);
    assert port + map[] == port;
    OptionalOps(Fqdns, r.id, port, e, ids);
    ResPlain(want, e);
    DriftServes(a, Fqdns, r, want, false, e);
  }

  function FqdnFields(d: Desired, c: Id): Body {
    map[FqdnName := S(d.fqdn), Port := N(d.fqdnPort), DnsType := S(d.dnsType), ConnId := S(c)]
  }

  lemma NewFqdnOps(d: Desired, a: Account, e: Env, ids: Minted)
    requires CoreFqdn(d, a).None?
    ensures Ops(Calls(FqdnSteps(d, a)), e, ids) == [PostOp(Fqdns, ids.fqdn, FqdnFields(d, e.connection))]
  {
    var post :=
        Post(Fqdns, map[FqdnName := S(d.fqdn), Port := N(d.fqdnPort), DnsType := S(d.dnsType),
                        ConnId := TheConnection]);
    OneStep([post]);
    OneCall(post, e, ids);
    assert ResBody(post.body, e) == FqdnFields(d, e.connection);
  }

  lemma NumberServes(d: Desired, a: Account, number: Record, e: Env, ids: Minted)
    requires Valid(a) && CoreNumber(d, a) == Some(number) && CoreConnection(d, a).Some?
             && e.connection == CoreConnection(d, a).value.id
    ensures Serves(a, Ops(Calls(NumberSteps(d, a, number)), e, ids),
                   Goal(Numbers, number.id, map[ConnId := S(e.connection)], false))
  {
    LookedUp(a, Numbers, PhoneNumber, S(d.phoneNumber), PhoneNumber, S(d.phoneNumber));
    NumberOps(d, a, number, e, ids);
    if Is(number, ConnId, S(e.connection)) { NothingServes(a, number, ConnId, S(e.connection)); }
    else { OnlyOpServes(a, PatchOp(Numbers, number.id, map[ConnId := S(e.connection)]), ConnId, S(e.connection)); }
  }

  lemma NumberOps(d: Desired, a: Account, number: Record, e: Env, ids: Minted)
    requires CoreConnection(d, a).Some? && e.connection == CoreConnection(d, a).value.id
    ensures Ops(Calls(NumberSteps(d, a, number)), e, ids)
         == if Is(number, ConnId, S(e.connection)) then []
             else [PatchOp(Numbers, number.id, map[ConnId := S(e.connection)])]
  {
    if !Is(number, ConnId, S(e.connection)) {
      var call := Patch(Numbers, Known(number.id), map[ConnId := TheConnection]);
      OneStep([call]);
      OneCall(call, e, ids);
      assert ResBody(call.body, e) == map[ConnId := S(e.connection)];
    }
  }

  lemma NothingServes(a: Account, r: Record, k: Field, v: Value)
    requires Find(Rows(a, Numbers), r.id) == Some(r) && Is(r, k, v)
    ensures Serves(a, [], Goal(Numbers, r.id, map[k := v], false))
  {
  }

  lemma OnlyOpServes(a: Account, op: Op, k: Field, v: Value)
    requires op == PatchOp(op.family, op.id, map[k := v])
    ensures Serves(a, [op], Goal(op.family, op.id, map[k := v], false))
  {
    assert op in [op] && Writes(op, op.family, op.id, k);
  }

  /** The patches of the profile section, each towards its own goal. */
  lemma OldProfileServes(d: Desired, a: Account, number: Record, r: Record, e: Env, ids: Minted, seen: seq<Op>)
    requires Valid(a) && CoreNumber(d, a) == Some(number) && CoreProfile(d, a) == Some(r)
    ensures var ops := Ops(Calls(ProfileSteps(d, a, number)), e, ids);
            var attach := Goal(Numbers, number.id, map[ProfileId := S(r.id)], false);
            var fields := Goal(Profiles, r.id, ProfileWant(d, r), false);
            && (forall op :: op in ops ==> op.PatchOp? && (Covers(attach, op) || Covers(fields, op)))
            && Planned(a, ops, attach) && Planned(a, ops, fields)
  {
    LookedUp(a, Numbers, PhoneNumber, S(d.phoneNumber), PhoneNumber, S(d.phoneNumber));
    LookedUp(a, Profiles, Name, S(d.profileName), Name, S(d.profileName));
    OldProfileFits(d, a, ids, number, r, e, seen);
    PairServes(a, Ops(Calls(ProfileSteps(d, a, number)), e, ids), r, ProfileWant(d, r), number,
               map[ProfileId := S(r.id)]);
  }

  lemma PairServes(a: Account, ops: seq<Op>, r: Record, want: Body, number: Record, attach: Body)
    requires Find(Rows(a, Profiles), r.id) == Some(r) && Find(Rows(a, Numbers), number.id) == Some(number)
    requires PairOps(ops, Profiles, r.id, Drift(r, want, false), Numbers, number.id, Drift(number, attach, false))
    ensures var g, h := Goal(Numbers, number.id, attach, false), Goal(Profiles, r.id, want, false);
            forall op :: op in ops ==> op.PatchOp? && (Covers(g, op) || Covers(h, op))
    ensures Planned(a, ops, Goal(Numbers, number.id, attach, false))
            && Planned(a, ops, Goal(Profiles, r.id, want, false))
  {
    PlannedByDrift(a, ops, Profiles, r, want);
    PlannedByDrift(a, ops, Numbers, number, attach);
  }

  lemma PlannedByDrift(a: Account, ops: seq<Op>, f: Family, r: Record, want: Body)
    requires Find(Rows(a, f), r.id) == Some(r)
    requires Drift(r, want, false) != map[] ==> PatchOp(f, r.id, Drift(r, want, false)) in ops
    ensures Planned(a, ops, Goal(f, r.id, want, false))
  {
    var g := Goal(f, r.id, want, false);
    forall k | k in g.want ensures Holds(a, f, r.id, k, g.want[k], false)
        || exists op :: op in ops && Writes(op, f, r.id, k) {
      if k in Drift(r, want, false) { assert Writes(PatchOp(f, r.id, Drift(r, want, false)), f, r.id, k); }
    }
  }

  lemma OldExtrasServe(d: Desired, a: Account, r: Record, e: Env, ids: Minted)
    requires Valid(a) && CoreProfile(d, a) == Some(r)
    ensures Serves(a, Ops(Calls(ExtrasSteps(d, a)), e, ids), Goal(Profiles, r.id, ExtrasWant(d), false))
  {
    LookedUp(a, Profiles, Name, S(d.profileName), Name, S(d.profileName));
    ExtrasWantKeys(d);
    ResPlain(ExtrasWant(d), e);
    DriftServes(a, Profiles, r, ExtrasWant(d), false, e);
    var drift := Drift(r, ExtrasWant(d), false);
    OptionalOps(Profiles, r.id, drift, e, ids);
    if ExtrasWant(d) == map[] { assert drift == map[]; }
  }

  lemma NewExtrasOps(d: Desired, a: Account, e: Env, ids: Minted)
    requires CoreProfile(d, a).None?
    ensures Ops(Calls(ExtrasSteps(d, a)), e, ids)
         == var b := Drift(Record(e.profile, e.created), ExtrasWant(d), false);
             if b == map[] then [] else [PatchOp(Profiles, e.profile, b)]
  {
    if ExtrasWant(d) != map[] {
      OneStep([ExtrasOnCreated(ExtrasWant(d))]);
      OneCall(ExtrasOnCreated(ExtrasWant(d)), e, ids);
    } else {
      assert Drift(Record(e.profile, e.created), ExtrasWant(d), false) == map[];
    }
  }

  // ----- the rows

  lemma RowServes(a: Account, rows: seq<Row>, i: nat, e: Env, ids: Minted)
    requires Valid(a) && i < |rows| && rows[i].Managed? && RowOk(a, rows[i])
    ensures Planned(a, Ops(Calls(RowSteps(rows)), e, ids), RowGoal(rows[i], e))
  {
    var row := rows[i];
    var ops := Ops(Calls(RowSteps(rows)), e, ids);
    RowOps(rows, e, ids);
    assert row.record in Rows(a, row.family);
    DriftServes(a, row.family, row.record, row.want, row.flat, e);
    var g := RowGoal(row, e);
    forall k | k in g.want ensures Holds(a, g.family, g.id, k, g.want[k], g.flat)
        || exists op :: op in ops && Writes(op, g.family, g.id, k) {
      if !Holds(a, g.family, g.id, k, g.want[k], g.flat) {
        var op :| op in DriftOps(row.family, row.record, row.want, row.flat, e) && Writes(op, g.family, g.id, k);
        assert Drifts(row) && op == RowOp(row, e);
      }
    }
  }

  lemma RowsCovered(a: Account, rows: seq<Row>, e: Env, ids: Minted, gs: seq<Goal>)
    requires forall g :: g in RowGoals(rows, e) ==> g in gs
    ensures AllCovered(Ops(Calls(RowSteps(rows)), e, ids), gs)
  {
    RowOps(rows, e, ids);
    RowGoalsOf(rows, e);
    forall op | op in Ops(Calls(RowSteps(rows)), e, ids) ensures exists g :: g in gs && Covers(g, op) {
      var i :| 0 <= i < |rows| && Drifts(rows[i]) && op == RowOp(rows[i], e);
      assert RowGoal(rows[i], e) in RowGoals(rows, e);
      RowOpCovered(rows[i], e);
    }
  }

  lemma RowOpCovered(row: Row, e: Env)
    requires row.Managed?
    ensures Covers(RowGoal(row, e), RowOp(row, e))
  {
  }
}
