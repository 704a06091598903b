/** After one run of scripts/telnyx_reconcile.py with a core connection in place, every goal of the plan is met. */
module PlanGoalsMet {
  import opened Wrappers
  import opened TelnyxAccount
  import opened Reconciler
  import opened PlanExecution
  import opened PlanValidity
  import opened PlanCore
  import opened PlanGoals
  import opened PlanServes

  /** The operations of a plan, section by section. */
  datatype Sections = Sections(conn: seq<Op>, fqdn: seq<Op>, number: seq<Op>, profile: seq<Op>, extras: seq<Op>,
                               rows: seq<Op>)

  function Joined(s: Sections): seq<Op> { s.conn + s.fqdn + s.number + s.profile + s.extras + s.rows }

  function SectionsOf(d: Desired, a: Account, number: Record, e: Env, ids: Minted): Sections {
    Sections(Ops(Calls(ConnectionSteps(d, a)), e, ids), Ops(Calls(FqdnSteps(d, a)), e, ids),
             Ops(Calls(NumberSteps(d, a, number)), e, ids), Ops(Calls(ProfileSteps(d, a, number)), e, ids),
             Ops(Calls(ExtrasSteps(d, a)), e, ids), Ops(Calls(RowSteps(AllRows(d, a))), e, ids))
  }

  lemma PlanSections(d: Desired, a: Account, number: Record, ids: Minted)
    ensures PlanOps(d, a, number, ids) == Joined(SectionsOf(d, a, number, EnvOf(d, a, ids), ids))
  {
    JoinedCalls(Calls(ConnectionSteps(d, a)), Calls(FqdnSteps(d, a)), Calls(NumberSteps(d, a, number)),
                Calls(ProfileSteps(d, a, number)), Calls(ExtrasSteps(d, a)), Calls(RowSteps(AllRows(d, a))),
                EnvOf(d, a, ids), ids);
  }

  lemma JoinedCalls(c1: seq<Call>, c2: seq<Call>, c3: seq<Call>, c4: seq<Call>, c5: seq<Call>, c6: seq<Call>, e: Env,
                    ids: Minted)
    ensures Ops(c1 + c2 + c3 + c4 + c5 + c6, e, ids)
         == Ops(c1, e, ids) + Ops(c2, e, ids) + Ops(c3, e, ids) + Ops(c4, e, ids) + Ops(c5, e, ids) + Ops(c6, e, ids)
  {
    OpsConcat(c1, c2, e, ids);
    OpsConcat(c1 + c2, c3, e, ids);
    OpsConcat(c1 + c2 + c3, c4, e, ids);
    OpsConcat(c1 + c2 + c3 + c4, c5, e, ids);
    OpsConcat(c1 + c2 + c3 + c4 + c5, c6, e, ids);
  }

  // ----- the two shapes of a section: patches towards a goal, or a new record that meets it

  predicate Present(a: Account, g: Goal) { Find(Rows(a, g.family), g.id).Some? }

  ghost predicate Patches(a: Account, ops: seq<Op>, g: Goal) { Present(a, g) && Serves(a, ops, g) }

  /** One record is posted, with all the goal wants of it. */
  predicate Posts(a: Account, ops: seq<Op>, g: Goal) {
    && !Present(a, g) && |ops| == 1 && ops[0] == PostOp(g.family, g.id, ops[0].body)
    && forall k :: k in g.want ==> Get(Record(g.id, ops[0].body), k, g.flat) == Some(g.want[k])
  }

  /** The profile section on a profile that exists: patches of it and of the number. */
  ghost predicate PatchesBoth(a: Account, ops: seq<Op>, attach: Goal, fields: Goal) {
    && Present(a, attach) && Present(a, fields)
    && (forall op :: op in ops ==> op.PatchOp? && (Covers(attach, op) || Covers(fields, op)))
    && Planned(a, ops, attach) && Planned(a, ops, fields)
  }

  /** The profile section on a profile that does not: it is posted, then the number attached. */
  ghost predicate PostsAndAttaches(a: Account, ops: seq<Op>, attach: Goal, fields: Goal) {
    && |ops| == 2 && Posts(a, [ops[0]], fields)
    && Patches(a, [ops[1]], attach)
  }

  /** The extras of a profile posted by `post`. */
  ghost predicate PatchesPosted(ops: seq<Op>, post: Op, g: Goal) {
    && (forall op :: op in ops ==> op.PatchOp? && Covers(g, op))
    && forall k :: k in g.want ==>
         Get(Record(g.id, post.body), k, g.flat) == Some(g.want[k])
             || exists op :: op in ops && Writes(op, g.family, g.id, k)
  }

  /** What the sections of a plan are, as far as the goals go. */
  ghost predicate Shape(a: Account, s: Sections, core: seq<Goal>) {
    && |core| == 6
    && Patches(a, s.conn, core[0])
    && (Patches(a, s.fqdn, core[1]) || (core[1].family == Fqdns && Posts(a, s.fqdn, core[1])))
    && Patches(a, s.number, core[2])
    && core[4].family == Profiles && core[5].family == Profiles && core[5].id == core[4].id
    && ((PatchesBoth(a, s.profile, core[3], core[4]) && Patches(a, s.extras, core[5]))
        || (PostsAndAttaches(a, s.profile, core[3], core[4]) && PatchesPosted(s.extras, s.profile[0], core[5])))
  }

  lemma FqdnShape(d: Desired, a: Account, ids: Minted, e: Env, g: Goal)
    requires Valid(a) && Fresh(a, ids) && CoreConnection(d, a).Some?
    requires g == Goal(Fqdns, FqdnId(d, a, ids), map[Port := N(d.fqdnPort)], false)
    ensures var ops := Ops(Calls(FqdnSteps(d, a)), e, ids); Patches(a, ops, g) || Posts(a, ops, g)
  {
    match CoreFqdn(d, a)
    case Some(r) =>
      FqdnLookedUp(d, a);
      FqdnServes(d, a, r, e, ids);
    case None =>
      NewFqdnOps(d, a, e, ids);
  }

  lemma OldProfileShape(d: Desired, a: Account, number: Record, r: Record, ids: Minted, e: Env, attach: Goal,
                        fields: Goal, extras: Goal)
    requires Valid(a) && CoreNumber(d, a) == Some(number) && CoreProfile(d, a) == Some(r) && e.profile == r.id
    requires attach == Goal(Numbers, number.id, map[ProfileId := S(e.profile)], false)
    requires fields == Goal(Profiles, e.profile, ProfileWant(d, r), false)
    requires extras == Goal(Profiles, e.profile, ExtrasWant(d), false)
    ensures PatchesBoth(a, Ops(Calls(ProfileSteps(d, a, number)), e, ids), attach, fields)
    ensures Patches(a, Ops(Calls(ExtrasSteps(d, a)), e, ids), extras)
  {
    LookedUp(a, Numbers, PhoneNumber, S(d.phoneNumber), PhoneNumber, S(d.phoneNumber));
    LookedUp(a, Profiles, Name, S(d.profileName), Name, S(d.profileName));
    OldProfileServes(d, a, number, r, e, ids, []);
    OldExtrasServe(d, a, r, e, ids);
  }

  lemma AttachServes(a: Account, op: Op, g: Goal)
    requires Present(a, g) && op == PatchOp(g.family, g.id, g.want)
    ensures Patches(a, [op], g)
  {
    forall k | k in g.want ensures exists x :: x in [op] && Writes(x, g.family, g.id, k) { assert op in [op]; }
  }

  lemma NewProfileShape(d: Desired, a: Account, number: Record, ids: Minted, e: Env, attach: Goal, fields: Goal,
                        extras: Goal)
    requires Valid(a) && Fresh(a, ids) && CoreNumber(d, a) == Some(number) && CoreProfile(d, a).None?
    requires e.profile == ids.profile && e.created == ProfileFields(d)
    requires attach == Goal(Numbers, number.id, map[ProfileId := S(e.profile)], false)
    requires fields == Goal(Profiles, e.profile, map[Webhook := S(d.webhook), Mms := B(d.mms)], false)
    requires extras == Goal(Profiles, e.profile, ExtrasWant(d), false)
    ensures var ops := Ops(Calls(ProfileSteps(d, a, number)), e, ids);
            PostsAndAttaches(a, ops, attach, fields)
                && PatchesPosted(Ops(Calls(ExtrasSteps(d, a)), e, ids), ops[0], extras)
  {
    LookedUp(a, Numbers, PhoneNumber, S(d.phoneNumber), PhoneNumber, S(d.phoneNumber));
    NewProfileFits(d, a, ids, number, e, []);
    NewExtrasOps(d, a, e, ids);
    NewProfileFields(d, e.profile);
    PostThenAttachShape(a, PostOp(Profiles, ids.profile, ProfileFields(d)), attach, fields);
    PostedExtras(PostOp(Profiles, ids.profile, ProfileFields(d)), Ops(Calls(ExtrasSteps(d, a)), e, ids), extras);
  }

  lemma NewProfileFields(d: Desired, id: Id)
    ensures var want: Body := map[Webhook := S(d.webhook), Mms := B(d.mms)];
            forall k :: k in want ==> Get(Record(id, ProfileFields(d)), k, false) == Some(want[k])
  {
  }

  lemma PostThenAttachShape(a: Account, post: Op, attach: Goal, fields: Goal)
    requires post == PostOp(fields.family, fields.id, post.body) && !Present(a, fields) && Present(a, attach)
    requires forall k :: k in fields.want ==> Get(Record(fields.id, post.body), k, fields.flat) == Some(fields.want[k])
    ensures PostsAndAttaches(a, [post, PatchOp(attach.family, attach.id, attach.want)], attach, fields)
  {
    AttachServes(a, PatchOp(attach.family, attach.id, attach.want), attach);
  }

  lemma PostedExtras(post: Op, ops: seq<Op>, g: Goal)
    requires ops == var b := Drift(Record(g.id, post.body), g.want, g.flat);
             if b == map[] then [] else [PatchOp(g.family, g.id, b)]
    ensures PatchesPosted(ops, post, g)
  {
    var b := Drift(Record(g.id, post.body), g.want, g.flat);
    forall k | k in g.want
      ensures Get(Record(g.id, post.body), k, g.flat) == Some(g.want[k])
              || exists op :: op in ops && Writes(op, g.family, g.id, k)
    {
      if k in b { assert ops[0] in ops && Writes(ops[0], g.family, g.id, k); }
    }
  }

  lemma PlanShape(d: Desired, a: Account, number: Record, ids: Minted)
    requires Valid(a) && Fresh(a, ids) && CoreNumber(d, a) == Some(number) && CoreConnection(d, a).Some?
    ensures Shape(a, SectionsOf(d, a, number, EnvOf(d, a, ids), ids), CoreGoals(d, a, ids, number))
  {
    var e := EnvOf(d, a, ids);
    var core := CoreGoals(d, a, ids, number);
    LookedUp(a, Connections, Kind, FQDN_KIND, ConnName, S(d.connectionName));
    LookedUp(a, Numbers, PhoneNumber, S(d.phoneNumber), PhoneNumber, S(d.phoneNumber));
    ConnectionServes(d, a, CoreConnection(d, a).value, e, ids);
    FqdnShape(d, a, ids, e, core[1]);
    NumberServes(d, a, number, e, ids);
    if CoreProfile(d, a).Some? {
      OldProfileShape(d, a, number, CoreProfile(d, a).value, ids, e, core[3], core[4], core[5]);
    } else {
      NewProfileShape(d, a, number, ids, e, core[3], core[4], core[5]);
    }
  }

  // ----- from the shape to the goals: nothing below looks into the planner again

  lemma CoveredJoin(x: seq<Op>, y: seq<Op>, gs: seq<Goal>)
    requires AllCovered(x, gs) && AllCovered(y, gs)
    ensures AllCovered(x + y, gs)
  {
  }

  lemma PatchesCovered(a: Account, ops: seq<Op>, g: Goal, gs: seq<Goal>)
    requires g in gs && (Patches(a, ops, g) || Posts(a, ops, g))
    ensures AllCovered(ops, gs)
  {
    forall op | op in ops && op.PatchOp? ensures exists h :: h in gs && Covers(h, op) {
      assert Covers(g, op);
    }
  }

  lemma ProfileCovered(a: Account, s: Sections, core: seq<Goal>, gs: seq<Goal>)
    requires Shape(a, s, core) && (forall g :: g in core ==> g in gs)
    ensures AllCovered(s.profile, gs) && AllCovered(s.extras, gs)
  {
    assert core[3] in gs && core[4] in gs && core[5] in gs;
    if !PatchesBoth(a, s.profile, core[3], core[4]) {
      assert s.profile[1] in [s.profile[1]];
    }
  }

  lemma ShapeCovered(a: Account, s: Sections, core: seq<Goal>, gs: seq<Goal>)
    requires Shape(a, s, core) && (forall g :: g in core ==> g in gs) && AllCovered(s.rows, gs)
    ensures AllCovered(Joined(s), gs)
  {
    assert core[0] in gs && core[1] in gs && core[2] in gs;
    PatchesCovered(a, s.conn, core[0], gs);
    PatchesCovered(a, s.fqdn, core[1], gs);
    PatchesCovered(a, s.number, core[2], gs);
    ProfileCovered(a, s, core, gs);
    CoveredJoin(s.conn, s.fqdn, gs);
    CoveredJoin(s.conn + s.fqdn, s.number, gs);
    CoveredJoin(s.conn + s.fqdn + s.number, s.profile, gs);
    CoveredJoin(s.conn + s.fqdn + s.number + s.profile, s.extras, gs);
    CoveredJoin(s.conn + s.fqdn + s.number + s.profile + s.extras, s.rows, gs);
  }

  /** A run of operations towards consistent goals. */
  ghost predicate Towards(a: Account, ops: seq<Op>, gs: seq<Goal>, b: Account) {
    AllTame(ops) && RunOps(a, ops) == Some(b) && AllCovered(ops, gs) && Consistent(gs)
  }

  lemma PatchedGoalMet(a: Account, ops: seq<Op>, part: seq<Op>, gs: seq<Goal>, b: Account, g: Goal)
    requires Towards(a, ops, gs, b) && g in gs && Present(a, g) && Planned(a, part, g)
    requires forall op :: op in part ==> op in ops
    ensures Met(b, g)
  {
    GoalArrives(a, ops, gs, g);
  }

  lemma PostedGoalMet(a: Account, x: seq<Op>, post: Op, y: seq<Op>, gs: seq<Goal>, b: Account, g: Goal)
    requires Towards(a, x + [post] + y, gs, b) && g in gs && Posts(a, [post], g)
    requires forall op :: op in x && op.PostOp? ==> op.family != g.family
    ensures Met(b, g)
  {
    CreatedGoalArrives(a, x, post, y, gs, g);
  }

  lemma FqdnMet(a: Account, s: Sections, core: seq<Goal>, gs: seq<Goal>, b: Account)
    requires Shape(a, s, core) && Towards(a, Joined(s), gs, b) && core[1] in gs
    ensures Met(b, core[1])
  {
    if Patches(a, s.fqdn, core[1]) {
      PatchedGoalMet(a, Joined(s), s.fqdn, gs, b, core[1]);
    } else {
      assert s.fqdn == [s.fqdn[0]];
      AfterFqdn(s);
      PostedGoalMet(a, s.conn, s.fqdn[0], s.number + s.profile + s.extras + s.rows, gs, b, core[1]);
    }
  }

  lemma AfterFqdn(s: Sections)
    ensures Joined(s) == s.conn + s.fqdn + (s.number + s.profile + s.extras + s.rows)
  {
  }

  lemma OldProfileMet(a: Account, s: Sections, g3: Goal, g4: Goal, g5: Goal, gs: seq<Goal>, b: Account)
    requires PatchesBoth(a, s.profile, g3, g4) && Patches(a, s.extras, g5)
    requires Towards(a, Joined(s), gs, b) && g3 in gs && g4 in gs && g5 in gs
    ensures Met(b, g3) && Met(b, g4) && Met(b, g5)
  {
    PatchedGoalMet(a, Joined(s), s.profile, gs, b, g3);
    PatchedGoalMet(a, Joined(s), s.profile, gs, b, g4);
    PatchedGoalMet(a, Joined(s), s.extras, gs, b, g5);
  }

  lemma NewProfileMet(a: Account, s: Sections, g3: Goal, g4: Goal, g5: Goal, gs: seq<Goal>, b: Account)
    requires PostsAndAttaches(a, s.profile, g3, g4) && PatchesPosted(s.extras, s.profile[0], g5)
    requires g4.family == g5.family && g4.id == g5.id
    requires forall op :: op in s.conn + s.fqdn + s.number && op.PostOp? ==> op.family != g4.family
    requires Towards(a, Joined(s), gs, b) && g3 in gs && g4 in gs && g5 in gs
    ensures Met(b, g3) && Met(b, g4) && Met(b, g5)
  {
    var post, attach := s.profile[0], s.profile[1];
    var x, y := s.conn + s.fqdn + s.number, [attach] + s.extras + s.rows;
    assert s.profile == [post] + [attach];
    assert Joined(s) == x + [post] + y;
    PatchedGoalMet(a, Joined(s), [attach], gs, b, g3);
    PostedGoalMet(a, x, post, y, gs, b, g4);
    forall k | k in g5.want
      ensures Get(Record(g5.id, post.body), k, g5.flat) == Some(g5.want[k])
              || exists op :: op in y && Writes(op, g5.family, g5.id, k)
    {
      if op :| op in s.extras && Writes(op, g5.family, g5.id, k) { assert op in y; }
    }
    CreatedGoalArrives(a, x, post, y, gs, g5);
  }

  lemma NoProfilePosted(a: Account, s: Sections, core: seq<Goal>)
    requires Shape(a, s, core)
    ensures forall op :: op in s.conn + s.fqdn + s.number && op.PostOp? ==> op.family == Fqdns
  {
  }

  lemma ProfileMet(a: Account, s: Sections, core: seq<Goal>, gs: seq<Goal>, b: Account)
    requires Shape(a, s, core) && Towards(a, Joined(s), gs, b) && core[3] in gs && core[4] in gs && core[5] in gs
    ensures Met(b, core[3]) && Met(b, core[4]) && Met(b, core[5])
  {
    if PatchesBoth(a, s.profile, core[3], core[4]) && Patches(a, s.extras, core[5]) {
      OldProfileMet(a, s, core[3], core[4], core[5], gs, b);
    } else {
      NoProfilePosted(a, s, core);
      NewProfileMet(a, s, core[3], core[4], core[5], gs, b);
    }
  }

  lemma CoreGoalsMet(a: Account, s: Sections, core: seq<Goal>, gs: seq<Goal>, b: Account)
    requires Shape(a, s, core) && Towards(a, Joined(s), gs, b)
    requires core[0] in gs && core[1] in gs && core[2] in gs && core[3] in gs && core[4] in gs && core[5] in gs
    ensures Met(b, core[0]) && Met(b, core[1]) && Met(b, core[2]) && Met(b, core[3]) && Met(b, core[4])
            && Met(b, core[5])
  {
    assert Patches(a, s.conn, core[0]) && Patches(a, s.number, core[2]);
    ConnectionAndNumberMet(a, s, core[0], core[2], gs, b);
    FqdnMet(a, s, core, gs, b);
    ProfileMet(a, s, core, gs, b);
  }

  lemma ConnectionAndNumberMet(a: Account, s: Sections, g0: Goal, g2: Goal, gs: seq<Goal>, b: Account)
    requires Patches(a, s.conn, g0) && Patches(a, s.number, g2) && Towards(a, Joined(s), gs, b) && g0 in gs && g2 in gs
    ensures Met(b, g0) && Met(b, g2)
  {
    PatchedGoalMet(a, Joined(s), s.conn, gs, b, g0);
    PatchedGoalMet(a, Joined(s), s.number, gs, b, g2);
  }

  lemma RowGoalsMet(a: Account, s: Sections, rows: seq<Row>, e: Env, ids: Minted, gs: seq<Goal>, b: Account)
    requires Valid(a) && Towards(a, Joined(s), gs, b) && s.rows == Ops(Calls(RowSteps(rows)), e, ids)
    requires forall i :: 0 <= i < |rows| ==> RowOk(a, rows[i])
    requires forall g :: g in RowGoals(rows, e) ==> g in gs
    ensures forall g :: g in RowGoals(rows, e) ==> Met(b, g)
  {
    RowGoalsOf(rows, e);
    forall g | g in RowGoals(rows, e) ensures Met(b, g) {
      var i :| 0 <= i < |rows| && rows[i].Managed? && g == RowGoal(rows[i], e);
      RowServes(a, rows, i, e, ids);
      PatchedGoalMet(a, Joined(s), s.rows, gs, b, g);
    }
  }

  /** Whatever a plan writes, one of its goals wants. */
  lemma PlanCovered(d: Desired, a: Account, number: Record, ids: Minted)
    requires Valid(a) && Fresh(a, ids) && CoreNumber(d, a) == Some(number) && CoreConnection(d, a).Some?
    ensures AllCovered(PlanOps(d, a, number, ids), Goals(d, a, ids, number))
  {
    var e, gs := EnvOf(d, a, ids), Goals(d, a, ids, number);
    var core, rows := CoreGoals(d, a, ids, number), AllRows(d, a);
    PlanSections(d, a, number, ids);
    PlanShape(d, a, number, ids);
    RowsCovered(a, rows, e, ids, gs);
    ShapeCovered(a, SectionsOf(d, a, number, e, ids), core, gs);
  }

  /** With consistent goals, one run meets all of them. */
  lemma AllGoalsMet(d: Desired, a: Account, number: Record, ids: Minted, b: Account)
    requires Valid(a) && Fresh(a, ids) && CoreNumber(d, a) == Some(number) && RecordingValid(d)
             && CoreConnection(d, a).Some?
    requires AllTame(PlanOps(d, a, number, ids)) && RunOps(a, PlanOps(d, a, number, ids)) == Some(b)
    requires Consistent(Goals(d, a, ids, number))
    ensures forall g :: g in Goals(d, a, ids, number) ==> Met(b, g)
  {
    var e, gs := EnvOf(d, a, ids), Goals(d, a, ids, number);
    var core, rows := CoreGoals(d, a, ids, number), AllRows(d, a);
    var s := SectionsOf(d, a, number, e, ids);
    assert gs == core + RowGoals(rows, e);
    PlanSections(d, a, number, ids);
    PlanShape(d, a, number, ids);
    AllRowsOk(d, a);
    RowsCovered(a, rows, e, ids, gs);
    GoalsMet(a, s, core, rows, e, ids, gs, b);
  }

  lemma GoalsMet(a: Account, s: Sections, core: seq<Goal>, rows: seq<Row>, e: Env, ids: Minted, gs: seq<Goal>,
                 b: Account)
    requires Valid(a) && Shape(a, s, core) && gs == core + RowGoals(rows, e) && Consistent(gs)
    requires s.rows == Ops(Calls(RowSteps(rows)), e, ids) && AllCovered(s.rows, gs)
    requires forall i :: 0 <= i < |rows| ==> RowOk(a, rows[i])
    requires AllTame(Joined(s)) && RunOps(a, Joined(s)) == Some(b)
    ensures AllCovered(Joined(s), gs) && forall g :: g in gs ==> Met(b, g)
  {
    MembersOfCore(core, RowGoals(rows, e), gs);
    ShapeCovered(a, s, core, gs);
    CoreGoalsMet(a, s, core, gs, b);
    RowGoalsMet(a, s, rows, e, ids, gs, b);
    EachMet(b, core, RowGoals(rows, e));
  }

  lemma MembersOfCore(core: seq<Goal>, rest: seq<Goal>, gs: seq<Goal>)
    requires |core| == 6 && gs == core + rest
    ensures core[0] in gs && core[1] in gs && core[2] in gs && core[3] in gs && core[4] in gs && core[5] in gs
    ensures forall g :: g in core ==> g in gs
    ensures forall g :: g in rest ==> g in gs
  {
    assert forall i :: 0 <= i < 6 ==> gs[i] == core[i];
  }

  lemma AllSix(core: seq<Goal>, p: Goal -> bool)
    requires |core| == 6 && p(core[0]) && p(core[1]) && p(core[2]) && p(core[3]) && p(core[4]) && p(core[5])
    ensures forall g :: g in core ==> p(g)
  {
  }

  lemma EachMet(b: Account, core: seq<Goal>, rest: seq<Goal>)
    requires |core| == 6
    requires Met(b, core[0]) && Met(b, core[1]) && Met(b, core[2]) && Met(b, core[3]) && Met(b, core[4])
             && Met(b, core[5])
    requires forall g :: g in rest ==> Met(b, g)
    ensures forall g :: g in core + rest ==> Met(b, g)
  {
    AllSix(core, g => Met(b, g));
  }
}
