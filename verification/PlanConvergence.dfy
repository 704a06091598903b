/**
 * Applying a plan of scripts/telnyx_reconcile.py converges. With a core connection in place one run
 * is enough exactly when no two goals of the plan contradict each other.
 */
module PlanConvergence {
  import opened Wrappers
  import opened TelnyxAccount
  import opened Reconciler
  import opened PlanExecution
  import opened PlanValidity
  import opened PlanCore
  import opened PlanGoals
  import opened PlanGoalsMet
  import opened PlanStable
  import opened PlanRowsMatch
  import opened PlanQuiet

  /** What every plan wants of the core profile; Enabled comes on top for one that was found disabled. */
  function Basics(d: Desired): Body { map[Webhook := S(d.webhook), Mms := B(d.mms)] }

  /** Whoever has all the fields has some of them. */
  lemma MetInPart(b: Account, id: Id, x: Body, y: Body)
    requires Met(b, Goal(Profiles, id, x, false)) && forall k :: k in y ==> k in x && x[k] == y[k]
    ensures Met(b, Goal(Profiles, id, y, false))
  {
    forall k | k in y ensures Holds(b, Profiles, id, k, y[k], false) {
      assert Holds(b, Profiles, id, k, x[k], false);
    }
  }

  lemma ProfileGoals(d: Desired, a: Account, b: Account, id: Id, r: Record)
    requires Find(Rows(b, Profiles), id) == Some(r) && r.id == id
    requires Met(b, Goal(Profiles, id, ProfileGoal(d, a), false)) ==> !Is(r, Enabled, B(false))
    ensures Met(b, Goal(Profiles, id, ProfileGoal(d, a), false)) ==>
            Met(b, Goal(Profiles, id, ProfileWant(d, r), false))
    ensures Met(b, Goal(Profiles, id, ProfileWant(d, r), false)) ==> Met(b, Goal(Profiles, id, Basics(d), false))
  {
    var goal, want := ProfileGoal(d, a), ProfileWant(d, r);
    if Met(b, Goal(Profiles, id, goal, false)) {
      assert want == Basics(d);
      assert forall k :: k in Basics(d) ==> k in goal && goal[k] == Basics(d)[k];
      MetInPart(b, id, goal, want);
    }
    if Met(b, Goal(Profiles, id, want, false)) {
      assert forall k :: k in Basics(d) ==> k in want && want[k] == Basics(d)[k];
      MetInPart(b, id, want, Basics(d));
    }
  }

  lemma DisabledGoal(d: Desired, a: Account, b: Account, id: Id, r: Record)
    requires Find(Rows(b, Profiles), id) == Some(r) && r.id == id
             && Met(b, Goal(Profiles, id, ProfileGoal(d, a), false))
    requires CoreProfile(d, a).Some? && Is(CoreProfile(d, a).value, Enabled, B(false))
    ensures Is(r, Enabled, B(true))
  {
    var want := ProfileGoal(d, a);
    assert Enabled in want && want[Enabled] == B(true);
    assert Holds(b, Profiles, id, Enabled, want[Enabled], false);
  }

  lemma ProfileAfter(d: Desired, a: Account, number: Record, ids: Minted, b: Account, id: Id, r: Record)
    requires Ran(d, a, number, ids, b) && Fresh(a, ids) && id == EnvOf(d, a, ids).profile
    requires Find(Rows(b, Profiles), id) == Some(r) && r.id == id
    ensures Met(b, Goal(Profiles, id, ProfileGoal(d, a), false)) ==>
            Met(b, Goal(Profiles, id, ProfileWant(d, r), false))
    ensures Met(b, Goal(Profiles, id, ProfileWant(d, r), false)) ==> Met(b, Goal(Profiles, id, Basics(d), false))
  {
    if Met(b, Goal(Profiles, id, ProfileGoal(d, a), false)) {
      if CoreProfile(d, a).Some? && Is(CoreProfile(d, a).value, Enabled, B(false)) { DisabledGoal(d, a, b, id, r); }
      var x :| Good(x, a, b);
      EnabledAfter(d, a, x, b, r);
    }
    ProfileGoals(d, a, b, id, r);
  }

  /** The six core goals, for the records `c`, `f`, `n` and `p` and with `want` as the profile's fields. */
  predicate CoreMet(d: Desired, b: Account, c: Id, f: Id, n: Id, p: Id, want: Body) {
    && Met(b, Goal(Connections, c, ConnectionWant(d) + OutboundWant(d), false))
    && Met(b, Goal(Fqdns, f, map[Port := N(d.fqdnPort)], false))
    && Met(b, Goal(Numbers, n, map[ConnId := S(c)], false)) && Met(b, Goal(Numbers, n, map[ProfileId := S(p)], false))
    && Met(b, Goal(Profiles, p, want, false)) && Met(b, Goal(Profiles, p, ExtrasWant(d), false))
  }

  lemma CoreSections(d: Desired, b: Account, number: Record, c: Record, f: Record, p: Record)
    requires CoreConnection(d, b) == Some(c) && CoreFqdn(d, b) == Some(f) && CoreProfile(d, b) == Some(p)
    requires Find(Rows(b, Connections), c.id) == Some(c) && Find(Rows(b, Fqdns), f.id) == Some(f)
    requires Find(Rows(b, Numbers), number.id) == Some(number) && Find(Rows(b, Profiles), p.id) == Some(p)
    ensures ReportOnly(CoreSteps(d, b, number)) <==> CoreMet(d, b, c.id, f.id, number.id, p.id, ProfileWant(d, p))
  {
    CoreQuiet(d, b, number);
    ConnectionQuiet(d, b, c);
    FqdnQuiet(d, b, f);
    NumberQuiet(d, b, number, c.id);
    ProfileQuiet(d, b, number, p);
    ExtrasQuiet(d, b, p);
  }

  lemma CoreFoundById(d: Desired, b: Account)
    requires Valid(b) && CoreConnection(d, b).Some?
    ensures Find(Rows(b, Connections), CoreConnection(d, b).value.id) == CoreConnection(d, b)
    ensures CoreFqdn(d, b).Some? ==> Find(Rows(b, Fqdns), CoreFqdn(d, b).value.id) == CoreFqdn(d, b)
    ensures CoreProfile(d, b).Some? ==> Find(Rows(b, Profiles), CoreProfile(d, b).value.id) == CoreProfile(d, b)
    ensures CoreNumber(d, b).Some? ==> Find(Rows(b, Numbers), CoreNumber(d, b).value.id) == CoreNumber(d, b)
  {
    LookedUp(b, Connections, Kind, FQDN_KIND, ConnName, S(d.connectionName));
    LookedUp(b, Fqdns, ConnId, S(CoreConnection(d, b).value.id), FqdnName, S(d.fqdn));
    LookedUp(b, Profiles, Name, S(d.profileName), Name, S(d.profileName));
    LookedUp(b, Numbers, PhoneNumber, S(d.phoneNumber), PhoneNumber, S(d.phoneNumber));
  }

  lemma CoreAgain(d: Desired, a: Account, number: Record, ids: Minted, b: Account, again: Record, e: Env, p: Record)
    requires Ran(d, a, number, ids, b) && e == EnvOf(d, a, ids) && CoreNumber(d, b) == Some(again)
             && CoreProfile(d, b) == Some(p)
    ensures p.id == e.profile && Find(Rows(b, Profiles), p.id) == Some(p)
    ensures ReportOnly(CoreSteps(d, b, again))
            <==> CoreMet(d, b, e.connection, FqdnId(d, a, ids), number.id, e.profile, ProfileWant(d, p))
  {
    CoreFound(d, a, number, ids, b);
    CoreFoundById(d, b);
    CoreSections(d, b, again, CoreConnection(d, b).value, CoreFqdn(d, b).value, p);
  }

  /** The core steps of the second plan against the core goals of the first. */
  lemma CoreAfter(d: Desired, a: Account, number: Record, ids: Minted, b: Account, again: Record, e: Env)
    requires Ran(d, a, number, ids, b) && Fresh(a, ids) && e == EnvOf(d, a, ids) && CoreNumber(d, b) == Some(again)
    ensures CoreMet(d, b, e.connection, FqdnId(d, a, ids), number.id, e.profile, ProfileGoal(d, a)) ==>
            ReportOnly(CoreSteps(d, b, again))
    ensures ReportOnly(CoreSteps(d, b, again)) ==>
            CoreMet(d, b, e.connection, FqdnId(d, a, ids), number.id, e.profile, Basics(d))
  {
    CoreFound(d, a, number, ids, b);
    var p := CoreProfile(d, b).value;
    CoreAgain(d, a, number, ids, b, again, e, p);
    ProfileAfter(d, a, number, ids, b, e.profile, p);
  }

  /** Met, except that nothing is said of the enabling of a profile. */
  predicate AlmostMet(b: Account, g: Goal) {
    && Find(Rows(b, g.family), g.id).Some?
    && forall k :: k in g.want && !(g.family == Profiles && k == Enabled) ==>
        Holds(b, g.family, g.id, k, g.want[k], g.flat)
  }

  lemma CoreGoalsAlmost(d: Desired, a: Account, ids: Minted, number: Record, b: Account, e: Env)
    requires e == EnvOf(d, a, ids) && CoreMet(d, b, e.connection, FqdnId(d, a, ids), number.id, e.profile, Basics(d))
    ensures forall g :: g in CoreGoals(d, a, ids, number) ==> AlmostMet(b, g)
  {
    ProfileGoalAlmost(d, a, b, e.profile);
    var core := CoreGoals(d, a, ids, number);
    SixAlmost(b, core);
  }

  lemma ProfileGoalAlmost(d: Desired, a: Account, b: Account, id: Id)
    requires Met(b, Goal(Profiles, id, Basics(d), false))
    ensures AlmostMet(b, Goal(Profiles, id, ProfileGoal(d, a), false))
  {
    var want := ProfileGoal(d, a);
    assert forall k :: k in want && k != Enabled ==> k in Basics(d) && want[k] == Basics(d)[k];
    forall k | k in want && k != Enabled ensures Holds(b, Profiles, id, k, want[k], false) {
      assert Holds(b, Profiles, id, k, Basics(d)[k], false);
    }
  }

  lemma SixAlmost(b: Account, core: seq<Goal>)
    requires |core| == 6 && Met(b, core[0]) && Met(b, core[1]) && Met(b, core[2]) && Met(b, core[3])
             && AlmostMet(b, core[4]) && Met(b, core[5])
    ensures forall g :: g in core ==> AlmostMet(b, g)
  {
    MetIsAlmost(b, core[0]);
    MetIsAlmost(b, core[1]);
    MetIsAlmost(b, core[2]);
    MetIsAlmost(b, core[3]);
    MetIsAlmost(b, core[5]);
    AllSix(core, g => AlmostMet(b, g));
  }

  lemma MetIsAlmost(b: Account, g: Goal)
    requires Met(b, g)
    ensures AlmostMet(b, g)
  {
  }

  lemma CoreGoalsAll(d: Desired, a: Account, ids: Minted, number: Record, b: Account, e: Env, gs: seq<Goal>)
    requires e == EnvOf(d, a, ids) && gs == Goals(d, a, ids, number) && forall g :: g in gs ==> Met(b, g)
    ensures CoreMet(d, b, e.connection, FqdnId(d, a, ids), number.id, e.profile, ProfileGoal(d, a))
    ensures forall g :: g in RowGoals(AllRows(d, a), e) ==> Met(b, g)
  {
    var core := CoreGoals(d, a, ids, number);
    MembersOfCore(core, RowGoals(AllRows(d, a), e), gs);
    assert core[0] == Goal(Connections, e.connection, ConnectionWant(d) + OutboundWant(d), false);
    assert core[1] == Goal(Fqdns, FqdnId(d, a, ids), map[Port := N(d.fqdnPort)], false);
    assert core[2] == Goal(Numbers, number.id, map[ConnId := S(e.connection)], false);
    assert core[3] == Goal(Numbers, number.id, map[ProfileId := S(e.profile)], false);
    assert core[4] == Goal(Profiles, e.profile, ProfileGoal(d, a), false);
    assert core[5] == Goal(Profiles, e.profile, ExtrasWant(d), false);
  }

  /** Goals that an account meets do not contradict each other. */
  lemma MetIsConsistent(b: Account, gs: seq<Goal>)
    requires forall g :: g in gs ==>
               && AlmostMet(b, g)
               && (g.family == Profiles && Enabled in g.want ==> g.want[Enabled] == B(true))
    ensures Consistent(gs)
  {
    forall g, h | g in gs && h in gs ensures Compatible(g, h) {
      if g.family == h.family && g.id == h.id {
        forall k | k in g.want && k in h.want ensures g.want[k] == h.want[k] {
          if !(g.family == Profiles && k == Enabled) {
            assert Holds(b, g.family, g.id, k, g.want[k], g.flat) && Holds(b, h.family, h.id, k, h.want[k], h.flat);
          }
        }
      }
    }
  }

  /** The second plan against the goals of the first. */
  lemma QuietAfter(d: Desired, a: Account, number: Record, ids: Minted, b: Account, e: Env)
    requires Ran(d, a, number, ids, b) && Fresh(a, ids) && e == EnvOf(d, a, ids)
    ensures BuildPlan(d, b).Some?
    ensures CoreMet(d, b, e.connection, FqdnId(d, a, ids), number.id, e.profile, ProfileGoal(d, a))
            && (forall g :: g in RowGoals(AllRows(d, a), e) ==> Met(b, g))
            ==> ReportOnly(BuildPlan(d, b).value)
    ensures ReportOnly(BuildPlan(d, b).value) ==>
              && CoreMet(d, b, e.connection, FqdnId(d, a, ids), number.id, e.profile, Basics(d))
              && forall g :: g in RowGoals(AllRows(d, a), e) ==> Met(b, g)
  {
    CoreFound(d, a, number, ids, b);
    var again := CoreNumber(d, b).value;
    CoreAfter(d, a, number, ids, b, again, e);
    WholePlanQuiet(d, b, again);
    AllRowsMatch(d, a, number, ids, b);
    AllRowsOk(d, b);
    RowsMet(d, b, AllRows(d, a), AllRows(d, b), e);
  }

  lemma QuietIsConsistent(d: Desired, a: Account, number: Record, ids: Minted, b: Account, e: Env, gs: seq<Goal>)
    requires Valid(a) && RecordingValid(d) && e == EnvOf(d, a, ids) && gs == Goals(d, a, ids, number)
    requires CoreMet(d, b, e.connection, FqdnId(d, a, ids), number.id, e.profile, Basics(d))
    requires forall g :: g in RowGoals(AllRows(d, a), e) ==> Met(b, g)
    ensures Consistent(gs)
  {
    CoreGoalsAlmost(d, a, ids, number, b, e);
    forall g | g in gs ensures AlmostMet(b, g)
        && (g.family == Profiles && Enabled in g.want ==> g.want[Enabled] == B(true)) {
      GoalFields(d, a, number, ids, g);
    }
    MetIsConsistent(b, gs);
  }

  /**
   * Convergence: with a core connection in place, a run is never refused, and planning again gives
   * reports only if and only if no two goals contradict each other.
   */
  lemma OneRunConverges(d: Desired, a: Account, ids: Minted)
    requires Valid(a) && Fresh(a, ids) && BuildPlan(d, a).Some? && CoreConnection(d, a).Some?
    ensures var b := ApplyPlan(d, a, BuildPlan(d, a).value, ids);
            && b.Some? && Valid(b.value) && BuildPlan(d, b.value).Some?
            && (ReportOnly(BuildPlan(d, b.value).value) <==> Consistent(Goals(d, a, ids, CoreNumber(d, a).value)))
  {
    var number, e := CoreNumber(d, a).value, EnvOf(d, a, ids);
    ApplyIsNeverRefused(d, a, ids);
    var b := ApplyPlan(d, a, BuildPlan(d, a).value, ids).value;
    var gs := Goals(d, a, ids, number);
    RunIsOne(d, a, number, ids, b);
    QuietAfter(d, a, number, ids, b, e);
    if Consistent(gs) {
      AllGoalsMet(d, a, number, ids, b);
      CoreGoalsAll(d, a, ids, number, b, e, gs);
    }
    if ReportOnly(BuildPlan(d, b).value) { QuietIsConsistent(d, a, number, ids, b, e, gs); }
  }
}
