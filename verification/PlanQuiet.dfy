/** A plan of scripts/telnyx_reconcile.py holds nothing but reports exactly when its goals are met. */
module PlanQuiet {
  import opened Wrappers
  import opened TelnyxAccount
  import opened Reconciler
  import opened PlanExecution
  import opened PlanValidity
  import opened PlanCore
  import opened PlanGoals
  import opened PlanServes
  import opened PlanGoalsMet
  import opened PlanStable
  import opened PlanRowsMatch

  // ----- a plan is quiet exactly when its goals are met

  lemma DriftMet(b: Account, f: Family, r: Record, want: Body, flat: bool)
    requires Find(Rows(b, f), r.id) == Some(r)
    ensures Drift(r, want, flat) == map[] <==> Met(b, Goal(f, r.id, want, flat))
  {
    if Met(b, Goal(f, r.id, want, flat)) {
      assert Drift(r, want, flat).Keys == {};
    }
    if Drift(r, want, flat) == map[] {
      forall k | k in want ensures Get(r, k, flat) == Some(want[k]) { assert k !in Drift(r, want, flat); }
    }
  }

  lemma {:induction false} RowsQuiet(rows: seq<Row>)
    ensures ReportOnly(RowSteps(rows)) <==> forall i :: 0 <= i < |rows| ==> !Drifts(rows[i])
    decreases |rows|
  {
    if rows != [] {
      var rest := rows[1..];
      RowsQuiet(rest);
      assert forall i :: 0 <= i < |rest| ==> rest[i] == rows[i + 1];
      ReportOnlyConcat(RowStep(rows[0]), RowSteps(rest));
      assert Drifts(rows[0]) ==> RowStep(rows[0])[0].Do?;
      if forall i :: 0 <= i < |rest| ==> !Drifts(rest[i]) {
        forall i | 1 <= i < |rows| ensures !Drifts(rows[i]) { assert !Drifts(rest[i - 1]); }
      }
    }
  }

  lemma ReportOnlyConcat(x: seq<Step>, y: seq<Step>)
    ensures ReportOnly(x + y) <==> ReportOnly(x) && ReportOnly(y)
  {
    if ReportOnly(x + y) {
      assert forall i :: 0 <= i < |x| ==> (x + y)[i] == x[i];
      assert forall i :: 0 <= i < |y| ==> (x + y)[|x| + i] == y[i];
    }
  }

  lemma CoreQuiet(d: Desired, b: Account, number: Record)
    ensures ReportOnly(CoreSteps(d, b, number)) <==>
              && ConnectionSteps(d, b) == [] && FqdnSteps(d, b) == [] && NumberSteps(d, b, number) == []
              && ProfileSteps(d, b, number) == [] && ExtrasSteps(d, b) == []
  {
    var s1, s2, s3 := ConnectionSteps(d, b), FqdnSteps(d, b), NumberSteps(d, b, number);
    var s4, s5 := ProfileSteps(d, b, number), ExtrasSteps(d, b);
    ReportOnlyConcat(s1, s2);
    ReportOnlyConcat(s1 + s2, s3);
    ReportOnlyConcat(s1 + s2 + s3, s4);
    ReportOnlyConcat(s1 + s2 + s3 + s4, s5);
    FirstCoreSteps(d, b, number);
  }

  /** A core section that is not empty starts with calls. */
  lemma FirstCoreSteps(d: Desired, b: Account, number: Record)
    ensures ConnectionSteps(d, b) != [] ==> ConnectionSteps(d, b)[0].Do?
    ensures FqdnSteps(d, b) != [] ==> FqdnSteps(d, b)[0].Do?
    ensures NumberSteps(d, b, number) != [] ==> NumberSteps(d, b, number)[0].Do?
    ensures ProfileSteps(d, b, number) != [] ==> ProfileSteps(d, b, number)[0].Do?
    ensures ExtrasSteps(d, b) != [] ==> ExtrasSteps(d, b)[0].Do?
  {
  }

  lemma WholePlanQuiet(d: Desired, b: Account, number: Record)
    requires CoreNumber(d, b) == Some(number) && RecordingValid(d)
    ensures ReportOnly(BuildPlan(d, b).value) <==>
              ReportOnly(CoreSteps(d, b, number)) && forall i :: 0 <= i < |AllRows(d, b)| ==> !Drifts(AllRows(d, b)[i])
  {
    var core := CoreSteps(d, b, number);
    var r1, r2, r3, r4 := NumberRows(d, b), AssistantRows(d, b), AppRows(d, b), ListRows(d, b);
    var r5, r6, r7 := CredentialRows(d, b), TexmlRows(d, b), RecordingRows(d, b);
    var w, t := WhatsAppSteps(d, b), RetiredSteps(d.retired, Rows(b, VoiceProfiles));
    WhatsAppReports(d, b);
    RetiredReports(d.retired, Rows(b, VoiceProfiles));
    TenQuiet(core, RowSteps(r1), w, RowSteps(r2), RowSteps(r3), RowSteps(r4), t, RowSteps(r5), RowSteps(r6),
             RowSteps(r7));
    RowStepsConcat(r1, r2);
    RowStepsConcat(r1 + r2, r3);
    RowStepsConcat(r1 + r2 + r3, r4);
    RowStepsConcat(r1 + r2 + r3 + r4, r5);
    RowStepsConcat(r1 + r2 + r3 + r4 + r5, r6);
    RowStepsConcat(r1 + r2 + r3 + r4 + r5 + r6, r7);
    SevenQuiet(RowSteps(r1), RowSteps(r2), RowSteps(r3), RowSteps(r4), RowSteps(r5), RowSteps(r6), RowSteps(r7));
    RowsQuiet(AllRows(d, b));
  }

  lemma TenQuiet(s0: seq<Step>, s1: seq<Step>, s2: seq<Step>, s3: seq<Step>, s4: seq<Step>, s5: seq<Step>,
                 s6: seq<Step>, s7: seq<Step>, s8: seq<Step>, s9: seq<Step>)
    ensures ReportOnly(s0 + s1 + s2 + s3 + s4 + s5 + s6 + s7 + s8 + s9) <==>
              && ReportOnly(s0) && ReportOnly(s1) && ReportOnly(s2) && ReportOnly(s3) && ReportOnly(s4)
              && ReportOnly(s5) && ReportOnly(s6) && ReportOnly(s7) && ReportOnly(s8) && ReportOnly(s9)
  {
    ReportOnlyConcat(s0, s1);
    ReportOnlyConcat(s0 + s1, s2);
    ReportOnlyConcat(s0 + s1 + s2, s3);
    ReportOnlyConcat(s0 + s1 + s2 + s3, s4);
    ReportOnlyConcat(s0 + s1 + s2 + s3 + s4, s5);
    ReportOnlyConcat(s0 + s1 + s2 + s3 + s4 + s5, s6);
    ReportOnlyConcat(s0 + s1 + s2 + s3 + s4 + s5 + s6, s7);
    ReportOnlyConcat(s0 + s1 + s2 + s3 + s4 + s5 + s6 + s7, s8);
    ReportOnlyConcat(s0 + s1 + s2 + s3 + s4 + s5 + s6 + s7 + s8, s9);
  }

  lemma SevenQuiet(s1: seq<Step>, s2: seq<Step>, s3: seq<Step>, s4: seq<Step>, s5: seq<Step>, s6: seq<Step>,
                   s7: seq<Step>)
    ensures ReportOnly(s1 + s2 + s3 + s4 + s5 + s6 + s7) <==>
              && ReportOnly(s1) && ReportOnly(s2) && ReportOnly(s3) && ReportOnly(s4)
              && ReportOnly(s5) && ReportOnly(s6) && ReportOnly(s7)
  {
    ReportOnlyConcat(s1, s2);
    ReportOnlyConcat(s1 + s2, s3);
    ReportOnlyConcat(s1 + s2 + s3, s4);
    ReportOnlyConcat(s1 + s2 + s3 + s4, s5);
    ReportOnlyConcat(s1 + s2 + s3 + s4 + s5, s6);
    ReportOnlyConcat(s1 + s2 + s3 + s4 + s5 + s6, s7);
  }

  /** The optional rows of the second plan are quiet exactly when the row goals of the first are met. */
  lemma RowsMet(d: Desired, b: Account, rows: seq<Row>, later: seq<Row>, e: Env)
    requires AllMatching(rows, later, e) && forall i :: 0 <= i < |later| ==> RowOk(b, later[i])
    ensures (forall i :: 0 <= i < |later| ==> !Drifts(later[i])) <==> forall g :: g in RowGoals(rows, e) ==> Met(b, g)
  {
    RowGoalsOf(rows, e);
    forall i | 0 <= i < |rows| && rows[i].Managed? ensures !Drifts(later[i]) <==> Met(b, RowGoal(rows[i], e)) {
      DriftMet(b, later[i].family, later[i].record, later[i].want, later[i].flat);
    }
    if forall g :: g in RowGoals(rows, e) ==> Met(b, g) {
      forall i | 0 <= i < |later| ensures !Drifts(later[i]) {
        if rows[i].Managed? { assert RowGoal(rows[i], e) in RowGoals(rows, e); }
      }
    }
  }

  // ----- the core steps of the second plan

  lemma ConnectionQuiet(d: Desired, b: Account, r: Record)
    requires CoreConnection(d, b) == Some(r) && Find(Rows(b, Connections), r.id) == Some(r)
    ensures ConnectionSteps(d, b) == [] <==> Met(b, Goal(Connections, r.id, ConnectionWant(d) + OutboundWant(d), false))
  {
    DriftMet(b, Connections, r, ConnectionWant(d), false);
    DriftMet(b, Connections, r, OutboundWant(d), false);
    SplitMet(b, Connections, r.id, ConnectionWant(d), OutboundWant(d));
  }

  lemma SplitMet(b: Account, f: Family, id: Id, x: Body, y: Body)
    requires x.Keys !! y.Keys
    ensures Met(b, Goal(f, id, x + y, false)) <==> Met(b, Goal(f, id, x, false)) && Met(b, Goal(f, id, y, false))
  {
    assert forall k :: k in x ==> (x + y)[k] == x[k];
    assert forall k :: k in y ==> (x + y)[k] == y[k];
  }

  lemma FqdnQuiet(d: Desired, b: Account, r: Record)
    requires CoreConnection(d, b).Some? && CoreFqdn(d, b) == Some(r) && Find(Rows(b, Fqdns), r.id) == Some(r)
    ensures FqdnSteps(d, b) == [] <==> Met(b, Goal(Fqdns, r.id, map[Port := N(d.fqdnPort)], false))
  {
    var port := Drift(r, map[Port := N(d.fqdnPort)], false);
    assert port + map[] == port;
    DriftMet(b, Fqdns, r, map[Port := N(d.fqdnPort)], false);
  }

  lemma NumberQuiet(d: Desired, b: Account, number: Record, c: Id)
    requires CoreConnection(d, b).Some? && CoreConnection(d, b).value.id == c
             && Find(Rows(b, Numbers), number.id) == Some(number)
    ensures NumberSteps(d, b, number) == [] <==> Met(b, Goal(Numbers, number.id, map[ConnId := S(c)], false))
  {
    var want: Body := map[ConnId := S(c)];
    assert ConnId in want && want[ConnId] == S(c);
    assert Holds(b, Numbers, number.id, ConnId, S(c), false) <==> Is(number, ConnId, S(c));
  }

  lemma ProfileQuiet(d: Desired, b: Account, number: Record, r: Record)
    requires CoreProfile(d, b) == Some(r) && Find(Rows(b, Profiles), r.id) == Some(r)
             && Find(Rows(b, Numbers), number.id) == Some(number)
    ensures ProfileSteps(d, b, number) == [] <==>
              Met(b, Goal(Profiles, r.id, ProfileWant(d, r), false))
                  && Met(b, Goal(Numbers, number.id, map[ProfileId := S(r.id)], false))
  {
    DriftMet(b, Profiles, r, ProfileWant(d, r), false);
    DriftMet(b, Numbers, number, map[ProfileId := S(r.id)], false);
  }

  lemma ExtrasQuiet(d: Desired, b: Account, r: Record)
    requires CoreProfile(d, b) == Some(r) && Find(Rows(b, Profiles), r.id) == Some(r)
    ensures ExtrasSteps(d, b) == [] <==> Met(b, Goal(Profiles, r.id, ExtrasWant(d), false))
  {
    DriftMet(b, Profiles, r, ExtrasWant(d), false);
  }

  const BASICS: set<Field> := {Webhook, Mms}

  /** A profile the first plan found disabled is not disabled after its goals are met, and no run disables one. */
  lemma EnabledAfter(d: Desired, a: Account, x: RunFacts, b: Account, r: Record)
    requires Valid(a) && Good(x, a, b) && Find(Rows(b, Profiles), r.id) == Some(r)
    requires CoreProfile(d, a).Some? ==> CoreProfile(d, a).value.id == r.id
    requires CoreProfile(d, a).None? ==> Find(Rows(a, Profiles), r.id).None?
    requires CoreProfile(d, a).Some? && Is(CoreProfile(d, a).value, Enabled, B(false)) ==> Is(r, Enabled, B(true))
    ensures !Is(r, Enabled, B(false))
  {
    LookedUp(a, Profiles, Name, S(d.profileName), Name, S(d.profileName));
    if CoreProfile(d, a).None? || !Is(CoreProfile(d, a).value, Enabled, B(false)) {
      NeverBecomes(a, x.ops, Profiles, r.id, Enabled, B(false));
    }
  }
}
