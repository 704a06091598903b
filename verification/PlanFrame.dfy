/** What a run of scripts/telnyx_reconcile.py leaves alone, and what two runs do. */
module PlanFrame {
  import opened Wrappers
  import opened TelnyxAccount
  import opened Reconciler
  import opened PlanExecution
  import opened PlanValidity
  import opened PlanCore
  import opened PlanGoals
  import opened PlanGoalsMet
  import opened PlanStable
  import opened PlanTwoRuns

  /** A record of the account: its family and its id. */
  type Key = (Family, Id)

  /** The four records that the core of the desired file is about. */
  function CoreKeys(d: Desired, a: Account, ids: Minted, number: Record): set<Key> {
    var e := EnvOf(d, a, ids);
    {(Connections, e.connection), (Fqdns, FqdnId(d, a, ids)), (Numbers, number.id), (Profiles, e.profile)}
  }

  const CORE_FAMILIES: set<Family> := {Connections, Fqdns, Numbers, Profiles}

  /** The records that the optional rows are about. */
  function RowKeys(rows: seq<Row>): set<Key> { set row | row in rows && row.Managed? :: (row.family, row.record.id) }

  /** The families of which the desired file lists rows; the WhatsApp entry is only ever reported on. */
  function Listed(d: Desired): set<Family> {
    (if d.numbers != [] then {Numbers} else {}) + (if d.assistants != [] then {Assistants} else {})
    + (if d.apps != [] then {Applications} else {}) + (if d.ovpLists != [] then {VoiceProfiles} else {})
    + (if d.credentialOvps != [] then {Connections} else {}) + (if d.texmlOvps != [] then {TexmlApps} else {})
    + (if d.recording.Some? then {Voices} else {})
  }

  // ----- the records a plan touches

  function CallKey(call: Call, e: Env, ids: Minted): Key {
    match call
    case Post(f, _) => (f, IdFor(ids, f))
    case Patch(f, t, _) => (f, match t case Known(id) => id case Connection => e.connection case Profile => e.profile)
    case ExtrasOnCreated(_) => (Profiles, e.profile)
  }

  predicate StepWithin(step: Step, e: Env, ids: Minted, keys: set<Key>) {
    step.Do? ==> forall call :: call in step.calls ==> CallKey(call, e, ids) in keys
  }

  predicate StepsWithin(steps: seq<Step>, e: Env, ids: Minted, keys: set<Key>) {
    forall step :: step in steps ==> StepWithin(step, e, ids, keys)
  }

  lemma {:induction false} CallsWithin(steps: seq<Step>, e: Env, ids: Minted, keys: set<Key>)
    requires StepsWithin(steps, e, ids, keys)
    ensures forall call :: call in Calls(steps) ==> CallKey(call, e, ids) in keys
    decreases |steps|
  {
    if steps != [] {
      CallsWithin(steps[1..], e, ids, keys);
      assert StepWithin(steps[0], e, ids, keys);
    }
  }

  lemma {:induction false} OpsWithin(calls: seq<Call>, e: Env, ids: Minted, keys: set<Key>)
    requires forall call :: call in calls ==> CallKey(call, e, ids) in keys
    ensures forall op :: op in Ops(calls, e, ids) ==> (op.family, op.id) in keys
    decreases |calls|
  {
    if calls != [] {
      OpsWithin(calls[1..], e, ids, keys);
      assert CallKey(calls[0], e, ids) in keys;
      assert forall op :: op in OpsOf(calls[0], e, ids) ==> (op.family, op.id) == CallKey(calls[0], e, ids);
    }
  }

  lemma SectionWithin(steps: seq<Step>, e: Env, ids: Minted, keys: set<Key>)
    requires StepsWithin(steps, e, ids, keys)
    ensures forall op :: op in Ops(Calls(steps), e, ids) ==> (op.family, op.id) in keys
  {
    CallsWithin(steps, e, ids, keys);
    OpsWithin(Calls(steps), e, ids, keys);
  }

  lemma ConnectionStepsWithin(d: Desired, a: Account, ids: Minted, number: Record)
    ensures StepsWithin(ConnectionSteps(d, a), EnvOf(d, a, ids), ids, CoreKeys(d, a, ids, number))
    ensures StepsWithin(FqdnSteps(d, a), EnvOf(d, a, ids), ids, CoreKeys(d, a, ids, number))
  {
  }

  lemma ProfileStepsWithin(d: Desired, a: Account, ids: Minted, number: Record)
    ensures StepsWithin(NumberSteps(d, a, number), EnvOf(d, a, ids), ids, CoreKeys(d, a, ids, number))
    ensures StepsWithin(ProfileSteps(d, a, number), EnvOf(d, a, ids), ids, CoreKeys(d, a, ids, number))
    ensures StepsWithin(ExtrasSteps(d, a), EnvOf(d, a, ids), ids, CoreKeys(d, a, ids, number))
  {
  }

  lemma {:induction false} RowStepsWithin(rows: seq<Row>, e: Env, ids: Minted)
    ensures StepsWithin(RowSteps(rows), e, ids, RowKeys(rows))
    decreases |rows|
  {
    if rows != [] {
      RowStepsWithin(rows[1..], e, ids);
      assert RowKeys(rows[1..]) <= RowKeys(rows);
      if rows[0].Managed? { assert rows[0] in rows; }
    }
  }

  /** Every operation of a plan is about a core record or about the record of a row. */
  lemma PlanWithin(d: Desired, a: Account, ids: Minted, number: Record)
    ensures forall op :: op in PlanOps(d, a, number, ids) ==>
              (op.family, op.id) in CoreKeys(d, a, ids, number) + RowKeys(AllRows(d, a))
  {
    var e, keys := EnvOf(d, a, ids), CoreKeys(d, a, ids, number);
    ConnectionStepsWithin(d, a, ids, number);
    ProfileStepsWithin(d, a, ids, number);
    RowStepsWithin(AllRows(d, a), e, ids);
    SectionWithin(ConnectionSteps(d, a), e, ids, keys);
    SectionWithin(FqdnSteps(d, a), e, ids, keys);
    SectionWithin(NumberSteps(d, a, number), e, ids, keys);
    SectionWithin(ProfileSteps(d, a, number), e, ids, keys);
    SectionWithin(ExtrasSteps(d, a), e, ids, keys);
    SectionWithin(RowSteps(AllRows(d, a)), e, ids, RowKeys(AllRows(d, a)));
    PlanSections(d, a, number, ids);
  }

  // ----- the families of the rows

  predicate Lane(rows: seq<Row>, f: Family) { forall i :: 0 <= i < |rows| ==> rows[i].Managed? ==> rows[i].family == f }

  lemma FirstLanes(d: Desired, a: Account)
    ensures Lane(NumberRows(d, a), Numbers) && Lane(AssistantRows(d, a), Assistants)
    ensures Lane(AppRows(d, a), Applications) && Lane(ListRows(d, a), VoiceProfiles)
  {
  }

  lemma LastLanes(d: Desired, a: Account)
    ensures Lane(CredentialRows(d, a), Connections) && Lane(TexmlRows(d, a), TexmlApps)
    ensures Lane(RecordingRows(d, a), Voices)
  {
  }

  lemma LaneSizes(d: Desired, a: Account)
    ensures |NumberRows(d, a)| == |d.numbers| && |AssistantRows(d, a)| == |d.assistants|
    ensures |AppRows(d, a)| == |d.apps| && |ListRows(d, a)| == |d.ovpLists|
    ensures |CredentialRows(d, a)| == |d.credentialOvps| && |TexmlRows(d, a)| == |d.texmlOvps|
    ensures d.recording.None? ==> RecordingRows(d, a) == []
  {
  }

  lemma SevenLanes(
    x1: seq<Row>, x2: seq<Row>, x3: seq<Row>, x4: seq<Row>, x5: seq<Row>, x6: seq<Row>, x7: seq<Row>, row: Row)
    requires Lane(x1, Numbers) && Lane(x2, Assistants) && Lane(x3, Applications) && Lane(x4, VoiceProfiles)
    requires Lane(x5, Connections) && Lane(x6, TexmlApps) && Lane(x7, Voices)
    requires row in x1 + x2 + x3 + x4 + x5 + x6 + x7 && row.Managed?
    ensures || (row.family == Numbers && x1 != []) || (row.family == Assistants && x2 != [])
            || (row.family == Applications && x3 != []) || (row.family == VoiceProfiles && x4 != [])
            || (row.family == Connections && x5 != []) || (row.family == TexmlApps && x6 != [])
            || (row.family == Voices && x7 != [])
  {
  }

  lemma RowsAreListed(d: Desired, a: Account, key: Key)
    requires key in RowKeys(AllRows(d, a))
    ensures key.0 in Listed(d)
  {
    var row :| row in AllRows(d, a) && row.Managed? && key == (row.family, row.record.id);
    FirstLanes(d, a);
    LastLanes(d, a);
    LaneSizes(d, a);
    SevenLanes(NumberRows(d, a), AssistantRows(d, a), AppRows(d, a), ListRows(d, a), CredentialRows(d, a),
               TexmlRows(d, a), RecordingRows(d, a), row);
  }

  // ----- what operations leave alone

  lemma {:induction false} OtherFamiliesStay(a: Account, ops: seq<Op>, f: Family)
    requires RunOps(a, ops).Some? && forall op :: op in ops ==> op.family != f
    ensures Rows(RunOps(a, ops).value, f) == Rows(a, f)
    decreases |ops|
  {
    if ops != [] { OtherFamiliesStay(Perform(a, ops[0]), ops[1..], f); }
  }

  lemma {:induction false} OtherRecordsStay(a: Account, ops: seq<Op>, f: Family, id: Id)
    requires RunOps(a, ops).Some? && forall op :: op in ops ==> op.family != f || op.id != id
    ensures Find(Rows(RunOps(a, ops).value, f), id) == Find(Rows(a, f), id)
    decreases |ops|
  {
    if ops != [] {
      FindAfter(a, ops[0], f, id);
      OtherRecordsStay(Perform(a, ops[0]), ops[1..], f, id);
    }
  }

  // ----- one run, with or without the core connection

  /** A run leaves alone every record that no goal is about. */
  lemma OthersUntouched(d: Desired, a: Account, ids: Minted, f: Family, id: Id)
    requires Valid(a) && Fresh(a, ids) && BuildPlan(d, a).Some?
    requires forall g :: g in Goals(d, a, ids, CoreNumber(d, a).value) ==> g.family != f || g.id != id
    ensures var b := ApplyPlan(d, a, BuildPlan(d, a).value, ids);
            b.Some? && Find(Rows(b.value, f), id) == Find(Rows(a, f), id)
  {
    var number := CoreNumber(d, a).value;
    ApplyIsNeverRefused(d, a, ids);
    PlanWithin(d, a, ids, number);
    KeysAreGoals(d, a, ids, number);
    UnaimedStays(a, PlanOps(d, a, number, ids), CoreKeys(d, a, ids, number) + RowKeys(AllRows(d, a)),
                 Goals(d, a, ids, number), f, id);
  }

  /** Some goal is about the record. */
  ghost predicate Aimed(gs: seq<Goal>, key: Key) { exists g :: g in gs && g.family == key.0 && g.id == key.1 }

  lemma KeysAreGoals(d: Desired, a: Account, ids: Minted, number: Record)
    ensures forall key :: key in CoreKeys(d, a, ids, number) + RowKeys(AllRows(d, a)) ==>
              Aimed(Goals(d, a, ids, number), key)
  {
    var core, rest := CoreGoals(d, a, ids, number), RowGoals(AllRows(d, a), EnvOf(d, a, ids));
    RowKeysAreGoals(AllRows(d, a), EnvOf(d, a, ids));
    CoreKeysAreGoals(d, a, ids, number);
    MoreGoals(core, rest, CoreKeys(d, a, ids, number), RowKeys(AllRows(d, a)));
  }

  lemma MoreGoals(core: seq<Goal>, rest: seq<Goal>, x: set<Key>, y: set<Key>)
    requires (forall key :: key in x ==> Aimed(core, key)) && (forall key :: key in y ==> Aimed(rest, key))
    ensures forall key :: key in x + y ==> Aimed(core + rest, key)
  {
    forall key | key in x + y ensures Aimed(core + rest, key) {
      var g :| (g in core || g in rest) && g.family == key.0 && g.id == key.1;
      assert g in core + rest;
    }
  }

  lemma CoreKeysAreGoals(d: Desired, a: Account, ids: Minted, number: Record)
    ensures forall key :: key in CoreKeys(d, a, ids, number) ==> Aimed(CoreGoals(d, a, ids, number), key)
  {
    var core, e := CoreGoals(d, a, ids, number), EnvOf(d, a, ids);
    FourAimed(core, (Connections, e.connection), (Fqdns, FqdnId(d, a, ids)), (Numbers, number.id),
              (Profiles, e.profile));
  }

  lemma FourAimed(core: seq<Goal>, w: Key, x: Key, y: Key, z: Key)
    requires |core| == 6 && (core[0].family, core[0].id) == w && (core[1].family, core[1].id) == x
    requires (core[2].family, core[2].id) == y && (core[4].family, core[4].id) == z
    ensures Aimed(core, w) && Aimed(core, x) && Aimed(core, y) && Aimed(core, z)
  {
    assert core[0] in core && core[1] in core && core[2] in core && core[4] in core;
  }

  lemma RowKeysAreGoals(rows: seq<Row>, e: Env)
    ensures forall key :: key in RowKeys(rows) ==> Aimed(RowGoals(rows, e), key)
  {
    RowGoalsOf(rows, e);
    forall key | key in RowKeys(rows) ensures Aimed(RowGoals(rows, e), key) {
      var row :| row in rows && row.Managed? && key == (row.family, row.record.id);
      var i :| 0 <= i < |rows| && rows[i] == row;
      assert RowGoal(rows[i], e) in RowGoals(rows, e);
    }
  }

  lemma UnaimedStays(a: Account, ops: seq<Op>, keys: set<Key>, gs: seq<Goal>, f: Family, id: Id)
    requires RunOps(a, ops).Some? && (forall op :: op in ops ==> (op.family, op.id) in keys)
    requires forall key :: key in keys ==> Aimed(gs, key)
    requires forall g :: g in gs ==> g.family != f || g.id != id
    ensures Find(Rows(RunOps(a, ops).value, f), id) == Find(Rows(a, f), id)
  {
    OtherRecordsStay(a, ops, f, id);
  }

  /** Every operation of a plan is about a core record, or of a listed family. */
  lemma PlanIsListed(d: Desired, a: Account, ids: Minted, number: Record)
    ensures OnlyThese(PlanOps(d, a, number, ids), CoreKeys(d, a, ids, number), Listed(d))
  {
    PlanWithin(d, a, ids, number);
    RowKeysListed(d, a);
    TheseAreListed(PlanOps(d, a, number, ids), CoreKeys(d, a, ids, number), RowKeys(AllRows(d, a)), Listed(d));
  }

  predicate OnlyThese(ops: seq<Op>, core: set<Key>, listed: set<Family>) {
    forall op :: op in ops ==> (op.family, op.id) in core || op.family in listed
  }

  lemma TheseAreListed(ops: seq<Op>, core: set<Key>, rows: set<Key>, listed: set<Family>)
    requires forall op :: op in ops ==> (op.family, op.id) in core + rows
    requires forall key :: key in rows ==> key.0 in listed
    ensures OnlyThese(ops, core, listed)
  {
  }

  lemma RowKeysListed(d: Desired, a: Account)
    ensures forall key :: key in RowKeys(AllRows(d, a)) ==> key.0 in Listed(d)
  {
    forall key | key in RowKeys(AllRows(d, a)) ensures key.0 in Listed(d) { RowsAreListed(d, a, key); }
  }

  lemma RecordStays(a: Account, ops: seq<Op>, core: set<Key>, listed: set<Family>, f: Family, id: Id)
    requires RunOps(a, ops).Some? && OnlyThese(ops, core, listed) && f !in listed && (f, id) !in core
    ensures Find(Rows(RunOps(a, ops).value, f), id) == Find(Rows(a, f), id)
  {
    OtherRecordsStay(a, ops, f, id);
  }

  lemma FamilyStays(a: Account, ops: seq<Op>, core: set<Key>, listed: set<Family>, f: Family)
    requires RunOps(a, ops).Some? && OnlyThese(ops, core, listed)
    requires f !in listed && forall key :: key in core ==> key.0 != f
    ensures Rows(RunOps(a, ops).value, f) == Rows(a, f)
  {
    OtherFamiliesStay(a, ops, f);
  }

  /** Of a family without rows, a run touches the core record at most. */
  lemma UnlistedUntouched(d: Desired, a: Account, ids: Minted, f: Family, id: Id)
    requires Valid(a) && Fresh(a, ids) && BuildPlan(d, a).Some?
    requires f !in Listed(d) && (f, id) !in CoreKeys(d, a, ids, CoreNumber(d, a).value)
    ensures var b := ApplyPlan(d, a, BuildPlan(d, a).value, ids);
            b.Some? && Find(Rows(b.value, f), id) == Find(Rows(a, f), id)
  {
    var number := CoreNumber(d, a).value;
    ApplyIsNeverRefused(d, a, ids);
    PlanIsListed(d, a, ids, number);
    RecordStays(a, PlanOps(d, a, number, ids), CoreKeys(d, a, ids, number), Listed(d), f, id);
  }

  /** A family that is neither listed nor of the core stays as it is, in contents and in order. */
  lemma AbsentFamiliesUntouched(d: Desired, a: Account, ids: Minted, f: Family)
    requires Valid(a) && Fresh(a, ids) && BuildPlan(d, a).Some? && f !in Listed(d) && f !in CORE_FAMILIES
    ensures var b := ApplyPlan(d, a, BuildPlan(d, a).value, ids);
            b.Some? && Rows(b.value, f) == Rows(a, f)
  {
    var number := CoreNumber(d, a).value;
    ApplyIsNeverRefused(d, a, ids);
    PlanIsListed(d, a, ids, number);
    CoreKeyFamilies(d, a, ids, number);
    FamilyStays(a, PlanOps(d, a, number, ids), CoreKeys(d, a, ids, number), Listed(d), f);
  }

  lemma CoreKeyFamilies(d: Desired, a: Account, ids: Minted, number: Record)
    ensures forall key :: key in CoreKeys(d, a, ids, number) ==> key.0 in CORE_FAMILIES
  {
  }

  lemma ConnectionIsNoKey(d: Desired, a: Account, ids: Minted, number: Record, id: Id)
    requires d.credentialOvps == [] && id != EnvOf(d, a, ids).connection
    ensures Connections !in Listed(d) && (Connections, id) !in CoreKeys(d, a, ids, number)
  {
  }

  lemma NumberIsNoKey(d: Desired, a: Account, ids: Minted, number: Record, id: Id)
    requires d.numbers == [] && id != number.id
    ensures Numbers !in Listed(d) && (Numbers, id) !in CoreKeys(d, a, ids, number)
  {
  }

  /** Without credential rows, a run leaves every connection alone but the core one, found or made. */
  lemma OtherConnectionsUntouched(d: Desired, a: Account, ids: Minted, id: Id)
    requires Valid(a) && Fresh(a, ids) && BuildPlan(d, a).Some? && d.credentialOvps == []
    requires id != EnvOf(d, a, ids).connection
    ensures var b := ApplyPlan(d, a, BuildPlan(d, a).value, ids);
            b.Some? && Find(Rows(b.value, Connections), id) == Find(Rows(a, Connections), id)
  {
    ConnectionIsNoKey(d, a, ids, CoreNumber(d, a).value, id);
    UnlistedUntouched(d, a, ids, Connections, id);
  }

  /** Without number rows, a run leaves every number alone but the core one. */
  lemma OtherNumbersUntouched(d: Desired, a: Account, ids: Minted, id: Id)
    requires Valid(a) && Fresh(a, ids) && BuildPlan(d, a).Some? && d.numbers == [] && id != CoreNumber(d, a).value.id
    ensures var b := ApplyPlan(d, a, BuildPlan(d, a).value, ids);
            b.Some? && Find(Rows(b.value, Numbers), id) == Find(Rows(a, Numbers), id)
  {
    NumberIsNoKey(d, a, ids, CoreNumber(d, a).value, id);
    UnlistedUntouched(d, a, ids, Numbers, id);
  }

  // ----- two runs

  /** `b` is what a run makes of `a`. */
  ghost predicate RunTo(d: Desired, a: Account, ids: Minted, b: Account) {
    && Valid(a) && Fresh(a, ids) && BuildPlan(d, a).Some?
    && ApplyPlan(d, a, BuildPlan(d, a).value, ids) == Some(b)
  }

  lemma FirstIsNew(d: Desired, ids: Minted, ops: seq<Op>)
    requires |ops| > 0 && ops[0] == NewConnection(d, ids)
    ensures FirstPost(ops, Connections, Kind, FQDN_KIND, ConnName, S(d.connectionName)) == Some(ids.connection)
  {
  }

  lemma ConnectionLooked(d: Desired, a: Account, ops: seq<Op>, b: Account)
    requires AllTame(ops) && RunOps(a, ops) == Some(b)
    ensures IdOf(CoreConnection(d, b))
         == Else(IdOf(CoreConnection(d, a)),
                 FirstPost(ops, Connections, Kind, FQDN_KIND, ConnName, S(d.connectionName)))
  {
    LookedUpFieldsStay(ops, Connections, Kind, ConnName);
    LooksAfter(a, ops, Connections, Kind, FQDN_KIND, ConnName, S(d.connectionName));
  }

  lemma ConnectionKept(d: Desired, a: Account, ids: Minted, number: Record, ops: seq<Op>, b: Account)
    requires Valid(a) && CoreNumber(d, a) == Some(number) && RecordingValid(d) && ops == PlanOps(d, a, number, ids)
    requires AllTame(ops) && RunOps(a, ops) == Some(b)
    ensures IdOf(CoreConnection(d, b)) == Some(EnvOf(d, a, ids).connection)
  {
    ConnectionLooked(d, a, ops, b);
    if CoreConnection(d, a).None? {
      MakesConnection(d, a, number, ids, ops);
      FirstIsNew(d, ids, ops);
    }
  }

  lemma NumberKept(d: Desired, a: Account, ops: seq<Op>, b: Account)
    requires AllTame(ops) && RunOps(a, ops) == Some(b) && CoreNumber(d, a).Some?
    ensures IdOf(CoreNumber(d, b)) == Some(CoreNumber(d, a).value.id)
  {
    LookedUpFieldsStay(ops, Numbers, PhoneNumber, PhoneNumber);
    LooksAfter(a, ops, Numbers, PhoneNumber, S(d.phoneNumber), PhoneNumber, S(d.phoneNumber));
  }

  /** After a run the core connection and the core number are the records the run was about. */
  lemma CoreKept(d: Desired, a: Account, ids: Minted, b: Account)
    requires RunTo(d, a, ids, b)
    ensures Valid(b) && BuildPlan(d, b).Some?
    ensures IdOf(CoreConnection(d, b)) == Some(EnvOf(d, a, ids).connection)
    ensures IdOf(CoreNumber(d, b)) == Some(CoreNumber(d, a).value.id)
  {
    var number := CoreNumber(d, a).value;
    ApplyIsNeverRefused(d, a, ids);
    ConnectionKept(d, a, ids, number, PlanOps(d, a, number, ids), b);
    NumberKept(d, a, PlanOps(d, a, number, ids), b);
  }

  /** Two runs leave alone every record that is no goal's of either. */
  lemma TwoRunsOthersUntouched(d: Desired, a: Account, ids: Minted, b: Account, next: Minted, c: Account, f: Family,
                               id: Id)
    requires RunTo(d, a, ids, b) && RunTo(d, b, next, c)
    requires forall g :: g in Goals(d, a, ids, CoreNumber(d, a).value) ==> g.family != f || g.id != id
    requires forall g :: g in Goals(d, b, next, CoreNumber(d, b).value) ==> g.family != f || g.id != id
    ensures Find(Rows(c, f), id) == Find(Rows(a, f), id)
  {
    OthersUntouched(d, a, ids, f, id);
    OthersUntouched(d, b, next, f, id);
  }

  /**
   * Two runs, the first of which may make the core connection, leave alone the families that are neither
   * listed nor of the core, the connections and the numbers too but for the core ones where they are not listed.
   */
  lemma TwoRunsLeaveAlone(d: Desired, a: Account, ids: Minted, b: Account, next: Minted, c: Account)
    requires RunTo(d, a, ids, b) && RunTo(d, b, next, c)
    ensures forall f :: f !in Listed(d) && f !in CORE_FAMILIES ==> Rows(c, f) == Rows(a, f)
    ensures d.credentialOvps == [] ==>
              forall id :: id != EnvOf(d, a, ids).connection ==>
                  Find(Rows(c, Connections), id) == Find(Rows(a, Connections), id)
    ensures d.numbers == [] ==>
              forall id :: id != CoreNumber(d, a).value.id ==> Find(Rows(c, Numbers), id) == Find(Rows(a, Numbers), id)
  {
    CoreKept(d, a, ids, b);
    forall f | f !in Listed(d) && f !in CORE_FAMILIES ensures Rows(c, f) == Rows(a, f) {
      AbsentFamiliesUntouched(d, a, ids, f);
      AbsentFamiliesUntouched(d, b, next, f);
    }
    if d.credentialOvps == [] {
      forall id | id != EnvOf(d, a, ids).connection
          ensures Find(Rows(c, Connections), id) == Find(Rows(a, Connections), id) {
        OtherConnectionsUntouched(d, a, ids, id);
        OtherConnectionsUntouched(d, b, next, id);
      }
    }
    if d.numbers == [] {
      forall id | id != CoreNumber(d, a).value.id ensures Find(Rows(c, Numbers), id) == Find(Rows(a, Numbers), id) {
        OtherNumbersUntouched(d, a, ids, id);
        OtherNumbersUntouched(d, b, next, id);
      }
    }
  }
}
