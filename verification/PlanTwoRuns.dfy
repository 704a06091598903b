/**
 * Two runs of scripts/telnyx_reconcile.py always suffice for a desired file without contradictory
 * rows: the first makes the core connection if it is missing, the next settles everything.
 */
module PlanTwoRuns {
  import opened Wrappers
  import opened TelnyxAccount
  import opened Reconciler
  import opened PlanExecution
  import opened PlanValidity
  import opened PlanCore
  import opened PlanGoals
  import opened PlanGoalsMet
  import opened PlanStable
  import opened PlanRowsMatch
  import opened PlanConvergence

  /** Unique names, and a row for the core number that agrees with the core. */
  ghost predicate UniquePins(d: Desired) {
    && (forall i, j :: 0 <= i < j < |d.numbers| ==> d.numbers[i].number != d.numbers[j].number)
    && (forall i, j :: 0 <= i < j < |d.assistants| ==> d.assistants[i].name != d.assistants[j].name)
    && (forall i, j :: 0 <= i < j < |d.apps| ==> d.apps[i].id != d.apps[j].id)
    && (forall i, j :: 0 <= i < j < |d.ovpLists| ==> d.ovpLists[i].name != d.ovpLists[j].name)
    && (forall i, j :: 0 <= i < j < |d.credentialOvps| ==> d.credentialOvps[i].name != d.credentialOvps[j].name)
    && (forall i, j :: 0 <= i < j < |d.texmlOvps| ==> d.texmlOvps[i].name != d.texmlOvps[j].name)
    && (forall pin :: pin in d.numbers && pin.number == d.phoneNumber ==>
          (pin.connection.Some? ==> pin.connection.value == d.connectionName)
              && (pin.profile.Some? ==> pin.profile.value == d.profileName))
  }

  /** No other kind of connection has the core's name, and no two assistants share a minted application name. */
  ghost predicate UniqueNames(d: Desired, a: Account) {
    && (forall r :: r in Rows(a, Connections) && Is(r, ConnName, S(d.connectionName)) ==> Is(r, Kind, FQDN_KIND))
    && (forall r, s :: r in Rows(a, Assistants) && s in Rows(a, Assistants) && TexmlName(r.id) == TexmlName(s.id) ==>
        r.id == s.id)
  }

  // ----- the rows of a family name different records

  ghost predicate Apart(rows: seq<Row>) {
    forall i, j ::
      0 <= i < j < |rows| && rows[i].Managed? && rows[j].Managed? && rows[i].family == rows[j].family ==>
        rows[i].record.id != rows[j].record.id
  }

  ghost predicate OtherFamilies(x: seq<Row>, y: seq<Row>) {
    forall r, s :: r in x && s in y && r.Managed? && s.Managed? ==> r.family != s.family
  }

  lemma ApartConcat(x: seq<Row>, y: seq<Row>)
    requires Apart(x) && Apart(y) && OtherFamilies(x, y)
    ensures Apart(x + y)
  {
  }

  lemma DistinctLookups(a: Account, f: Family, k: Field, v: Value, j: Field, w: Value, v2: Value, w2: Value)
    requires Valid(a) && (v != v2 || w != w2)
    ensures var r, s := Lookup2(Rows(a, f), k, v, j, w), Lookup2(Rows(a, f), k, v2, j, w2);
            r.Some? && s.Some? ==> r.value.id != s.value.id
  {
    LookedUp(a, f, k, v, j, w);
    LookedUp(a, f, k, v2, j, w2);
  }

  lemma NumberPairApart(d: Desired, a: Account, x: NumberPin, y: NumberPin)
    requires Valid(a) && x.number != y.number && NumberRow(d, a, x).Managed? && NumberRow(d, a, y).Managed?
    ensures NumberRow(d, a, x).record.id != NumberRow(d, a, y).record.id
  {
    DistinctLookups(a, Numbers, PhoneNumber, S(x.number), PhoneNumber, S(x.number), S(y.number), S(y.number));
  }

  lemma NumbersApart(d: Desired, a: Account)
    requires Valid(a) && UniquePins(d)
    ensures Apart(NumberRows(d, a))
  {
    var rows := NumberRows(d, a);
    forall i, j | 0 <= i < j < |rows| && rows[i].Managed? && rows[j].Managed?
        ensures rows[i].record.id != rows[j].record.id {
      NumberPairApart(d, a, d.numbers[i], d.numbers[j]);
    }
  }

  lemma AssistantsApart(d: Desired, a: Account)
    requires Valid(a) && UniquePins(d)
    ensures Apart(AssistantRows(d, a))
  {
    var rows := AssistantRows(d, a);
    forall i, j | 0 <= i < j < |rows| && rows[i].Managed? && rows[j].Managed?
        ensures rows[i].record.id != rows[j].record.id {
      var v, v2 := S(d.assistants[i].name), S(d.assistants[j].name);
      DistinctLookups(a, Assistants, Name, v, Name, v, v2, v2);
    }
  }

  lemma AppsApart(d: Desired, a: Account)
    requires UniquePins(d)
    ensures Apart(AppRows(d, a))
  {
  }

  lemma ListsApart(d: Desired, a: Account)
    requires Valid(a) && UniquePins(d)
    ensures Apart(ListRows(d, a))
  {
    var rows := ListRows(d, a);
    forall i, j | 0 <= i < j < |rows| && rows[i].Managed? && rows[j].Managed?
        ensures rows[i].record.id != rows[j].record.id {
      var v, v2 := S(d.ovpLists[i].name), S(d.ovpLists[j].name);
      DistinctLookups(a, VoiceProfiles, Name, v, Name, v, v2, v2);
    }
  }

  lemma CredentialsApart(d: Desired, a: Account)
    requires Valid(a) && UniquePins(d)
    ensures Apart(CredentialRows(d, a))
  {
    var rows := CredentialRows(d, a);
    forall i, j | 0 <= i < j < |rows| && rows[i].Managed? && rows[j].Managed?
        ensures rows[i].record.id != rows[j].record.id {
      DistinctLookups(a, Connections, Kind, CREDENTIAL_KIND, ConnName, S(d.credentialOvps[i].name), CREDENTIAL_KIND,
                      S(d.credentialOvps[j].name));
    }
  }

  lemma TexmlPairApart(a: Account, x: NamedPin, y: NamedPin)
    requires Valid(a) && x.name != y.name && TexmlRow(a, x).Managed? && TexmlRow(a, y).Managed?
    requires forall r, s ::
               r in Rows(a, Assistants) && s in Rows(a, Assistants) && TexmlName(r.id) == TexmlName(s.id) ==>
                 r.id == s.id
    ensures TexmlRow(a, x).record.id != TexmlRow(a, y).record.id
  {
    DistinctLookups(a, Assistants, Name, S(x.name), Name, S(x.name), S(y.name), S(y.name));
    LookupFinds(Rows(a, Assistants), Name, S(x.name), Name, S(x.name));
    LookupFinds(Rows(a, Assistants), Name, S(y.name), Name, S(y.name));
    var v, v2 := S(TexmlName(AssistantNamed(a, x.name).value.id)), S(TexmlName(AssistantNamed(a, y.name).value.id));
    DistinctLookups(a, TexmlApps, FriendlyName, v, FriendlyName, v, v2, v2);
  }

  lemma TexmlApart(d: Desired, a: Account)
    requires Valid(a) && UniquePins(d) && UniqueNames(d, a)
    ensures Apart(TexmlRows(d, a))
  {
    var rows := TexmlRows(d, a);
    forall i, j | 0 <= i < j < |rows| && rows[i].Managed? && rows[j].Managed?
        ensures rows[i].record.id != rows[j].record.id {
      TexmlPairApart(a, d.texmlOvps[i], d.texmlOvps[j]);
    }
  }

  lemma RecordingsApart(d: Desired, a: Account)
    requires Valid(a)
    ensures Apart(RecordingRows(d, a))
  {
    var rows := RecordingRows(d, a);
    forall i, j | 0 <= i < j < |rows| && rows[i].Managed? && rows[j].Managed?
        ensures rows[i].record.id != rows[j].record.id {
      assert rows[i].record.id == Rows(a, Numbers)[i].id && rows[j].record.id == Rows(a, Numbers)[j].id;
    }
  }

  /** All rows of the lane are of one family. */
  ghost predicate Within(rows: seq<Row>, fs: set<Family>) { forall r :: r in rows && r.Managed? ==> r.family in fs }

  lemma WithinConcat(x: seq<Row>, y: seq<Row>, f: set<Family>, g: set<Family>)
    requires Within(x, f) && Within(y, g) && Apart(x) && Apart(y) && f !! g
    ensures Within(x + y, f + g) && Apart(x + y)
  {
    ApartConcat(x, y);
  }

  lemma SevenApart(x1: seq<Row>, x2: seq<Row>, x3: seq<Row>, x4: seq<Row>, x5: seq<Row>, x6: seq<Row>, x7: seq<Row>)
    requires Within(x1, {Numbers}) && Within(x2, {Assistants}) && Within(x3, {Applications})
             && Within(x4, {VoiceProfiles})
    requires Within(x5, {Connections}) && Within(x6, {TexmlApps}) && Within(x7, {Voices})
    requires Apart(x1) && Apart(x2) && Apart(x3) && Apart(x4) && Apart(x5) && Apart(x6) && Apart(x7)
    ensures Apart(x1 + x2 + x3 + x4 + x5 + x6 + x7)
  {
    WithinConcat(x1, x2, {Numbers}, {Assistants});
    WithinConcat(x1 + x2, x3, {Numbers} + {Assistants}, {Applications});
    WithinConcat(x1 + x2 + x3, x4, {Numbers} + {Assistants} + {Applications}, {VoiceProfiles});
    WithinConcat(x1 + x2 + x3 + x4, x5, {Numbers} + {Assistants} + {Applications} + {VoiceProfiles}, {Connections});
    WithinConcat(x1 + x2 + x3 + x4 + x5, x6,
                 {Numbers} + {Assistants} + {Applications} + {VoiceProfiles} + {Connections}, {TexmlApps});
    WithinConcat(x1 + x2 + x3 + x4 + x5 + x6, x7,
                 {Numbers} + {Assistants} + {Applications} + {VoiceProfiles} + {Connections} + {TexmlApps}, {Voices});
  }

  lemma LanesWithin(d: Desired, a: Account)
    ensures Within(NumberRows(d, a), {Numbers}) && Within(AssistantRows(d, a), {Assistants})
            && Within(AppRows(d, a), {Applications})
    ensures Within(ListRows(d, a), {VoiceProfiles}) && Within(CredentialRows(d, a), {Connections})
            && Within(TexmlRows(d, a), {TexmlApps})
    ensures Within(RecordingRows(d, a), {Voices})
  {
  }

  lemma RowsApart(d: Desired, a: Account)
    requires Valid(a) && UniquePins(d) && UniqueNames(d, a)
    ensures Apart(AllRows(d, a))
  {
    NumbersApart(d, a);
    AssistantsApart(d, a);
    AppsApart(d, a);
    ListsApart(d, a);
    CredentialsApart(d, a);
    TexmlApart(d, a);
    RecordingsApart(d, a);
    LanesWithin(d, a);
    SevenApart(NumberRows(d, a), AssistantRows(d, a), AppRows(d, a), ListRows(d, a), CredentialRows(d, a),
               TexmlRows(d, a), RecordingRows(d, a));
  }

  // ----- the rows against the core

  /** Looking for the name alone finds the same record when only one kind has it. */
  lemma {:induction false} SameLookup(rs: seq<Record>, k: Field, v: Value, j: Field, w: Value)
    requires forall r :: r in rs && Is(r, j, w) ==> Is(r, k, v)
    ensures Lookup2(rs, k, v, j, w) == Lookup(rs, j, w)
    decreases |rs|
  {
    if rs != [] {
      assert rs[0] in rs;
      SameLookup(rs[1..], k, v, j, w);
    }
  }

  /** A row about the core number has the core number's name. */
  lemma CorePinName(d: Desired, a: Account, number: Record, pin: NumberPin)
    requires Valid(a) && CoreNumber(d, a) == Some(number)
    requires NumberRow(d, a, pin).Managed? && NumberRow(d, a, pin).record.id == number.id
    ensures pin.number == d.phoneNumber
  {
    LookedUp(a, Numbers, PhoneNumber, S(pin.number), PhoneNumber, S(pin.number));
    LookedUp(a, Numbers, PhoneNumber, S(d.phoneNumber), PhoneNumber, S(d.phoneNumber));
  }

  lemma CorePinWants(d: Desired, a: Account, ids: Minted, number: Record, pin: NumberPin, e: Env)
    requires Valid(a) && UniquePins(d) && UniqueNames(d, a) && CoreNumber(d, a) == Some(number)
             && CoreConnection(d, a).Some?
    requires e == EnvOf(d, a, ids) && pin in d.numbers && NumberRow(d, a, pin).Managed?
             && NumberRow(d, a, pin).record.id == number.id
    ensures var want := RowGoal(NumberRow(d, a, pin), e).want;
            (ConnId in want ==> want[ConnId] == S(e.connection))
                && (ProfileId in want ==> want[ProfileId] == S(e.profile))
  {
    CorePinName(d, a, number, pin);
    SameLookup(Rows(a, Connections), Kind, FQDN_KIND, ConnName, S(d.connectionName));
    CorePinFields(d, a, pin, e);
  }

  /** A row that names the core connection and profile, where it names any, wants the core's. */
  lemma CorePinFields(d: Desired, a: Account, pin: NumberPin, e: Env)
    requires NumberRow(d, a, pin).Managed?
    requires pin.connection.Some? ==> pin.connection.value == d.connectionName
    requires pin.profile.Some? ==> pin.profile.value == d.profileName
    requires IdOf(Lookup(Rows(a, Connections), ConnName, S(d.connectionName))) == Some(e.connection)
    requires CoreProfile(d, a).Some? ==> CoreProfile(d, a).value.id == e.profile
    ensures var want := RowGoal(NumberRow(d, a, pin), e).want;
            (ConnId in want ==> want[ConnId] == S(e.connection))
                && (ProfileId in want ==> want[ProfileId] == S(e.profile))
  {
  }

  lemma NumberGoalCompatible(d: Desired, a: Account, ids: Minted, number: Record, e: Env, g: Goal)
    requires e == EnvOf(d, a, ids) && g.family == Numbers
    requires (ConnId in g.want ==> g.want[ConnId] == S(e.connection))
             && (ProfileId in g.want ==> g.want[ProfileId] == S(e.profile))
    ensures forall h :: h in CoreGoals(d, a, ids, number) ==> Compatible(g, h) && Compatible(h, g)
  {
    var core := CoreGoals(d, a, ids, number);
    forall h | h in core ensures Compatible(g, h) && Compatible(h, g) {
      var i :| 0 <= i < 6 && core[i] == h;
      if i == 2 { assert h.want == map[ConnId := S(e.connection)]; }
      if i == 3 { assert h.want == map[ProfileId := S(e.profile)]; }
    }
  }

  lemma CoreNumberPin(d: Desired, a: Account, ids: Minted, number: Record, pin: NumberPin, e: Env)
    requires Valid(a) && UniquePins(d) && UniqueNames(d, a) && CoreNumber(d, a) == Some(number)
             && CoreConnection(d, a).Some?
    requires e == EnvOf(d, a, ids) && pin in d.numbers && NumberRow(d, a, pin).Managed?
             && NumberRow(d, a, pin).record.id == number.id
    ensures forall g :: g in CoreGoals(d, a, ids, number) ==>
              && Compatible(RowGoal(NumberRow(d, a, pin), e), g)
              && Compatible(g, RowGoal(NumberRow(d, a, pin), e))
  {
    CorePinWants(d, a, ids, number, pin, e);
    NumberGoalCompatible(d, a, ids, number, e, RowGoal(NumberRow(d, a, pin), e));
  }

  lemma RowAgainstCore(d: Desired, a: Account, ids: Minted, number: Record, row: Row, e: Env)
    requires Valid(a) && RecordingValid(d) && UniquePins(d) && UniqueNames(d, a) && CoreNumber(d, a) == Some(number)
             && CoreConnection(d, a).Some?
    requires e == EnvOf(d, a, ids) && row in AllRows(d, a) && row.Managed?
    ensures forall g :: g in CoreGoals(d, a, ids, number) ==>
              Compatible(RowGoal(row, e), g) && Compatible(g, RowGoal(row, e))
  {
    LanesWithin(d, a);
    RowOfLane(NumberRows(d, a), AssistantRows(d, a), AppRows(d, a), ListRows(d, a), CredentialRows(d, a),
              TexmlRows(d, a), RecordingRows(d, a), row);
    if row.family == Numbers && row.record.id == number.id {
      var i :| 0 <= i < |d.numbers| && row == NumberRow(d, a, d.numbers[i]);
      CoreNumberPin(d, a, ids, number, d.numbers[i], e);
    } else if row.family == Connections {
      var i :| 0 <= i < |d.credentialOvps| && row == CredentialRow(a, d.credentialOvps[i]);
      LookedUp(a, Connections, Kind, FQDN_KIND, ConnName, S(d.connectionName));
      LookedUp(a, Connections, Kind, CREDENTIAL_KIND, ConnName, S(d.credentialOvps[i].name));
      ElsewhereCompatible(d, a, ids, number, RowGoal(row, e));
    } else {
      ElsewhereCompatible(d, a, ids, number, RowGoal(row, e));
    }
  }

  lemma RowOfLane(x1: seq<Row>, x2: seq<Row>, x3: seq<Row>, x4: seq<Row>, x5: seq<Row>, x6: seq<Row>, x7: seq<Row>,
                  row: Row)
    requires Within(x1, {Numbers}) && Within(x2, {Assistants}) && Within(x3, {Applications})
             && Within(x4, {VoiceProfiles})
    requires Within(x5, {Connections}) && Within(x6, {TexmlApps}) && Within(x7, {Voices})
    requires row in x1 + x2 + x3 + x4 + x5 + x6 + x7 && row.Managed?
    ensures row.family != Fqdns && row.family != Profiles
    ensures (row.family == Numbers ==> row in x1) && (row.family == Connections ==> row in x5)
  {
  }

  /** A goal about no core record is compatible with the core goals. */
  lemma ElsewhereCompatible(d: Desired, a: Account, ids: Minted, number: Record, g: Goal)
    requires g.family != Fqdns && g.family != Profiles && (g.family == Numbers ==> g.id != number.id)
    requires g.family == Connections ==> g.id != EnvOf(d, a, ids).connection
    ensures forall h :: h in CoreGoals(d, a, ids, number) ==> Compatible(g, h) && Compatible(h, g)
  {
  }

  lemma CoreAmongItself(d: Desired, a: Account, ids: Minted, number: Record)
    ensures Consistent(CoreGoals(d, a, ids, number))
  {
    ExtrasWantKeys(d);
    SixCompatible(CoreGoals(d, a, ids, number));
  }

  lemma SixCompatible(core: seq<Goal>)
    requires |core| == 6 && core[0].family == Connections && core[1].family == Fqdns && core[2].family == Numbers
    requires core[3].family == Numbers && core[4].family == Profiles && core[5].family == Profiles
    requires core[2].want.Keys !! core[3].want.Keys && core[4].want.Keys !! core[5].want.Keys
    ensures Consistent(core)
  {
    forall g, h | g in core && h in core ensures Compatible(g, h) {
      if g != h && g.family == h.family {
        assert (g == core[2] && h == core[3]) || (g == core[3] && h == core[2]) || (g == core[4] && h == core[5])
               || (g == core[5] && h == core[4]);
      }
    }
  }

  lemma RowsAmongThemselves(rows: seq<Row>, e: Env)
    requires Apart(rows)
    ensures Consistent(RowGoals(rows, e))
  {
    RowGoalsOf(rows, e);
    forall g, h | g in RowGoals(rows, e) && h in RowGoals(rows, e) ensures Compatible(g, h) {
      var i :| 0 <= i < |rows| && rows[i].Managed? && g == RowGoal(rows[i], e);
      var j :| 0 <= j < |rows| && rows[j].Managed? && h == RowGoal(rows[j], e);
      if i < j {} else if j < i {} else {}
    }
  }

  /** Such a desired file makes no contradictory goals. */
  lemma UniqueIsConsistent(d: Desired, a: Account, ids: Minted)
    requires Valid(a) && BuildPlan(d, a).Some? && CoreConnection(d, a).Some? && UniquePins(d) && UniqueNames(d, a)
    ensures Consistent(Goals(d, a, ids, CoreNumber(d, a).value))
  {
    var number, e := CoreNumber(d, a).value, EnvOf(d, a, ids);
    var core, rows := CoreGoals(d, a, ids, number), AllRows(d, a);
    CoreAmongItself(d, a, ids, number);
    RowsApart(d, a);
    RowsAmongThemselves(rows, e);
    RowGoalsOf(rows, e);
    forall g, h | g in core && h in RowGoals(rows, e) ensures Compatible(g, h) && Compatible(h, g) {
      var i :| 0 <= i < |rows| && rows[i].Managed? && h == RowGoal(rows[i], e);
      RowAgainstCore(d, a, ids, number, rows[i], e);
    }
    ConsistentConcat(core, RowGoals(rows, e));
  }

  lemma ConsistentConcat(x: seq<Goal>, y: seq<Goal>)
    requires Consistent(x) && Consistent(y) && forall g, h :: g in x && h in y ==> Compatible(g, h) && Compatible(h, g)
    ensures Consistent(x + y)
  {
  }

  // ----- the run that makes the connection

  lemma {:induction false} PostsWithin(ops: seq<Op>, families: set<Family>, ids: Minted)
    requires PostsOnly(ops, families, ids)
    ensures forall op :: op in ops && op.PostOp? ==> op.family in families
    decreases |ops|
  {
    if ops != [] {
      if ops[0].PostOp? {
        PostsWithin(ops[1..], families - {ops[0].family}, ids);
      } else {
        PostsWithin(ops[1..], families, ids);
      }
    }
  }

  function NewConnection(d: Desired, ids: Minted): Op {
    PostOp(Connections, ids.connection, ConnectionWant(d)[Kind := FQDN_KIND])
  }

  lemma FirstCall(d: Desired, a: Account, number: Record)
    requires CoreConnection(d, a).None?
    ensures |PlanCallList(d, a, number)| > 0
            && PlanCallList(d, a, number)[0] == Post(Connections, ConnectionWant(d)[Kind := FQDN_KIND])
  {
    var first := [Do([Post(Connections, ConnectionWant(d)[Kind := FQDN_KIND])])];
    CallsConcat(first, [OutboundStep(OutboundWant(d))]);
    OneStep(first[0].calls);
    assert Calls(ConnectionSteps(d, a))[0] == first[0].calls[0];
  }

  lemma FirstOp(d: Desired, calls: seq<Call>, e: Env, ids: Minted)
    requires |calls| > 0 && calls[0] == Post(Connections, ConnectionWant(d)[Kind := FQDN_KIND])
    ensures |Ops(calls, e, ids)| > 0 && Ops(calls, e, ids)[0] == NewConnection(d, ids)
  {
    assert ResBody(calls[0].body, e) == calls[0].body;
    assert OpsOf(calls[0], e, ids) == [NewConnection(d, ids)];
  }

  lemma NoOtherConnection(ops: seq<Op>, ids: Minted)
    requires PostsOnly(ops, {Connections, Fqdns, Profiles}, ids) && |ops| > 0 && ops[0].PostOp?
             && ops[0].family == Connections
    ensures forall op :: op in ops[1..] && op.PostOp? ==> op.family in {Fqdns, Profiles}
  {
    PostsWithin(ops[1..], {Connections, Fqdns, Profiles} - {Connections}, ids);
  }

  /** The first operation makes the connection, and no other makes one, or an assistant. */
  lemma MakesConnection(d: Desired, a: Account, number: Record, ids: Minted, ops: seq<Op>)
    requires Valid(a) && CoreNumber(d, a) == Some(number) && RecordingValid(d) && CoreConnection(d, a).None?
             && ops == PlanOps(d, a, number, ids)
    ensures |ops| > 0 && ops[0] == NewConnection(d, ids)
    ensures forall op :: op in ops[1..] && op.PostOp? ==> op.family in {Fqdns, Profiles}
  {
    FirstCall(d, a, number);
    FirstOp(d, PlanCallList(d, a, number), EnvOf(d, a, ids), ids);
    PlanFits(d, a, ids, number);
    NoOtherConnection(ops, ids);
  }

  lemma NameStep(d: Desired, a: Account, op: Op)
    requires Tame(op) && (op.PostOp? && op.family == Connections ==> Is(Record(op.id, op.body), Kind, FQDN_KIND))
    requires forall r :: r in Rows(a, Connections) && Is(r, ConnName, S(d.connectionName)) ==> Is(r, Kind, FQDN_KIND)
    ensures forall r :: r in Rows(Perform(a, op), Connections) && Is(r, ConnName, S(d.connectionName)) ==>
            Is(r, Kind, FQDN_KIND)
  {
    var rs := Rows(a, Connections);
    if op.family == Connections && op.PatchOp? {
      MergeShape(rs, op.id, op.body);
      forall r | r in Rows(Perform(a, op), Connections) && Is(r, ConnName, S(d.connectionName))
          ensures Is(r, Kind, FQDN_KIND) {
        var i :| 0 <= i < |rs| && r == Merged(rs[i], op.id, op.body);
        assert rs[i] in rs;
      }
    }
  }

  lemma {:induction false} NamesStay(d: Desired, a: Account, ops: seq<Op>)
    requires AllTame(ops) && RunOps(a, ops).Some?
    requires forall op :: op in ops && op.PostOp? && op.family == Connections ==>
             Is(Record(op.id, op.body), Kind, FQDN_KIND)
    requires forall r :: r in Rows(a, Connections) && Is(r, ConnName, S(d.connectionName)) ==> Is(r, Kind, FQDN_KIND)
    ensures forall r :: r in Rows(RunOps(a, ops).value, Connections) && Is(r, ConnName, S(d.connectionName)) ==>
            Is(r, Kind, FQDN_KIND)
    decreases |ops|
  {
    if ops != [] {
      assert Tame(ops[0]) && ops[0] in ops;
      NameStep(d, a, ops[0]);
      assert forall i :: 0 <= i < |ops[1..]| ==> ops[1..][i] == ops[i + 1];
      NamesStay(d, Perform(a, ops[0]), ops[1..]);
    }
  }

  lemma AssistantsStay(a: Account, ops: seq<Op>, b: Account)
    requires RunOps(a, ops) == Some(b) && forall op :: op in ops && op.PostOp? ==> op.family != Assistants
    requires forall r, s ::
               r in Rows(a, Assistants) && s in Rows(a, Assistants) && TexmlName(r.id) == TexmlName(s.id) ==>
                 r.id == s.id
    ensures forall r, s ::
              r in Rows(b, Assistants) && s in Rows(b, Assistants) && TexmlName(r.id) == TexmlName(s.id) ==>
                r.id == s.id
  {
    SameIds(a, ops, Assistants);
    var rs, ts := Rows(a, Assistants), Rows(b, Assistants);
    forall r, s | r in ts && s in ts && TexmlName(r.id) == TexmlName(s.id) ensures r.id == s.id {
      var i :| 0 <= i < |ts| && ts[i] == r;
      var j :| 0 <= j < |ts| && ts[j] == s;
      assert rs[i] in rs && rs[j] in rs;
    }
  }

  lemma NamesAfter(d: Desired, a: Account, ids: Minted, ops: seq<Op>, b: Account)
    requires UniqueNames(d, a) && AllTame(ops) && RunOps(a, ops) == Some(b)
    requires |ops| > 0 && ops[0] == NewConnection(d, ids)
             && forall op :: op in ops[1..] && op.PostOp? ==> op.family in {Fqdns, Profiles}
    ensures UniqueNames(d, b)
  {
    forall op | op in ops ensures op == ops[0] || op in ops[1..] {}
    NamesStay(d, a, ops);
    AssistantsStay(a, ops, b);
  }

  lemma FoundAfter(d: Desired, a: Account, ids: Minted, ops: seq<Op>, b: Account)
    requires AllTame(ops) && RunOps(a, ops) == Some(b) && |ops| > 0 && ops[0] == NewConnection(d, ids)
    requires CoreNumber(d, a).Some?
    ensures CoreConnection(d, b).Some? && CoreNumber(d, b).Some?
  {
    LookedUpFieldsStay(ops, Connections, Kind, ConnName);
    LookedUpFieldsStay(ops, Numbers, PhoneNumber, PhoneNumber);
    LooksAfter(a, ops, Connections, Kind, FQDN_KIND, ConnName, S(d.connectionName));
    LooksAfter(a, ops, Numbers, PhoneNumber, S(d.phoneNumber), PhoneNumber, S(d.phoneNumber));
  }

  /** A run on an account without the core connection is not refused, and leaves one with it. */
  lemma FirstRun(d: Desired, a: Account, ids: Minted)
    requires Valid(a) && Fresh(a, ids) && BuildPlan(d, a).Some? && CoreConnection(d, a).None?
    ensures var b := ApplyPlan(d, a, BuildPlan(d, a).value, ids);
            && b.Some? && Valid(b.value) && CoreConnection(d, b.value).Some? && BuildPlan(d, b.value).Some?
            && (UniqueNames(d, a) ==> UniqueNames(d, b.value))
  {
    var number := CoreNumber(d, a).value;
    var ops := PlanOps(d, a, number, ids);
    ApplyIsNeverRefused(d, a, ids);
    MakesConnection(d, a, number, ids, ops);
    var b := RunOps(a, ops).value;
    FoundAfter(d, a, ids, ops, b);
    if UniqueNames(d, a) { NamesAfter(d, a, ids, ops, b); }
  }

  // ----- the fixed point

  /** Without contradictory rows one run is enough when the core connection exists. */
  lemma UniqueConverges(d: Desired, a: Account, ids: Minted)
    requires Valid(a) && Fresh(a, ids) && BuildPlan(d, a).Some? && CoreConnection(d, a).Some? && UniquePins(d)
             && UniqueNames(d, a)
    ensures var b := ApplyPlan(d, a, BuildPlan(d, a).value, ids);
            && b.Some? && Valid(b.value) && BuildPlan(d, b.value).Some? && ReportOnly(BuildPlan(d, b.value).value)
  {
    UniqueIsConsistent(d, a, ids);
    OneRunConverges(d, a, ids);
  }

  /** And two are when it does not. */
  lemma TwoRunsConverge(d: Desired, a: Account, ids: Minted, next: Minted)
    requires Valid(a) && Fresh(a, ids) && BuildPlan(d, a).Some? && CoreConnection(d, a).None? && UniquePins(d)
             && UniqueNames(d, a)
    ensures var b := ApplyPlan(d, a, BuildPlan(d, a).value, ids);
            && b.Some? && BuildPlan(d, b.value).Some?
            && (Fresh(b.value, next) ==>
                  var c := ApplyPlan(d, b.value, BuildPlan(d, b.value).value, next);
                  c.Some? && BuildPlan(d, c.value).Some? && ReportOnly(BuildPlan(d, c.value).value))
  {
    FirstRun(d, a, ids);
    var b := ApplyPlan(d, a, BuildPlan(d, a).value, ids).value;
    if Fresh(b, next) { UniqueConverges(d, b, next); }
  }

  /**
   * From an account without the core connection, the plan after the second run is reports only if and
   * only if no two goals of that run contradict each other, whatever names the file and the account hold.
   */
  lemma TwoRunsExactly(d: Desired, a: Account, ids: Minted, next: Minted)
    requires Valid(a) && Fresh(a, ids) && BuildPlan(d, a).Some? && CoreConnection(d, a).None?
    ensures var b := ApplyPlan(d, a, BuildPlan(d, a).value, ids);
            && b.Some? && BuildPlan(d, b.value).Some?
            && (Fresh(b.value, next) ==>
                  var c := ApplyPlan(d, b.value, BuildPlan(d, b.value).value, next);
                  && c.Some? && BuildPlan(d, c.value).Some?
                  && (ReportOnly(BuildPlan(d, c.value).value)
                      <==> Consistent(Goals(d, b.value, next, CoreNumber(d, b.value).value))))
  {
    FirstRun(d, a, ids);
    var b := ApplyPlan(d, a, BuildPlan(d, a).value, ids).value;
    if Fresh(b, next) { OneRunConverges(d, b, next); }
  }
}
