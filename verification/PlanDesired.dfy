/**
 * What the desired file of scripts/telnyx_reconcile.py asks of an account, said field by field and without
 * the planner; and that this is what a report-only plan, and so every converged run, has reached.
 */
module PlanDesired {
  import opened Wrappers
  import opened TelnyxAccount
  import opened Reconciler
  import opened PlanExecution
  import opened PlanValidity
  import opened PlanCore
  import opened PlanGoals
  import opened PlanQuiet
  import opened PlanConvergence
  import opened PlanTwoRuns

  // ----- what the file asks for

  predicate Found(r: Option<Record>, k: Field, v: Value) { r.Some? && Is(r.value, k, v) }

  /** The core connection, with transport, activity, authentication method and voice profile. */
  predicate ConnectionAsDesired(d: Desired, a: Account) {
    var conn := Lookup2(Rows(a, Connections), Kind, S("fqdn_connection"), ConnName, S(d.connectionName));
    && Found(conn, Transport, S(d.transport)) && Found(conn, Active, B(true))
    && Found(conn, Auth, S(d.authMethod)) && Found(conn, Ovp, S(d.ovp))
  }

  /** The FQDN record on that connection, the number routed to it, and the number's messaging profile. */
  predicate RoutingAsDesired(d: Desired, a: Account) {
    var conn := Lookup2(Rows(a, Connections), Kind, S("fqdn_connection"), ConnName, S(d.connectionName));
    var number := Lookup(Rows(a, Numbers), PhoneNumber, S(d.phoneNumber));
    var profile := Lookup(Rows(a, Profiles), Name, S(d.profileName));
    && conn.Some? && profile.Some?
    && Found(Lookup2(Rows(a, Fqdns), ConnId, S(conn.value.id), FqdnName, S(d.fqdn)), Port, N(d.fqdnPort))
    && Found(number, ConnId, S(conn.value.id)) && Found(number, ProfileId, S(profile.value.id))
  }

  /** The core messaging profile: webhook, transcoding, not disabled, and the extras that the file has. */
  predicate ProfileAsDesired(d: Desired, a: Account) {
    var profile := Lookup(Rows(a, Profiles), Name, S(d.profileName));
    && Found(profile, Webhook, S(d.webhook)) && Found(profile, Mms, B(d.mms)) && !Found(profile, Enabled, B(false))
    && (d.alphaSender.Some? ==> Found(profile, AlphaSender, S(d.alphaSender.value)))
    && (d.allowlist.Some? ==> ListsDestinations(profile.value, d.allowlist.value))
  }

  /** An absent list is an empty one. */
  predicate ListsDestinations(r: Record, names: set<string>) {
    Is(r, Destinations, Names(names)) || (Destinations !in r.fields && names == {})
  }

  /** A number row, as far as its names are found in the account. */
  predicate NumberAsDesired(a: Account, pin: NumberPin) {
    var number := Lookup(Rows(a, Numbers), PhoneNumber, S(pin.number));
    var conn := if pin.connection.None? then None else Lookup(Rows(a, Connections), ConnName, S(pin.connection.value));
    var profile := if pin.profile.None? then None else Lookup(Rows(a, Profiles), Name, S(pin.profile.value));
    number.Some? && (pin.connection.Some? ==> conn.Some?) && (pin.profile.Some? ==> profile.Some?) ==>
      && (conn.Some? ==> Is(number.value, ConnId, S(conn.value.id)))
      && (profile.Some? ==> Is(number.value, ProfileId, S(profile.value.id)))
  }

  predicate AssistantAsDesired(a: Account, pin: NamedPin) {
    var r := Lookup(Rows(a, Assistants), Name, S(pin.name));
    r.Some? ==> Is(r.value, Model, S(pin.value))
  }

  predicate AppAsDesired(a: Account, pin: AppPin) {
    var r := Find(Rows(a, Applications), pin.id);
    r.Some? ==>
      && Is(r.value, Active, B(pin.active))
      && (pin.webhook.Some? ==> Is(r.value, WebhookEvent, S(pin.webhook.value)))
      && (pin.ovp.Some? ==> Is(r.value, Ovp, S(pin.ovp.value)))
  }

  predicate ListAsDesired(a: Account, pin: ListPin) {
    var r := Lookup(Rows(a, VoiceProfiles), Name, S(pin.name));
    r.Some? ==> ListsDestinations(r.value, pin.destinations)
  }

  /** The voice profile, in the nested field or, without that one, in the flat field of the summary view. */
  predicate HasVoiceProfile(r: Record, v: string) {
    Is(r, Ovp, S(v)) || (Ovp !in r.fields && Is(r, FlatOvp, S(v)))
  }

  predicate CredentialAsDesired(a: Account, pin: NamedPin) {
    var r := Lookup2(Rows(a, Connections), Kind, S("credential_connection"), ConnName, S(pin.name));
    r.Some? ==> HasVoiceProfile(r.value, pin.value)
  }

  /** The application that was minted for the assistant, under its id without the prefix. */
  predicate TexmlAsDesired(a: Account, pin: NamedPin) {
    var assistant := Lookup(Rows(a, Assistants), Name, S(pin.name));
    assistant.Some? ==>
      var id := assistant.value.id;
      var short := if |id| >= 10 && id[..10] == "assistant-" then id[10..] else id;
      var app := Lookup(Rows(a, TexmlApps), FriendlyName, S("ai-assistant-" + short));
      app.Some? ==> HasVoiceProfile(app.value, pin.value)
  }

  predicate RecordingAsDesired(a: Account, want: Body, number: Record) {
    var r := Find(Rows(a, Voices), number.id);
    forall k :: k in want ==> Found(r, k, want[k])
  }

  ghost predicate RowsAsDesired(d: Desired, a: Account) {
    && (forall pin :: pin in d.numbers ==> NumberAsDesired(a, pin))
    && (forall pin :: pin in d.assistants ==> AssistantAsDesired(a, pin))
    && (forall pin :: pin in d.apps ==> AppAsDesired(a, pin))
    && (forall pin :: pin in d.ovpLists ==> ListAsDesired(a, pin))
    && (forall pin :: pin in d.credentialOvps ==> CredentialAsDesired(a, pin))
    && (forall pin :: pin in d.texmlOvps ==> TexmlAsDesired(a, pin))
    && (d.recording.Some? ==> forall n :: n in Rows(a, Numbers) ==> RecordingAsDesired(a, d.recording.value, n))
  }

  /** The account is as the desired file has it. */
  ghost predicate AsDesired(d: Desired, a: Account) {
    ConnectionAsDesired(d, a) && RoutingAsDesired(d, a) && ProfileAsDesired(d, a) && RowsAsDesired(d, a)
  }

  // ----- the core

  lemma NoDrift(r: Record, want: Body, flat: bool)
    ensures Drift(r, want, flat) == map[] <==> forall k :: k in want ==> Get(r, k, flat) == Some(want[k])
  {
    if Drift(r, want, flat) == map[] {
      forall k | k in want ensures Get(r, k, flat) == Some(want[k]) { assert k !in Drift(r, want, flat); }
    }
    if forall k :: k in want ==> Get(r, k, flat) == Some(want[k]) { assert Drift(r, want, flat).Keys == {}; }
  }

  lemma ConnectionDone(d: Desired, a: Account)
    ensures ConnectionSteps(d, a) == [] <==> ConnectionAsDesired(d, a)
  {
    var conn := CoreConnection(d, a);
    LookupFinds(Rows(a, Connections), Kind, FQDN_KIND, ConnName, S(d.connectionName));
    if conn.Some? {
      NoDrift(conn.value, ConnectionWant(d), false);
      NoDrift(conn.value, OutboundWant(d), false);
      FourFields(d, conn.value);
    }
  }

  lemma FourFields(d: Desired, r: Record)
    ensures (forall k :: k in ConnectionWant(d) ==> Get(r, k, false) == Some(ConnectionWant(d)[k]))
       <==> Is(r, ConnName, S(d.connectionName)) && Is(r, Transport, S(d.transport)) && Is(r, Active, B(true))
    ensures (forall k :: k in OutboundWant(d) ==> Get(r, k, false) == Some(OutboundWant(d)[k]))
       <==> Is(r, Auth, S(d.authMethod)) && Is(r, Ovp, S(d.ovp))
  {
    var x, y := ConnectionWant(d), OutboundWant(d);
    assert ConnName in x && Transport in x && Active in x && Auth in y && Ovp in y;
  }

  lemma RoutingDone(d: Desired, a: Account, number: Record)
    requires CoreNumber(d, a) == Some(number) && CoreConnection(d, a).Some? && CoreProfile(d, a).Some?
    ensures FqdnSteps(d, a) == [] && NumberSteps(d, a, number) == []
            && Drift(number, map[ProfileId := S(CoreProfile(d, a).value.id)], false) == map[]
       <==> RoutingAsDesired(d, a)
  {
    var attach: Body := map[ProfileId := S(CoreProfile(d, a).value.id)];
    NoDrift(number, attach, false);
    assert ProfileId in attach;
    if CoreFqdn(d, a).Some? {
      var port: Body := map[Port := N(d.fqdnPort)];
      NoDrift(CoreFqdn(d, a).value, port, false);
      assert Port in port;
      assert Drift(CoreFqdn(d, a).value, port, false) + map[] == Drift(CoreFqdn(d, a).value, port, false);
    }
  }

  lemma ProfileFieldsDone(d: Desired, r: Record)
    ensures Drift(r, ProfileWant(d, r), false) == map[]
       <==> Is(r, Webhook, S(d.webhook)) && Is(r, Mms, B(d.mms)) && !Is(r, Enabled, B(false))
  {
    NoDrift(r, ProfileWant(d, r), false);
    var x := ProfileWant(d, r);
    assert Webhook in x && Mms in x && (Is(r, Enabled, B(false)) <==> Enabled in x);
  }

  lemma ExtrasDone(d: Desired, r: Record)
    ensures Drift(r, ExtrasWant(d), false) == map[]
       <==> && (d.alphaSender.Some? ==> Is(r, AlphaSender, S(d.alphaSender.value)))
            && (d.allowlist.Some? ==> ListsDestinations(r, d.allowlist.value))
  {
    NoDrift(r, ExtrasWant(d), false);
    var y := ExtrasWant(d);
    assert (Destinations in y <==> d.allowlist.Some?) && (AlphaSender in y <==> d.alphaSender.Some?);
    assert forall k :: k in y ==> k == Destinations || k == AlphaSender;
  }

  lemma ProfileDone(d: Desired, a: Account, r: Record)
    requires CoreProfile(d, a) == Some(r)
    ensures Drift(r, ProfileWant(d, r), false) == map[] && Drift(r, ExtrasWant(d), false) == map[]
       <==> ProfileAsDesired(d, a)
  {
    ProfileFieldsDone(d, r);
    ExtrasDone(d, r);
  }

  /** The core sections are empty exactly when the core is as desired. */
  lemma CoreDone(d: Desired, a: Account, number: Record)
    requires CoreNumber(d, a) == Some(number)
    ensures ReportOnly(CoreSteps(d, a, number))
       <==> ConnectionAsDesired(d, a) && RoutingAsDesired(d, a) && ProfileAsDesired(d, a)
  {
    CoreQuiet(d, a, number);
    ConnectionDone(d, a);
    if CoreConnection(d, a).Some? && CoreProfile(d, a).Some? {
      RoutingDone(d, a, number);
      ProfileDone(d, a, CoreProfile(d, a).value);
      ProfileSections(d, a, number, CoreProfile(d, a).value);
    }
  }

  lemma ProfileSections(d: Desired, a: Account, number: Record, r: Record)
    requires CoreProfile(d, a) == Some(r)
    ensures ProfileSteps(d, a, number) == []
       <==> Drift(r, ProfileWant(d, r), false) == map[] && Drift(number, map[ProfileId := S(r.id)], false) == map[]
    ensures ExtrasSteps(d, a) == [] <==> Drift(r, ExtrasWant(d), false) == map[]
  {
    if ExtrasWant(d) == map[] { NoDrift(r, ExtrasWant(d), false); }
  }

  // ----- the rows

  lemma NumberDone(d: Desired, a: Account, pin: NumberPin)
    requires CoreProfile(d, a).Some?
    ensures !Drifts(NumberRow(d, a, pin)) <==> NumberAsDesired(a, pin)
  {
    var row := NumberRow(d, a, pin);
    if row.Managed? {
      NoDrift(row.record, row.want, row.flat);
      assert ConnId in row.want <==> pin.connection.Some?;
      assert ProfileId in row.want <==> pin.profile.Some?;
    }
  }

  lemma AssistantDone(a: Account, pin: NamedPin)
    ensures !Drifts(AssistantRow(a, pin)) <==> AssistantAsDesired(a, pin)
  {
    var row := AssistantRow(a, pin);
    if row.Managed? {
      NoDrift(row.record, row.want, row.flat);
      assert Model in row.want;
    }
  }

  lemma AppDone(a: Account, pin: AppPin)
    ensures !Drifts(AppRow(a, pin)) <==> AppAsDesired(a, pin)
  {
    var row := AppRow(a, pin);
    if row.Managed? {
      NoDrift(row.record, row.want, row.flat);
      assert Active in row.want && (WebhookEvent in row.want <==> pin.webhook.Some?);
      assert Ovp in row.want <==> pin.ovp.Some?;
    }
  }

  lemma ListDone(a: Account, pin: ListPin)
    ensures !Drifts(ListRow(a, pin)) <==> ListAsDesired(a, pin)
  {
    var row := ListRow(a, pin);
    if row.Managed? {
      NoDrift(row.record, row.want, row.flat);
      assert Destinations in row.want;
    }
  }

  lemma CredentialDone(a: Account, pin: NamedPin)
    ensures !Drifts(CredentialRow(a, pin)) <==> CredentialAsDesired(a, pin)
  {
    var row := CredentialRow(a, pin);
    if row.Managed? {
      NoDrift(row.record, row.want, row.flat);
      assert Ovp in row.want;
    }
  }

  lemma TexmlDone(a: Account, pin: NamedPin)
    ensures !Drifts(TexmlRow(a, pin)) <==> TexmlAsDesired(a, pin)
  {
    var row := TexmlRow(a, pin);
    if row.Managed? {
      NoDrift(row.record, row.want, row.flat);
      assert Ovp in row.want;
    }
    var assistant := AssistantNamed(a, pin.name);
    if assistant.Some? { ShortName(assistant.value.id); }
  }

  lemma ShortName(id: Id)
    ensures TexmlName(id) == "ai-assistant-" + (if |id| >= 10 && id[..10] == "assistant-" then id[10..] else id)
  {
    assert |"assistant-"| == 10;
  }

  lemma RecordingDone(a: Account, want: Body, number: Record)
    requires Destinations !in want
    ensures !Drifts(RecordingRow(a, want, number)) <==> RecordingAsDesired(a, want, number)
  {
    var row := RecordingRow(a, want, number);
    NoDrift(row.record, row.want, row.flat);
  }

  ghost predicate Quiet(rows: seq<Row>) { forall i :: 0 <= i < |rows| ==> !Drifts(rows[i]) }

  lemma QuietConcat(x: seq<Row>, y: seq<Row>)
    ensures Quiet(x + y) <==> Quiet(x) && Quiet(y)
  {
    if Quiet(x + y) {
      forall i | 0 <= i < |x| ensures !Drifts(x[i]) { assert !Drifts((x + y)[i]); }
      forall i | 0 <= i < |y| ensures !Drifts(y[i]) { assert !Drifts((x + y)[|x| + i]); }
    }
  }

  lemma FirstRowsDone(d: Desired, a: Account)
    requires CoreProfile(d, a).Some?
    ensures Quiet(NumberRows(d, a)) <==> forall pin :: pin in d.numbers ==> NumberAsDesired(a, pin)
    ensures Quiet(AssistantRows(d, a)) <==> forall pin :: pin in d.assistants ==> AssistantAsDesired(a, pin)
    ensures Quiet(AppRows(d, a)) <==> forall pin :: pin in d.apps ==> AppAsDesired(a, pin)
    ensures Quiet(ListRows(d, a)) <==> forall pin :: pin in d.ovpLists ==> ListAsDesired(a, pin)
  {
    forall pin ensures !Drifts(NumberRow(d, a, pin)) <==> NumberAsDesired(a, pin) { NumberDone(d, a, pin); }
    forall pin ensures !Drifts(AssistantRow(a, pin)) <==> AssistantAsDesired(a, pin) { AssistantDone(a, pin); }
    forall pin ensures !Drifts(AppRow(a, pin)) <==> AppAsDesired(a, pin) { AppDone(a, pin); }
    forall pin ensures !Drifts(ListRow(a, pin)) <==> ListAsDesired(a, pin) { ListDone(a, pin); }
    LaneDone(d.numbers, NumberRows(d, a), pin => NumberRow(d, a, pin), pin => NumberAsDesired(a, pin));
    LaneDone(d.assistants, AssistantRows(d, a), pin => AssistantRow(a, pin), pin => AssistantAsDesired(a, pin));
    LaneDone(d.apps, AppRows(d, a), pin => AppRow(a, pin), pin => AppAsDesired(a, pin));
    LaneDone(d.ovpLists, ListRows(d, a), pin => ListRow(a, pin), pin => ListAsDesired(a, pin));
  }

  lemma LastRowsDone(d: Desired, a: Account)
    requires RecordingValid(d)
    ensures Quiet(CredentialRows(d, a)) <==> forall pin :: pin in d.credentialOvps ==> CredentialAsDesired(a, pin)
    ensures Quiet(TexmlRows(d, a)) <==> forall pin :: pin in d.texmlOvps ==> TexmlAsDesired(a, pin)
    ensures Quiet(RecordingRows(d, a))
       <==> (d.recording.Some? ==> forall n :: n in Rows(a, Numbers) ==> RecordingAsDesired(a, d.recording.value, n))
  {
    forall pin ensures !Drifts(CredentialRow(a, pin)) <==> CredentialAsDesired(a, pin) { CredentialDone(a, pin); }
    forall pin ensures !Drifts(TexmlRow(a, pin)) <==> TexmlAsDesired(a, pin) { TexmlDone(a, pin); }
    LaneDone(d.credentialOvps, CredentialRows(d, a), pin => CredentialRow(a, pin), pin => CredentialAsDesired(a, pin));
    LaneDone(d.texmlOvps, TexmlRows(d, a), pin => TexmlRow(a, pin), pin => TexmlAsDesired(a, pin));
    if d.recording.Some? {
      var want := d.recording.value;
      forall n ensures !Drifts(RecordingRow(a, want, n)) <==> RecordingAsDesired(a, want, n) {
        RecordingDone(a, want, n);
      }
      LaneDone(Rows(a, Numbers), RecordingRows(d, a), n => RecordingRow(a, want, n), n =>
               RecordingAsDesired(a, want, n));
    }
  }

  lemma LaneDone<P(!new)>(pins: seq<P>, rows: seq<Row>, rowOf: P -> Row, done: P -> bool)
    requires |rows| == |pins| && forall i :: 0 <= i < |pins| ==> rows[i] == rowOf(pins[i])
    requires forall pin :: !Drifts(rowOf(pin)) <==> done(pin)
    ensures Quiet(rows) <==> forall pin :: pin in pins ==> done(pin)
  {
    if Quiet(rows) {
      forall pin | pin in pins ensures done(pin) {
        var i :| 0 <= i < |pins| && pins[i] == pin;
        assert !Drifts(rows[i]);
      }
    }
    if forall pin :: pin in pins ==> done(pin) {
      forall i | 0 <= i < |rows| ensures !Drifts(rows[i]) { assert done(pins[i]); }
    }
  }

  lemma RowsDone(d: Desired, a: Account)
    requires RecordingValid(d) && CoreProfile(d, a).Some?
    ensures Quiet(AllRows(d, a)) <==> RowsAsDesired(d, a)
  {
    var x1, x2, x3, x4 := NumberRows(d, a), AssistantRows(d, a), AppRows(d, a), ListRows(d, a);
    var x5, x6, x7 := CredentialRows(d, a), TexmlRows(d, a), RecordingRows(d, a);
    QuietConcat(x1, x2);
    QuietConcat(x1 + x2, x3);
    QuietConcat(x1 + x2 + x3, x4);
    QuietConcat(x1 + x2 + x3 + x4, x5);
    QuietConcat(x1 + x2 + x3 + x4 + x5, x6);
    QuietConcat(x1 + x2 + x3 + x4 + x5 + x6, x7);
    FirstRowsDone(d, a);
    LastRowsDone(d, a);
  }

  // ----- the plan

  /** A plan has nothing but reports exactly when the account is as the desired file has it. */
  lemma QuietIsDesired(d: Desired, a: Account)
    requires BuildPlan(d, a).Some?
    ensures ReportOnly(BuildPlan(d, a).value) <==> AsDesired(d, a)
  {
    var number := CoreNumber(d, a).value;
    WholePlanQuiet(d, a, number);
    CoreDone(d, a, number);
    if CoreProfile(d, a).Some? { RowsDone(d, a); }
  }

  /** With the core connection in place one run reaches the desired account if and only if no two goals contradict. */
  lemma OneRunReachesExactly(d: Desired, a: Account, ids: Minted)
    requires Valid(a) && Fresh(a, ids) && BuildPlan(d, a).Some? && CoreConnection(d, a).Some?
    ensures var b := ApplyPlan(d, a, BuildPlan(d, a).value, ids);
            b.Some? && (AsDesired(d, b.value) <==> Consistent(Goals(d, a, ids, CoreNumber(d, a).value)))
  {
    OneRunConverges(d, a, ids);
    QuietIsDesired(d, ApplyPlan(d, a, BuildPlan(d, a).value, ids).value);
  }

  /** One run reaches it for a file with unique names. */
  lemma OneRunReaches(d: Desired, a: Account, ids: Minted)
    requires Valid(a) && Fresh(a, ids) && BuildPlan(d, a).Some? && CoreConnection(d, a).Some?
             && UniquePins(d) && UniqueNames(d, a)
    ensures var b := ApplyPlan(d, a, BuildPlan(d, a).value, ids); b.Some? && AsDesired(d, b.value)
  {
    UniqueConverges(d, a, ids);
    QuietIsDesired(d, ApplyPlan(d, a, BuildPlan(d, a).value, ids).value);
  }

  /** And two runs do when the core connection has to be made. */
  lemma TwoRunsReach(d: Desired, a: Account, ids: Minted, next: Minted)
    requires Valid(a) && Fresh(a, ids) && BuildPlan(d, a).Some? && CoreConnection(d, a).None?
             && UniquePins(d) && UniqueNames(d, a)
    ensures var b := ApplyPlan(d, a, BuildPlan(d, a).value, ids);
            && b.Some? && BuildPlan(d, b.value).Some?
            && (Fresh(b.value, next) ==>
                  var c := ApplyPlan(d, b.value, BuildPlan(d, b.value).value, next); c.Some? && AsDesired(d, c.value))
  {
    TwoRunsConverge(d, a, ids, next);
    var b := ApplyPlan(d, a, BuildPlan(d, a).value, ids).value;
    if Fresh(b, next) { QuietIsDesired(d, ApplyPlan(d, b, BuildPlan(d, b).value, next).value); }
  }
}
