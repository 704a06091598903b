/**
 * The rest of what a plan of scripts/telnyx_reconcile.py says: when there is a plan at all, what the
 * records are that it creates, and what it only reports.
 */
module PlanNotices {
  import opened Wrappers
  import opened TelnyxAccount
  import opened Reconciler
  import opened PlanExecution
  import opened PlanValidity
  import opened PlanCore
  import opened PlanGoalsMet
  import opened PlanFrame

  // ----- when there is a plan

  /** There is a plan unless the core number is missing or the recording pins are malformed. */
  lemma PlanExists(d: Desired, a: Account)
    ensures BuildPlan(d, a).Some?
       <==> && Lookup(Rows(a, Numbers), PhoneNumber, S(d.phoneNumber)).Some?
            && (d.recording.Some? ==> forall k :: k in d.recording.value ==>
                  || (k == RecEnabled && d.recording.value[k].B?)
                  || (k == RecChannels && d.recording.value[k] in {S("single"), S("dual")})
                  || (k == RecFormat && d.recording.value[k] in {S("wav"), S("mp3")}))
  {
    if d.recording.Some? {
      var w := d.recording.value;
      assert w.Keys <= {RecEnabled, RecChannels, RecFormat}
             <==> forall k :: k in w ==> k in {RecEnabled, RecChannels, RecFormat};
    }
  }

  // ----- what is created

  /** A new connection, FQDN record or messaging profile, with all its fields. */
  predicate CreatedAsDesired(d: Desired, op: Op, connection: Id) {
    match op.family
    case Connections =>
      op.body == map[ConnName := S(d.connectionName), Transport := S(d.transport), Active := B(true),
                     Kind := S("fqdn_connection")]
    case Fqdns =>
      op.body == map[FqdnName := S(d.fqdn), Port := N(d.fqdnPort), DnsType := S(d.dnsType), ConnId := S(connection)]
    case Profiles =>
      op.body == map[Name := S(d.profileName), Webhook := S(d.webhook), WebhookVersion := S("2"), Mms := B(d.mms),
                     Enabled := B(true)]
    case _ => false
  }

  predicate CallCreates(d: Desired, call: Call, e: Env) {
    call.Post? ==> CreatedAsDesired(d, PostOp(call.family, "", ResBody(call.body, e)), e.connection)
  }

  predicate StepCreates(d: Desired, step: Step, e: Env) {
    step.Do? ==> forall call :: call in step.calls ==> CallCreates(d, call, e)
  }

  predicate StepsCreate(d: Desired, steps: seq<Step>, e: Env) {
    forall step :: step in steps ==> StepCreates(d, step, e)
  }

  lemma ConnectionPosts(d: Desired, a: Account, e: Env)
    ensures StepsCreate(d, ConnectionSteps(d, a), e)
  {
    BodiesResolve(d, e);
  }

  lemma FqdnPosts(d: Desired, a: Account, e: Env)
    ensures StepsCreate(d, FqdnSteps(d, a), e)
  {
    BodiesResolve(d, e);
  }

  lemma ProfilePosts(d: Desired, a: Account, number: Record, e: Env)
    ensures StepsCreate(d, ProfileSteps(d, a, number), e)
  {
    BodiesResolve(d, e);
  }

  lemma OtherPosts(d: Desired, a: Account, number: Record, e: Env)
    ensures StepsCreate(d, NumberSteps(d, a, number), e) && StepsCreate(d, ExtrasSteps(d, a), e)
  {
  }

  lemma BodiesResolve(d: Desired, e: Env)
    ensures CallCreates(d, Post(Connections, ConnectionWant(d)[Kind := FQDN_KIND]), e)
    ensures CallCreates(d, Post(Profiles, ProfileFields(d)), e)
    ensures CallCreates(d, Post(Fqdns, map[FqdnName := S(d.fqdn), Port := N(d.fqdnPort), DnsType := S(d.dnsType),
                                           ConnId := TheConnection]), e)
  {
  }

  lemma {:induction false} RowPosts(d: Desired, rows: seq<Row>, e: Env)
    ensures StepsCreate(d, RowSteps(rows), e)
    decreases |rows|
  {
    if rows != [] { RowPosts(d, rows[1..], e); }
  }

  lemma {:induction false} SectionPosts(d: Desired, steps: seq<Step>, e: Env, ids: Minted)
    requires StepsCreate(d, steps, e)
    ensures forall op :: op in Ops(Calls(steps), e, ids) && op.PostOp? ==> CreatedAsDesired(d, op, e.connection)
    decreases |steps|
  {
    if steps != [] {
      SectionPosts(d, steps[1..], e, ids);
      assert StepCreates(d, steps[0], e);
      if steps[0].Do? {
        CallsPost(d, steps[0].calls, e, ids);
        OpsConcat(steps[0].calls, Calls(steps[1..]), e, ids);
      } else {
        assert [] + Calls(steps[1..]) == Calls(steps[1..]);
      }
    }
  }

  lemma {:induction false} CallsPost(d: Desired, calls: seq<Call>, e: Env, ids: Minted)
    requires forall call :: call in calls ==> CallCreates(d, call, e)
    ensures forall op :: op in Ops(calls, e, ids) && op.PostOp? ==> CreatedAsDesired(d, op, e.connection)
    decreases |calls|
  {
    if calls != [] {
      CallsPost(d, calls[1..], e, ids);
      assert CallCreates(d, calls[0], e);
    }
  }

  /** Every record a run creates has exactly the fields of the desired file. */
  lemma CreatesAsDesired(d: Desired, a: Account, ids: Minted, number: Record)
    ensures forall op :: op in PlanOps(d, a, number, ids) && op.PostOp? ==>
              CreatedAsDesired(d, op, EnvOf(d, a, ids).connection)
  {
    var e := EnvOf(d, a, ids);
    ConnectionPosts(d, a, e);
    FqdnPosts(d, a, e);
    ProfilePosts(d, a, number, e);
    OtherPosts(d, a, number, e);
    RowPosts(d, AllRows(d, a), e);
    SectionPosts(d, ConnectionSteps(d, a), e, ids);
    SectionPosts(d, FqdnSteps(d, a), e, ids);
    SectionPosts(d, NumberSteps(d, a, number), e, ids);
    SectionPosts(d, ProfileSteps(d, a, number), e, ids);
    SectionPosts(d, ExtrasSteps(d, a), e, ids);
    SectionPosts(d, RowSteps(AllRows(d, a)), e, ids);
    PlanSections(d, a, number, ids);
  }

  // ----- what is only reported

  predicate Absent(a: Account, f: Family, k: Field, v: Value) { Lookup(Rows(a, f), k, v).None? }

  predicate NamedIn(r: Record, names: seq<string>) { exists n :: n in names && Is(r, Name, S(n)) }

  /** The assistant is there, but no application was minted for it. */
  predicate LacksApp(a: Account, pin: NamedPin) {
    var assistant := Lookup(Rows(a, Assistants), Name, S(pin.name));
    assistant.Some? && Absent(a, TexmlApps, FriendlyName, S(TexmlName(assistant.value.id)))
  }

  /** What a number row cannot name: the number, its connection, or its profile, in this order. */
  function NumberNotice(d: Desired, a: Account, pin: NumberPin): Option<string> {
    if Absent(a, Numbers, PhoneNumber, S(pin.number)) then Some("phone_number")
    else if pin.connection.Some? && Absent(a, Connections, ConnName, S(pin.connection.value)) then Some("connection")
    else if pin.profile.Some? && pin.profile.value != d.profileName && Absent(a, Profiles, Name, S(pin.profile.value))
    then Some("messaging_profile")
    else None
  }

  /** What a plan reports. */
  predicate Notices(d: Desired, a: Account, topic: string) {
    || (exists pin :: pin in d.numbers && NumberNotice(d, a, pin) == Some(topic))
    || (topic == "whatsapp" && d.whatsappDid.Some?
        && var r := Lookup(Rows(a, WhatsApp), PhoneNumber, S(d.whatsappDid.value));
           r.None? || !Is(r.value, Enabled, B(true)))
    || (topic == "ai_assistant"
        && ((exists pin :: pin in d.assistants && Absent(a, Assistants, Name, S(pin.name)))
            || exists pin :: pin in d.texmlOvps && Absent(a, Assistants, Name, S(pin.name))))
    || (topic == "call_control_application"
        && exists pin :: pin in d.apps && Find(Rows(a, Applications), pin.id).None?)
    || (topic == "outbound_voice_profile"
        && exists pin :: pin in d.ovpLists && Absent(a, VoiceProfiles, Name, S(pin.name)))
    || (topic == "retired_outbound_voice_profile"
        && exists r :: r in Rows(a, VoiceProfiles) && NamedIn(r, d.retired))
    || (topic == "credential_connection"
        && exists pin :: pin in d.credentialOvps
             && Lookup2(Rows(a, Connections), Kind, S("credential_connection"), ConnName, S(pin.name)).None?)
    || (topic == "assistant_texml_app"
        && exists pin :: pin in d.texmlOvps && LacksApp(a, pin))
  }

  predicate Says(steps: seq<Step>, topic: string) { Report(topic) in steps }

  lemma SaysConcat(x: seq<Step>, y: seq<Step>, topic: string)
    ensures Says(x + y, topic) <==> Says(x, topic) || Says(y, topic)
  {
  }

  lemma CoreSaysNothing(d: Desired, a: Account, number: Record, topic: string)
    ensures !Says(CoreSteps(d, a, number), topic)
  {
  }

  lemma {:induction false} RowsSay(rows: seq<Row>, topic: string)
    ensures Says(RowSteps(rows), topic) <==> Unresolved(topic) in rows
    decreases |rows|
  {
    if rows != [] {
      RowsSay(rows[1..], topic);
      SaysConcat(RowStep(rows[0]), RowSteps(rows[1..]), topic);
      assert rows == [rows[0]] + rows[1..];
    }
  }

  lemma {:induction false} RetiredSay(names: seq<string>, rs: seq<Record>, topic: string)
    ensures Says(RetiredSteps(names, rs), topic)
       <==> topic == "retired_outbound_voice_profile" && exists r :: r in rs && NamedIn(r, names)
    decreases |rs|
  {
    if rs != [] {
      RetiredSay(names, rs[1..], topic);
      var first: seq<Step> :=
        if NamedIn(rs[0], names) then [Report("retired_outbound_voice_profile")] else [];
      SaysConcat(first, RetiredSteps(names, rs[1..]), topic);
      assert forall r :: r in rs <==> r == rs[0] || r in rs[1..];
    }
  }

  lemma InLane<P>(pins: seq<P>, rows: seq<Row>, rowOf: P -> Row, row: Row)
    requires |rows| == |pins| && forall i :: 0 <= i < |pins| ==> rows[i] == rowOf(pins[i])
    ensures row in rows <==> exists pin :: pin in pins && rowOf(pin) == row
  {
    if row in rows {
      var i :| 0 <= i < |rows| && rows[i] == row;
      assert pins[i] in pins;
    }
    if pin :| pin in pins && rowOf(pin) == row {
      var i :| 0 <= i < |pins| && pins[i] == pin;
      assert rows[i] == row;
    }
  }

  lemma NumberNotices(d: Desired, a: Account, topic: string)
    ensures Says(RowSteps(NumberRows(d, a)), topic)
       <==> exists pin :: pin in d.numbers && NumberNotice(d, a, pin) == Some(topic)
  {
    RowsSay(NumberRows(d, a), topic);
    InLane(d.numbers, NumberRows(d, a), pin => NumberRow(d, a, pin), Unresolved(topic));
    assert forall pin :: NumberRow(d, a, pin) == Unresolved(topic) <==> NumberNotice(d, a, pin) == Some(topic);
  }

  lemma AssistantNotices(d: Desired, a: Account, topic: string)
    ensures Says(RowSteps(AssistantRows(d, a)), topic)
       <==> topic == "ai_assistant" && exists pin :: pin in d.assistants && Absent(a, Assistants, Name, S(pin.name))
  {
    RowsSay(AssistantRows(d, a), topic);
    InLane(d.assistants, AssistantRows(d, a), pin => AssistantRow(a, pin), Unresolved(topic));
  }

  lemma AppNotices(d: Desired, a: Account, topic: string)
    ensures Says(RowSteps(AppRows(d, a)), topic) <==>
              && topic == "call_control_application"
              && exists pin :: pin in d.apps && Find(Rows(a, Applications), pin.id).None?
  {
    RowsSay(AppRows(d, a), topic);
    InLane(d.apps, AppRows(d, a), pin => AppRow(a, pin), Unresolved(topic));
  }

  lemma ListNotices(d: Desired, a: Account, topic: string)
    ensures Says(RowSteps(ListRows(d, a)), topic)
       <==> topic == "outbound_voice_profile"
            && exists pin :: pin in d.ovpLists && Absent(a, VoiceProfiles, Name, S(pin.name))
  {
    RowsSay(ListRows(d, a), topic);
    InLane(d.ovpLists, ListRows(d, a), pin => ListRow(a, pin), Unresolved(topic));
  }

  lemma LastNotices(d: Desired, a: Account, topic: string)
    ensures Says(RowSteps(CredentialRows(d, a)), topic)
       <==> topic == "credential_connection"
            && exists pin :: pin in d.credentialOvps
                 && Lookup2(Rows(a, Connections), Kind, S("credential_connection"), ConnName, S(pin.name)).None?
    ensures !Says(RowSteps(RecordingRows(d, a)), topic)
  {
    RowsSay(CredentialRows(d, a), topic);
    RowsSay(RecordingRows(d, a), topic);
    InLane(d.credentialOvps, CredentialRows(d, a), pin => CredentialRow(a, pin), Unresolved(topic));
  }

  lemma TexmlNotices(d: Desired, a: Account, topic: string)
    ensures Says(RowSteps(TexmlRows(d, a)), topic)
       <==> || (topic == "ai_assistant" && exists pin :: pin in d.texmlOvps && Absent(a, Assistants, Name, S(pin.name)))
            || (topic == "assistant_texml_app" && exists pin :: pin in d.texmlOvps && LacksApp(a, pin))
  {
    RowsSay(TexmlRows(d, a), topic);
    InLane(d.texmlOvps, TexmlRows(d, a), pin => TexmlRow(a, pin), Unresolved(topic));
    assert forall pin :: TexmlRow(a, pin) == Unresolved(topic)
                    <==> || (topic == "ai_assistant" && Absent(a, Assistants, Name, S(pin.name)))
                         || (topic == "assistant_texml_app" && LacksApp(a, pin));
  }

  /** A plan reports exactly these things. */
  lemma ReportsExactly(d: Desired, a: Account, topic: string)
    requires BuildPlan(d, a).Some?
    ensures Says(BuildPlan(d, a).value, topic) <==> Notices(d, a, topic)
  {
    var number := CoreNumber(d, a).value;
    CoreSaysNothing(d, a, number, topic);
    NumberNotices(d, a, topic);
    AssistantNotices(d, a, topic);
    AppNotices(d, a, topic);
    ListNotices(d, a, topic);
    LastNotices(d, a, topic);
    TexmlNotices(d, a, topic);
    RetiredSay(d.retired, Rows(a, VoiceProfiles), topic);
    TenSay(CoreSteps(d, a, number), RowSteps(NumberRows(d, a)), WhatsAppSteps(d, a), RowSteps(AssistantRows(d, a)),
           RowSteps(AppRows(d, a)), RowSteps(ListRows(d, a)), RetiredSteps(d.retired, Rows(a, VoiceProfiles)),
           RowSteps(CredentialRows(d, a)), RowSteps(TexmlRows(d, a)), RowSteps(RecordingRows(d, a)), topic);
  }

  lemma TenSay(s0: seq<Step>, s1: seq<Step>, s2: seq<Step>, s3: seq<Step>, s4: seq<Step>, s5: seq<Step>,
               s6: seq<Step>, s7: seq<Step>, s8: seq<Step>, s9: seq<Step>, topic: string)
    ensures Says(s0 + s1 + s2 + s3 + s4 + s5 + s6 + s7 + s8 + s9, topic)
       <==> || Says(s0, topic) || Says(s1, topic) || Says(s2, topic) || Says(s3, topic) || Says(s4, topic)
            || Says(s5, topic) || Says(s6, topic) || Says(s7, topic) || Says(s8, topic) || Says(s9, topic)
  {
  }
}
