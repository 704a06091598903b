/**
 * build_plan, recording_steps and the apply loop of scripts/telnyx_reconcile.py. A step's apply
 * closure is the list of API calls it makes; what a closure looks up only when it runs (the id of
 * a connection or profile created earlier in the same run) is a placeholder in those calls.
 */
module Reconciler {
  import opened Wrappers
  import opened TelnyxAccount

  // ----- the desired file

  datatype NumberPin = NumberPin(number: string, connection: Option<string>, profile: Option<string>)
  datatype NamedPin = NamedPin(name: string, value: string)
  datatype AppPin = AppPin(id: Id, active: bool, webhook: Option<string>, ovp: Option<string>)
  datatype ListPin = ListPin(name: string, destinations: set<string>)

  /** Empty lists, and None, are keys the file does not have. */
  datatype Desired = Desired(
    connectionName: string, transport: string, fqdn: string, fqdnPort: int, dnsType: string,
    phoneNumber: string, profileName: string, webhook: string, mms: bool,
    authMethod: string, ovp: string,
    allowlist: Option<set<string>>, alphaSender: Option<string>,
    numbers: seq<NumberPin>, whatsappDid: Option<string>,
    assistants: seq<NamedPin>, apps: seq<AppPin>, ovpLists: seq<ListPin>, retired: seq<string>,
    credentialOvps: seq<NamedPin>, texmlOvps: seq<NamedPin>, recording: Option<Body>)

  // ----- lookups

  const FQDN_KIND := S("fqdn_connection")
  const CREDENTIAL_KIND := S("credential_connection")

  function CoreConnection(d: Desired, a: Account): Option<Record> {
    Lookup2(Rows(a, Connections), Kind, FQDN_KIND, ConnName, S(d.connectionName))
  }

  function CoreProfile(d: Desired, a: Account): Option<Record> { Lookup(Rows(a, Profiles), Name, S(d.profileName)) }

  function CoreNumber(d: Desired, a: Account): Option<Record> {
    Lookup(Rows(a, Numbers), PhoneNumber, S(d.phoneNumber))
  }

  /** Discovery keeps the records of the core connection, or all of them while there is none. */
  function CoreFqdn(d: Desired, a: Account): Option<Record> {
    match CoreConnection(d, a)
    case None => Lookup(Rows(a, Fqdns), FqdnName, S(d.fqdn))
    case Some(conn) => Lookup2(Rows(a, Fqdns), ConnId, S(conn.id), FqdnName, S(d.fqdn))
  }

  // ----- steps

  datatype Target = Known(id: Id) | Connection | Profile

  datatype Call =
    | Post(family: Family, body: Body)
    | Patch(family: Family, target: Target, body: Body)
    | ExtrasOnCreated(want: Body)

  datatype Step = Report(topic: string) | Do(calls: seq<Call>)

  // ----- the core steps

  function ConnectionWant(d: Desired): Body {
    map[ConnName := S(d.connectionName), Transport := S(d.transport), Active := B(true)]
  }

  function OutboundWant(d: Desired): Body { map[Auth := S(d.authMethod), Ovp := S(d.ovp)] }

  /** One PATCH for each key, the authentication method before the voice profile. */
  function OutboundStep(nested: Body): Step {
    Do((if Auth in nested then [Patch(Connections, Connection, map[Auth := nested[Auth]])] else [])
       + (if Ovp in nested then [Patch(Connections, Connection, map[Ovp := nested[Ovp]])] else []))
  }

  function ConnectionSteps(d: Desired, a: Account): seq<Step> {
    match CoreConnection(d, a)
    case None =>
      [Do([Post(Connections, ConnectionWant(d)[Kind := FQDN_KIND])]), OutboundStep(OutboundWant(d))]
    case Some(r) =>
      var drift := Drift(r, ConnectionWant(d), false);
      var nested := Drift(r, OutboundWant(d), false);
      (if drift != map[] then [Do([Patch(Connections, Connection, drift)])] else [])
      + (if nested != map[] then [OutboundStep(nested)] else [])
  }

  function FqdnSteps(d: Desired, a: Account): seq<Step> {
    match CoreFqdn(d, a)
    case None =>
      [Do([Post(Fqdns, map[FqdnName := S(d.fqdn), Port := N(d.fqdnPort), DnsType := S(d.dnsType),
                           ConnId := TheConnection])])]
    case Some(r) =>
      var port := Drift(r, map[Port := N(d.fqdnPort)], false);
      var move: Body :=
        if CoreConnection(d, a).None? && ConnId in r.fields then map[ConnId := TheConnection] else map[];
      if port + move != map[] then [Do([Patch(Fqdns, Known(r.id), port + move)])] else []
  }

  function NumberSteps(d: Desired, a: Account, number: Record): seq<Step> {
    var conn := CoreConnection(d, a);
    if conn.None? || !Is(number, ConnId, S(conn.value.id))
    then [Do([Patch(Numbers, Known(number.id), map[ConnId := TheConnection])])]
    else []
  }

  function ProfileFields(d: Desired): Body {
    map[Name := S(d.profileName), Webhook := S(d.webhook), WebhookVersion := S("2"), Mms := B(d.mms),
        Enabled := B(true)]
  }

  /** A disabled profile is enabled again; one that does not say is left alone. */
  function ProfileWant(d: Desired, r: Record): Body {
    map[Webhook := S(d.webhook), Mms := B(d.mms)]
    + (if Is(r, Enabled, B(false)) then map[Enabled := B(true)] else map[])
  }

  function ProfileSteps(d: Desired, a: Account, number: Record): seq<Step> {
    match CoreProfile(d, a)
    case None =>
      [Do([Post(Profiles, ProfileFields(d)), Patch(Numbers, Known(number.id), map[ProfileId := TheProfile])])]
    case Some(r) =>
      var drift := Drift(r, ProfileWant(d, r), false);
      var attach := Drift(number, map[ProfileId := S(r.id)], false);
      if drift != map[] || attach != map[] then
        [Do((if drift != map[] then [Patch(Profiles, Known(r.id), drift)] else [])
            + (if attach != map[] then [Patch(Numbers, Known(number.id), attach)] else []))]
      else []
  }

  function ExtrasWant(d: Desired): Body {
    (if d.allowlist.Some? then map[Destinations := Names(d.allowlist.value)] else map[])
    + (if d.alphaSender.Some? then map[AlphaSender := S(d.alphaSender.value)] else map[])
  }

  function ExtrasSteps(d: Desired, a: Account): seq<Step> {
    if ExtrasWant(d) == map[] then []
    else match CoreProfile(d, a)
         case None => [Do([ExtrasOnCreated(ExtrasWant(d))])]
         case Some(r) =>
           var drift := Drift(r, ExtrasWant(d), false);
           if drift != map[] then [Do([Patch(Profiles, Known(r.id), drift)])] else []
  }

  // ----- the optional rows: each names one record and what it wants of it

  /** What a row comes to: nothing the engine may touch, or a record and the fields it must have. */
  datatype Row = Unresolved(topic: string) | Managed(family: Family, record: Record, want: Body, flat: bool)

  function RowStep(row: Row): seq<Step> {
    match row
    case Unresolved(topic) => [Report(topic)]
    case Managed(f, r, want, flat) =>
      var drift := Drift(r, want, flat);
      if drift != map[] then [Do([Patch(f, Known(r.id), drift)])] else []
  }

  function RowSteps(rows: seq<Row>): seq<Step> {
    if rows == [] then [] else RowStep(rows[0]) + RowSteps(rows[1..])
  }

  function NumberRow(d: Desired, a: Account, pin: NumberPin): Row {
    var number := Lookup(Rows(a, Numbers), PhoneNumber, S(pin.number));
    var conn := if pin.connection.None? then None
                else Lookup(Rows(a, Connections), ConnName, S(pin.connection.value));
    var profile := if pin.profile.None? then None
                   else Lookup(Rows(a, Profiles), Name, S(pin.profile.value));
    if number.None? then Unresolved("phone_number")
    else if pin.connection.Some? && conn.None? then Unresolved("connection")
    else if pin.profile.Some? && pin.profile.value != d.profileName && profile.None? then
      Unresolved("messaging_profile")
    else
      Managed(Numbers, number.value,
              (if conn.Some? then map[ConnId := S(conn.value.id)] else map[])
              + (if pin.profile.None? then map[]
                 else map[ProfileId := if profile.Some? then S(profile.value.id) else TheProfile]),
              false)
  }

  function AssistantNamed(a: Account, name: string): Option<Record> {
    Lookup(Rows(a, Assistants), Name, S(name))
  }

  function AssistantRow(a: Account, pin: NamedPin): Row {
    match AssistantNamed(a, pin.name)
    case None => Unresolved("ai_assistant")
    case Some(r) => Managed(Assistants, r, map[Model := S(pin.value)], false)
  }

  function AppRow(a: Account, pin: AppPin): Row {
    match Find(Rows(a, Applications), pin.id)
    case None => Unresolved("call_control_application")
    case Some(r) =>
      Managed(Applications, r,
              map[Active := B(pin.active)]
              + (if pin.webhook.Some? then map[WebhookEvent := S(pin.webhook.value)] else map[])
              + (if pin.ovp.Some? then map[Ovp := S(pin.ovp.value)] else map[]),
              false)
  }

  function ListRow(a: Account, pin: ListPin): Row {
    match Lookup(Rows(a, VoiceProfiles), Name, S(pin.name))
    case None => Unresolved("outbound_voice_profile")
    case Some(r) => Managed(VoiceProfiles, r, map[Destinations := Names(pin.destinations)], false)
  }

  function CredentialRow(a: Account, pin: NamedPin): Row {
    match Lookup2(Rows(a, Connections), Kind, CREDENTIAL_KIND, ConnName, S(pin.name))
    case None => Unresolved("credential_connection")
    case Some(r) => Managed(Connections, r, map[Ovp := S(pin.value)], true)
  }

  const ASSISTANT_PREFIX := "assistant-"

  /** The mint names the application after the assistant's id without its prefix. */
  function TexmlName(id: Id): string {
    "ai-assistant-" + (if ASSISTANT_PREFIX <= id then id[|ASSISTANT_PREFIX|..] else id)
  }

  function TexmlRow(a: Account, pin: NamedPin): Row {
    match AssistantNamed(a, pin.name)
    case None => Unresolved("ai_assistant")
    case Some(assistant) =>
      match Lookup(Rows(a, TexmlApps), FriendlyName, S(TexmlName(assistant.id)))
      case None => Unresolved("assistant_texml_app")
      case Some(r) => Managed(TexmlApps, r, map[Ovp := S(pin.value)], true)
  }

  /** Every number the account holds converges to the same recording settings. */
  function RecordingRow(a: Account, want: Body, number: Record): Row {
    match Find(Rows(a, Voices), number.id)
    case None => Managed(Voices, Record(number.id, map[]), want, false)
    case Some(r) => Managed(Voices, r, want, false)
  }

  function Map<X, Y>(f: X -> Y, xs: seq<X>): (ys: seq<Y>)
    ensures |ys| == |xs| && forall i :: 0 <= i < |xs| ==> ys[i] == f(xs[i])
  {
    if xs == [] then [] else [f(xs[0])] + Map(f, xs[1..])
  }

  function NumberRows(d: Desired, a: Account): seq<Row> { Map(pin => NumberRow(d, a, pin), d.numbers) }
  function AssistantRows(d: Desired, a: Account): seq<Row> { Map(pin => AssistantRow(a, pin), d.assistants) }
  function AppRows(d: Desired, a: Account): seq<Row> { Map(pin => AppRow(a, pin), d.apps) }
  function ListRows(d: Desired, a: Account): seq<Row> { Map(pin => ListRow(a, pin), d.ovpLists) }
  function CredentialRows(d: Desired, a: Account): seq<Row> { Map(pin => CredentialRow(a, pin), d.credentialOvps) }
  function TexmlRows(d: Desired, a: Account): seq<Row> { Map(pin => TexmlRow(a, pin), d.texmlOvps) }

  function RecordingRows(d: Desired, a: Account): seq<Row> {
    if d.recording.None? then [] else Map(number => RecordingRow(a, d.recording.value, number), Rows(a, Numbers))
  }

  /** Only the three recording fields, and only values of their enumerations. */
  predicate RecordingValid(d: Desired) {
    d.recording.Some? ==>
      var w := d.recording.value;
      && w.Keys <= {RecEnabled, RecChannels, RecFormat}
      && (RecEnabled in w ==> w[RecEnabled].B?)
      && (RecChannels in w ==> w[RecChannels] in {S("single"), S("dual")})
      && (RecFormat in w ==> w[RecFormat] in {S("wav"), S("mp3")})
  }

  // ----- report-only lanes

  function WhatsAppSteps(d: Desired, a: Account): seq<Step> {
    if d.whatsappDid.None? then []
    else match Lookup(Rows(a, WhatsApp), PhoneNumber, S(d.whatsappDid.value))
         case None => [Report("whatsapp")]
         case Some(r) => if Is(r, Enabled, B(true)) then [] else [Report("whatsapp")]
  }

  function RetiredSteps(names: seq<string>, rs: seq<Record>): seq<Step> {
    if rs == [] then []
    else (if exists n :: n in names && Is(rs[0], Name, S(n)) then [Report("retired_outbound_voice_profile")] else [])
         + RetiredSteps(names, rs[1..])
  }

  // ----- the plan

  function CoreSteps(d: Desired, a: Account, number: Record): seq<Step> {
    ConnectionSteps(d, a) + FqdnSteps(d, a) + NumberSteps(d, a, number) + ProfileSteps(d, a, number) + ExtrasSteps(d, a)
  }

  /** None is a ReconcileError: the core number is missing or the recording pins are malformed. */
  function BuildPlan(d: Desired, a: Account): Option<seq<Step>> {
    match CoreNumber(d, a)
    case None => None
    case Some(number) =>
      if !RecordingValid(d) then None
      else Some(CoreSteps(d, a, number)
                + RowSteps(NumberRows(d, a)) + WhatsAppSteps(d, a)
                + RowSteps(AssistantRows(d, a)) + RowSteps(AppRows(d, a)) + RowSteps(ListRows(d, a))
                + RetiredSteps(d.retired, Rows(a, VoiceProfiles))
                + RowSteps(CredentialRows(d, a)) + RowSteps(TexmlRows(d, a)) + RowSteps(RecordingRows(d, a)))
  }

  /** All rows of the optional families. */
  function AllRows(d: Desired, a: Account): seq<Row> {
    NumberRows(d, a) + AssistantRows(d, a) + AppRows(d, a) + ListRows(d, a)
    + CredentialRows(d, a) + TexmlRows(d, a) + RecordingRows(d, a)
  }

  predicate ReportOnly(steps: seq<Step>) { forall i :: 0 <= i < |steps| ==> steps[i].Report? }

  // ----- applying a plan

  /** The ids the server gives to what a run creates. */
  datatype Minted = Minted(connection: Id, fqdn: Id, profile: Id)

  function IdFor(ids: Minted, f: Family): Id {
    if f == Connections then ids.connection else if f == Fqdns then ids.fqdn else ids.profile
  }

  /** The account, and the two State fields the closures use. */
  datatype Live = Live(account: Account, connection: Option<Id>, profile: Option<Record>)

  function BindValue(v: Value, l: Live): Option<Value> {
    match v
    case TheConnection => if l.connection.None? then None else Some(S(l.connection.value))
    case TheProfile => if l.profile.None? then None else Some(S(l.profile.value.id))
    case _ => Some(v)
  }

  function Bind(body: Body, l: Live): Option<Body> {
    if exists k :: k in body && BindValue(body[k], l).None? then None
    else Some(map k | k in body :: (match BindValue(body[k], l) case Some(v) => v case None => body[k]))
  }

  function TargetId(t: Target, l: Live): Option<Id> {
    match t
    case Known(id) => Some(id)
    case Connection => l.connection
    case Profile => if l.profile.None? then None else Some(l.profile.value.id)
  }

  function Send(l: Live, op: Op): Option<Live> {
    if Accepts(l.account, op) then Some(l.(account := Perform(l.account, op))) else None
  }

  /** None when the server refuses, or when a placeholder has nothing to stand for. */
  function Execute(call: Call, l: Live, ids: Minted): Option<Live> {
    match call
    case Post(f, body) =>
      (match Bind(body, l)
       case None => None
       case Some(b) =>
         var created := Record(IdFor(ids, f), b);
         var m := l.(account := Perform(l.account, PostOp(f, created.id, b)));
         Some(if f == Connections then m.(connection := Some(created.id))
              else if f == Profiles then m.(profile := Some(created))
              else m))
    case Patch(f, target, body) =>
      (match (TargetId(target, l), Bind(body, l))
       case (Some(id), Some(b)) => Send(l, PatchOp(f, id, b))
       case _ => None)
    case ExtrasOnCreated(want) =>
      if l.profile.None? then None
      else
        var body := Drift(l.profile.value, want, false);
        if body == map[] then Some(l) else Send(l, PatchOp(Profiles, l.profile.value.id, body))
  }

  function ExecuteAll(calls: seq<Call>, l: Live, ids: Minted): Option<Live>
    decreases |calls|
  {
    if calls == [] then Some(l)
    else match Execute(calls[0], l, ids)
         case None => None
         case Some(m) => ExecuteAll(calls[1..], m, ids)
  }

  function Calls(steps: seq<Step>): seq<Call> {
    if steps == [] then []
    else (if steps[0].Do? then steps[0].calls else []) + Calls(steps[1..])
  }

  function Discovered(d: Desired, a: Account): Live {
    Live(a, (match CoreConnection(d, a) case None => None case Some(r) => Some(r.id)), CoreProfile(d, a))
  }

  /** One run with --apply: the account afterwards, or None when a call was refused. */
  function ApplyPlan(d: Desired, a: Account, steps: seq<Step>, ids: Minted): Option<Account> {
    match ExecuteAll(Calls(steps), Discovered(d, a), ids)
    case None => None
    case Some(l) => Some(l.account)
  }

  lemma {:induction false} ExecuteConcat(x: seq<Call>, y: seq<Call>, l: Live, ids: Minted)
    ensures ExecuteAll(x + y, l, ids) == (match ExecuteAll(x, l, ids)
                                          case None => None
                                          case Some(m) => ExecuteAll(y, m, ids))
    decreases |x|
  {
    if x == [] {
      assert x + y == y;
    } else {
      assert (x + y)[1..] == x[1..] + y;
      match Execute(x[0], l, ids)
      case None =>
      case Some(m) => ExecuteConcat(x[1..], y, m, ids);
    }
  }

  lemma {:induction false} CallsConcat(x: seq<Step>, y: seq<Step>)
    ensures Calls(x + y) == Calls(x) + Calls(y)
    decreases |x|
  {
    if x == [] {
      assert x + y == y;
    } else {
      assert (x + y)[1..] == x[1..] + y;
      CallsConcat(x[1..], y);
    }
  }

  /** The run: the apply loop of main over the planned steps, updating the discovered state. */
  class Engine {
    var account: Account
    var connection: Option<Id>
    var profile: Option<Record>
    const ids: Minted

    function View(): Live
      reads this
    {
      Live(account, connection, profile)
    }

    constructor (d: Desired, a: Account, ids: Minted)
      ensures View() == Discovered(d, a) && this.ids == ids
    {
      var found := Discovered(d, a);
      account, connection, profile := found.account, found.connection, found.profile;
      this.ids := ids;
    }

    method RunCall(call: Call) returns (ok: bool)
      modifies this
      ensures (if ok then Some(View()) else None) == Execute(call, old(View()), ids)
      ensures !ok ==> View() == old(View())
    {
      ok := true;
      match call
      case Post(family, body) =>
        var bound := Bind(body, View());
        if bound.None? { return false; }
        var id := IdFor(ids, family);
        account := Perform(account, PostOp(family, id, bound.value));
        if family == Connections {
          connection := Some(id);
        } else if family == Profiles {
          profile := Some(Record(id, bound.value));
        }
      case Patch(family, target, body) =>
        var id, bound := TargetId(target, View()), Bind(body, View());
        if id.None? || bound.None? || !Accepts(account, PatchOp(family, id.value, bound.value)) { return false; }
        account := Perform(account, PatchOp(family, id.value, bound.value));
      case ExtrasOnCreated(want) =>
        if profile.None? { return false; }
        var body := Drift(profile.value, want, false);
        if body != map[] {
          if !Accepts(account, PatchOp(Profiles, profile.value.id, body)) { return false; }
          account := Perform(account, PatchOp(Profiles, profile.value.id, body));
        }
    }

    /** All the calls, or those before the first that is refused. */
    method Apply(steps: seq<Step>) returns (ok: bool)
      modifies this
      ensures (if ok then Some(View()) else None) == ExecuteAll(Calls(steps), old(View()), ids)
      ensures !ok ==> StoppedAt(Calls(steps), old(View()), ids, View())
    {
      var i := 0;
      ghost var start, done: seq<Call> := View(), [];
      while i < |steps|
        invariant i <= |steps|
        invariant done + Calls(steps[i..]) == Calls(steps) && ExecuteAll(done, start, ids) == Some(View())
      {
        ghost var rest := Calls(steps[i + 1..]);
        assert steps[i..][1..] == steps[i + 1..];
        if steps[i].Do? {
          var calls := steps[i].calls;
          var j := 0;
          assert calls[j..] == calls;
          while j < |calls|
            invariant j <= |calls|
            invariant done + (calls[j..] + rest) == Calls(steps) && ExecuteAll(done, start, ids) == Some(View())
          {
            OneMoreCall(done, calls, j, rest, start, View(), ids);
            var accepted := RunCall(calls[j]);
            if !accepted { return false; }
            done := done + [calls[j]];
            j := j + 1;
          }
          assert calls[j..] + rest == rest;
        } else {
          assert Calls(steps[i..]) == [] + rest == rest;
        }
        i := i + 1;
      }
      assert steps[i..] == [] && done + [] == done;
      return true;
    }

    /** The row loops of build_plan: one report or one patch for each row that needs one. */
    method PlanRows(rows: seq<Row>) returns (steps: seq<Step>)
      ensures steps == RowSteps(rows)
    {
      steps := [];
      var i := 0;
      while i < |rows|
        invariant i <= |rows|
        invariant steps + RowSteps(rows[i..]) == RowSteps(rows)
      {
        var more := PlanRow(rows[i]);
        RowStepsFrom(rows, i, steps, more);
        steps := steps + more;
        i := i + 1;
      }
    }

    method PlanRow(row: Row) returns (steps: seq<Step>)
      ensures steps == RowStep(row)
    {
      match row
      case Unresolved(topic) => return [Report(topic)];
      case Managed(f, r, want, flat) =>
        var drift := Drift(r, want, flat);
        if drift != map[] { return [Do([Patch(f, Known(r.id), drift)])]; }
        return [];
    }
  }

  /** `m` is the state after the calls before the first that is refused. */
  ghost predicate StoppedAt(calls: seq<Call>, start: Live, ids: Minted, m: Live) {
    exists k :: 0 <= k < |calls| && ExecuteAll(calls[..k], start, ids) == Some(m) && Execute(calls[k], m, ids).None?
  }

  /** The next call of the loop, after the calls that are done. */
  lemma OneMoreCall(done: seq<Call>, calls: seq<Call>, j: nat, rest: seq<Call>, start: Live, m: Live, ids: Minted)
    requires j < |calls| && ExecuteAll(done, start, ids) == Some(m)
    ensures done + (calls[j..] + rest) == (done + [calls[j]]) + (calls[j + 1..] + rest)
    ensures Execute(calls[j], m, ids).None? ==>
              && ExecuteAll(done + (calls[j..] + rest), start, ids).None?
              && StoppedAt(done + (calls[j..] + rest), start, ids, m)
    ensures Execute(calls[j], m, ids).Some? ==>
              ExecuteAll(done + [calls[j]], start, ids) == Execute(calls[j], m, ids)
  {
    var all := done + (calls[j..] + rest);
    assert calls[j..] == [calls[j]] + calls[j + 1..];
    assert all[..|done|] == done && all[|done|] == calls[j];
    assert (calls[j..] + rest)[0] == calls[j];
    ExecuteConcat(done, calls[j..] + rest, start, ids);
    ExecuteConcat(done, [calls[j]], start, ids);
    assert [calls[j]][1..] == [];
    if Execute(calls[j], m, ids).Some? {
      assert ExecuteAll([], Execute(calls[j], m, ids).value, ids) == Execute(calls[j], m, ids);
    }
  }

  /** A run is refused exactly when, after some of its calls, the next one is. */
  lemma {:induction false} RefusedExactly(calls: seq<Call>, start: Live, ids: Minted)
    ensures ExecuteAll(calls, start, ids).None? <==> exists m :: StoppedAt(calls, start, ids, m)
    decreases |calls|
  {
    if calls != [] {
      var first, rest := Execute(calls[0], start, ids), calls[1..];
      assert calls[..0] == [] && ExecuteAll([], start, ids) == Some(start);
      if first.None? {
        assert StoppedAt(calls, start, ids, start);
      } else {
        RefusedExactly(rest, first.value, ids);
        forall m ensures StoppedAt(calls, start, ids, m) <==> StoppedAt(rest, first.value, ids, m) {
          StopsLater(calls, start, ids, m);
        }
      }
    }
  }

  lemma StopsLater(calls: seq<Call>, start: Live, ids: Minted, m: Live)
    requires calls != [] && Execute(calls[0], start, ids).Some?
    ensures StoppedAt(calls, start, ids, m) <==> StoppedAt(calls[1..], Execute(calls[0], start, ids).value, ids, m)
  {
    var rest, next := calls[1..], Execute(calls[0], start, ids).value;
    forall k | 0 <= k < |rest| ensures ExecuteAll(calls[..k + 1], start, ids) == ExecuteAll(rest[..k], next, ids) {
      assert calls[..k + 1][1..] == rest[..k];
    }
    if k :| 0 <= k < |rest| && ExecuteAll(rest[..k], next, ids) == Some(m) && Execute(rest[k], m, ids).None? {
      assert calls[k + 1] == rest[k];
    }
    if k :| 0 <= k < |calls| && ExecuteAll(calls[..k], start, ids) == Some(m) && Execute(calls[k], m, ids).None? {
      if k > 0 { assert rest[k - 1] == calls[k]; }
    }
  }

  lemma RowStepsFrom(rows: seq<Row>, i: nat, before: seq<Step>, more: seq<Step>)
    requires i < |rows| && more == RowStep(rows[i])
    ensures before + RowSteps(rows[i..]) == (before + more) + RowSteps(rows[i + 1..])
  {
    assert rows[i..][1..] == rows[i + 1..];
    assert RowSteps(rows[i..]) == more + RowSteps(rows[i + 1..]);
  }
}
