/** The core steps of a plan of scripts/telnyx_reconcile.py, and the run of a whole plan. */
module PlanCore {
  import opened Wrappers
  import opened TelnyxAccount
  import opened Reconciler
  import opened PlanExecution
  import opened PlanValidity

  function EnvOf(d: Desired, a: Account, ids: Minted): Env {
    Env((match CoreConnection(d, a) case None => ids.connection case Some(r) => r.id),
        (match CoreProfile(d, a) case None => ids.profile case Some(r) => r.id),
        ProfileFields(d))
  }

  function HasConnection(d: Desired, a: Account): bool { CoreConnection(d, a).Some? }

  function StageOf(d: Desired, a: Account): Stage { if CoreProfile(d, a).Some? then Existing else Absent }

  function LastStage(d: Desired, a: Account): Stage { if CoreProfile(d, a).Some? then Existing else Created }

  /** What the rest of the run needs of one section of the plan. */
  ghost predicate Fits(a: Account, calls: seq<Call>, seen: seq<Op>, conn: bool, st: Stage, e: Env, ids: Minted,
                       posts: set<Family>) {
    && Bound(calls, conn, st, e)
    && AllJust(a, seen, Ops(calls, e, ids))
    && PostsOnly(Ops(calls, e, ids), posts, ids)
  }

  ghost predicate Section(a: Account, calls: seq<Call>, seen: seq<Op>, conn: bool, st: Stage, e: Env, ids: Minted,
                          posts: set<Family>, after: Stage) {
    Fits(a, calls, seen, conn, st, e, ids, posts) && ConnAfter(calls, conn) && StagesAfter(calls, st) == after
  }

  lemma FitsConcat(a: Account, x: seq<Call>, y: seq<Call>, seen: seq<Op>, conn: bool, st: Stage, e: Env, ids: Minted,
                   f: set<Family>, g: set<Family>)
    requires Fits(a, x, seen, conn, st, e, ids, f) && f !! g
    requires Fits(a, y, seen + Ops(x, e, ids), ConnAfter(x, conn), StagesAfter(x, st), e, ids, g)
    ensures Fits(a, x + y, seen, conn, st, e, ids, f + g)
    ensures ConnAfter(x + y, conn) == ConnAfter(y, ConnAfter(x, conn))
    ensures StagesAfter(x + y, st) == StagesAfter(y, StagesAfter(x, st))
    ensures Ops(x + y, e, ids) == Ops(x, e, ids) + Ops(y, e, ids)
  {
    BoundConcat(x, y, conn, st, e);
    OpsConcat(x, y, e, ids);
    JustConcat(a, seen, Ops(x, e, ids), Ops(y, e, ids));
    PostsConcat(Ops(x, e, ids), Ops(y, e, ids), f, g, ids);
  }

  lemma FitsNothing(a: Account, seen: seq<Op>, conn: bool, st: Stage, e: Env, ids: Minted)
    ensures Fits(a, [], seen, conn, st, e, ids, {})
  {
  }

  /** A section of one call. */
  lemma FitsOne(a: Account, call: Call, seen: seq<Op>, conn: bool, st: Stage, e: Env, ids: Minted)
    requires CallBound(call, conn, st, e) && !call.ExtrasOnCreated?
    requires Just(a, seen, OpsOf(call, e, ids)[0])
    ensures Fits(a, [call], seen, conn, st, e, ids, if call.Post? then {call.family} else {})
    ensures Ops([call], e, ids) == OpsOf(call, e, ids)
    ensures ConnAfter([call], conn) == (conn || PostsConnection(call))
            && StagesAfter([call], st) == StageAfter(call, st)
  {
    OneCall(call, e, ids);
    assert [call][1..] == [];
    var op := OpsOf(call, e, ids)[0];
    assert [op][1..] == [];
  }

  /** One operation on a record that is there, or that an earlier call of the run has posted. */
  predicate Placed(a: Account, seen: seq<Op>, f: Family, id: Id) {
    || Find(Rows(a, f), id).Some?
    || exists i :: 0 <= i < |seen| && seen[i].PostOp? && seen[i].family == f && seen[i].id == id
  }

  lemma PatchJust(a: Account, seen: seq<Op>, f: Family, id: Id, body: Body)
    requires Placed(a, seen, f, id) && body.Keys !! LOOKED_UP && Clean(body) && !(f == Connections && Ovp in body)
    ensures Just(a, seen, PatchOp(f, id, body))
  {
    if i :| 0 <= i < |seen| && seen[i].PostOp? && seen[i].family == f && seen[i].id == id {
      assert seen[i] in seen;
    }
  }

  // ----- the connection and its outbound leg

  lemma AuthFits(a: Account, nested: Body, seen: seq<Op>, st: Stage, e: Env, ids: Minted)
    requires Auth in nested && nested[Auth].S? && Placed(a, seen, Connections, e.connection)
    ensures var calls := [Patch(Connections, Connection, map[Auth := nested[Auth]])];
            && Fits(a, calls, seen, true, st, e, ids, {}) && ConnAfter(calls, true) && StagesAfter(calls, st) == st
            && Ops(calls, e, ids) == [PatchOp(Connections, e.connection, ResBody(map[Auth := nested[Auth]], e))]
  {
    PatchJust(a, seen, Connections, e.connection, ResBody(map[Auth := nested[Auth]], e));
    FitsOne(a, Patch(Connections, Connection, map[Auth := nested[Auth]]), seen, true, st, e, ids);
  }

  lemma OvpFits(a: Account, nested: Body, seen: seq<Op>, st: Stage, e: Env, ids: Minted)
    requires Ovp in nested && nested[Ovp].S? && Placed(a, seen, Connections, e.connection)
    requires || (Find(Rows(a, Connections), e.connection).Some?
                 && Auth in Find(Rows(a, Connections), e.connection).value.fields)
             || exists s :: s in seen && s.PatchOp? && s.family == Connections && s.id == e.connection && Auth in s.body
    ensures var calls := [Patch(Connections, Connection, map[Ovp := nested[Ovp]])];
            Fits(a, calls, seen, true, st, e, ids, {}) && ConnAfter(calls, true) && StagesAfter(calls, st) == st
  {
    var op := PatchOp(Connections, e.connection, ResBody(map[Ovp := nested[Ovp]], e));
    assert Just(a, seen, op) by {
      if i :| 0 <= i < |seen| && seen[i].PostOp? && seen[i].family == Connections && seen[i].id == e.connection {
        assert seen[i] in seen;
      }
    }
    FitsOne(a, Patch(Connections, Connection, map[Ovp := nested[Ovp]]), seen, true, st, e, ids);
  }

  lemma StillPlaced(a: Account, seen: seq<Op>, more: seq<Op>, f: Family, id: Id)
    requires Placed(a, seen, f, id)
    ensures Placed(a, seen + more, f, id)
  {
    if i :| 0 <= i < |seen| && seen[i].PostOp? && seen[i].family == f && seen[i].id == id {
      assert (seen + more)[i] == seen[i];
    }
  }

  /** The authentication method goes out, or is there already, before the voice profile does. */
  lemma OutboundFits(d: Desired, a: Account, nested: Body, seen: seq<Op>, st: Stage, e: Env, ids: Minted)
    requires nested.Keys <= {Auth, Ovp} && (forall k :: k in nested ==> nested[k].S?)
    requires Placed(a, seen, Connections, e.connection)
    requires Auth in nested || (Find(Rows(a, Connections), e.connection).Some?
                                && Auth in Find(Rows(a, Connections), e.connection).value.fields)
    ensures var calls := OutboundStep(nested).calls;
            && Fits(a, calls, seen, true, st, e, ids, {})
            && ConnAfter(calls, true) && StagesAfter(calls, st) == st
  {
    var auth := if Auth in nested then [Patch(Connections, Connection, map[Auth := nested[Auth]])] else [];
    var ovp := if Ovp in nested then [Patch(Connections, Connection, map[Ovp := nested[Ovp]])] else [];
    FitsNothing(a, seen, true, st, e, ids);
    if Auth in nested { AuthFits(a, nested, seen, st, e, ids); }
    var after := seen + Ops(auth, e, ids);
    FitsNothing(a, after, true, st, e, ids);
    StillPlaced(a, seen, Ops(auth, e, ids), Connections, e.connection);
    if Ovp in nested {
      if Auth in nested { assert after[|seen|].PatchOp? && Auth in after[|seen|].body && after[|seen|] in after; }
      OvpFits(a, nested, after, st, e, ids);
    }
    FitsConcat(a, auth, ovp, seen, true, st, e, ids, {}, {});
  }

  lemma ConnectionFits(d: Desired, a: Account, ids: Minted)
    requires Valid(a)
    ensures Section(a, Calls(ConnectionSteps(d, a)), [], HasConnection(d, a), StageOf(d, a), EnvOf(d, a, ids), ids,
                    {Connections}, StageOf(d, a))
  {
    match CoreConnection(d, a)
    case None => NewConnectionFits(d, a, StageOf(d, a), EnvOf(d, a, ids), ids);
    case Some(r) =>
      LookedUp(a, Connections, Kind, FQDN_KIND, ConnName, S(d.connectionName));
      OldConnectionFits(d, a, r, StageOf(d, a), EnvOf(d, a, ids), ids);
  }

  lemma NewConnectionFits(d: Desired, a: Account, st: Stage, e: Env, ids: Minted)
    requires Valid(a) && CoreConnection(d, a).None? && e.connection == ids.connection
    ensures Section(a, Calls(ConnectionSteps(d, a)), [], false, st, e, ids, {Connections}, st)
  {
    var post := Post(Connections, ConnectionWant(d)[Kind := FQDN_KIND]);
    var out := OutboundStep(OutboundWant(d)).calls;
    FitsOne(a, post, [], false, st, e, ids);
    var seen := [] + Ops([post], e, ids);
    assert seen[0].PostOp? && seen[0].id == e.connection;
    OutboundFits(d, a, OutboundWant(d), seen, st, e, ids);
    FitsConcat(a, [post], out, [], false, st, e, ids, {Connections}, {});
    assert {Connections} + {} == {Connections};
    TwoSteps([post], out);
  }

  predicate Plain(b: Body) { forall k :: k in b ==> b[k] != TheConnection && b[k] != TheProfile }

  function DriftCalls(b: Body): seq<Call> { if b != map[] then [Patch(Connections, Connection, b)] else [] }

  function OutboundCalls(b: Body): seq<Call> { if b != map[] then OutboundStep(b).calls else [] }

  lemma PatchThenOutbound(d: Desired, a: Account, drift: Body, nested: Body, st: Stage, e: Env, ids: Minted)
    requires Find(Rows(a, Connections), e.connection).Some?
    requires drift.Keys <= {Transport, Active} && Plain(drift)
    requires nested.Keys <= {Auth, Ovp} && (forall k :: k in nested ==> nested[k].S?)
    requires Auth in nested || Auth in Find(Rows(a, Connections), e.connection).value.fields
    ensures Section(a, DriftCalls(drift) + OutboundCalls(nested), [], true, st, e, ids, {Connections}, st)
  {
    var first, second := DriftCalls(drift), OutboundCalls(nested);
    FitsNothing(a, [], true, st, e, ids);
    if drift != map[] {
      ResClean(drift, e);
      PatchJust(a, [], Connections, e.connection, ResBody(drift, e));
      FitsOne(a, first[0], [], true, st, e, ids);
    }
    var seen := [] + Ops(first, e, ids);
    FitsNothing(a, seen, true, st, e, ids);
    if nested != map[] { OutboundFits(d, a, nested, seen, st, e, ids); }
    FitsConcat(a, first, second, [], true, st, e, ids, {}, {});
    PostsWider(Ops(first + second, e, ids), {} + {}, {Connections}, ids);
  }

  lemma OldConnectionFits(d: Desired, a: Account, r: Record, st: Stage, e: Env, ids: Minted)
    requires Valid(a) && CoreConnection(d, a) == Some(r) && e.connection == r.id
    requires Find(Rows(a, Connections), r.id) == Some(r) && Is(r, ConnName, S(d.connectionName))
    ensures Section(a, Calls(ConnectionSteps(d, a)), [], true, st, e, ids, {Connections}, st)
  {
    var drift := Drift(r, ConnectionWant(d), false);
    var nested := Drift(r, OutboundWant(d), false);
    assert drift.Keys <= {Transport, Active} && Plain(drift);
    assert nested.Keys <= {Auth, Ovp};
    PatchThenOutbound(d, a, drift, nested, st, e, ids);
    OldConnectionCalls(d, a, r);
  }

  lemma OldConnectionCalls(d: Desired, a: Account, r: Record)
    requires CoreConnection(d, a) == Some(r)
    ensures Calls(ConnectionSteps(d, a)) == DriftCalls(Drift(r, ConnectionWant(d), false))
            + OutboundCalls(Drift(r, OutboundWant(d), false))
  {
    var drift, nested := Drift(r, ConnectionWant(d), false), Drift(r, OutboundWant(d), false);
    OptionalSteps(DriftCalls(drift), drift != map[], OutboundCalls(nested), nested != map[]);
  }

  lemma TwoSteps(x: seq<Call>, y: seq<Call>)
    ensures Calls([Do(x), Do(y)]) == x + y
  {
    OneStep(y);
    assert [Do(x), Do(y)][1..] == [Do(y)];
  }

  lemma OptionalSteps(x: seq<Call>, hasX: bool, y: seq<Call>, hasY: bool)
    requires (!hasX ==> x == []) && (!hasY ==> y == [])
    ensures Calls((if hasX then [Do(x)] else []) + (if hasY then [Do(y)] else [])) == x + y
  {
    CallsConcat(if hasX then [Do(x)] else [], if hasY then [Do(y)] else []);
    OneStep(x);
    OneStep(y);
  }

  // ----- the FQDN record, the number, the profile, its extras

  /** At most one patch, of a record that is there. */
  lemma OnePatch(a: Account, f: Family, id: Id, b: Body, seen: seq<Op>, st: Stage, e: Env, ids: Minted)
    requires Find(Rows(a, f), id).Some? && b.Keys !! LOOKED_UP && f != Connections
    requires BodyBound(b, true, st)
    ensures Section(a, Calls(if b != map[] then [Do([Patch(f, Known(id), b)])] else []), seen, true, st, e, ids, {}, st)
  {
    FitsNothing(a, seen, true, st, e, ids);
    if b != map[] {
      ResClean(b, e);
      PatchJust(a, seen, f, id, ResBody(b, e));
      FitsOne(a, Patch(f, Known(id), b), seen, true, st, e, ids);
      OneStep([Patch(f, Known(id), b)]);
    }
  }

  lemma NewFqdnFits(d: Desired, a: Account, ids: Minted, st: Stage, e: Env, seen: seq<Op>)
    requires CoreFqdn(d, a).None?
    ensures Section(a, Calls(FqdnSteps(d, a)), seen, true, st, e, ids, {Fqdns}, st)
  {
    var post :=
        Post(Fqdns, map[FqdnName := S(d.fqdn), Port := N(d.fqdnPort), DnsType := S(d.dnsType),
                        ConnId := TheConnection]);
    FitsOne(a, post, seen, true, st, e, ids);
    OneStep([post]);
  }

  lemma OldFqdnFits(d: Desired, a: Account, ids: Minted, st: Stage, e: Env, seen: seq<Op>, r: Record)
    requires CoreFqdn(d, a) == Some(r) && Find(Rows(a, Fqdns), r.id).Some?
    ensures Section(a, Calls(FqdnSteps(d, a)), seen, true, st, e, ids, {Fqdns}, st)
  {
    var port := Drift(r, map[Port := N(d.fqdnPort)], false);
    var move: Body := if CoreConnection(d, a).None? && ConnId in r.fields then map[ConnId := TheConnection] else map[];
    FqdnPatchFits(a, r.id, port + move, seen, st, e, ids);
  }

  lemma FqdnPatchFits(a: Account, id: Id, body: Body, seen: seq<Op>, st: Stage, e: Env, ids: Minted)
    requires Find(Rows(a, Fqdns), id).Some? && body.Keys <= {Port, ConnId}
    requires forall k :: k in body ==> body[k] != TheProfile
    ensures Section(a, Calls(if body != map[] then [Do([Patch(Fqdns, Known(id), body)])] else []), seen, true, st, e,
                    ids, {Fqdns}, st)
  {
    var steps := if body != map[] then [Do([Patch(Fqdns, Known(id), body)])] else [];
    OnePatch(a, Fqdns, id, body, seen, st, e, ids);
    PostsWider(Ops(Calls(steps), e, ids), {}, {Fqdns}, ids);
  }

  lemma FqdnFits(d: Desired, a: Account, ids: Minted, st: Stage, e: Env, seen: seq<Op>)
    requires Valid(a)
    ensures Section(a, Calls(FqdnSteps(d, a)), seen, true, st, e, ids, {Fqdns}, st)
  {
    if CoreFqdn(d, a).None? {
      NewFqdnFits(d, a, ids, st, e, seen);
    } else {
      FqdnLookedUp(d, a);
      OldFqdnFits(d, a, ids, st, e, seen, CoreFqdn(d, a).value);
    }
  }

  lemma FqdnLookedUp(d: Desired, a: Account)
    requires Valid(a) && CoreFqdn(d, a).Some?
    ensures Find(Rows(a, Fqdns), CoreFqdn(d, a).value.id) == CoreFqdn(d, a)
  {
    LookedUp(a, Fqdns, FqdnName, S(d.fqdn), FqdnName, S(d.fqdn));
    if CoreConnection(d, a).Some? {
      LookedUp(a, Fqdns, ConnId, S(CoreConnection(d, a).value.id), FqdnName, S(d.fqdn));
    }
  }

  lemma NumberFits(d: Desired, a: Account, ids: Minted, number: Record, st: Stage, e: Env, seen: seq<Op>)
    requires Valid(a) && CoreNumber(d, a) == Some(number)
    ensures Section(a, Calls(NumberSteps(d, a, number)), seen, true, st, e, ids, {}, st)
  {
    LookedUp(a, Numbers, PhoneNumber, S(d.phoneNumber), PhoneNumber, S(d.phoneNumber));
    if NumberSteps(d, a, number) == [] {
      FitsNothing(a, seen, true, st, e, ids);
    } else {
      AttachFits(a, number.id, seen, st, e, ids);
    }
  }

  lemma AttachFits(a: Account, number: Id, seen: seq<Op>, st: Stage, e: Env, ids: Minted)
    requires Find(Rows(a, Numbers), number).Some?
    ensures Section(a, Calls([Do([Patch(Numbers, Known(number), map[ConnId := TheConnection])])]), seen, true, st, e,
                    ids, {}, st)
  {
    var b: Body := map[ConnId := TheConnection];
    assert ConnId in b;
    OnePatch(a, Numbers, number, b, seen, st, e, ids);
  }

  lemma ResPlain(b: Body, e: Env)
    requires Plain(b)
    ensures ResBody(b, e) == b
  {
  }

  lemma PostThenAttach(a: Account, fields: Body, number: Id, e: Env, ids: Minted, seen: seq<Op>)
    requires Plain(fields) && e.profile == ids.profile && e.created == fields && Find(Rows(a, Numbers), number).Some?
    ensures var calls := [Post(Profiles, fields), Patch(Numbers, Known(number), map[ProfileId := TheProfile])];
            && Section(a, calls, seen, true, Absent, e, ids, {Profiles}, Created)
            && Ops(calls, e, ids) == [PostOp(Profiles, e.profile, fields),
                                      PatchOp(Numbers, number, map[ProfileId := S(e.profile)])]
  {
    var post := Post(Profiles, fields);
    ResPlain(fields, e);
    FitsOne(a, post, seen, true, Absent, e, ids);
    var attach := Patch(Numbers, Known(number), map[ProfileId := TheProfile]);
    assert ResBody(attach.body, e) == map[ProfileId := S(e.profile)];
    var after := seen + Ops([post], e, ids);
    PatchJust(a, after, Numbers, number, ResBody(attach.body, e));
    FitsOne(a, attach, after, true, Created, e, ids);
    FitsConcat(a, [post], [attach], seen, true, Absent, e, ids, {Profiles}, {});
    assert {Profiles} + {} == {Profiles};
    assert [post] + [attach] == [post, attach];
  }

  lemma NewProfileFits(d: Desired, a: Account, ids: Minted, number: Record, e: Env, seen: seq<Op>)
    requires Valid(a) && CoreNumber(d, a) == Some(number) && CoreProfile(d, a).None?
    requires e.profile == ids.profile && e.created == ProfileFields(d)
    ensures Section(a, Calls(ProfileSteps(d, a, number)), seen, true, Absent, e, ids, {Profiles}, Created)
    ensures Ops(Calls(ProfileSteps(d, a, number)), e, ids)
         == [PostOp(Profiles, e.profile, ProfileFields(d)), PatchOp(Numbers, number.id, map[ProfileId := S(e.profile)])]
  {
    LookedUp(a, Numbers, PhoneNumber, S(d.phoneNumber), PhoneNumber, S(d.phoneNumber));
    var fields := ProfileFields(d);
    assert Plain(fields);
    PostThenAttach(a, fields, number.id, e, ids, seen);
    OneStep([Post(Profiles, fields), Patch(Numbers, Known(number.id), map[ProfileId := TheProfile])]);
  }

  function ProfileDrift(d: Desired, r: Record): (b: Body)
    ensures b.Keys <= {Webhook, Mms, Enabled} && Plain(b)
  {
    Drift(r, ProfileWant(d, r), false)
  }

  function AttachDrift(number: Record, profile: Id): (b: Body)
    ensures b.Keys <= {ProfileId} && Plain(b)
  {
    Drift(number, map[ProfileId := S(profile)], false)
  }

  lemma OldProfileCalls(d: Desired, a: Account, number: Record, r: Record)
    requires CoreProfile(d, a) == Some(r)
    ensures Calls(ProfileSteps(d, a, number))
            == PairCalls(Profiles, r.id, ProfileDrift(d, r), Numbers, number.id, AttachDrift(number, r.id))
  {
    OneStep(PairCalls(Profiles, r.id, ProfileDrift(d, r), Numbers, number.id, AttachDrift(number, r.id)));
  }

  lemma OldProfileFits(d: Desired, a: Account, ids: Minted, number: Record, r: Record, e: Env, seen: seq<Op>)
    requires Valid(a) && CoreNumber(d, a) == Some(number) && CoreProfile(d, a) == Some(r)
    ensures Section(a, Calls(ProfileSteps(d, a, number)), seen, true, Existing, e, ids, {Profiles}, Existing)
    ensures PairOps(Ops(Calls(ProfileSteps(d, a, number)), e, ids), Profiles, r.id, ProfileDrift(d, r), Numbers,
                    number.id, AttachDrift(number, r.id))
  {
    LookedUp(a, Numbers, PhoneNumber, S(d.phoneNumber), PhoneNumber, S(d.phoneNumber));
    LookedUp(a, Profiles, Name, S(d.profileName), Name, S(d.profileName));
    OldProfileCalls(d, a, number, r);
    ProfilePairFits(a, r.id, ProfileDrift(d, r), number.id, AttachDrift(number, r.id), seen, e, ids);
  }

  lemma ProfilePairFits(a: Account, i: Id, x: Body, j: Id, y: Body, seen: seq<Op>, e: Env, ids: Minted)
    requires Find(Rows(a, Profiles), i).Some? && x.Keys <= {Webhook, Mms, Enabled} && Plain(x)
    requires Find(Rows(a, Numbers), j).Some? && y.Keys <= {ProfileId} && Plain(y)
    ensures var calls := PairCalls(Profiles, i, x, Numbers, j, y);
            Section(a, calls, seen, true, Existing, e, ids, {Profiles}, Existing)
                && PairOps(Ops(calls, e, ids), Profiles, i, x, Numbers, j, y)
  {
    PatchPair(a, Profiles, i, x, Numbers, j, y, seen, Existing, e, ids);
    PostsWider(Ops(PairCalls(Profiles, i, x, Numbers, j, y), e, ids), {}, {Profiles}, ids);
  }

  /** Exactly the patches that have something to say. */
  predicate PairOps(ops: seq<Op>, f: Family, i: Id, x: Body, g: Family, j: Id, y: Body) {
    && (x != map[] ==> PatchOp(f, i, x) in ops) && (y != map[] ==> PatchOp(g, j, y) in ops)
    && (forall op :: op in ops ==> op == PatchOp(f, i, x) || op == PatchOp(g, j, y))
  }

  function PairCalls(f: Family, i: Id, x: Body, g: Family, j: Id, y: Body): seq<Call> {
    (if x != map[] then [Patch(f, Known(i), x)] else []) + (if y != map[] then [Patch(g, Known(j), y)] else [])
  }

  /** Up to two patches of records that are there. */
  lemma PatchPair(a: Account, f: Family, i: Id, x: Body, g: Family, j: Id, y: Body, seen: seq<Op>, st: Stage, e: Env,
                  ids: Minted)
    requires Find(Rows(a, f), i).Some? && x.Keys !! LOOKED_UP && Clean(x) && f != Connections
    requires Find(Rows(a, g), j).Some? && y.Keys !! LOOKED_UP && Clean(y) && g != Connections
    ensures var calls := PairCalls(f, i, x, g, j, y);
            && Fits(a, calls, seen, true, st, e, ids, {}) && ConnAfter(calls, true) && StagesAfter(calls, st) == st
            && PairOps(Ops(calls, e, ids), f, i, x, g, j, y)
  {
    var p := if x != map[] then [Patch(f, Known(i), x)] else [];
    var q := if y != map[] then [Patch(g, Known(j), y)] else [];
    MaybePatch(a, f, i, x, seen, st, e, ids);
    MaybePatch(a, g, j, y, seen + Ops(p, e, ids), st, e, ids);
    FitsConcat(a, p, q, seen, true, st, e, ids, {}, {});
  }

  lemma MaybePatch(a: Account, f: Family, id: Id, b: Body, seen: seq<Op>, st: Stage, e: Env, ids: Minted)
    requires Find(Rows(a, f), id).Some? && b.Keys !! LOOKED_UP && Clean(b) && f != Connections
    ensures var calls := if b != map[] then [Patch(f, Known(id), b)] else [];
            && Fits(a, calls, seen, true, st, e, ids, {}) && ConnAfter(calls, true) && StagesAfter(calls, st) == st
            && Ops(calls, e, ids) == if b != map[] then [PatchOp(f, id, b)] else []
  {
    FitsNothing(a, seen, true, st, e, ids);
    if b != map[] {
      assert ResBody(b, e) == b;
      PatchJust(a, seen, f, id, b);
      FitsOne(a, Patch(f, Known(id), b), seen, true, st, e, ids);
    }
  }

  lemma CreatedExtras(a: Account, want: Body, e: Env, ids: Minted, seen: seq<Op>)
    requires want.Keys <= {Destinations, AlphaSender} && Plain(want)
    requires PostOp(Profiles, e.profile, e.created) in seen
    ensures var calls := [ExtrasOnCreated(want)];
            && Section(a, calls, seen, true, Created, e, ids, {}, Created)
            && Ops(calls, e, ids) == var b := Drift(Record(e.profile, e.created), want, false);
                                     if b == map[] then [] else [PatchOp(Profiles, e.profile, b)]
  {
    var call := ExtrasOnCreated(want);
    OneCall(call, e, ids);
    assert [call][1..] == [];
    var b := Drift(Record(e.profile, e.created), want, false);
    if b != map[] {
      PatchJust(a, seen, Profiles, e.profile, b);
      assert [PatchOp(Profiles, e.profile, b)][1..] == [];
    }
  }

  lemma ExtrasWantKeys(d: Desired)
    ensures ExtrasWant(d).Keys <= {Destinations, AlphaSender} && Plain(ExtrasWant(d))
  {
  }

  lemma NewExtrasFits(d: Desired, a: Account, ids: Minted, e: Env, seen: seq<Op>)
    requires CoreProfile(d, a).None? && e.created == ProfileFields(d)
    requires PostOp(Profiles, e.profile, ProfileFields(d)) in seen
    ensures Section(a, Calls(ExtrasSteps(d, a)), seen, true, Created, e, ids, {}, Created)
  {
    FitsNothing(a, seen, true, Created, e, ids);
    if ExtrasWant(d) != map[] {
      ExtrasWantKeys(d);
      CreatedExtras(a, ExtrasWant(d), e, ids, seen);
      OneStep([ExtrasOnCreated(ExtrasWant(d))]);
    }
  }

  lemma OldExtrasFits(d: Desired, a: Account, ids: Minted, e: Env, seen: seq<Op>)
    requires Valid(a) && CoreProfile(d, a).Some?
    ensures Section(a, Calls(ExtrasSteps(d, a)), seen, true, Existing, e, ids, {}, Existing)
  {
    LookedUp(a, Profiles, Name, S(d.profileName), Name, S(d.profileName));
    FitsNothing(a, seen, true, Existing, e, ids);
    var r := CoreProfile(d, a).value;
    var drift := Drift(r, ExtrasWant(d), false);
    ExtrasWantKeys(d);
    OnePatch(a, Profiles, r.id, drift, seen, Existing, e, ids);
  }

  // ----- the whole plan

  function CoreCalls(d: Desired, a: Account, number: Record): seq<Call> {
    Calls(ConnectionSteps(d, a)) + Calls(FqdnSteps(d, a)) + Calls(NumberSteps(d, a, number))
    + Calls(ProfileSteps(d, a, number)) + Calls(ExtrasSteps(d, a))
  }

  function PlanCallList(d: Desired, a: Account, number: Record): seq<Call> {
    CoreCalls(d, a, number) + Calls(RowSteps(AllRows(d, a)))
  }

  lemma {:induction false} RetiredReports(names: seq<string>, rs: seq<Record>)
    ensures Calls(RetiredSteps(names, rs)) == [] && ReportOnly(RetiredSteps(names, rs))
    decreases |rs|
  {
    if rs != [] {
      RetiredReports(names, rs[1..]);
      var x := if exists n :: n in names && Is(rs[0], Name, S(n)) then [Report("retired_outbound_voice_profile")]
          else [];
      assert x != [] ==> x[1..] == [];
      CallsConcat(x, RetiredSteps(names, rs[1..]));
    }
  }

  lemma WhatsAppReports(d: Desired, a: Account)
    ensures Calls(WhatsAppSteps(d, a)) == [] && ReportOnly(WhatsAppSteps(d, a))
  {
    assert WhatsAppSteps(d, a) != [] ==> WhatsAppSteps(d, a)[1..] == [];
  }

  lemma {:induction false} RowStepsConcat(x: seq<Row>, y: seq<Row>)
    ensures RowSteps(x + y) == RowSteps(x) + RowSteps(y)
    decreases |x|
  {
    if x == [] {
      assert x + y == y;
    } else {
      assert (x + y)[0] == x[0] && (x + y)[1..] == x[1..] + y;
      RowStepsConcat(x[1..], y);
    }
  }

  lemma CoreStepCalls(d: Desired, a: Account, number: Record)
    ensures Calls(CoreSteps(d, a, number)) == CoreCalls(d, a, number)
  {
    var s1, s2, s3 := ConnectionSteps(d, a), FqdnSteps(d, a), NumberSteps(d, a, number);
    var s4, s5 := ProfileSteps(d, a, number), ExtrasSteps(d, a);
    CallsConcat(s1, s2);
    CallsConcat(s1 + s2, s3);
    CallsConcat(s1 + s2 + s3, s4);
    CallsConcat(s1 + s2 + s3 + s4, s5);
  }

  /** The report-only lanes make no call. */
  lemma PlanCalls(d: Desired, a: Account, number: Record)
    requires CoreNumber(d, a) == Some(number) && RecordingValid(d)
    ensures Calls(BuildPlan(d, a).value) == PlanCallList(d, a, number)
  {
    WhatsAppReports(d, a);
    RetiredReports(d.retired, Rows(a, VoiceProfiles));
    CoreStepCalls(d, a, number);
    CallsOfTen(CoreSteps(d, a, number), NumberRows(d, a), WhatsAppSteps(d, a), AssistantRows(d, a), AppRows(d, a),
               ListRows(d, a), RetiredSteps(d.retired, Rows(a, VoiceProfiles)), CredentialRows(d, a),
               TexmlRows(d, a), RecordingRows(d, a));
  }

  lemma CallsOfTen(core: seq<Step>, r1: seq<Row>, w: seq<Step>, r2: seq<Row>, r3: seq<Row>, r4: seq<Row>, t: seq<Step>,
                   r5: seq<Row>, r6: seq<Row>, r7: seq<Row>)
    requires Calls(w) == [] && Calls(t) == []
    ensures Calls(core + RowSteps(r1) + w + RowSteps(r2) + RowSteps(r3) + RowSteps(r4) + t + RowSteps(r5)
                  + RowSteps(r6) + RowSteps(r7))
         == Calls(core) + Calls(RowSteps(r1 + r2 + r3 + r4 + r5 + r6 + r7))
  {
    assert [] + r1 == r1;
    CallsThenRows(core, core, [], r1);
    var p1 := core + RowSteps(r1);
    CallsConcat(p1, w);
    CallsThenRows(core, p1 + w, r1, r2);
    var p2 := p1 + w + RowSteps(r2);
    CallsThenRows(core, p2, r1 + r2, r3);
    CallsThenRows(core, p2 + RowSteps(r3), r1 + r2 + r3, r4);
    var p4 := p2 + RowSteps(r3) + RowSteps(r4);
    CallsConcat(p4, t);
    CallsThenRows(core, p4 + t, r1 + r2 + r3 + r4, r5);
    CallsThenRows(core, p4 + t + RowSteps(r5), r1 + r2 + r3 + r4 + r5, r6);
    CallsThenRows(core, p4 + t + RowSteps(r5) + RowSteps(r6), r1 + r2 + r3 + r4 + r5 + r6, r7);
  }

  lemma CallsThenRows(core: seq<Step>, p: seq<Step>, x: seq<Row>, r: seq<Row>)
    requires Calls(p) == Calls(core) + Calls(RowSteps(x))
    ensures Calls(p + RowSteps(r)) == Calls(core) + Calls(RowSteps(x + r))
  {
    CallsConcat(p, RowSteps(r));
    RowStepsConcat(x, r);
    CallsConcat(RowSteps(x), RowSteps(r));
    AssocCalls(Calls(core), Calls(RowSteps(x)), Calls(RowSteps(r)));
  }

  lemma AssocCalls(x: seq<Call>, y: seq<Call>, z: seq<Call>)
    ensures x + y + z == x + (y + z)
  {
  }

  lemma SectionConcat(a: Account, x: seq<Call>, y: seq<Call>, conn: bool, st: Stage, mid: Stage, last: Stage, e: Env,
                      ids: Minted, f: set<Family>, g: set<Family>)
    requires Section(a, x, [], conn, st, e, ids, f, mid) && f !! g
    requires Section(a, y, [] + Ops(x, e, ids), true, mid, e, ids, g, last)
    ensures Section(a, x + y, [], conn, st, e, ids, f + g, last)
  {
    FitsConcat(a, x, y, [], conn, st, e, ids, f, g);
  }

  /** The sections up to the profile, one after the other. */
  lemma FirstSections(d: Desired, a: Account, ids: Minted, number: Record)
    requires Valid(a) && CoreNumber(d, a) == Some(number)
    ensures Section(a, Calls(ConnectionSteps(d, a)) + Calls(FqdnSteps(d, a)) + Calls(NumberSteps(d, a, number)), [],
                    HasConnection(d, a), StageOf(d, a), EnvOf(d, a, ids), ids, {Connections, Fqdns}, StageOf(d, a))
  {
    var e, st, conn := EnvOf(d, a, ids), StageOf(d, a), HasConnection(d, a);
    var c1, c2, c3 := Calls(ConnectionSteps(d, a)), Calls(FqdnSteps(d, a)), Calls(NumberSteps(d, a, number));
    ConnectionFits(d, a, ids);
    FqdnFits(d, a, ids, st, e, [] + Ops(c1, e, ids));
    SectionConcat(a, c1, c2, conn, st, st, st, e, ids, {Connections}, {Fqdns});
    NumberFits(d, a, ids, number, st, e, [] + Ops(c1 + c2, e, ids));
    SectionConcat(a, c1 + c2, c3, conn, st, st, st, e, ids, {Connections} + {Fqdns}, {});
    assert {Connections} + {Fqdns} + {} == {Connections, Fqdns};
  }

  lemma FourSections(d: Desired, a: Account, ids: Minted, number: Record, c: seq<Call>, c4: seq<Call>)
    requires Valid(a) && CoreNumber(d, a) == Some(number) && c4 == Calls(ProfileSteps(d, a, number))
    requires c == Calls(ConnectionSteps(d, a)) + Calls(FqdnSteps(d, a)) + Calls(NumberSteps(d, a, number))
    ensures Section(a, c + c4, [], HasConnection(d, a), StageOf(d, a), EnvOf(d, a, ids), ids,
                    {Connections, Fqdns} + {Profiles}, LastStage(d, a))
  {
    var e, st := EnvOf(d, a, ids), StageOf(d, a);
    FirstSections(d, a, ids, number);
    ProfileSection(d, a, ids, number, [] + Ops(c, e, ids));
    SectionConcat(a, c, c4, HasConnection(d, a), st, st, LastStage(d, a), e, ids, {Connections, Fqdns}, {Profiles});
  }

  lemma ProfilePosted(d: Desired, a: Account, ids: Minted, number: Record, c: seq<Call>, c4: seq<Call>)
    requires Valid(a) && CoreNumber(d, a) == Some(number) && c4 == Calls(ProfileSteps(d, a, number))
    ensures CoreProfile(d, a).None? ==>
              PostOp(Profiles, ids.profile, ProfileFields(d)) in Ops(c + c4, EnvOf(d, a, ids), ids)
  {
    ProfileSection(d, a, ids, number, []);
    OpsAfter(c, c4, EnvOf(d, a, ids), ids);
  }

  lemma OpsAfter(x: seq<Call>, y: seq<Call>, e: Env, ids: Minted)
    ensures forall op :: op in Ops(y, e, ids) ==> op in Ops(x + y, e, ids)
  {
    OpsConcat(x, y, e, ids);
  }

  lemma CoreFits(d: Desired, a: Account, ids: Minted, number: Record)
    requires Valid(a) && CoreNumber(d, a) == Some(number)
    ensures Section(a, CoreCalls(d, a, number), [], HasConnection(d, a), StageOf(d, a), EnvOf(d, a, ids), ids,
                    {Connections, Fqdns, Profiles}, LastStage(d, a))
  {
    var e, last := EnvOf(d, a, ids), LastStage(d, a);
    var c := Calls(ConnectionSteps(d, a)) + Calls(FqdnSteps(d, a)) + Calls(NumberSteps(d, a, number));
    var c4, c5 := Calls(ProfileSteps(d, a, number)), Calls(ExtrasSteps(d, a));
    FourSections(d, a, ids, number, c, c4);
    ProfilePosted(d, a, ids, number, c, c4);
    ExtrasSection(d, a, ids, [] + Ops(c + c4, e, ids));
    SectionConcat(a, c + c4, c5, HasConnection(d, a), StageOf(d, a), last, last, e, ids,
                  {Connections, Fqdns} + {Profiles}, {});
    assert {Connections, Fqdns} + {Profiles} + {} == {Connections, Fqdns, Profiles};
  }

  /** The five core sections and the rows, one after the other, fit. */
  lemma PlanFits(d: Desired, a: Account, ids: Minted, number: Record)
    requires Valid(a) && CoreNumber(d, a) == Some(number) && RecordingValid(d)
    ensures Fits(a, PlanCallList(d, a, number), [], HasConnection(d, a), StageOf(d, a), EnvOf(d, a, ids), ids,
                 {Connections, Fqdns, Profiles})
  {
    var e, last := EnvOf(d, a, ids), LastStage(d, a);
    var c, r := CoreCalls(d, a, number), AllRows(d, a);
    var seen := [] + Ops(c, e, ids);
    CoreFits(d, a, ids, number);
    AllRowsOk(d, a);
    RowsBound(r, true, last, e);
    RowsJust(a, seen, r, e, ids);
    FitsConcat(a, c, Calls(RowSteps(r)), [], HasConnection(d, a), StageOf(d, a), e, ids,
               {Connections, Fqdns, Profiles}, {});
    assert {Connections, Fqdns, Profiles} + {} == {Connections, Fqdns, Profiles};
  }

  lemma ProfileSection(d: Desired, a: Account, ids: Minted, number: Record, seen: seq<Op>)
    requires Valid(a) && CoreNumber(d, a) == Some(number)
    ensures Section(a, Calls(ProfileSteps(d, a, number)), seen, true, StageOf(d, a), EnvOf(d, a, ids), ids,
                    {Profiles}, LastStage(d, a))
    ensures CoreProfile(d, a).None? ==>
            PostOp(Profiles, ids.profile, ProfileFields(d)) in Ops(Calls(ProfileSteps(d, a, number)),
                                                                   EnvOf(d, a, ids), ids)
  {
    match CoreProfile(d, a)
    case None => NewProfileFits(d, a, ids, number, EnvOf(d, a, ids), seen);
    case Some(r) => OldProfileFits(d, a, ids, number, r, EnvOf(d, a, ids), seen);
  }

  lemma ExtrasSection(d: Desired, a: Account, ids: Minted, seen: seq<Op>)
    requires Valid(a) && (CoreProfile(d, a).None? ==> PostOp(Profiles, ids.profile, ProfileFields(d)) in seen)
    ensures Section(a, Calls(ExtrasSteps(d, a)), seen, true, LastStage(d, a), EnvOf(d, a, ids), ids, {},
                    LastStage(d, a))
  {
    match CoreProfile(d, a)
    case None => NewExtrasFits(d, a, ids, EnvOf(d, a, ids), seen);
    case Some(r) => OldExtrasFits(d, a, ids, EnvOf(d, a, ids), seen);
  }

  function PlanOps(d: Desired, a: Account, number: Record, ids: Minted): seq<Op> {
    Ops(PlanCallList(d, a, number), EnvOf(d, a, ids), ids)
  }

  lemma FittingRuns(a: Account, calls: seq<Call>, l: Live, conn: bool, st: Stage, e: Env, ids: Minted)
    requires Valid(a) && Fresh(a, ids) && l.account == a && Matches(l, conn, st, e, ids)
    requires Fits(a, calls, [], conn, st, e, ids, {Connections, Fqdns, Profiles})
    ensures var ops := Ops(calls, e, ids);
            && AllTame(ops) && RunOps(a, ops).Some? && Valid(RunOps(a, ops).value)
            && ExecuteAll(calls, l, ids).Some? && RunOps(a, ops) == Some(ExecuteAll(calls, l, ids).value.account)
  {
    var ops := Ops(calls, e, ids);
    JustIsTame(a, [], ops);
    JustRuns(a, [], ops);
    PlanRuns(calls, l, conn, st, e, ids);
    OpsKeepValid(a, ops, {Connections, Fqdns, Profiles}, ids);
  }

  /** A run with --apply is never refused, and leaves a valid account. */
  lemma ApplyIsNeverRefused(d: Desired, a: Account, ids: Minted)
    requires Valid(a) && Fresh(a, ids) && BuildPlan(d, a).Some?
    ensures var b := ApplyPlan(d, a, BuildPlan(d, a).value, ids);
            var ops := PlanOps(d, a, CoreNumber(d, a).value, ids);
            b.Some? && Valid(b.value) && AllTame(ops) && RunOps(a, ops) == b
  {
    var number := CoreNumber(d, a).value;
    PlanFits(d, a, ids, number);
    PlanCalls(d, a, number);
    FittingRuns(a, PlanCallList(d, a, number), Discovered(d, a), HasConnection(d, a), StageOf(d, a),
                EnvOf(d, a, ids), ids);
  }
}
