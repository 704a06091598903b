/** A run of scripts/telnyx_reconcile.py does not change which record each row of the desired file finds. */
module PlanStable {
  import opened Wrappers
  import opened TelnyxAccount
  import opened Reconciler
  import opened PlanExecution
  import opened PlanValidity
  import opened PlanCore
  import opened PlanGoals
  import opened PlanServes
  import opened PlanGoalsMet

  ghost predicate OnlyPatches(ops: seq<Op>) { forall op :: op in ops ==> op.PatchOp? }

  lemma RowsOnlyPatch(rows: seq<Row>, e: Env, ids: Minted)
    ensures OnlyPatches(Ops(Calls(RowSteps(rows)), e, ids))
  {
    RowOps(rows, e, ids);
  }

  /** Only the FQDN and the profile sections post. */
  lemma PostsOfShape(a: Account, s: Sections, core: seq<Goal>, f: Family, k: Field, v: Value, j: Field, w: Value)
    requires Shape(a, s, core) && OnlyPatches(s.rows)
    ensures FirstPost(Joined(s), f, k, v, j, w)
            == Else(FirstPost(s.fqdn, f, k, v, j, w), FirstPost(s.profile, f, k, v, j, w))
  {
    PatchingSections(a, s, core);
    JoinedPosts(s, f, k, v, j, w);
  }

  lemma PatchingSections(a: Account, s: Sections, core: seq<Goal>)
    requires Shape(a, s, core)
    ensures OnlyPatches(s.conn) && OnlyPatches(s.number) && OnlyPatches(s.extras)
    ensures OnlyPatches(s.fqdn) || Posts(a, s.fqdn, core[1])
    ensures OnlyPatches(s.profile) || PostsAndAttaches(a, s.profile, core[3], core[4])
  {
  }

  lemma JoinedPosts(s: Sections, f: Family, k: Field, v: Value, j: Field, w: Value)
    requires OnlyPatches(s.conn) && OnlyPatches(s.number) && OnlyPatches(s.extras) && OnlyPatches(s.rows)
    ensures FirstPost(Joined(s), f, k, v, j, w)
            == Else(FirstPost(s.fqdn, f, k, v, j, w), FirstPost(s.profile, f, k, v, j, w))
  {
    NoPost(s.conn, f, k, v, j, w);
    NoPost(s.number, f, k, v, j, w);
    NoPost(s.extras, f, k, v, j, w);
    NoPost(s.rows, f, k, v, j, w);
    FirstPostConcat(s.conn, s.fqdn, f, k, v, j, w);
    FirstPostConcat(s.conn + s.fqdn, s.number, f, k, v, j, w);
    FirstPostConcat(s.conn + s.fqdn + s.number, s.profile, f, k, v, j, w);
    FirstPostConcat(s.conn + s.fqdn + s.number + s.profile, s.extras, f, k, v, j, w);
    FirstPostConcat(s.conn + s.fqdn + s.number + s.profile + s.extras, s.rows, f, k, v, j, w);
  }

  /** The record a run creates in `family`, if the account lacks it, as far as a lookup is concerned. */
  function Newly(missing: bool, post: Op, f: Family, k: Field, v: Value, j: Field, w: Value): Option<Id> {
    if missing && Introduces(post, f, k, v, j, w) then Some(post.id) else None
  }

  function FqdnPost(d: Desired, a: Account, ids: Minted): Op {
    PostOp(Fqdns, ids.fqdn, FqdnFields(d, EnvOf(d, a, ids).connection))
  }

  function ProfilePost(d: Desired, ids: Minted): Op { PostOp(Profiles, ids.profile, ProfileFields(d)) }

  /** A run, as far as lookups are concerned: its operations, and the records it may create. */
  datatype RunFacts = RunFacts(ops: seq<Op>, noFqdn: bool, fqdn: Op, noProfile: bool, profile: Op)

  ghost predicate Good(x: RunFacts, a: Account, b: Account) {
    && AllTame(x.ops) && RunOps(a, x.ops) == Some(b)
    && x.fqdn.family == Fqdns && x.profile.family == Profiles
    && (forall op :: op in x.ops ==> LeavesAlone(op, Fqdns, ConnId, FqdnName))
    && (forall f, k, v, j, w :: FirstPost(x.ops, f, k, v, j, w)
                             == Else(Newly(x.noFqdn, x.fqdn, f, k, v, j, w),
                                     Newly(x.noProfile, x.profile, f, k, v, j, w)))
    && (forall op :: op in x.ops && op.PostOp? ==> op.family == Fqdns || op.family == Profiles)
    && (forall op :: op in x.ops && op.family == Profiles && Enabled in op.body ==> op.body[Enabled] == B(true))
  }

  /** A run on an account with a core connection, and where it leads. */
  ghost predicate Ran(d: Desired, a: Account, number: Record, ids: Minted, b: Account) {
    && Valid(a) && Valid(b)
    && CoreNumber(d, a) == Some(number) && RecordingValid(d) && CoreConnection(d, a).Some?
    && exists x :: Good(x, a, b)
                   && x.noFqdn == CoreFqdn(d, a).None? && x.fqdn == FqdnPost(d, a, ids)
                   && x.noProfile == CoreProfile(d, a).None? && x.profile == ProfilePost(d, ids)
  }

  // ----- that a run is one

  lemma SectionPost(ops: seq<Op>, missing: bool, post: Op, rest: seq<Op>, f: Family, k: Field, v: Value, j: Field,
                    w: Value)
    requires post.PostOp? && OnlyPatches(rest) && (if missing then ops == [post] + rest else OnlyPatches(ops))
    ensures FirstPost(ops, f, k, v, j, w) == Newly(missing, post, f, k, v, j, w)
  {
    if missing {
      NoPost(rest, f, k, v, j, w);
      FirstPostConcat([post], rest, f, k, v, j, w);
      assert [post][1..] == [];
    } else {
      NoPost(ops, f, k, v, j, w);
    }
  }

  lemma FqdnSection(d: Desired, a: Account, ids: Minted, e: Env, ops: seq<Op>)
    requires Valid(a) && CoreConnection(d, a).Some? && e == EnvOf(d, a, ids)
             && ops == Ops(Calls(FqdnSteps(d, a)), e, ids)
    ensures if CoreFqdn(d, a).None? then ops == [FqdnPost(d, a, ids)] + [] else OnlyPatches(ops)
  {
    if CoreFqdn(d, a).Some? { FqdnServes(d, a, CoreFqdn(d, a).value, e, ids); } else { NewFqdnOps(d, a, e, ids); }
  }

  lemma ProfileSectionOps(d: Desired, a: Account, number: Record, ids: Minted, e: Env, ops: seq<Op>)
    requires Valid(a) && CoreNumber(d, a) == Some(number) && e == EnvOf(d, a, ids)
             && ops == Ops(Calls(ProfileSteps(d, a, number)), e, ids)
    ensures if CoreProfile(d, a).None? then ops
            == [ProfilePost(d, ids)] + [PatchOp(Numbers, number.id, map[ProfileId := S(e.profile)])]
            else OnlyPatches(ops)
  {
    if CoreProfile(d, a).Some? {
      OldProfileServes(d, a, number, CoreProfile(d, a).value, e, ids, []);
    } else {
      NewProfileFits(d, a, ids, number, e, []);
    }
  }

  lemma PlanPosts(d: Desired, a: Account, number: Record, ids: Minted, f: Family, k: Field, v: Value, j: Field,
                  w: Value)
    requires Valid(a) && Fresh(a, ids) && CoreNumber(d, a) == Some(number) && CoreConnection(d, a).Some?
    ensures FirstPost(PlanOps(d, a, number, ids), f, k, v, j, w)
         == Else(Newly(CoreFqdn(d, a).None?, FqdnPost(d, a, ids), f, k, v, j, w),
                 Newly(CoreProfile(d, a).None?, ProfilePost(d, ids), f, k, v, j, w))
  {
    var e := EnvOf(d, a, ids);
    var s := SectionsOf(d, a, number, e, ids);
    PlanSections(d, a, number, ids);
    PlanShape(d, a, number, ids);
    RowsOnlyPatch(AllRows(d, a), e, ids);
    PostsOfShape(a, s, CoreGoals(d, a, ids, number), f, k, v, j, w);
    FqdnSection(d, a, ids, e, s.fqdn);
    SectionPost(s.fqdn, CoreFqdn(d, a).None?, FqdnPost(d, a, ids), [], f, k, v, j, w);
    ProfileSectionOps(d, a, number, ids, e, s.profile);
    SectionPost(s.profile, CoreProfile(d, a).None?, ProfilePost(d, ids),
                [PatchOp(Numbers, number.id, map[ProfileId := S(e.profile)])], f, k, v, j, w);
  }

  lemma PlanPostFamilies(d: Desired, a: Account, number: Record, ids: Minted)
    requires Valid(a) && Fresh(a, ids) && CoreNumber(d, a) == Some(number) && CoreConnection(d, a).Some?
    ensures forall op :: op in PlanOps(d, a, number, ids) && op.PostOp? ==>
              op == FqdnPost(d, a, ids) || op == ProfilePost(d, ids)
  {
    var e := EnvOf(d, a, ids);
    var s := SectionsOf(d, a, number, e, ids);
    PlanSections(d, a, number, ids);
    PlanShape(d, a, number, ids);
    RowsOnlyPatch(AllRows(d, a), e, ids);
    FqdnSection(d, a, ids, e, s.fqdn);
    ProfileSectionOps(d, a, number, ids, e, s.profile);
    ShapePosts(a, s, CoreGoals(d, a, ids, number), FqdnPost(d, a, ids), ProfilePost(d, ids),
               PatchOp(Numbers, number.id, map[ProfileId := S(e.profile)]));
  }

  lemma ShapePosts(a: Account, s: Sections, core: seq<Goal>, x: Op, y: Op, z: Op)
    requires Shape(a, s, core) && OnlyPatches(s.rows) && z.PatchOp?
    requires (s.fqdn == [x] + [] || OnlyPatches(s.fqdn)) && (s.profile == [y] + [z] || OnlyPatches(s.profile))
    ensures forall op :: op in Joined(s) && op.PostOp? ==> op == x || op == y
  {
    PatchingSections(a, s, core);
    JoinedMembers(s, x, y);
  }

  lemma JoinedMembers(s: Sections, x: Op, y: Op)
    requires OnlyPatches(s.conn) && OnlyPatches(s.number) && OnlyPatches(s.extras) && OnlyPatches(s.rows)
    requires forall op :: op in s.fqdn + s.profile && op.PostOp? ==> op == x || op == y
    ensures forall op :: op in Joined(s) && op.PostOp? ==> op == x || op == y
  {
    forall op | op in Joined(s) && op.PostOp? ensures op in s.fqdn + s.profile {}
  }

  /** What the goals say of the two fields a lookup, or the enabling of a profile, depends on. */
  lemma GoalFields(d: Desired, a: Account, number: Record, ids: Minted, g: Goal)
    requires Valid(a) && RecordingValid(d) && g in Goals(d, a, ids, number)
    ensures g.family == Fqdns ==> ConnId !in g.want
    ensures g.family == Profiles && Enabled in g.want ==> g.want[Enabled] == B(true)
  {
    var e := EnvOf(d, a, ids);
    RowGoalsOf(AllRows(d, a), e);
    AllRowsOk(d, a);
    ExtrasWantKeys(d);
    if g in RowGoals(AllRows(d, a), e) {
      assert g.family != Fqdns && g.family != Profiles;
    } else {
      var core := CoreGoals(d, a, ids, number);
      var i :| 0 <= i < |core| && core[i] == g;
      CoreGoalFields(d, a, number, ids, i);
    }
  }

  lemma CoreGoalFields(d: Desired, a: Account, number: Record, ids: Minted, i: nat)
    requires i < 6
    ensures var g := CoreGoals(d, a, ids, number)[i];
            && (g.family == Fqdns ==> ConnId !in g.want)
            && (g.family == Profiles && Enabled in g.want ==> g.want[Enabled] == B(true))
  {
    ExtrasWantKeys(d);
  }

  lemma CoveredFields(d: Desired, a: Account, number: Record, ids: Minted, ops: seq<Op>)
    requires Valid(a) && RecordingValid(d) && AllTame(ops) && AllCovered(ops, Goals(d, a, ids, number))
    requires forall op :: op in ops && op.PostOp? ==> op == FqdnPost(d, a, ids) || op == ProfilePost(d, ids)
    ensures forall op :: op in ops ==> LeavesAlone(op, Fqdns, ConnId, FqdnName)
    ensures forall op :: op in ops && op.family == Profiles && Enabled in op.body ==> op.body[Enabled] == B(true)
  {
    LookedUpFieldsStay(ops, Fqdns, FqdnName, FqdnName);
    forall op | op in ops
      ensures LeavesAlone(op, Fqdns, ConnId, FqdnName)
              && (op.family == Profiles && Enabled in op.body ==> op.body[Enabled] == B(true))
    {
      if op.PatchOp? {
        var g :| g in Goals(d, a, ids, number) && Covers(g, op);
        GoalFields(d, a, number, ids, g);
      }
    }
  }

  lemma LookedUpFieldsStay(ops: seq<Op>, f: Family, k: Field, j: Field)
    requires AllTame(ops) && k in LOOKED_UP && j in LOOKED_UP
    ensures forall op :: op in ops ==> LeavesAlone(op, f, k, j)
  {
    forall op | op in ops ensures LeavesAlone(op, f, k, j) {
      var i :| 0 <= i < |ops| && ops[i] == op;
      assert Tame(ops[i]);
    }
  }

  lemma RunIsOne(d: Desired, a: Account, number: Record, ids: Minted, b: Account)
    requires Valid(a) && Fresh(a, ids) && Valid(b) && CoreNumber(d, a) == Some(number) && RecordingValid(d)
             && CoreConnection(d, a).Some?
    requires AllTame(PlanOps(d, a, number, ids)) && RunOps(a, PlanOps(d, a, number, ids)) == Some(b)
    ensures Ran(d, a, number, ids, b)
  {
    var ops := PlanOps(d, a, number, ids);
    PlanIsCovered(d, a, number, ids, ops);
    PostsEverywhere(d, a, number, ids, ops);
    var x := RunFacts(ops, CoreFqdn(d, a).None?, FqdnPost(d, a, ids), CoreProfile(d, a).None?, ProfilePost(d, ids));
    RunIsGood(a, b, x.ops, x.noFqdn, x.fqdn, x.noProfile, x.profile);
    GoodIsRan(d, a, number, ids, b, x);
  }

  lemma GoodIsRan(d: Desired, a: Account, number: Record, ids: Minted, b: Account, x: RunFacts)
    requires Valid(a) && Valid(b) && CoreNumber(d, a) == Some(number) && RecordingValid(d)
             && CoreConnection(d, a).Some? && Good(x, a, b)
    requires x.noFqdn == CoreFqdn(d, a).None? && x.fqdn == FqdnPost(d, a, ids)
             && x.noProfile == CoreProfile(d, a).None? && x.profile == ProfilePost(d, ids)
    ensures Ran(d, a, number, ids, b)
  {
  }

  lemma PlanIsCovered(d: Desired, a: Account, number: Record, ids: Minted, ops: seq<Op>)
    requires Valid(a) && Fresh(a, ids) && CoreNumber(d, a) == Some(number) && RecordingValid(d)
             && CoreConnection(d, a).Some?
    requires ops == PlanOps(d, a, number, ids) && AllTame(ops)
    ensures forall op :: op in ops ==> LeavesAlone(op, Fqdns, ConnId, FqdnName)
    ensures forall op :: op in ops && op.family == Profiles && Enabled in op.body ==> op.body[Enabled] == B(true)
    ensures forall op :: op in ops && op.PostOp? ==> op == FqdnPost(d, a, ids) || op == ProfilePost(d, ids)
  {
    PlanCovered(d, a, number, ids);
    PlanPostFamilies(d, a, number, ids);
    CoveredFields(d, a, number, ids, ops);
  }

  lemma PostsEverywhere(d: Desired, a: Account, number: Record, ids: Minted, ops: seq<Op>)
    requires Valid(a) && Fresh(a, ids) && CoreNumber(d, a) == Some(number) && CoreConnection(d, a).Some?
    requires ops == PlanOps(d, a, number, ids)
    ensures forall f, k, v, j, w ::
              FirstPost(ops, f, k, v, j, w)
              == Else(Newly(CoreFqdn(d, a).None?, FqdnPost(d, a, ids), f, k, v, j, w),
                      Newly(CoreProfile(d, a).None?, ProfilePost(d, ids), f, k, v, j, w))
  {
    forall f, k, v, j, w
      ensures FirstPost(ops, f, k, v, j, w)
           == Else(Newly(CoreFqdn(d, a).None?, FqdnPost(d, a, ids), f, k, v, j, w),
                   Newly(CoreProfile(d, a).None?, ProfilePost(d, ids), f, k, v, j, w))
    {
      PlanPosts(d, a, number, ids, f, k, v, j, w);
    }
  }

  lemma RunIsGood(a: Account, b: Account, ops: seq<Op>, noFqdn: bool, fqdn: Op, noProfile: bool, profile: Op)
    requires AllTame(ops) && RunOps(a, ops) == Some(b) && fqdn.family == Fqdns && profile.family == Profiles
    requires forall op :: op in ops ==> LeavesAlone(op, Fqdns, ConnId, FqdnName)
    requires forall f, k, v, j, w ::
               FirstPost(ops, f, k, v, j, w)
               == Else(Newly(noFqdn, fqdn, f, k, v, j, w), Newly(noProfile, profile, f, k, v, j, w))
    requires forall op :: op in ops && op.PostOp? ==> op == fqdn || op == profile
    requires forall op :: op in ops && op.family == Profiles && Enabled in op.body ==> op.body[Enabled] == B(true)
    ensures Good(RunFacts(ops, noFqdn, fqdn, noProfile, profile), a, b)
  {
  }

  // ----- lookups after a run

  lemma LookAfterRun(x: RunFacts, a: Account, b: Account, f: Family, k: Field, v: Value, j: Field, w: Value)
    requires Good(x, a, b) && forall op :: op in x.ops ==> LeavesAlone(op, f, k, j)
    ensures LookId(b, f, k, v, j, w)
         == Else(LookId(a, f, k, v, j, w),
                 Else(Newly(x.noFqdn, x.fqdn, f, k, v, j, w), Newly(x.noProfile, x.profile, f, k, v, j, w)))
  {
    LooksAfter(a, x.ops, f, k, v, j, w);
  }

  lemma StableLookOf(x: RunFacts, a: Account, b: Account, f: Family, k: Field, v: Value, j: Field, w: Value)
    requires Good(x, a, b) && f != Fqdns && f != Profiles && k in LOOKED_UP && j in LOOKED_UP
    ensures LookId(b, f, k, v, j, w) == LookId(a, f, k, v, j, w)
  {
    LookedUpFieldsStay(x.ops, f, k, j);
    LookAfterRun(x, a, b, f, k, v, j, w);
  }

  /** In the families a run adds nothing to, lookups stay. */
  lemma StableLook(d: Desired, a: Account, number: Record, ids: Minted, b: Account, f: Family, k: Field, v: Value,
                   j: Field, w: Value)
    requires Ran(d, a, number, ids, b) && f != Fqdns && f != Profiles && k in LOOKED_UP && j in LOOKED_UP
    ensures LookId(b, f, k, v, j, w) == LookId(a, f, k, v, j, w)
  {
    var x :| Good(x, a, b);
    StableLookOf(x, a, b, f, k, v, j, w);
  }

  lemma ProfileLookOf(x: RunFacts, a: Account, b: Account, v: Value)
    requires Good(x, a, b) && x.profile.PostOp?
    ensures LookId(b, Profiles, Name, v, Name, v)
         == Else(LookId(a, Profiles, Name, v, Name, v),
                 if x.noProfile && Is(Record(x.profile.id, x.profile.body), Name, v) then Some(x.profile.id) else None)
  {
    LookedUpFieldsStay(x.ops, Profiles, Name, Name);
    LookAfterRun(x, a, b, Profiles, Name, v, Name, v);
  }

  /** A profile is found under its name as before, and the core profile in any case. */
  lemma ProfileLook(d: Desired, a: Account, number: Record, ids: Minted, b: Account, name: string)
    requires Ran(d, a, number, ids, b)
    ensures LookId(b, Profiles, Name, S(name), Name, S(name))
         == if name == d.profileName then Some(EnvOf(d, a, ids).profile)
             else LookId(a, Profiles, Name, S(name), Name, S(name))
  {
    var x :| Good(x, a, b) && x.profile == ProfilePost(d, ids) && x.noProfile == CoreProfile(d, a).None?;
    ProfileLookOf(x, a, b, S(name));
    ProfileName(d, name);
  }

  lemma ProfileName(d: Desired, name: string)
    ensures forall id :: Is(Record(id, ProfileFields(d)), Name, S(name)) == (name == d.profileName)
  {
  }

  lemma FqdnLook(d: Desired, a: Account, number: Record, ids: Minted, b: Account)
    requires Ran(d, a, number, ids, b)
    ensures LookId(b, Fqdns, ConnId, S(EnvOf(d, a, ids).connection), FqdnName, S(d.fqdn)) == Some(FqdnId(d, a, ids))
  {
    var c := S(EnvOf(d, a, ids).connection);
    var x :| Good(x, a, b) && x.fqdn == FqdnPost(d, a, ids) && x.noFqdn == CoreFqdn(d, a).None?;
    FqdnPostFits(d, a, ids, c);
    FqdnLookOf(x, a, b, c, S(d.fqdn));
  }

  lemma FqdnPostFits(d: Desired, a: Account, ids: Minted, c: Value)
    requires c == S(EnvOf(d, a, ids).connection)
    ensures var post := FqdnPost(d, a, ids);
            && Is(Record(post.id, post.body), ConnId, c)
            && Is(Record(post.id, post.body), FqdnName, S(d.fqdn))
  {
  }

  lemma FqdnLookOf(x: RunFacts, a: Account, b: Account, c: Value, v: Value)
    requires Good(x, a, b) && x.fqdn.PostOp? && Is(Record(x.fqdn.id, x.fqdn.body), ConnId, c)
             && Is(Record(x.fqdn.id, x.fqdn.body), FqdnName, v)
    ensures LookId(b, Fqdns, ConnId, c, FqdnName, v)
            == Else(LookId(a, Fqdns, ConnId, c, FqdnName, v), if x.noFqdn then Some(x.fqdn.id) else None)
  {
    LookAfterRun(x, a, b, Fqdns, ConnId, c, FqdnName, v);
  }

  // ----- the core records after the run

  lemma CoreFound(d: Desired, a: Account, number: Record, ids: Minted, b: Account)
    requires Ran(d, a, number, ids, b)
    ensures CoreConnection(d, b).Some? && CoreConnection(d, b).value.id == EnvOf(d, a, ids).connection
    ensures CoreNumber(d, b).Some? && CoreNumber(d, b).value.id == number.id
    ensures CoreProfile(d, b).Some? && CoreProfile(d, b).value.id == EnvOf(d, a, ids).profile
    ensures CoreFqdn(d, b).Some? && CoreFqdn(d, b).value.id == FqdnId(d, a, ids)
  {
    StableLook(d, a, number, ids, b, Connections, Kind, FQDN_KIND, ConnName, S(d.connectionName));
    StableLook(d, a, number, ids, b, Numbers, PhoneNumber, S(d.phoneNumber), PhoneNumber, S(d.phoneNumber));
    ProfileLook(d, a, number, ids, b, d.profileName);
    FqdnLook(d, a, number, ids, b);
  }
}
