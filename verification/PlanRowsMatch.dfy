/**
 * The optional rows of a second plan of scripts/telnyx_reconcile.py, made after a run, name the same
 * records and want the same of them as those of the first.
 */
module PlanRowsMatch {
  import opened Wrappers
  import opened TelnyxAccount
  import opened Reconciler
  import opened PlanExecution
  import opened PlanValidity
  import opened PlanCore
  import opened PlanGoals
  import opened PlanServes
  import opened PlanGoalsMet
  import opened PlanStable

  // ----- the rows of the second plan are those of the first

  /** The same record is wanted to have the same fields, with the placeholders filled in. */
  predicate Matching(x: Row, y: Row, e: Env) {
    || (x.Unresolved? && y.Unresolved?)
    || (x.Managed? && y.Managed? && y.family == x.family && y.record.id == x.record.id && y.flat == x.flat
        && y.want == ResBody(x.want, e))
  }

  lemma NumberRowMatches(d: Desired, a: Account, number: Record, ids: Minted, b: Account, pin: NumberPin)
    requires Ran(d, a, number, ids, b)
    ensures Matching(NumberRow(d, a, pin), NumberRow(d, b, pin), EnvOf(d, a, ids))
  {
    StableLook(d, a, number, ids, b, Numbers, PhoneNumber, S(pin.number), PhoneNumber, S(pin.number));
    if pin.connection.Some? {
      var v := S(pin.connection.value);
      StableLook(d, a, number, ids, b, Connections, ConnName, v, ConnName, v);
    }
    if pin.profile.Some? { ProfileLook(d, a, number, ids, b, pin.profile.value); }
    NumberRowsAgree(d, a, b, pin, EnvOf(d, a, ids));
  }

  function OptionalProfile(a: Account, pin: NumberPin): Option<Id> {
    if pin.profile.None? then None else LookId(a, Profiles, Name, S(pin.profile.value), Name, S(pin.profile.value))
  }

  lemma NumberRowsAgree(d: Desired, a: Account, b: Account, pin: NumberPin, e: Env)
    requires LookId(b, Numbers, PhoneNumber, S(pin.number), PhoneNumber, S(pin.number))
             == LookId(a, Numbers, PhoneNumber, S(pin.number), PhoneNumber, S(pin.number))
    requires pin.connection.Some? ==> var v := S(pin.connection.value);
             LookId(b, Connections, ConnName, v, ConnName, v) == LookId(a, Connections, ConnName, v, ConnName, v)
    requires pin.profile.Some? ==>
               OptionalProfile(b, pin) == if pin.profile.value == d.profileName then Some(e.profile)
                   else OptionalProfile(a, pin)
    requires pin.profile.Some? && pin.profile.value == d.profileName && OptionalProfile(a, pin).Some? ==>
             OptionalProfile(a, pin) == Some(e.profile)
    ensures Matching(NumberRow(d, a, pin), NumberRow(d, b, pin), e)
  {
    var x, y := NumberRow(d, a, pin), NumberRow(d, b, pin);
    if x.Managed? && y.Managed? {
      assert y.want.Keys == x.want.Keys;
      assert forall k :: k in y.want ==> y.want[k] == Res(x.want[k], e);
      assert y.want == ResBody(x.want, e);
    }
  }

  lemma NamedRowsMatch(d: Desired, a: Account, number: Record, ids: Minted, b: Account, pin: NamedPin)
    requires Ran(d, a, number, ids, b)
    ensures Matching(AssistantRow(a, pin), AssistantRow(b, pin), EnvOf(d, a, ids))
    ensures Matching(CredentialRow(a, pin), CredentialRow(b, pin), EnvOf(d, a, ids))
  {
    var v := S(pin.name);
    StableLook(d, a, number, ids, b, Assistants, Name, v, Name, v);
    StableLook(d, a, number, ids, b, Connections, Kind, CREDENTIAL_KIND, ConnName, v);
    ResPlain(map[Model := S(pin.value)], EnvOf(d, a, ids));
    ResPlain(map[Ovp := S(pin.value)], EnvOf(d, a, ids));
  }

  lemma TexmlRowMatches(d: Desired, a: Account, number: Record, ids: Minted, b: Account, pin: NamedPin)
    requires Ran(d, a, number, ids, b)
    ensures Matching(TexmlRow(a, pin), TexmlRow(b, pin), EnvOf(d, a, ids))
  {
    StableLook(d, a, number, ids, b, Assistants, Name, S(pin.name), Name, S(pin.name));
    ResPlain(map[Ovp := S(pin.value)], EnvOf(d, a, ids));
    if AssistantNamed(a, pin.name).Some? {
      var v := S(TexmlName(AssistantNamed(a, pin.name).value.id));
      StableLook(d, a, number, ids, b, TexmlApps, FriendlyName, v, FriendlyName, v);
    }
  }

  lemma ListRowMatches(d: Desired, a: Account, number: Record, ids: Minted, b: Account, pin: ListPin)
    requires Ran(d, a, number, ids, b)
    ensures Matching(ListRow(a, pin), ListRow(b, pin), EnvOf(d, a, ids))
  {
    StableLook(d, a, number, ids, b, VoiceProfiles, Name, S(pin.name), Name, S(pin.name));
    ResPlain(map[Destinations := Names(pin.destinations)], EnvOf(d, a, ids));
  }

  /** In a family a run adds nothing to, the same ids are there in the same order. */
  lemma {:induction false} SameIds(a: Account, ops: seq<Op>, f: Family)
    requires RunOps(a, ops).Some? && forall op :: op in ops && op.PostOp? ==> op.family != f
    ensures var rs, ts := Rows(a, f), Rows(RunOps(a, ops).value, f);
            |ts| == |rs| && forall i :: 0 <= i < |rs| ==> ts[i].id == rs[i].id
    decreases |ops|
  {
    if ops != [] {
      if ops[0].family == f { MergeShape(Rows(a, f), ops[0].id, ops[0].body); }
      SameIds(Perform(a, ops[0]), ops[1..], f);
    }
  }

  lemma SameIdsAfter(d: Desired, a: Account, number: Record, ids: Minted, b: Account, f: Family)
    requires Ran(d, a, number, ids, b) && f != Fqdns && f != Profiles
    ensures |Rows(b, f)| == |Rows(a, f)| && forall i :: 0 <= i < |Rows(a, f)| ==> Rows(b, f)[i].id == Rows(a, f)[i].id
  {
    var x :| Good(x, a, b);
    SameIds(a, x.ops, f);
  }

  lemma {:induction false} FindIffId(rs: seq<Record>, id: Id)
    ensures Find(rs, id).Some? <==> exists i :: 0 <= i < |rs| && rs[i].id == id
    decreases |rs|
  {
    if rs != [] {
      FindIffId(rs[1..], id);
      assert forall i :: 0 <= i < |rs[1..]| ==> rs[1..][i] == rs[i + 1];
      if i :| 0 <= i < |rs| && rs[i].id == id && rs[0].id != id { assert rs[1..][i - 1].id == id; }
    }
  }

  lemma AppRowMatches(d: Desired, a: Account, number: Record, ids: Minted, b: Account, pin: AppPin)
    requires Ran(d, a, number, ids, b)
    ensures Matching(AppRow(a, pin), AppRow(b, pin), EnvOf(d, a, ids))
  {
    SameIdsAfter(d, a, number, ids, b, Applications);
    FindIffId(Rows(a, Applications), pin.id);
    FindIffId(Rows(b, Applications), pin.id);
    AppRowOk(a, pin);
    AppRowsAgree(a, b, pin, EnvOf(d, a, ids));
  }

  lemma AppRowsAgree(a: Account, b: Account, pin: AppPin, e: Env)
    requires Find(Rows(a, Applications), pin.id).Some? <==> Find(Rows(b, Applications), pin.id).Some?
    requires RowBound(AppRow(a, pin), Absent)
    ensures Matching(AppRow(a, pin), AppRow(b, pin), e)
  {
    var x := AppRow(a, pin);
    if x.Managed? { ResPlain(x.want, e); }
  }

  lemma RecordingRowMatches(d: Desired, a: Account, number: Record, ids: Minted, b: Account, i: nat)
    requires Ran(d, a, number, ids, b) && d.recording.Some? && i < |Rows(a, Numbers)|
             && |Rows(b, Numbers)| == |Rows(a, Numbers)|
    requires Rows(b, Numbers)[i].id == Rows(a, Numbers)[i].id
    ensures Matching(RecordingRow(a, d.recording.value, Rows(a, Numbers)[i]),
                     RecordingRow(b, d.recording.value, Rows(b, Numbers)[i]), EnvOf(d, a, ids))
  {
    RecordingRowOk(d, a, Rows(a, Numbers)[i]);
    ResPlain(d.recording.value, EnvOf(d, a, ids));
  }

  predicate AllMatching(xs: seq<Row>, ys: seq<Row>, e: Env) {
    |xs| == |ys| && forall i :: 0 <= i < |xs| ==> Matching(xs[i], ys[i], e)
  }

  lemma MatchingConcat(x1: seq<Row>, y1: seq<Row>, x2: seq<Row>, y2: seq<Row>, e: Env)
    requires AllMatching(x1, y1, e) && AllMatching(x2, y2, e)
    ensures AllMatching(x1 + x2, y1 + y2, e)
  {
  }

  lemma NumberLaneMatches(d: Desired, a: Account, number: Record, ids: Minted, b: Account)
    requires Ran(d, a, number, ids, b)
    ensures AllMatching(NumberRows(d, a), NumberRows(d, b), EnvOf(d, a, ids))
  {
    forall i | 0 <= i < |d.numbers| ensures Matching(NumberRows(d, a)[i], NumberRows(d, b)[i], EnvOf(d, a, ids)) {
      NumberRowMatches(d, a, number, ids, b, d.numbers[i]);
    }
  }

  lemma AssistantLaneMatches(d: Desired, a: Account, number: Record, ids: Minted, b: Account)
    requires Ran(d, a, number, ids, b)
    ensures AllMatching(AssistantRows(d, a), AssistantRows(d, b), EnvOf(d, a, ids))
  {
    forall i | 0 <= i < |d.assistants|
        ensures Matching(AssistantRows(d, a)[i], AssistantRows(d, b)[i], EnvOf(d, a, ids)) {
      NamedRowsMatch(d, a, number, ids, b, d.assistants[i]);
    }
  }

  lemma AppLaneMatches(d: Desired, a: Account, number: Record, ids: Minted, b: Account)
    requires Ran(d, a, number, ids, b)
    ensures AllMatching(AppRows(d, a), AppRows(d, b), EnvOf(d, a, ids))
  {
    forall i | 0 <= i < |d.apps| ensures Matching(AppRows(d, a)[i], AppRows(d, b)[i], EnvOf(d, a, ids)) {
      AppRowMatches(d, a, number, ids, b, d.apps[i]);
    }
  }

  lemma ListLaneMatches(d: Desired, a: Account, number: Record, ids: Minted, b: Account)
    requires Ran(d, a, number, ids, b)
    ensures AllMatching(ListRows(d, a), ListRows(d, b), EnvOf(d, a, ids))
  {
    forall i | 0 <= i < |d.ovpLists| ensures Matching(ListRows(d, a)[i], ListRows(d, b)[i], EnvOf(d, a, ids)) {
      ListRowMatches(d, a, number, ids, b, d.ovpLists[i]);
    }
  }

  lemma CredentialLaneMatches(d: Desired, a: Account, number: Record, ids: Minted, b: Account)
    requires Ran(d, a, number, ids, b)
    ensures AllMatching(CredentialRows(d, a), CredentialRows(d, b), EnvOf(d, a, ids))
  {
    forall i | 0 <= i < |d.credentialOvps|
        ensures Matching(CredentialRows(d, a)[i], CredentialRows(d, b)[i], EnvOf(d, a, ids)) {
      NamedRowsMatch(d, a, number, ids, b, d.credentialOvps[i]);
    }
  }

  lemma TexmlLaneMatches(d: Desired, a: Account, number: Record, ids: Minted, b: Account)
    requires Ran(d, a, number, ids, b)
    ensures AllMatching(TexmlRows(d, a), TexmlRows(d, b), EnvOf(d, a, ids))
  {
    forall i | 0 <= i < |d.texmlOvps| ensures Matching(TexmlRows(d, a)[i], TexmlRows(d, b)[i], EnvOf(d, a, ids)) {
      TexmlRowMatches(d, a, number, ids, b, d.texmlOvps[i]);
    }
  }

  lemma RecordingLaneMatches(d: Desired, a: Account, number: Record, ids: Minted, b: Account)
    requires Ran(d, a, number, ids, b)
    ensures AllMatching(RecordingRows(d, a), RecordingRows(d, b), EnvOf(d, a, ids))
  {
    if d.recording.Some? {
      SameIdsAfter(d, a, number, ids, b, Numbers);
      forall i | 0 <= i < |Rows(a, Numbers)|
          ensures Matching(RecordingRows(d, a)[i], RecordingRows(d, b)[i], EnvOf(d, a, ids)) {
        RecordingRowMatches(d, a, number, ids, b, i);
      }
    }
  }

  /** The optional rows, planned before and after the run, speak of the same records and fields. */
  lemma AllRowsMatch(d: Desired, a: Account, number: Record, ids: Minted, b: Account)
    requires Ran(d, a, number, ids, b)
    ensures AllMatching(AllRows(d, a), AllRows(d, b), EnvOf(d, a, ids))
  {
    NumberLaneMatches(d, a, number, ids, b);
    AssistantLaneMatches(d, a, number, ids, b);
    AppLaneMatches(d, a, number, ids, b);
    ListLaneMatches(d, a, number, ids, b);
    CredentialLaneMatches(d, a, number, ids, b);
    TexmlLaneMatches(d, a, number, ids, b);
    RecordingLaneMatches(d, a, number, ids, b);
    SevenMatch(NumberRows(d, a), NumberRows(d, b), AssistantRows(d, a), AssistantRows(d, b), AppRows(d, a),
               AppRows(d, b),
               ListRows(d, a), ListRows(d, b), CredentialRows(d, a), CredentialRows(d, b), TexmlRows(d, a),
                   TexmlRows(d, b),
               RecordingRows(d, a), RecordingRows(d, b), EnvOf(d, a, ids));
  }

  lemma SevenMatch(x1: seq<Row>, y1: seq<Row>, x2: seq<Row>, y2: seq<Row>, x3: seq<Row>, y3: seq<Row>, x4: seq<Row>,
                   y4: seq<Row>,
                   x5: seq<Row>, y5: seq<Row>, x6: seq<Row>, y6: seq<Row>, x7: seq<Row>, y7: seq<Row>, e: Env)
    requires AllMatching(x1, y1, e) && AllMatching(x2, y2, e) && AllMatching(x3, y3, e) && AllMatching(x4, y4, e)
    requires AllMatching(x5, y5, e) && AllMatching(x6, y6, e) && AllMatching(x7, y7, e)
    ensures AllMatching(x1 + x2 + x3 + x4 + x5 + x6 + x7, y1 + y2 + y3 + y4 + y5 + y6 + y7, e)
  {
    MatchingConcat(x1, y1, x2, y2, e);
    MatchingConcat(x1 + x2, y1 + y2, x3, y3, e);
    MatchingConcat(x1 + x2 + x3, y1 + y2 + y3, x4, y4, e);
    MatchingConcat(x1 + x2 + x3 + x4, y1 + y2 + y3 + y4, x5, y5, e);
    MatchingConcat(x1 + x2 + x3 + x4 + x5, y1 + y2 + y3 + y4 + y5, x6, y6, e);
    MatchingConcat(x1 + x2 + x3 + x4 + x5 + x6, y1 + y2 + y3 + y4 + y5 + y6, x7, y7, e);
  }
}
