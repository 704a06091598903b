/**
 * What each request to the supervised text agent must do, said without the operations that do it
 * (modules/telephony/text-agent.py): the events it adds to the trail, the drafts it makes and changes,
 * and what follows for an opt-out or an escalation from the moment it is received.
 */
module AgentDuties {
  import opened Wrappers
  import JsonExtract
  import opened AgentState
  import opened AgentSafety

  // ----- when an answer may go out

  predicate OutsideHours(cfg: Config, minutes: int) {
    || cfg.workingStart == cfg.workingEnd
    || (cfg.workingStart < cfg.workingEnd && (minutes < cfg.workingStart || minutes >= cfg.workingEnd))
    || (cfg.workingEnd < cfg.workingStart && cfg.workingEnd <= minutes < cfg.workingStart)
  }

  /** Mode, opt-out, freeze, VIP, and in after-hours mode the owner's absence or the clock. */
  predicate MayAnswer(cfg: Config, s: State, c: Contact, frozen: bool, env: Surroundings) {
    && s.mode in {AfterHours, Full, Unrecognised} && c !in s.suppressed && !frozen && c !in cfg.vip
    && (s.mode == AfterHours ==>
          env.busy || s.dnd || s.vacation || (!env.ownerAtDesk && OutsideHours(cfg, env.minutes)))
  }

  predicate PartAt(text: string, part: string, i: nat) { i + |part| <= |text| && text[i..i + |part|] == part }

  predicate Within(part: string, text: string) { exists i: nat :: i <= |text| && PartAt(text, part, i) }

  /** The text with the signature on a line of its own, unless it is in there already. */
  function WithSignature(cfg: Config, text: string): string {
    if cfg.signature == "" || Within(cfg.signature, text) then text else text + "\n" + cfg.signature
  }

  /** The send that a drafted answer leads to, or nothing. */
  function Answer(cfg: Config, s: State, c: Contact, x: Drafting, frozen: bool): seq<Event> {
    if !cfg.placeholderKey && x.reply.Some? && MayAnswer(cfg, s, c, frozen, x.env)
       && x.reply.value.confidence >= cfg.threshold && x.gateway.Some?
    then [Delivered(c, x.id, WithSignature(cfg, x.reply.value.text), true, x.gateway.value)]
    else []
  }

  /** The message is from somebody, and none on record has its id. */
  predicate IsNews(s: State, c: Contact, messageId: string) {
    c != "" && (messageId == "" || forall m :: m in Conv(s, c).messages ==> m.messageId != messageId)
  }

  predicate Escalates(cfg: Config, text: string) { text != "" && cfg.asksForHuman(text) }

  /** The agent drafts for the contact at all. */
  predicate Drafts(s: State, c: Contact) { c != "" && c !in s.suppressed && s.mode != Off }

  /** The delivery webhook tells of a message that the agent neither sent nor knows. */
  predicate IsOthers(cfg: Config, s: State, kind: Webhook, sender: Contact, to: Contact, ref: string) {
    && to != "" && (cfg.ownDid == "" || sender == cfg.ownDid)
    && (ref != "" ==>
          && (kind == MessageSent ==> forall d :: d in s.drafts && s.drafts[d].status == Sent ==>
              s.drafts[d].ref != ref)
          && forall m :: m in Conv(s, to).messages ==> m.ref != ref)
  }

  // ----- what a reviewed text comes to

  predicate Spaces(s: string) { forall i :: 0 <= i < |s| ==> JsonExtract.IsSpace(s[i]) }

  /** `core` is the text without the whitespace around it. */
  ghost predicate IsCore(text: string, core: string) {
    && (core != "" ==> !JsonExtract.IsSpace(core[0]) && !JsonExtract.IsSpace(core[|core| - 1]))
    && exists pre, post :: Spaces(pre) && Spaces(post) && text == pre + core + post
  }

  // ----- the events of a request

  /** What a request adds to the trail. `core` is the reviewed text of an approval, without surrounding whitespace. */
  function Adds(cfg: Config, s: State, step: Step, core: string): seq<Event> {
    match step
    case Received(c, text, messageId, x) =>
      if !IsNews(s, c, messageId) then []
      else
        [Heard(c, text, messageId)] + (if Escalates(cfg, text) then [Escalated(c)] else [])
        + (match cfg.optOut(text)
           case Raises => []
           case Keyword => [OptedOut(c)]
           case NoKeyword =>
             if Drafts(s, c) then Answer(cfg, s, c, x, Conv(s, c).frozen.Some? || Escalates(cfg, text)) else [])
    case Delivery(kind, sender, to, ref, body) =>
      if IsOthers(cfg, s, kind, sender, to, ref) then [HumanOutbound(to, body, ref)] else []
    case MissedCall(caller, y) =>
      if Drafts(s, caller) then Answer(cfg, s, caller, y, Conv(s, caller).frozen.Some?) else []
    case Review(id, action, gateway, _) =>
      if id in s.drafts && s.drafts[id].status == Pending && action.Approve? && core != "" && gateway.Some?
      then [Delivered(s.drafts[id].contact, id, core, false, gateway.value),
            HumanOutbound(s.drafts[id].contact, core, gateway.value)]
      else []
    case ResumeConversation(who) => [Resumed(who)]
    case ResetSuppression(contact) => if contact in s.suppressed then [OptedIn(contact)] else []
    case _ => []
  }

  /** The text of an approval: what the reviewer typed, or else the draft's own. */
  ghost predicate Reviewed(s: State, step: Step, core: string) {
    step.Review? && step.draft in s.drafts && !step.action.Discard? ==>
      var given := if step.action.Approve? && step.action.text == "" then s.drafts[step.draft].text
          else step.action.text;
      IsCore(given, core)
  }

  lemma StripIsCore(text: string, core: string)
    requires IsCore(text, core)
    ensures Strip(text) == core
  {
    var pre, post :| Spaces(pre) && Spaces(post) && text == pre + core + post;
    assert text == pre + (core + post);
    StripsFront(pre, core, post);
    if core != "" { StripsBack(core, post); }
  }

  lemma {:induction false} StripsFront(pre: string, core: string, post: string)
    requires Spaces(pre) && Spaces(post) && (core != "" ==> !JsonExtract.IsSpace(core[0]))
    ensures JsonExtract.StripLeft(pre + (core + post)) == if core == "" then "" else core + post
    decreases |pre| + |post|
  {
    var t := pre + (core + post);
    if pre != "" {
      assert t[1..] == pre[1..] + (core + post);
      StripsFront(pre[1..], core, post);
    } else if core == "" {
      assert t == post;
      if post != "" {
        assert post[1..] == post[1..] + ("" + "");
        StripsFront(post[1..], "", "");
      }
    } else {
      assert t == core + post;
    }
  }

  lemma {:induction false} StripsBack(core: string, post: string)
    requires core != "" && !JsonExtract.IsSpace(core[|core| - 1]) && Spaces(post)
    ensures JsonExtract.StripRight(core + post) == core
    decreases |post|
  {
    var t := core + post;
    if post == "" {
      assert t == core;
    } else {
      assert t[..|t| - 1] == core + post[..|post| - 1];
      StripsBack(core, post[..|post| - 1]);
    }
  }

  lemma SignedIs(cfg: Config, text: string)
    ensures Signed(cfg, text) == WithSignature(cfg, text)
  {
    var part := cfg.signature;
    if i :| 0 <= i <= |text| && part <= text[i..] {
      assert text[i..i + |part|] == text[i..][..|part|];
      assert PartAt(text, part, i);
    }
    if i: nat :| i <= |text| && PartAt(text, part, i) { assert text[i..][..|part|] == text[i..i + |part|]; }
  }

  lemma GatesAre(cfg: Config, s: State, c: Contact, env: Surroundings)
    ensures AutoEligible(cfg, s, c, env) == Eligible <==> MayAnswer(cfg, s, c, Conv(s, c).frozen.Some?, env)
  {
  }

  /** Drafting and perhaps sending. */
  lemma DraftingAdds(cfg: Config, s: State, c: Contact, x: Drafting)
    requires x.id !in s.drafts
    ensures DraftAndMaybeSend(cfg, s, c, x).trail == s.trail + Answer(cfg, s, c, x, Conv(s, c).frozen.Some?)
  {
    var g := GenerateDraft(cfg, s, c, x.reply, x.id, x.now);
    if g.Some? {
      GatesAre(cfg, g.value, c, x.env);
      SignedIs(cfg, x.reply.value.text);
    }
  }

  lemma InboundAdds(cfg: Config, s: State, c: Contact, text: string, x: Drafting)
    requires x.id !in s.drafts && c != ""
    ensures HandleInbound(cfg, s, c, text, x).trail
         == s.trail + match cfg.optOut(text)
                      case Raises => []
                      case Keyword => [OptedOut(c)]
                      case NoKeyword =>
                        if Drafts(s, c) then Answer(cfg, s, c, x, Conv(s, c).frozen.Some?) else []
  {
    DraftingAdds(cfg, s, c, x);
  }

  lemma ToldTrail(cfg: Config, s: State, c: Contact, text: string, messageId: string)
    ensures var told := AppendMessage(s, c, Message(true, text, false, "", messageId));
            (if Escalates(cfg, text) then Freeze(told, c) else told).trail
            == s.trail + [Heard(c, text, messageId)] + if Escalates(cfg, text) then [Escalated(c)] else []
  {
  }

  lemma ReceivedAdds(cfg: Config, s: State, c: Contact, text: string, messageId: string, x: Drafting)
    requires x.id !in s.drafts
    ensures OnReceived(cfg, s, c, text, messageId, x).trail
         == s.trail + Adds(cfg, s, Received(c, text, messageId, x), "")
  {
    var ms := Conv(s, c).messages;
    assert forall i :: 0 <= i < |ms| ==> ms[i] in ms;
    if IsNews(s, c, messageId) {
      var told := AppendMessage(s, c, Message(true, text, false, "", messageId));
      var checked := if Escalates(cfg, text) then Freeze(told, c) else told;
      InboundAdds(cfg, checked, c, text, x);
      ToldTrail(cfg, s, c, text, messageId);
      SameAnswer(cfg, s, checked, c, x, Conv(checked, c).frozen.Some?);
    }
  }

  /** What an answer depends on. */
  lemma SameAnswer(cfg: Config, s: State, t: State, c: Contact, x: Drafting, frozen: bool)
    requires t.mode == s.mode && t.suppressed == s.suppressed && t.dnd == s.dnd && t.vacation == s.vacation
    ensures Answer(cfg, t, c, x, frozen) == Answer(cfg, s, c, x, frozen)
  {
  }

  lemma ReviewAdds(cfg: Config, s: State, id: DraftId, action: Action, gateway: Option<string>, now: int, core: string)
    requires Reviewed(s, Review(id, action, gateway, now), core)
    ensures ReviewAction(cfg, s, id, action, gateway, now).trail
         == s.trail + Adds(cfg, s, Review(id, action, gateway, now), core)
  {
    if id in s.drafts && action.Approve? {
      StripIsCore(if action.text != "" then action.text else s.drafts[id].text, core);
    }
  }

  /** Every request adds to the trail exactly the events that it must. */
  lemma NextAdds(cfg: Config, s: State, step: Step, core: string)
    requires NewDraft(s, step) && Reviewed(s, step, core)
    ensures Next(cfg, s, step).trail == s.trail + Adds(cfg, s, step, core)
  {
    match step
    case Received(c, text, messageId, x) => ReceivedAdds(cfg, s, c, text, messageId, x);
    case Delivery(kind, sender, to, ref, body) =>
      var ms := Conv(s, to).messages;
      assert forall i :: 0 <= i < |ms| ==> ms[i] in ms;
    case MissedCall(caller, y) => DraftingAdds(cfg, s, caller, y);
    case Review(draft, action, gateway, at) => ReviewAdds(cfg, s, draft, action, gateway, at, core);
    case _ =>
  }

  // ----- the drafts of a request

  datatype Birth = Birth(id: DraftId, contact: Contact, reply: Reply, now: int)

  /** The draft that a request makes. */
  function Born(cfg: Config, s: State, step: Step): Option<Birth> {
    match step
    case Received(c, text, messageId, x) =>
      if IsNews(s, c, messageId) && cfg.optOut(text) == NoKeyword && Drafts(s, c) && !cfg.placeholderKey
          && x.reply.Some?
      then Some(Birth(x.id, c, x.reply.value, x.now))
      else None
    case MissedCall(caller, y) =>
      if Drafts(s, caller) && !cfg.placeholderKey && y.reply.Some?
      then Some(Birth(y.id, caller, y.reply.value, y.now))
      else None
    case OnDemand(whom, reply, id, now) =>
      if whom != "" && !cfg.placeholderKey && reply.Some? then Some(Birth(id, whom, reply.value, now)) else None
    case _ => None
  }

  /**
   * The new draft is there, sent if it was delivered and pending otherwise, and replaces the contact's pending ones.
   */
  ghost predicate MakesDraft(s: State, t: State, b: Birth, sent: seq<Event>) {
    && t.drafts.Keys == s.drafts.Keys + {b.id}
    && t.drafts[b.id].contact == b.contact && t.drafts[b.id].text == b.reply.text
    && t.drafts[b.id].confidence == b.reply.confidence && t.drafts[b.id].touched == b.now
    && (if sent == [] then t.drafts[b.id].status == Pending
        else
          && t.drafts[b.id].status == Sent
          && sent == [Delivered(b.contact, b.id, t.drafts[b.id].sentText, t.drafts[b.id].byAi, t.drafts[b.id].ref)])
    && forall d :: d in s.drafts && d != b.id ==>
         t.drafts[d] == if s.drafts[d].status == Pending && s.drafts[d].contact == b.contact
                        then s.drafts[d].(status := Superseded)
                        else s.drafts[d]
  }

  /** A new pending draft. */
  lemma GeneratedDraft(cfg: Config, s: State, c: Contact, reply: Reply, id: DraftId, now: int, t: State)
    requires GenerateDraft(cfg, s, c, Some(reply), id, now) == Some(t) && id !in s.drafts
    ensures MakesDraft(s, t, Birth(id, c, reply, now), []) && t == s.(drafts := t.drafts)
  {
  }

  /** A draft that is sent at once. */
  lemma SentDraft(cfg: Config, s: State, m: State, b: Birth, text: string, ref: string, now: int)
    requires MakesDraft(s, m, b, []) && b.id !in s.drafts && now == b.now
    ensures MakesDraft(s, SendDraft(cfg, m, b.id, text, true, Some(ref), now), b,
                       [Delivered(b.contact, b.id, text, true, ref)])
  {
    var t := SendDraft(cfg, m, b.id, text, true, Some(ref), now);
    assert t.drafts == m.drafts[b.id := t.drafts[b.id]];
    assert t.drafts[b.id].sentText == text && t.drafts[b.id].byAi && t.drafts[b.id].ref == ref;
  }

  lemma RefusedDraft(cfg: Config, s: State, m: State, b: Birth, text: string, now: int)
    requires MakesDraft(s, m, b, []) && b.id !in s.drafts && now == b.now
    ensures MakesDraft(s, SendDraft(cfg, m, b.id, text, true, None, now), b, [])
  {
    var t := SendDraft(cfg, m, b.id, text, true, None, now);
    assert t.drafts == m.drafts[b.id := t.drafts[b.id]];
  }

  lemma DraftingMakes(cfg: Config, s: State, c: Contact, x: Drafting)
    requires x.id !in s.drafts
    ensures var t := DraftAndMaybeSend(cfg, s, c, x);
            if !cfg.placeholderKey && x.reply.Some?
            then MakesDraft(s, t, Birth(x.id, c, x.reply.value, x.now), Answer(cfg, s, c, x, Conv(s, c).frozen.Some?))
            else t.drafts == s.drafts
  {
    var g := GenerateDraft(cfg, s, c, x.reply, x.id, x.now);
    if g.Some? {
      var m, b := g.value, Birth(x.id, c, x.reply.value, x.now);
      var text := WithSignature(cfg, x.reply.value.text);
      GeneratedDraft(cfg, s, c, x.reply.value, x.id, x.now, m);
      GatesAre(cfg, m, c, x.env);
      SignedIs(cfg, x.reply.value.text);
      match x.gateway
      case None => RefusedDraft(cfg, s, m, b, text, x.now);
      case Some(ref) => SentDraft(cfg, s, m, b, text, ref, x.now);
    }
  }

  lemma ReceivedMakes(cfg: Config, s: State, c: Contact, text: string, messageId: string, x: Drafting)
    requires x.id !in s.drafts
    ensures var t, b := OnReceived(cfg, s, c, text, messageId, x), Born(cfg, s, Received(c, text, messageId, x));
            if b.None? then t.drafts == s.drafts
            else MakesDraft(s, t, b.value, Answer(cfg, s, c, x, Conv(s, c).frozen.Some? || Escalates(cfg, text)))
  {
    var ms := Conv(s, c).messages;
    assert forall i :: 0 <= i < |ms| ==> ms[i] in ms;
    if IsNews(s, c, messageId) {
      var told := AppendMessage(s, c, Message(true, text, false, "", messageId));
      var checked := if Escalates(cfg, text) then Freeze(told, c) else told;
      var frozen := Conv(s, c).frozen.Some? || Escalates(cfg, text);
      assert checked.drafts == s.drafts && Conv(checked, c).frozen.Some? == frozen;
      SameAnswer(cfg, s, checked, c, x, frozen);
      InboundMakes(cfg, checked, c, text, x);
      if x.reply.Some? {
        SameDrafts(s, checked, HandleInbound(cfg, checked, c, text, x), x, c, Answer(cfg, s, c, x, frozen));
      }
    }
  }

  lemma InboundDrafts(cfg: Config, s: State, c: Contact, text: string, x: Drafting)
    requires c != ""
    ensures var t := HandleInbound(cfg, s, c, text, x);
            if cfg.optOut(text) == NoKeyword && Drafts(s, c) then t == DraftAndMaybeSend(cfg, s, c, x)
            else t.drafts == s.drafts
  {
  }

  lemma InboundMakes(cfg: Config, s: State, c: Contact, text: string, x: Drafting)
    requires x.id !in s.drafts && c != ""
    ensures var t := HandleInbound(cfg, s, c, text, x);
            if cfg.optOut(text) == NoKeyword && Drafts(s, c) && !cfg.placeholderKey && x.reply.Some?
            then MakesDraft(s, t, Birth(x.id, c, x.reply.value, x.now), Answer(cfg, s, c, x, Conv(s, c).frozen.Some?))
            else t.drafts == s.drafts
  {
    InboundDrafts(cfg, s, c, text, x);
    DraftingMakes(cfg, s, c, x);
  }

  lemma SameDrafts(s: State, m: State, t: State, x: Drafting, c: Contact, sent: seq<Event>)
    requires m.drafts == s.drafts && x.reply.Some? && x.id !in s.drafts
    ensures MakesDraft(m, t, Birth(x.id, c, x.reply.value, x.now), sent) ==>
              MakesDraft(s, t, Birth(x.id, c, x.reply.value, x.now), sent)
  {
  }

  /** A request makes a draft exactly when it must, and then no other draft changes but the ones it replaces. */
  lemma NextDrafts(cfg: Config, s: State, step: Step)
    requires NewDraft(s, step) && !step.Review? && !step.Sweep?
    ensures var t, b := Next(cfg, s, step), Born(cfg, s, step);
            if b.None? then t.drafts == s.drafts
            else
              var sent := match step
                          case Received(c, text, _, x) =>
                            Answer(cfg, s, c, x, Conv(s, c).frozen.Some? || Escalates(cfg, text))
                          case MissedCall(c, x) => Answer(cfg, s, c, x, Conv(s, c).frozen.Some?)
                          case _ => [];
              MakesDraft(s, t, b.value, sent)
  {
    match step
    case Received(c, text, messageId, x) => ReceivedMakes(cfg, s, c, text, messageId, x);
    case MissedCall(caller, y) => DraftingMakes(cfg, s, caller, y);
    case _ =>
  }

  /** What a review does to a pending draft; everything else is left as it was. */
  lemma ReviewDecides(cfg: Config, s: State, id: DraftId, action: Action, gateway: Option<string>, now: int,
                      core: string)
    requires id in s.drafts && Reviewed(s, Review(id, action, gateway, now), core)
    ensures var t, d := Next(cfg, s, Review(id, action, gateway, now)), s.drafts[id];
            && t.drafts.Keys == s.drafts.Keys && (forall x :: x in s.drafts && x != id ==> t.drafts[x] == s.drafts[x])
            && (if d.status != Pending then t == s
                else match action
                     case Discard => t == s.(drafts := s.drafts[id := d.(status := Discarded, touched := now)])
                     case Edit(_) =>
                       t == if core == "" then s else s.(drafts := s.drafts[id := d.(text := core, touched := now)])
                     case Approve(_) =>
                       if core == "" then t == s
                       else if gateway.None? then t == s.(drafts := s.drafts[id := d.(touched := now)])
                       else t.drafts[id] == d.(status := Sent, sentText := core, byAi := false, ref := gateway.value,
                                               touched := now))
  {
    if !action.Discard? {
      StripIsCore(if action.Approve? && action.text == "" then s.drafts[id].text else action.text, core);
    }
  }

  /** The sweep expires exactly the pending drafts that were last touched before the cutoff. */
  lemma SweepExpires(cfg: Config, s: State, cutoff: int)
    ensures var t := Next(cfg, s, Sweep(cutoff));
            && t == s.(drafts := t.drafts) && t.drafts.Keys == s.drafts.Keys
            && forall d :: d in s.drafts ==>
                 t.drafts[d] == if s.drafts[d].status == Pending && s.drafts[d].touched < cutoff
                                then s.drafts[d].(status := Expired)
                                else s.drafts[d]
  {
  }

  predicate SameSettings(s: State, t: State) {
    t.mode == s.mode && t.modeOverride == s.modeOverride && t.dnd == s.dnd && t.vacation == s.vacation
  }

  lemma DraftingKeepsSettings(cfg: Config, s: State, c: Contact, x: Drafting)
    ensures SameSettings(s, DraftAndMaybeSend(cfg, s, c, x)) && s.trail <= DraftAndMaybeSend(cfg, s, c, x).trail
  {
  }

  lemma InboundKeepsSettings(cfg: Config, s: State, c: Contact, text: string, x: Drafting)
    ensures var t := HandleInbound(cfg, s, c, text, x); SameSettings(s, t) && s.trail <= t.trail
  {
    DraftingKeepsSettings(cfg, s, c, x);
  }

  lemma ReceivedKeepsSettings(cfg: Config, s: State, c: Contact, text: string, messageId: string, x: Drafting)
    ensures var t := OnReceived(cfg, s, c, text, messageId, x); SameSettings(s, t) && s.trail <= t.trail
  {
    var told := AppendMessage(s, c, Message(true, text, false, "", messageId));
    var checked := if text != "" && cfg.asksForHuman(text) then Freeze(told, c) else told;
    assert SameSettings(s, checked) && s.trail <= checked.trail;
    InboundKeepsSettings(cfg, checked, c, text, x);
  }

  lemma ReviewKeepsSettings(cfg: Config, s: State, id: DraftId, action: Action, gateway: Option<string>, now: int)
    ensures var t := ReviewAction(cfg, s, id, action, gateway, now); SameSettings(s, t) && s.trail <= t.trail
  {
  }

  /** The settings, which only their own requests change. */
  lemma NextSettings(cfg: Config, s: State, step: Step)
    ensures s.trail <= Next(cfg, s, step).trail
    ensures var t := Next(cfg, s, step);
            match step
            case SetMode(m) =>
              t == if m in {Off, Mode.Drafts, AfterHours, Full} then s.(mode := m, modeOverride := Some(m)) else s
            case ResetMode => t == s.(mode := cfg.defaultMode, modeOverride := None)
            case SetPresence(dnd, vacation) => t == s.(dnd := dnd, vacation := vacation)
            case _ => SameSettings(s, t)
  {
    match step
    case Received(c, text, messageId, x) => ReceivedKeepsSettings(cfg, s, c, text, messageId, x);
    case MissedCall(caller, y) => DraftingKeepsSettings(cfg, s, caller, y);
    case Review(draft, action, gateway, at) => ReviewKeepsSettings(cfg, s, draft, action, gateway, at);
    case _ =>
  }

  // ----- from the moment of a message

  lemma {:induction false} TrailGrowsInRun(cfg: Config, steps: seq<Step>, k: nat)
    requires k <= |steps|
    ensures Run(cfg, steps[..k]).trail <= Run(cfg, steps).trail
    decreases |steps|
  {
    if k < |steps| {
      var front := steps[..|steps| - 1];
      TrailGrowsInRun(cfg, front, k);
      assert front[..k] == steps[..k];
      NextSettings(cfg, Run(cfg, front), steps[|steps| - 1]);
    } else {
      assert steps[..k] == steps;
    }
  }

  /** The `k`-th request of the run is a new message of the contact's. */
  predicate Receives(cfg: Config, steps: seq<Step>, k: nat, c: Contact, text: string) {
    && k < |steps| && steps[k].Received? && steps[k].c == c && steps[k].text == text
    && IsNews(Run(cfg, steps[..k]), c, steps[k].messageId)
  }

  lemma ReceivedInRun(cfg: Config, steps: seq<Step>, k: nat, c: Contact, text: string)
    requires NewDrafts(cfg, steps) && Receives(cfg, steps, k, c, text)
    ensures var s, all := Run(cfg, steps[..k]), Run(cfg, steps).trail;
            s.trail + Adds(cfg, s, steps[k], "") <= all
  {
    assert steps[..k + 1][..k] == steps[..k] && steps[..k + 1][k] == steps[k];
    assert NewDraft(Run(cfg, steps[..k]), steps[k]);
    NextAdds(cfg, Run(cfg, steps[..k]), steps[k], "");
    TrailGrowsInRun(cfg, steps, k + 1);
  }

  /**
   * From a received opt-out on, no autonomous send reaches the contact until its suppression is reset;
   * the contact is on the suppression list at once, and nothing is drafted or sent for the message itself.
   */
  lemma OptOutIsObeyed(cfg: Config, steps: seq<Step>, k: nat, c: Contact, text: string)
    requires NewDrafts(cfg, steps) && Receives(cfg, steps, k, c, text) && cfg.optOut(text) == Keyword
    ensures var s := Run(cfg, steps[..k]);
            var t := Next(cfg, s, steps[k]);
            && c in t.suppressed && t.drafts == s.drafts
            && t.trail == s.trail + [Heard(c, text, steps[k].messageId)]
                          + (if Escalates(cfg, text) then [Escalated(c)] else []) + [OptedOut(c)]
    ensures var n, all := |Run(cfg, steps[..k]).trail|, Run(cfg, steps).trail;
            forall j :: n <= j < |all| && Autonomous(all[j], c) ==> exists m :: n <= m < j && all[m] == OptedIn(c)
  {
    var s, all := Run(cfg, steps[..k]), Run(cfg, steps).trail;
    ReceivedInRun(cfg, steps, k, c, text);
    RunInv(cfg, steps);
    assert NewDraft(s, steps[k]);
    NextAdds(cfg, s, steps[k], "");
    NextDrafts(cfg, s, steps[k]);
    var n, i := |s.trail|, |s.trail| + (if Escalates(cfg, text) then 2 else 1);
    var told := s.trail + Adds(cfg, s, steps[k], "");
    assert all[n] == told[n] == Heard(c, text, steps[k].messageId) && all[i] == told[i] == OptedOut(c);
    assert Escalates(cfg, text) ==> all[n + 1] == told[n + 1] == Escalated(c);
    forall j | n <= j < |all| && Autonomous(all[j], c) ensures exists m :: n <= m < j && all[m] == OptedIn(c) {
      assert j > i;
      OptedInBetween(cfg, all, c, i, j);
    }
  }

  /**
   * From a received request for a person on, no autonomous send reaches the contact until a person
   * writes or the conversation is resumed; the escalation is on the trail before anything else.
   */
  lemma EscalationIsObeyed(cfg: Config, steps: seq<Step>, k: nat, c: Contact, text: string)
    requires NewDrafts(cfg, steps) && Receives(cfg, steps, k, c, text) && Escalates(cfg, text)
    ensures var s := Run(cfg, steps[..k]);
            s.trail + [Heard(c, text, steps[k].messageId), Escalated(c)] <= Next(cfg, s, steps[k]).trail
    ensures var n, all := |Run(cfg, steps[..k]).trail|, Run(cfg, steps).trail;
            forall j :: n <= j < |all| && Autonomous(all[j], c) ==> exists m :: n <= m < j && Rearms(all[m], c)
  {
    var s, all := Run(cfg, steps[..k]), Run(cfg, steps).trail;
    ReceivedInRun(cfg, steps, k, c, text);
    RunInv(cfg, steps);
    assert NewDraft(s, steps[k]);
    NextAdds(cfg, s, steps[k], "");
    var n, i := |s.trail|, |s.trail| + 1;
    assert all[n] == (s.trail + Adds(cfg, s, steps[k], ""))[n] == Heard(c, text, steps[k].messageId);
    assert all[i] == (s.trail + Adds(cfg, s, steps[k], ""))[i] == Escalated(c);
    forall j | n <= j < |all| && Autonomous(all[j], c) ensures exists m :: n <= m < j && Rearms(all[m], c) {
      assert j != n && j != i;
      RearmedBetween(cfg, all, c, i, j);
    }
  }
}
