/**
 * What the supervised text agent promises over any run of whole requests: the kill switch, the
 * opt-out, the escalation freeze, the life of drafts, and its own delivery webhooks.
 */
module AgentSafety {
  import opened Wrappers
  import opened AgentState

  function Max(a: int, b: int): int { if a >= b then a else b }

  function Limit(cfg: Config): int { Max(1, cfg.maxAuto) }

  // ----- reading the trail

  predicate Autonomous(e: Event, c: Contact) { e.Delivered? && e.byAi && e.contact == c }

  /** A recorded human outbound, or a resume. */
  predicate Rearms(e: Event, c: Contact) { (e.HumanOutbound? || e.Resumed?) && e.contact == c }

  /** Autonomous sends to `c` since it was last re-armed. */
  function AutoSince(t: seq<Event>, c: Contact): nat {
    if t == [] then 0
    else
      var e := t[|t| - 1];
      if Rearms(e, c) then 0 else AutoSince(t[..|t| - 1], c) + (if Autonomous(e, c) then 1 else 0)
  }

  predicate OptedOutNow(t: seq<Event>, c: Contact) {
    t != [] &&
    var e := t[|t| - 1];
    e == OptedOut(c) || (e != OptedIn(c) && OptedOutNow(t[..|t| - 1], c))
  }

  predicate EscalatedNow(t: seq<Event>, c: Contact) {
    t != [] &&
    var e := t[|t| - 1];
    e == Escalated(c) || (!Rearms(e, c) && EscalatedNow(t[..|t| - 1], c))
  }

  /** Each autonomous send found its contact opted in, not escalated, and below the limit. */
  predicate Safe(cfg: Config, t: seq<Event>) {
    t == [] ||
    (var before, e := t[..|t| - 1], t[|t| - 1];
     && Safe(cfg, before)
     && (e.Delivered? && e.byAi ==>
           !OptedOutNow(before, e.contact) && !EscalatedNow(before, e.contact)
               && AutoSince(before, e.contact) < Limit(cfg)))
  }

  // ----- the invariant

  /** The freeze that the trail asks for: an escalation since the last re-arming, or as many sends as are allowed. */
  function FreezeOf(cfg: Config, t: seq<Event>, c: Contact): Option<FreezeReason> {
    if EscalatedNow(t, c) then Some(AskedForHuman)
    else if AutoSince(t, c) > 0 && AutoSince(t, c) >= cfg.maxAuto then Some(KillSwitch(AutoSince(t, c)))
    else None
  }

  /** Counter and freeze of a conversation are what the trail says, no more and no less. */
  predicate ConversationOk(cfg: Config, s: State, c: Contact) {
    var v := Conv(s, c);
    && v.consecutiveAuto == AutoSince(s.trail, c) <= Limit(cfg)
    && v.frozen == FreezeOf(cfg, s.trail, c)
  }

  ghost predicate OnePending(s: State) {
    forall d, e ::
      (d in s.drafts && e in s.drafts && s.drafts[d].status == Pending && s.drafts[e].status == Pending
       && s.drafts[d].contact == s.drafts[e].contact) ==> d == e
  }

  /** A draft is marked sent exactly when a delivery of it is on the trail, with what was delivered. */
  ghost predicate SentMatches(s: State) {
    && (forall d :: d in s.drafts && s.drafts[d].status == Sent ==>
          Delivered(s.drafts[d].contact, d, s.drafts[d].sentText, s.drafts[d].byAi, s.drafts[d].ref) in s.trail)
    && (forall e :: e in s.trail && e.Delivered? ==>
          e.draft in s.drafts && s.drafts[e.draft].status == Sent)
    && (forall i, j :: 0 <= i < j < |s.trail| && s.trail[i].Delivered? && s.trail[j].Delivered? ==>
          s.trail[i].draft != s.trail[j].draft)
  }

  ghost predicate Inv(cfg: Config, s: State) {
    && (forall c :: ConversationOk(cfg, s, c))
    && (forall c :: c in s.suppressed <==> OptedOutNow(s.trail, c))
    && Safe(cfg, s.trail)
    && OnePending(s)
    && SentMatches(s)
  }

  lemma Extend(t: seq<Event>, e: Event)
    ensures (t + [e])[..|t + [e]| - 1] == t && (t + [e])[|t + [e]| - 1] == e
  {
  }

  /** One more event that is no delivery. */
  lemma TrailGrows(cfg: Config, t: seq<Event>, e: Event)
    requires Safe(cfg, t) && !e.Delivered?
    ensures Safe(cfg, t + [e])
    ensures forall c :: AutoSince(t + [e], c) == if Rearms(e, c) then 0 else AutoSince(t, c)
    ensures forall c :: OptedOutNow(t + [e], c) <==> e == OptedOut(c) || (e != OptedIn(c) && OptedOutNow(t, c))
    ensures forall c :: EscalatedNow(t + [e], c) <==> e == Escalated(c) || (!Rearms(e, c) && EscalatedNow(t, c))
  {
    Extend(t, e);
  }

  lemma SentKept(s: State, t: State)
    requires SentMatches(s) && s.drafts == t.drafts
    requires s.trail == t.trail || (exists e: Event :: !e.Delivered? && t.trail == s.trail + [e])
    ensures SentMatches(t)
  {
  }

  // ----- every operation keeps the invariant

  lemma KeepAppendInbound(cfg: Config, s: State, c: Contact, m: Message)
    requires Inv(cfg, s) && m.inbound
    ensures Inv(cfg, AppendMessage(s, c, m))
  {
    var t := AppendMessage(s, c, m);
    TrailGrows(cfg, s.trail, Heard(c, m.text, m.messageId));
    SentKept(s, t);
    forall x ensures ConversationOk(cfg, t, x) { assert ConversationOk(cfg, s, x); }
  }

  lemma KeepAppendHuman(cfg: Config, s: State, c: Contact, m: Message)
    requires Inv(cfg, s) && Human(m)
    ensures Inv(cfg, AppendMessage(s, c, m))
  {
    var t := AppendMessage(s, c, m);
    TrailGrows(cfg, s.trail, HumanOutbound(c, m.text, m.ref));
    SentKept(s, t);
    forall x ensures ConversationOk(cfg, t, x) { assert ConversationOk(cfg, s, x); }
  }

  lemma KeepFreeze(cfg: Config, s: State, c: Contact)
    requires Inv(cfg, s)
    ensures Inv(cfg, Freeze(s, c))
  {
    var t := Freeze(s, c);
    TrailGrows(cfg, s.trail, Escalated(c));
    SentKept(s, t);
    forall x ensures ConversationOk(cfg, t, x) { assert ConversationOk(cfg, s, x); }
  }

  lemma KeepResume(cfg: Config, s: State, c: Contact)
    requires Inv(cfg, s)
    ensures Inv(cfg, Resume(s, c))
  {
    var t := Resume(s, c);
    TrailGrows(cfg, s.trail, Resumed(c));
    SentKept(s, t);
    forall x ensures ConversationOk(cfg, t, x) { assert ConversationOk(cfg, s, x); }
  }

  lemma KeepSuppress(cfg: Config, s: State, c: Contact)
    requires Inv(cfg, s)
    ensures Inv(cfg, Suppress(s, c))
  {
    var t := Suppress(s, c);
    TrailGrows(cfg, s.trail, OptedOut(c));
    SentKept(s, t);
    forall x ensures ConversationOk(cfg, t, x) { assert ConversationOk(cfg, s, x); }
  }

  lemma KeepUnsuppress(cfg: Config, s: State, c: Contact)
    requires Inv(cfg, s)
    ensures Inv(cfg, Unsuppress(s, c))
  {
    if c in s.suppressed {
      var t := Unsuppress(s, c);
      TrailGrows(cfg, s.trail, OptedIn(c));
      SentKept(s, t);
      forall x ensures ConversationOk(cfg, t, x) { assert ConversationOk(cfg, s, x); }
    }
  }

  lemma KeepGenerate(cfg: Config, s: State, c: Contact, reply: Option<Reply>, id: DraftId, now: int)
    requires Inv(cfg, s) && id !in s.drafts
    ensures GenerateDraft(cfg, s, c, reply, id, now).Some? ==>
              var t := GenerateDraft(cfg, s, c, reply, id, now).value;
              Inv(cfg, t) && id in t.drafts && t.drafts[id].status == Pending && t.drafts[id].contact == c
  {
    var g := GenerateDraft(cfg, s, c, reply, id, now);
    if g.Some? {
      var t := g.value;
      forall x ensures ConversationOk(cfg, t, x) { assert ConversationOk(cfg, s, x); }
      SupersedingKeeps(s, t, id, t.drafts[id]);
    }
  }

  lemma SupersedingKeeps(s: State, t: State, id: DraftId, draft: Draft)
    requires OnePending(s) && SentMatches(s) && id !in s.drafts && draft.status == Pending
    requires t == s.(drafts := Superseding(s.drafts, id, draft))
    ensures OnePending(t) && SentMatches(t)
  {
    OnePendingAfter(s, t, id, draft);
    SentAfterSuperseding(s, t, id, draft);
  }

  lemma OnePendingAfter(s: State, t: State, id: DraftId, draft: Draft)
    requires OnePending(s) && id !in s.drafts && t.drafts == Superseding(s.drafts, id, draft)
    ensures OnePending(t)
  {
    forall d | d in t.drafts && d != id && t.drafts[d].status == Pending
      ensures d in s.drafts && t.drafts[d] == s.drafts[d] && t.drafts[d].contact != draft.contact
    {
    }
  }

  lemma SentAfterSuperseding(s: State, t: State, id: DraftId, draft: Draft)
    requires SentMatches(s) && id !in s.drafts && draft.status == Pending
    requires t.drafts == Superseding(s.drafts, id, draft) && t.trail == s.trail
    ensures SentMatches(t)
  {
    assert forall d :: d in s.drafts && s.drafts[d].status == Sent ==> t.drafts[d] == s.drafts[d];
    assert forall d :: d in t.drafts && t.drafts[d].status == Sent ==> d in s.drafts && t.drafts[d] == s.drafts[d];
  }

  /** The send that the bridge refused leaves only the draft's time stamp behind. */
  lemma KeepRefused(cfg: Config, s: State, id: DraftId, text: string, byAi: bool, now: int)
    requires Inv(cfg, s) && id in s.drafts && s.drafts[id].status == Pending
    ensures Inv(cfg, SendDraft(cfg, s, id, text, byAi, None, now))
  {
    KeepDrafts(cfg, s, SendDraft(cfg, s, id, text, byAi, None, now));
  }

  /** The drafts and the trail after a send, before the conversation is touched. */
  lemma SentMatchesAfterSend(s: State, t: State, id: DraftId, text: string, byAi: bool, ref: string, now: int)
    requires SentMatches(s) && OnePending(s) && id in s.drafts && s.drafts[id].status == Pending
    requires t.drafts
             == s.drafts[id := s.drafts[id].(status := Sent, sentText := text, byAi := byAi, ref := ref,
                                             touched := now)]
    requires t.trail == s.trail + [Delivered(s.drafts[id].contact, id, text, byAi, ref)]
    ensures SentMatches(t) && OnePending(t)
  {
    forall e | e in t.trail && e.Delivered? ensures e.draft in t.drafts && t.drafts[e.draft].status == Sent {
      assert e in s.trail || e.draft == id;
    }
    forall d | d in t.drafts && t.drafts[d].status == Sent
      ensures Delivered(t.drafts[d].contact, d, t.drafts[d].sentText, t.drafts[d].byAi, t.drafts[d].ref) in t.trail
    {
      assert t.trail[|s.trail|] == Delivered(s.drafts[id].contact, id, text, byAi, ref);
    }
    forall i, j | 0 <= i < j < |t.trail| && t.trail[i].Delivered? && t.trail[j].Delivered?
      ensures t.trail[i].draft != t.trail[j].draft
    {
      assert t.trail[i] in s.trail;
    }
  }

  /** One more delivery, a person's, or an autonomous one that the gates allowed. */
  lemma TrailGrowsBySend(cfg: Config, t: seq<Event>, e: Event)
    requires Safe(cfg, t) && e.Delivered?
    requires e.byAi ==>
               !OptedOutNow(t, e.contact) && !EscalatedNow(t, e.contact) && AutoSince(t, e.contact) < Limit(cfg)
    ensures Safe(cfg, t + [e])
    ensures forall c :: AutoSince(t + [e], c) == AutoSince(t, c) + if e.byAi && c == e.contact then 1 else 0
    ensures forall c :: OptedOutNow(t + [e], c) <==> OptedOutNow(t, c)
    ensures forall c :: EscalatedNow(t + [e], c) <==> EscalatedNow(t, c)
  {
    Extend(t, e);
  }

  lemma KeepHumanSend(cfg: Config, s: State, id: DraftId, text: string, ref: string, now: int)
    requires Inv(cfg, s) && id in s.drafts && s.drafts[id].status == Pending
    ensures Inv(cfg, SendDraft(cfg, s, id, text, false, Some(ref), now))
  {
    var c := s.drafts[id].contact;
    var e := Delivered(c, id, text, false, ref);
    var sent :=
        s.(drafts := s.drafts[id := s.drafts[id].(status := Sent, sentText := text, byAi := false, ref := ref,
                                                  touched := now)],
                   trail := s.trail + [e]);
    TrailGrowsBySend(cfg, s.trail, e);
    SentMatchesAfterSend(s, sent, id, text, false, ref, now);
    forall x ensures ConversationOk(cfg, sent, x) { assert ConversationOk(cfg, s, x); }
    assert Inv(cfg, sent);
    KeepAppendHuman(cfg, sent, c, Message(false, text, false, ref, ""));
  }

  function KillAt(cfg: Config, n: int): Option<FreezeReason> { if n >= cfg.maxAuto then Some(KillSwitch(n)) else None }

  /** The counter goes up with the trail, and the freeze comes at the limit. */
  lemma AutoSentConversation(cfg: Config, s: State, t: State, c: Contact)
    requires ConversationOk(cfg, s, c) && Conv(s, c).frozen.None?
    requires AutoSince(t.trail, c) == AutoSince(s.trail, c) + 1
             && (EscalatedNow(t.trail, c) <==> EscalatedNow(s.trail, c))
    requires Conv(t, c).consecutiveAuto == Conv(s, c).consecutiveAuto + 1
    requires Conv(t, c).frozen == KillAt(cfg, Conv(t, c).consecutiveAuto)
    ensures ConversationOk(cfg, t, c)
  {
  }

  /** What an autonomous send does to the conversations. */
  lemma AutoSendConversations(cfg: Config, s: State, id: DraftId, text: string, ref: string, now: int)
    requires id in s.drafts && Conv(s, s.drafts[id].contact).frozen.None?
    ensures var c, t := s.drafts[id].contact, SendDraft(cfg, s, id, text, true, Some(ref), now);
            && t.trail == s.trail + [Delivered(c, id, text, true, ref)] && t.suppressed == s.suppressed
            && (forall x :: x != c ==> Conv(t, x) == Conv(s, x))
            && Conv(t, c).consecutiveAuto == Conv(s, c).consecutiveAuto + 1
            && Conv(t, c).frozen == KillAt(cfg, Conv(t, c).consecutiveAuto)
  {
  }

  lemma KeepConversations(cfg: Config, s: State, t: State, e: Event)
    requires (forall x :: ConversationOk(cfg, s, x)) && e.Delivered? && e.byAi && t.trail == s.trail + [e]
    requires Safe(cfg, s.trail) && Conv(s, e.contact).frozen.None? && !OptedOutNow(s.trail, e.contact)
    requires forall x :: x != e.contact ==> Conv(t, x) == Conv(s, x)
    requires Conv(t, e.contact).consecutiveAuto == Conv(s, e.contact).consecutiveAuto + 1
    requires Conv(t, e.contact).frozen == KillAt(cfg, Conv(t, e.contact).consecutiveAuto)
    ensures (forall x :: ConversationOk(cfg, t, x)) && Safe(cfg, t.trail)
    ensures forall x :: OptedOutNow(t.trail, x) <==> OptedOutNow(s.trail, x)
  {
    var c := e.contact;
    assert ConversationOk(cfg, s, c);
    TrailGrowsBySend(cfg, s.trail, e);
    AutoSentConversation(cfg, s, t, c);
    forall x ensures ConversationOk(cfg, t, x) { assert ConversationOk(cfg, s, x); }
  }

  /** The gates were open, so the send is allowed; the counter and the freeze catch up with the trail. */
  lemma KeepAutoSend(cfg: Config, s: State, id: DraftId, text: string, ref: string, env: Surroundings, now: int)
    requires Inv(cfg, s) && id in s.drafts && s.drafts[id].status == Pending
    requires AutoEligible(cfg, s, s.drafts[id].contact, env) == Eligible
    ensures Inv(cfg, SendDraft(cfg, s, id, text, true, Some(ref), now))
  {
    var t := SendDraft(cfg, s, id, text, true, Some(ref), now);
    AutoSendConversations(cfg, s, id, text, ref, now);
    KeepConversations(cfg, s, t, Delivered(s.drafts[id].contact, id, text, true, ref));
    SentMatchesAfterSend(s, t, id, text, true, ref, now);
  }

  lemma KeepDraftAndMaybeSend(cfg: Config, s: State, c: Contact, x: Drafting)
    requires Inv(cfg, s) && x.id !in s.drafts
    ensures Inv(cfg, DraftAndMaybeSend(cfg, s, c, x))
  {
    KeepGenerate(cfg, s, c, x.reply, x.id, x.now);
    var g := GenerateDraft(cfg, s, c, x.reply, x.id, x.now);
    if g.Some? {
      var t := g.value;
      var text := Signed(cfg, t.drafts[x.id].text);
      if AutoEligible(cfg, t, c, x.env) == Eligible && t.drafts[x.id].confidence >= cfg.threshold {
        match x.gateway
        case None => KeepRefused(cfg, t, x.id, text, true, x.now);
        case Some(ref) => KeepAutoSend(cfg, t, x.id, text, ref, x.env, x.now);
      }
    }
  }

  lemma KeepInbound(cfg: Config, s: State, c: Contact, text: string, x: Drafting)
    requires Inv(cfg, s) && x.id !in s.drafts
    ensures Inv(cfg, HandleInbound(cfg, s, c, text, x))
  {
    KeepSuppress(cfg, s, c);
    KeepDraftAndMaybeSend(cfg, s, c, x);
  }

  lemma KeepReceived(cfg: Config, s: State, c: Contact, text: string, messageId: string, x: Drafting)
    requires Inv(cfg, s) && x.id !in s.drafts
    ensures Inv(cfg, OnReceived(cfg, s, c, text, messageId, x))
  {
    if !(c == "" || (messageId != "" && Known(s, c, messageId))) {
      var m := Message(true, text, false, "", messageId);
      KeepAppendInbound(cfg, s, c, m);
      var told := AppendMessage(s, c, m);
      KeepFreeze(cfg, told, c);
      KeepInbound(cfg, if text != "" && cfg.asksForHuman(text) then Freeze(told, c) else told, c, text, x);
    }
  }

  lemma KeepReview(cfg: Config, s: State, id: DraftId, action: Action, gateway: Option<string>, now: int)
    requires Inv(cfg, s)
    ensures Inv(cfg, ReviewAction(cfg, s, id, action, gateway, now))
  {
    if id in s.drafts && s.drafts[id].status == Pending {
      match action
      case Approve(given) =>
        var text := Strip(if given != "" then given else s.drafts[id].text);
        if gateway.None? {
          KeepRefused(cfg, s, id, text, false, now);
        } else {
          KeepHumanSend(cfg, s, id, text, gateway.value, now);
        }
      case _ => KeepDrafts(cfg, s, ReviewAction(cfg, s, id, action, gateway, now));
    }
  }

  /** Only drafts changed, and each kept its place unless it was pending and stayed the contact's own. */
  lemma KeepDrafts(cfg: Config, s: State, t: State)
    requires Inv(cfg, s) && t == s.(drafts := t.drafts) && t.drafts.Keys == s.drafts.Keys
    requires forall d :: d in s.drafts ==>
               t.drafts[d] == s.drafts[d]
               || (s.drafts[d].status == Pending && t.drafts[d].status != Sent
                   && t.drafts[d].contact == s.drafts[d].contact)
    ensures Inv(cfg, t)
  {
    forall x ensures ConversationOk(cfg, t, x) { assert ConversationOk(cfg, s, x); }
    assert forall d :: d in t.drafts && t.drafts[d].status == Sent ==> t.drafts[d] == s.drafts[d];
  }

  lemma KeepStep(cfg: Config, s: State, step: Step)
    requires Inv(cfg, s) && NewDraft(s, step)
    ensures Inv(cfg, Next(cfg, s, step))
  {
    match step
    case Received(c, text, messageId, x) => KeepReceived(cfg, s, c, text, messageId, x);
    case Delivery(kind, sender, to, ref, body) =>
      if !Ignored(cfg, s, kind, sender, to, ref) {
        KeepAppendHuman(cfg, s, to, Message(false, body, false, ref, ""));
      }
    case MissedCall(caller, y) => KeepDraftAndMaybeSend(cfg, s, caller, y);
    case OnDemand(whom, reply, id, now) => KeepGenerate(cfg, s, whom, reply, id, now);
    case Review(draft, action, gateway, at) => KeepReview(cfg, s, draft, action, gateway, at);
    case Sweep(cutoff) => KeepDrafts(cfg, s, Next(cfg, s, step));
    case ResumeConversation(who) => KeepResume(cfg, s, who);
    case ResetSuppression(contact) => KeepUnsuppress(cfg, s, contact);
    case _ => KeepSettings(cfg, s, Next(cfg, s, step));
  }

  lemma KeepSettings(cfg: Config, s: State, t: State)
    requires Inv(cfg, s)
    requires t == s.(mode := t.mode, modeOverride := t.modeOverride, dnd := t.dnd, vacation := t.vacation)
    ensures Inv(cfg, t)
  {
    forall x ensures ConversationOk(cfg, t, x) { assert ConversationOk(cfg, s, x); }
  }

  /** The invariant holds in every state a run of requests can reach. */
  lemma {:induction false} RunInv(cfg: Config, steps: seq<Step>)
    requires NewDrafts(cfg, steps)
    ensures Inv(cfg, Run(cfg, steps))
    decreases |steps|
  {
    if steps != [] {
      var n := |steps| - 1;
      var before := steps[..n];
      assert forall i :: 0 <= i < n ==> before[..i] == steps[..i] && before[i] == steps[i];
      RunInv(cfg, before);
      KeepStep(cfg, Run(cfg, before), steps[n]);
    }
  }

  // ----- the promises, said of the trail of a run

  function AutoCount(t: seq<Event>, c: Contact): nat {
    if t == [] then 0 else AutoCount(t[..|t| - 1], c) + (if Autonomous(t[|t| - 1], c) then 1 else 0)
  }

  lemma {:induction false} SafePrefix(cfg: Config, t: seq<Event>, n: nat)
    requires Safe(cfg, t) && n <= |t|
    ensures Safe(cfg, t[..n])
    decreases |t|
  {
    if n < |t| {
      SafePrefix(cfg, t[..|t| - 1], n);
      assert t[..|t| - 1][..n] == t[..n];
    } else {
      assert t[..n] == t;
    }
  }

  lemma {:induction false} SafeBounds(cfg: Config, t: seq<Event>, c: Contact)
    requires Safe(cfg, t)
    ensures AutoSince(t, c) <= Limit(cfg)
    decreases |t|
  {
    if t != [] { SafeBounds(cfg, t[..|t| - 1], c); }
  }

  /** A stretch of the trail without a re-arming counts at most what has been counted since the last one. */
  lemma {:induction false} StretchCount(t: seq<Event>, i: nat, c: Contact)
    requires i <= |t| && forall k :: i <= k < |t| ==> !Rearms(t[k], c)
    ensures AutoCount(t[i..], c) <= AutoSince(t, c)
    decreases |t|
  {
    if i < |t| {
      var u := t[..|t| - 1];
      StretchCount(u, i, c);
      assert t[i..][..|t[i..]| - 1] == u[i..];
      assert t[i..][|t[i..]| - 1] == t[|t| - 1];
    } else {
      assert t[i..] == [];
    }
  }

  /** Kill switch: between two re-armings a contact gets at most max(1, max_auto) autonomous sends. */
  lemma KillSwitchBound(cfg: Config, steps: seq<Step>, c: Contact, i: nat, j: nat)
    requires NewDrafts(cfg, steps) && i <= j <= |Run(cfg, steps).trail|
    requires forall k :: i <= k < j ==> !Rearms(Run(cfg, steps).trail[k], c)
    ensures AutoCount(Run(cfg, steps).trail[i..j], c) <= Limit(cfg)
  {
    RunInv(cfg, steps);
    var t := Run(cfg, steps).trail[..j];
    SafePrefix(cfg, Run(cfg, steps).trail, j);
    SafeBounds(cfg, t, c);
    StretchCount(t, i, c);
    assert t[i..] == Run(cfg, steps).trail[i..j];
  }

  lemma {:induction false} StillOptedOut(t: seq<Event>, i: nat, c: Contact)
    requires i < |t| && t[i] == OptedOut(c)
    requires forall k :: i < k < |t| ==> t[k] != OptedIn(c)
    ensures OptedOutNow(t, c)
    decreases |t|
  {
    if i < |t| - 1 { StillOptedOut(t[..|t| - 1], i, c); }
  }

  lemma {:induction false} StillEscalated(t: seq<Event>, i: nat, c: Contact)
    requires i < |t| && t[i] == Escalated(c)
    requires forall k :: i < k < |t| ==> !Rearms(t[k], c)
    ensures EscalatedNow(t, c)
    decreases |t|
  {
    if i < |t| - 1 { StillEscalated(t[..|t| - 1], i, c); }
  }

  lemma OptedInBetween(cfg: Config, t: seq<Event>, c: Contact, i: nat, j: nat)
    requires Safe(cfg, t) && i < j < |t| && t[i] == OptedOut(c) && Autonomous(t[j], c)
    ensures exists k :: i < k < j && t[k] == OptedIn(c)
  {
    SafePrefix(cfg, t, j + 1);
    assert t[..j + 1][..j] == t[..j] && t[..j + 1][j] == t[j];
    if forall k :: i < k < j ==> t[k] != OptedIn(c) {
      StillOptedOut(t[..j], i, c);
      assert false;
    }
  }

  lemma RearmedBetween(cfg: Config, t: seq<Event>, c: Contact, i: nat, j: nat)
    requires Safe(cfg, t) && i < j < |t| && t[i] == Escalated(c) && Autonomous(t[j], c)
    ensures exists k :: i < k < j && Rearms(t[k], c)
  {
    SafePrefix(cfg, t, j + 1);
    assert t[..j + 1][..j] == t[..j] && t[..j + 1][j] == t[j];
    if forall k :: i < k < j ==> !Rearms(t[k], c) {
      StillEscalated(t[..j], i, c);
      assert false;
    }
  }

  /** No autonomous send reaches a contact between its opt-out and the reset of the suppression. */
  lemma OptOutIsKept(cfg: Config, steps: seq<Step>, c: Contact, i: nat, j: nat)
    requires NewDrafts(cfg, steps) && i < j < |Run(cfg, steps).trail|
    requires Run(cfg, steps).trail[i] == OptedOut(c) && Autonomous(Run(cfg, steps).trail[j], c)
    ensures exists k :: i < k < j && Run(cfg, steps).trail[k] == OptedIn(c)
  {
    RunInv(cfg, steps);
    OptedInBetween(cfg, Run(cfg, steps).trail, c, i, j);
  }

  /** None reaches it between an escalation and the next resume or human outbound. */
  lemma EscalationIsKept(cfg: Config, steps: seq<Step>, c: Contact, i: nat, j: nat)
    requires NewDrafts(cfg, steps) && i < j < |Run(cfg, steps).trail|
    requires Run(cfg, steps).trail[i] == Escalated(c) && Autonomous(Run(cfg, steps).trail[j], c)
    ensures exists k :: i < k < j && Rearms(Run(cfg, steps).trail[k], c)
  {
    RunInv(cfg, steps);
    RearmedBetween(cfg, Run(cfg, steps).trail, c, i, j);
  }

  // ----- drafts

  /** At most one pending draft a contact; a draft is sent exactly when it was delivered, and once. */
  lemma DraftsOfARun(cfg: Config, steps: seq<Step>)
    requires NewDrafts(cfg, steps)
    ensures var s := Run(cfg, steps);
      && OnePending(s)
      && (forall d :: d in s.drafts && s.drafts[d].status == Sent <==>
            exists i :: 0 <= i < |s.trail| && s.trail[i].Delivered? && s.trail[i].draft == d)
      && (forall i, j :: 0 <= i < j < |s.trail| && s.trail[i].Delivered? && s.trail[j].Delivered? ==>
            s.trail[i].draft != s.trail[j].draft)
  {
    RunInv(cfg, steps);
    var s := Run(cfg, steps);
    forall i | 0 <= i < |s.trail| && s.trail[i].Delivered?
      ensures s.trail[i].draft in s.drafts && s.drafts[s.trail[i].draft].status == Sent
    {
      assert s.trail[i] in s.trail;
    }
    forall d | d in s.drafts && s.drafts[d].status == Sent
      ensures exists i :: 0 <= i < |s.trail| && s.trail[i].Delivered? && s.trail[i].draft == d
    {
      assert Delivered(s.drafts[d].contact, d, s.drafts[d].sentText, s.drafts[d].byAi, s.drafts[d].ref) in s.trail;
    }
  }

  /** The draft is there afterwards, as it was. */
  predicate Unchanged(s: State, t: State, d: DraftId)
    requires d in s.drafts
  {
    d in t.drafts && t.drafts[d] == s.drafts[d]
  }

  lemma FinishedThroughDrafting(cfg: Config, s: State, c: Contact, x: Drafting, d: DraftId)
    requires x.id !in s.drafts && d in s.drafts && s.drafts[d].status != Pending
    ensures Unchanged(s, DraftAndMaybeSend(cfg, s, c, x), d)
  {
  }

  lemma FinishedThroughReceived(cfg: Config, s: State, c: Contact, text: string, messageId: string, x: Drafting,
                                d: DraftId)
    requires x.id !in s.drafts && d in s.drafts && s.drafts[d].status != Pending
    ensures Unchanged(s, OnReceived(cfg, s, c, text, messageId, x), d)
  {
    var told := AppendMessage(s, c, Message(true, text, false, "", messageId));
    var checked := if text != "" && cfg.asksForHuman(text) then Freeze(told, c) else told;
    assert checked.drafts == s.drafts;
    FinishedThroughDrafting(cfg, checked, c, x, d);
  }

  lemma FinishedThroughReview(
    cfg: Config, s: State, id: DraftId, action: Action, gateway: Option<string>, now: int, d: DraftId)
    requires d in s.drafts && s.drafts[d].status != Pending
    ensures Unchanged(s, ReviewAction(cfg, s, id, action, gateway, now), d)
  {
  }

  /** Sent, discarded, expired and superseded drafts never change again, whatever the request. */
  lemma FinishedDraftsStay(cfg: Config, s: State, step: Step, d: DraftId)
    requires NewDraft(s, step) && d in s.drafts && s.drafts[d].status != Pending
    ensures d in Next(cfg, s, step).drafts && Next(cfg, s, step).drafts[d] == s.drafts[d]
  {
    match step
    case Received(c, text, messageId, x) => FinishedThroughReceived(cfg, s, c, text, messageId, x, d);
    case MissedCall(caller, y) => FinishedThroughDrafting(cfg, s, caller, y, d);
    case Review(draft, action, gateway, at) => FinishedThroughReview(cfg, s, draft, action, gateway, at, d);
    case _ =>
  }

  // ----- the clock gate

  /** The working window is the stretch of the day's circle from its start to its end. */
  lemma AfterHoursOnTheCircle(start: int, end: int, minutes: int)
    requires 0 <= start < 1440 && 0 <= end < 1440 && 0 <= minutes < 1440
    ensures InAfterHours(start, end, minutes) <==>
              start == end || (minutes - start) % 1440 >= (end - start) % 1440
  {
  }

  /** The gates treat a mode they do not know like the one that always sends. */
  lemma UnrecognisedIsFull(cfg: Config, s: State, c: Contact, env: Surroundings)
    requires s.mode == Unrecognised
    ensures AutoEligible(cfg, s, c, env) == AutoEligible(cfg, s.(mode := Full), c, env)
    ensures AutoEligible(cfg, s, c, env) == Eligible
       <==> c !in s.suppressed && Conv(s, c).frozen.None? && c !in cfg.vip
  {
    assert Conv(s.(mode := Full), c) == Conv(s, c);
  }
}
