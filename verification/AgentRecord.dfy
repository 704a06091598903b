/**
 * What the supervised text agent remembers of its messages, over any run of whole requests, and what
 * that means for the delivery webhooks of its own sends (modules/telephony/text-agent.py).
 */
module AgentRecord {
  import opened Wrappers
  import opened AgentState
  import opened AgentSafety

  // ----- the agent's own delivery webhooks

  /** A delivery webhook changes nothing exactly when it is not the agent's, or is known; else it re-arms. */
  lemma DeliveryIgnoredExactly(cfg: Config, s: State, kind: Webhook, sender: Contact, c: Contact, ref: string,
                               text: string)
    ensures OnDelivery(cfg, s, kind, sender, c, ref, text) == s
       <==> || c == "" || (cfg.ownDid != "" && sender != cfg.ownDid)
            || (kind == MessageSent && ref != ""
                && exists d :: d in s.drafts && s.drafts[d].status == Sent && s.drafts[d].ref == ref)
            || (ref != "" && exists m :: m in Conv(s, c).messages && m.ref == ref)
    ensures var t := OnDelivery(cfg, s, kind, sender, c, ref, text);
            t == s || (t.trail == s.trail + [HumanOutbound(c, text, ref)] && Conv(t, c).consecutiveAuto == 0
                       && Conv(t, c).frozen == None)
  {
    var ms := Conv(s, c).messages;
    assert forall i :: 0 <= i < |ms| ==> ms[i] in ms;
    if !Ignored(cfg, s, kind, sender, c, ref) {
      assert |OnDelivery(cfg, s, kind, sender, c, ref, text).trail| == |s.trail| + 1;
    }
  }

  /** The reference on the trail is the one the sent draft still carries. */
  lemma DeliveredDraftKeepsReference(cfg: Config, steps: seq<Step>, e: Event)
    requires NewDrafts(cfg, steps) && e in Run(cfg, steps).trail && e.Delivered?
    ensures var s := Run(cfg, steps);
            e.draft in s.drafts && s.drafts[e.draft].status == Sent && s.drafts[e.draft].ref == e.ref
            && s.drafts[e.draft].contact == e.contact && s.drafts[e.draft].sentText == e.text
  {
    RunInv(cfg, steps);
    var s := Run(cfg, steps);
    var d := s.drafts[e.draft];
    var f := Delivered(d.contact, e.draft, d.sentText, d.byAi, d.ref);
    assert f in s.trail;
    var i :| 0 <= i < |s.trail| && s.trail[i] == e;
    var j :| 0 <= j < |s.trail| && s.trail[j] == f;
    assert i == j;
  }

  // ----- the messages on record are the last fifty of the trail

  /** The messages that the events of a trail put on the contact's record. */
  function Record(t: seq<Event>, c: Contact): seq<Message> {
    if t == [] then [] else Record(t[..|t| - 1], c) + MessagesOf(t[|t| - 1], c)
  }

  /** A person's send is on the trail twice: as delivered, and as recorded. */
  function MessagesOf(e: Event, c: Contact): seq<Message> {
    match e
    case Delivered(to, _, text, byAi, ref) => if byAi && to == c then [Message(false, text, true, ref, "")] else []
    case HumanOutbound(to, text, ref) => if to == c then [Message(false, text, false, ref, "")] else []
    case Heard(from, text, messageId) => if from == c then [Message(true, text, false, "", messageId)] else []
    case _ => []
  }

  function LastFifty(ms: seq<Message>): seq<Message> { if |ms| <= 50 then ms else ms[|ms| - 50..] }

  predicate Remembers(s: State, c: Contact) { Conv(s, c).messages == LastFifty(Record(s.trail, c)) }

  ghost predicate Remembered(s: State) { forall c :: Remembers(s, c) }

  /** Among the last fifty messages of the contact is one with the reference. */
  ghost predicate Recent(t: seq<Event>, c: Contact, ref: string) {
    exists m :: m in LastFifty(Record(t, c)) && m.ref == ref
  }

  lemma LastAgain(ms: seq<Message>, m: Message)
    ensures LastMessages(LastFifty(ms) + [m]) == LastFifty(ms + [m])
  {
  }

  /** One more message, and one more reference to go with it. */
  lemma OneMoreMessage(s: State, t: State, c: Contact, m: Message)
    requires Remembers(s, c) && Conv(t, c).messages == LastMessages(Conv(s, c).messages + [m])
    requires Record(t.trail, c) == Record(s.trail, c) + [m]
    ensures Remembers(t, c)
  {
    LastAgain(Record(s.trail, c), m);
  }

  lemma RecordGrows(t: seq<Event>, e: Event, c: Contact)
    ensures Record(t + [e], c) == Record(t, c) + MessagesOf(e, c)
  {
    Extend(t, e);
  }

  /** One event and one message with its reference, both of contact `c`. */
  lemma RememberOne(s: State, t: State, c: Contact, m: Message, e: Event, x: Contact)
    requires Remembers(s, x) && t.trail == s.trail + [e] && MessagesOf(e, x) == if x == c then [m] else []
    requires Conv(t, x).messages == if x == c then LastMessages(Conv(s, x).messages + [m]) else Conv(s, x).messages
    ensures Remembers(t, x)
  {
    RecordGrows(s.trail, e, x);
    if x == c { OneMoreMessage(s, t, c, m); }
  }

  /** A record of the contact's own, or of a person's. */
  lemma RememberAppend(s: State, c: Contact, m: Message)
    requires Remembered(s) && !m.byAi && if m.inbound then m.ref == "" else m.messageId == ""
    ensures Remembered(AppendMessage(s, c, m))
  {
    var t := AppendMessage(s, c, m);
    var e := if m.inbound then Heard(c, m.text, m.messageId) else HumanOutbound(c, m.text, m.ref);
    forall x ensures Remembers(t, x) {
      assert Remembers(s, x);
      RememberOne(s, t, c, m, e, x);
    }
  }

  lemma RememberNone(s: State, t: State, e: Event, x: Contact)
    requires Remembers(s, x) && Conv(t, x).messages == Conv(s, x).messages
    requires t.trail == s.trail + [e] && MessagesOf(e, x) == []
    ensures Remembers(t, x)
  {
    RecordGrows(s.trail, e, x);
    assert Record(s.trail, x) + [] == Record(s.trail, x);
  }

  /** No message, and an event at most that records none. */
  lemma RememberQuiet(s: State, t: State)
    requires Remembered(s) && forall x :: Conv(t, x).messages == Conv(s, x).messages
    requires t.trail == s.trail || (|t.trail| == |s.trail| + 1 && t.trail[..|s.trail|] == s.trail
                                    && forall x :: MessagesOf(t.trail[|s.trail|], x) == [])
    ensures Remembered(t)
  {
    forall x ensures Remembers(t, x) {
      assert Remembers(s, x);
      if t.trail != s.trail {
        var e := t.trail[|s.trail|];
        assert t.trail == s.trail + [e] && MessagesOf(e, x) == [];
        RememberNone(s, t, e, x);
      }
    }
  }

  lemma RememberAutoSend(cfg: Config, s: State, id: DraftId, text: string, ref: string, now: int)
    requires Remembered(s) && id in s.drafts
    ensures Remembered(SendDraft(cfg, s, id, text, true, Some(ref), now))
  {
    var c, t := s.drafts[id].contact, SendDraft(cfg, s, id, text, true, Some(ref), now);
    var e := Delivered(c, id, text, true, ref);
    forall x ensures Remembers(t, x) {
      assert Remembers(s, x);
      RememberOne(s, t, c, Message(false, text, true, ref, ""), e, x);
    }
  }

  lemma RememberHumanSend(cfg: Config, s: State, id: DraftId, text: string, ref: string, now: int)
    requires Remembered(s) && id in s.drafts
    ensures Remembered(SendDraft(cfg, s, id, text, false, Some(ref), now))
  {
    var d := s.drafts[id];
    var sent :=
        s.(drafts := s.drafts[id := d.(status := Sent, sentText := text, byAi := false, ref := ref, touched := now)],
                   trail := s.trail + [Delivered(d.contact, id, text, false, ref)]);
    RememberQuiet(s, sent);
    RememberAppend(sent, d.contact, Message(false, text, false, ref, ""));
  }

  lemma RememberDrafting(cfg: Config, s: State, c: Contact, x: Drafting)
    requires Remembered(s)
    ensures Remembered(DraftAndMaybeSend(cfg, s, c, x))
  {
    var g := GenerateDraft(cfg, s, c, x.reply, x.id, x.now);
    if g.Some? {
      RememberQuiet(s, g.value);
      var text := Signed(cfg, g.value.drafts[x.id].text);
      match x.gateway
      case None => RememberQuiet(g.value, SendDraft(cfg, g.value, x.id, text, true, None, x.now));
      case Some(ref) => RememberAutoSend(cfg, g.value, x.id, text, ref, x.now);
    }
  }

  lemma RememberInbound(cfg: Config, s: State, c: Contact, text: string, x: Drafting)
    requires Remembered(s)
    ensures Remembered(HandleInbound(cfg, s, c, text, x))
  {
    match cfg.optOut(text)
    case Raises =>
    case Keyword => RememberQuiet(s, Suppress(s, c));
    case NoKeyword => if !(c in s.suppressed || s.mode == Off) { RememberDrafting(cfg, s, c, x); }
  }

  lemma RememberFreeze(s: State, c: Contact)
    requires Remembered(s)
    ensures Remembered(Freeze(s, c))
  {
    RememberQuiet(s, Freeze(s, c));
  }

  lemma RememberReceived(cfg: Config, s: State, c: Contact, text: string, messageId: string, x: Drafting)
    requires Remembered(s)
    ensures Remembered(OnReceived(cfg, s, c, text, messageId, x))
  {
    if !(c == "" || (messageId != "" && Known(s, c, messageId))) {
      var m := Message(true, text, false, "", messageId);
      var told := AppendMessage(s, c, m);
      RememberAppend(s, c, m);
      RememberFreeze(told, c);
      RememberInbound(cfg, if text != "" && cfg.asksForHuman(text) then Freeze(told, c) else told, c, text, x);
    }
  }

  lemma RememberReview(cfg: Config, s: State, id: DraftId, action: Action, gateway: Option<string>, now: int)
    requires Remembered(s)
    ensures Remembered(ReviewAction(cfg, s, id, action, gateway, now))
  {
    if id in s.drafts && s.drafts[id].status == Pending {
      match action
      case Approve(given) =>
        var text := Strip(if given != "" then given else s.drafts[id].text);
        if gateway.None? {
          RememberQuiet(s, SendDraft(cfg, s, id, text, false, None, now));
        } else {
          RememberHumanSend(cfg, s, id, text, gateway.value, now);
        }
      case _ => RememberQuiet(s, ReviewAction(cfg, s, id, action, gateway, now));
    }
  }

  lemma RememberStep(cfg: Config, s: State, step: Step)
    requires Remembered(s)
    ensures Remembered(Next(cfg, s, step))
  {
    match step
    case Received(c, text, messageId, x) => RememberReceived(cfg, s, c, text, messageId, x);
    case Delivery(kind, sender, to, ref, body) =>
      if !Ignored(cfg, s, kind, sender, to, ref) { RememberAppend(s, to, Message(false, body, false, ref, "")); }
    case MissedCall(caller, y) => RememberDrafting(cfg, s, caller, y);
    case Review(draft, action, gateway, at) => RememberReview(cfg, s, draft, action, gateway, at);
    case _ => RememberQuiet(s, Next(cfg, s, step));
  }

  lemma {:induction false} RunRemembers(cfg: Config, steps: seq<Step>)
    ensures Remembered(Run(cfg, steps))
    decreases |steps|
  {
    if steps != [] {
      RunRemembers(cfg, steps[..|steps| - 1]);
      RememberStep(cfg, Run(cfg, steps[..|steps| - 1]), steps[|steps| - 1]);
    }
  }

  /** In every state a run can reach, a reference is on record exactly when it is among the last fifty. */
  lemma RecordedExactly(cfg: Config, steps: seq<Step>, c: Contact, ref: string)
    ensures var s := Run(cfg, steps);
            Recorded(s, c, ref) <==> ref != "" && Recent(s.trail, c, ref)
  {
    RunRemembers(cfg, steps);
    var s := Run(cfg, steps);
    assert Remembers(s, c);
    var ms := Conv(s, c).messages;
    if i :| 0 <= i < |ms| && ms[i].ref == ref { assert ms[i] in ms; }
  }

  lemma {:induction false} RecordFrom(t: seq<Event>, i: nat, c: Contact)
    requires i <= |t|
    ensures Record(t, c) == Record(t[..i], c) + Record(t[i..], c)
    decreases |t|
  {
    if i < |t| {
      var u, v := t[..|t| - 1], t[i..];
      RecordFrom(u, i, c);
      assert u[..i] == t[..i] && v[..|v| - 1] == u[i..] && v[|v| - 1] == t[|t| - 1];
    } else {
      assert t[..i] == t && t[i..] == [];
    }
  }

  lemma RecordAround(t: seq<Event>, i: nat, c: Contact)
    requires i < |t|
    ensures Record(t, c) == Record(t[..i], c) + MessagesOf(t[i], c) + Record(t[i + 1..], c)
  {
    RecordFrom(t, i + 1, c);
    assert t[..i + 1] == t[..i] + [t[i]];
    RecordGrows(t[..i], t[i], c);
  }

  /** What was sent with fewer than fifty messages since is among the last fifty. */
  lemma StillAmongLast(t: seq<Event>, i: nat, c: Contact)
    requires i < |t| && Autonomous(t[i], c) && |Record(t[i + 1..], c)| < 50
    ensures Recent(t, c, t[i].ref)
  {
    RecordAround(t, i, c);
    InLast(Record(t[..i], c), Message(false, t[i].text, true, t[i].ref, ""), Record(t[i + 1..], c));
  }

  lemma InLast(before: seq<Message>, m: Message, since: seq<Message>)
    requires |since| < 50
    ensures m in LastFifty(before + [m] + since)
  {
    var ms := before + [m] + since;
    var last := LastFifty(ms);
    assert last[|last| - 1 - |since|] == ms[|before|] == m;
  }

  /**
   * A webhook of a completed autonomous send changes nothing, and so never re-arms the agent, exactly
   * when it is message.sent, or comes from elsewhere, or finds the reference among the contact's last fifty.
   */
  lemma OwnWebhookIsIgnored(cfg: Config, steps: seq<Step>, i: nat, kind: Webhook, sender: Contact, text: string)
    requires NewDrafts(cfg, steps) && i < |Run(cfg, steps).trail|
    requires var e := Run(cfg, steps).trail[i]; e.Delivered? && e.byAi && e.ref != ""
    ensures var s, e := Run(cfg, steps), Run(cfg, steps).trail[i];
            OnDelivery(cfg, s, kind, sender, e.contact, e.ref, text) == s
            <==> e.contact == "" || (cfg.ownDid != "" && sender != cfg.ownDid) || kind == MessageSent
                 || Recent(s.trail, e.contact, e.ref)
  {
    var s := Run(cfg, steps);
    var e := s.trail[i];
    RunInv(cfg, steps);
    DeliveredDraftKeepsReference(cfg, steps, e);
    assert KnownReference(s, e.ref);
    RecordedExactly(cfg, steps, e.contact, e.ref);
    DeliveryIgnoredExactly(cfg, s, kind, sender, e.contact, e.ref, text);
  }

  /**
   * So, whatever requests follow a completed autonomous send: while fewer than fifty messages of that
   * contact have come since, the message is on record and all three webhooks change nothing.
   */
  lemma OwnWebhooksAreHarmless(cfg: Config, steps: seq<Step>, i: nat)
    requires NewDrafts(cfg, steps) && i < |Run(cfg, steps).trail|
    requires var e := Run(cfg, steps).trail[i]; e.Delivered? && e.byAi && e.ref != ""
    requires |Record(Run(cfg, steps).trail[i + 1..], Run(cfg, steps).trail[i].contact)| < 50
    ensures Recorded(Run(cfg, steps), Run(cfg, steps).trail[i].contact, Run(cfg, steps).trail[i].ref)
    ensures var s, e := Run(cfg, steps), Run(cfg, steps).trail[i];
            forall kind, sender, text :: OnDelivery(cfg, s, kind, sender, e.contact, e.ref, text) == s
  {
    var s := Run(cfg, steps);
    var e := s.trail[i];
    StillAmongLast(s.trail, i, e.contact);
    RecordedExactly(cfg, steps, e.contact, e.ref);
  }
}
