/**
 * The text agent itself (modules/telephony/text-agent.py): StateStore and Autopilot as one object
 * whose methods rewrite its records in place. Each method is proved against AgentState.
 */
module TextAgent {
  import opened Wrappers
  import opened AgentState

  class Agent {
    const cfg: Config
    var conversations: map<Contact, Conversation>
    var drafts: map<DraftId, Draft>
    var suppressed: set<Contact>
    var mode: Mode
    var modeOverride: Option<Mode>
    var dnd: bool
    var vacation: bool
    var trail: seq<Event>

    function View(): State
      reads this
    {
      State(conversations, drafts, suppressed, mode, modeOverride, dnd, vacation, trail)
    }

    constructor (cfg: Config)
      ensures this.cfg == cfg && View() == Start(cfg)
    {
      this.cfg := cfg;
      conversations, drafts, suppressed := map[], map[], {};
      mode, modeOverride, dnd, vacation, trail := cfg.defaultMode, None, false, false, [];
    }

    function Conversation(c: Contact): Conversation
      reads this
    {
      Conv(View(), c)
    }

    // ----- store operations

    method AppendMessage(c: Contact, m: Message)
      modifies this`conversations, this`trail
      ensures View() == AgentState.AppendMessage(old(View()), c, m)
    {
      var data := Conversation(c);
      data := data.(messages := LastMessages(data.messages + [m]));
      if !m.inbound && !m.byAi {
        data := data.(consecutiveAuto := 0);
        if data.frozen.Some? { data := data.(frozen := None); }
        trail := trail + [HumanOutbound(c, m.text, m.ref)];
      } else if m.inbound {
        trail := trail + [Heard(c, m.text, m.messageId)];
      }
      conversations := conversations[c := data];
    }

    method MarkAutoSent(c: Contact)
      modifies this`conversations
      ensures View() == AgentState.MarkAutoSent(old(View()), c, cfg.maxAuto)
    {
      var data := Conversation(c);
      data := data.(consecutiveAuto := data.consecutiveAuto + 1);
      if data.consecutiveAuto >= cfg.maxAuto {
        data := data.(frozen := Some(KillSwitch(data.consecutiveAuto)));
      }
      conversations := conversations[c := data];
    }

    method Freeze(c: Contact)
      modifies this`conversations, this`trail
      ensures View() == AgentState.Freeze(old(View()), c)
    {
      conversations := conversations[c := Conversation(c).(frozen := Some(AskedForHuman))];
      trail := trail + [Escalated(c)];
    }

    method Resume(c: Contact)
      modifies this`conversations, this`trail
      ensures View() == AgentState.Resume(old(View()), c)
    {
      conversations := conversations[c := Conversation(c).(frozen := None, consecutiveAuto := 0)];
      trail := trail + [Resumed(c)];
    }

    method Suppress(c: Contact)
      modifies this`suppressed, this`trail
      ensures View() == AgentState.Suppress(old(View()), c)
    {
      suppressed, trail := suppressed + {c}, trail + [OptedOut(c)];
    }

    method Unsuppress(c: Contact) returns (reset: bool)
      modifies this`suppressed, this`trail
      ensures View() == AgentState.Unsuppress(old(View()), c) && reset == (c in old(suppressed))
    {
      reset := c in suppressed;
      if reset { suppressed, trail := suppressed - {c}, trail + [OptedIn(c)]; }
    }

    /** Writes the new draft, then walks the directory and retires the contact's older pending ones. */
    method CreateDraft(id: DraftId, born: Draft)
      modifies this`drafts
      ensures View() == old(View()).(drafts := Superseding(old(drafts), id, born))
    {
      ghost var before := drafts;
      drafts := drafts[id := born];
      var names := drafts.Keys - {id};
      while names != {}
        invariant names <= before.Keys - {id} && drafts.Keys == before.Keys + {id}
        invariant drafts[id] == born
        invariant forall d :: d in names ==> drafts[d] == before[d]
        invariant forall d :: d in before && d != id && d !in names ==> drafts[d] == Superseding(before, id, born)[d]
      {
        var d :| d in names;
        if drafts[d].status == Pending && drafts[d].contact == born.contact {
          drafts := drafts[d := drafts[d].(status := Superseded)];
        }
        names := names - {d};
      }
      assert drafts == Superseding(before, id, born);
    }

    method SweepExpiredDrafts(cutoff: int)
      modifies this`drafts
      ensures View() == old(View()).(drafts := Expiring(old(drafts), cutoff))
    {
      ghost var before := drafts;
      var names := drafts.Keys;
      while names != {}
        invariant names <= before.Keys && drafts.Keys == before.Keys
        invariant forall d :: d in names ==> drafts[d] == before[d]
        invariant forall d :: d in before && d !in names ==> drafts[d] == Expiring(before, cutoff)[d]
      {
        var d :| d in names;
        if drafts[d].status == Pending && drafts[d].touched < cutoff {
          drafts := drafts[d := drafts[d].(status := Expired)];
        }
        names := names - {d};
      }
      assert drafts == Expiring(before, cutoff);
    }

    // ----- the autopilot

    method SetMode(wanted: Mode) returns (accepted: bool)
      modifies this`mode, this`modeOverride
      ensures accepted == (wanted != Unrecognised)
      ensures View() == if accepted then old(View()).(mode := wanted, modeOverride := Some(wanted)) else old(View())
    {
      accepted := wanted != Unrecognised;
      if accepted { mode, modeOverride := wanted, Some(wanted); }
    }

    method ResetMode()
      modifies this`mode, this`modeOverride
      ensures View() == old(View()).(mode := cfg.defaultMode, modeOverride := None)
    {
      mode, modeOverride := cfg.defaultMode, None;
    }

    method SetPresence(dnd: bool, vacation: bool)
      modifies this`dnd, this`vacation
      ensures View() == old(View()).(dnd := dnd, vacation := vacation)
    {
      this.dnd, this.vacation := dnd, vacation;
    }

    method SendDraft(id: DraftId, text: string, byAi: bool, gateway: Option<string>, now: int)
      requires id in drafts
      modifies this
      ensures View() == AgentState.SendDraft(cfg, old(View()), id, text, byAi, gateway, now)
    {
      var d := drafts[id];
      if gateway.None? {
        drafts := drafts[id := d.(status := Pending, touched := now)];
        return;
      }
      trail := trail + [Delivered(d.contact, id, text, byAi, gateway.value)];
      drafts := drafts[id := d.(status := Sent, sentText := text, byAi := byAi, ref := gateway.value, touched := now)];
      AppendMessage(d.contact, Message(false, text, byAi, gateway.value, ""));
      if byAi { MarkAutoSent(d.contact); }
    }

    method GenerateDraft(c: Contact, reply: Option<Reply>, id: DraftId, now: int) returns (ok: bool)
      modifies this`drafts
      ensures (if ok then Some(View()) else None) == AgentState.GenerateDraft(cfg, old(View()), c, reply, id, now)
      ensures !ok ==> View() == old(View())
      ensures ok ==> id in drafts
    {
      if cfg.placeholderKey || reply.None? { return false; }
      CreateDraft(id, Draft(c, reply.value.text, reply.value.confidence, Pending, "", false, "", now));
      return true;
    }

    method DraftAndMaybeSend(c: Contact, x: Drafting)
      modifies this
      ensures View() == AgentState.DraftAndMaybeSend(cfg, old(View()), c, x)
    {
      var ok := GenerateDraft(c, x.reply, x.id, x.now);
      if !ok { return; }
      var d := drafts[x.id];
      if AutoEligible(cfg, View(), d.contact, x.env) != Eligible { return; }
      if d.confidence < cfg.threshold { return; }
      SendDraft(x.id, Signed(cfg, d.text), true, x.gateway, x.now);
    }

    method HandleInbound(c: Contact, text: string, x: Drafting)
      modifies this
      ensures View() == AgentState.HandleInbound(cfg, old(View()), c, text, x)
    {
      var verdict := cfg.optOut(text);
      if verdict == Raises { return; }
      if verdict == Keyword { Suppress(c); return; }
      if c in suppressed || mode == Off { return; }
      DraftAndMaybeSend(c, x);
    }

    method HandleMissedCall(c: Contact, x: Drafting)
      modifies this
      ensures View() == AgentState.HandleMissedCall(cfg, old(View()), c, x)
    {
      if c == "" || c in suppressed || mode == Off { return; }
      DraftAndMaybeSend(c, x);
    }

    method OnReceived(c: Contact, text: string, messageId: string, x: Drafting)
      modifies this
      ensures View() == AgentState.OnReceived(cfg, old(View()), c, text, messageId, x)
    {
      if c == "" || (messageId != "" && Known(View(), c, messageId)) { return; }
      AppendMessage(c, Message(true, text, false, "", messageId));
      if text != "" && cfg.asksForHuman(text) { Freeze(c); }
      HandleInbound(c, text, x);
    }

    method OnDelivery(kind: Webhook, sender: Contact, c: Contact, ref: string, text: string)
      modifies this
      ensures View() == AgentState.OnDelivery(cfg, old(View()), kind, sender, c, ref, text)
    {
      if c == "" || (cfg.ownDid != "" && sender != cfg.ownDid) { return; }
      if kind == MessageSent && KnownReference(View(), ref) { return; }
      if Recorded(View(), c, ref) { return; }
      AppendMessage(c, Message(false, text, false, ref, ""));
    }

    method ReviewAction(id: DraftId, action: Action, gateway: Option<string>, now: int)
      modifies this
      ensures View() == AgentState.ReviewAction(cfg, old(View()), id, action, gateway, now)
    {
      if id !in drafts || drafts[id].status != Pending { return; }
      var d := drafts[id];
      match action
      case Discard =>
        drafts := drafts[id := d.(status := Discarded, touched := now)];
      case Approve(given) =>
        var text := Strip(if given != "" then given else d.text);
        if text != "" { SendDraft(id, text, false, gateway, now); }
      case Edit(given) =>
        var text := Strip(given);
        if text != "" { drafts := drafts[id := d.(text := text, touched := now)]; }
    }
  }
}
