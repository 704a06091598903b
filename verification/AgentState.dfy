/**
 * The derived state of the supervised text agent (modules/telephony/text-agent.py) and what each
 * of its operations makes of it: conversations, drafts, suppression, mode and presence, with the
 * trail of everything that reached a contact or re-armed the autopilot.
 */
module AgentState {
  import opened Wrappers
  import JsonExtract

  type Contact = string
  type DraftId = string

  /** An unrecognised default mode is possible: the environment value is never checked. */
  datatype Mode = Off | Drafts | AfterHours | Full | Unrecognised

  datatype Message = Message(inbound: bool, text: string, byAi: bool, ref: string, messageId: string)

  datatype FreezeReason = KillSwitch(sends: int) | AskedForHuman

  datatype Conversation = Conversation(messages: seq<Message>, consecutiveAuto: int, frozen: Option<FreezeReason>)

  datatype Status = Pending | Sent | Discarded | Expired | Superseded

  datatype Draft = Draft(contact: Contact, text: string, confidence: int, status: Status,
                         sentText: string, byAi: bool, ref: string, touched: int)

  /**
   * What happened to contacts, in order. Delivered is a send the bridge accepted, HumanOutbound a
   * message recorded as a person's, Heard a message of the contact's own.
   */
  datatype Event =
    | Delivered(contact: Contact, draft: DraftId, text: string, byAi: bool, ref: string)
    | HumanOutbound(contact: Contact, text: string, ref: string)
    | Heard(contact: Contact, text: string, messageId: string)
    | Resumed(contact: Contact)
    | OptedOut(contact: Contact)
    | OptedIn(contact: Contact)
    | Escalated(contact: Contact)

  datatype State = State(conversations: map<Contact, Conversation>, drafts: map<DraftId, Draft>,
                         suppressed: set<Contact>, mode: Mode, modeOverride: Option<Mode>,
                         dnd: bool, vacation: bool, trail: seq<Event>)

  /** The opt-out test on a message; it raises on a text of nothing but whitespace. */
  datatype OptOut = NoKeyword | Keyword | Raises

  datatype Config = Config(maxAuto: int, vip: set<Contact>, threshold: int, signature: string, defaultMode: Mode,
                           workingStart: int, workingEnd: int, ownDid: Contact, placeholderKey: bool,
                           optOut: string -> OptOut, asksForHuman: string -> bool)

  /** What a request finds outside the store when it checks the gates. */
  datatype Surroundings = Surroundings(minutes: int, ownerAtDesk: bool, busy: bool)

  /** A model reply. */
  datatype Reply = Reply(text: string, confidence: int)

  const TAIL := 50

  function Start(cfg: Config): State {
    State(map[], map[], {}, cfg.defaultMode, None, false, false, [])
  }

  // ----- conversations

  function Conv(s: State, c: Contact): Conversation {
    if c in s.conversations then s.conversations[c] else Conversation([], 0, None)
  }

  function LastMessages(ms: seq<Message>): seq<Message> {
    if |ms| <= TAIL then ms else ms[|ms| - TAIL..]
  }

  function Human(m: Message): bool { !m.inbound && !m.byAi }

  function AppendMessage(s: State, c: Contact, m: Message): State {
    var v := Conv(s, c);
    var ms := LastMessages(v.messages + [m]);
    if Human(m) then
      s.(conversations := s.conversations[c := Conversation(ms, 0, None)],
         trail := s.trail + [HumanOutbound(c, m.text, m.ref)])
    else
      s.(conversations := s.conversations[c := v.(messages := ms)],
         trail := if m.inbound then s.trail + [Heard(c, m.text, m.messageId)] else s.trail)
  }

  function MarkAutoSent(s: State, c: Contact, maxAuto: int): State {
    var v := Conv(s, c);
    var n := v.consecutiveAuto + 1;
    var frozen := if n >= maxAuto then Some(KillSwitch(n)) else v.frozen;
    s.(conversations := s.conversations[c := v.(consecutiveAuto := n, frozen := frozen)])
  }

  function Freeze(s: State, c: Contact): State {
    s.(conversations := s.conversations[c := Conv(s, c).(frozen := Some(AskedForHuman))],
       trail := s.trail + [Escalated(c)])
  }

  function Resume(s: State, c: Contact): State {
    s.(conversations := s.conversations[c := Conv(s, c).(frozen := None, consecutiveAuto := 0)],
       trail := s.trail + [Resumed(c)])
  }

  // ----- suppression

  function Suppress(s: State, c: Contact): State {
    s.(suppressed := s.suppressed + {c}, trail := s.trail + [OptedOut(c)])
  }

  function Unsuppress(s: State, c: Contact): State {
    if c in s.suppressed then s.(suppressed := s.suppressed - {c}, trail := s.trail + [OptedIn(c)]) else s
  }

  // ----- drafts

  function Superseding(drafts: map<DraftId, Draft>, id: DraftId, born: Draft): map<DraftId, Draft> {
    map d | d in drafts.Keys + {id} ::
      if d == id then born
      else if drafts[d].status == Pending && drafts[d].contact == born.contact then drafts[d].(status := Superseded)
      else drafts[d]
  }

  function Expiring(drafts: map<DraftId, Draft>, cutoff: int): map<DraftId, Draft> {
    map d | d in drafts ::
      if drafts[d].status == Pending && drafts[d].touched < cutoff then drafts[d].(status := Expired) else drafts[d]
  }

  /** None when the model call fails; the draft supersedes the contact's pending one. */
  function GenerateDraft(cfg: Config, s: State, c: Contact, reply: Option<Reply>, id: DraftId,
                         now: int): Option<State> {
    if cfg.placeholderKey || reply.None? then None
    else Some(s.(drafts := Superseding(s.drafts, id,
                                       Draft(c, reply.value.text, reply.value.confidence, Pending, "", false, "",
                                             now))))
  }

  // ----- the gates

  datatype Gate = Eligible | ModeNeverSends | ContactOptedOut | ConversationFrozen | VipContact | OwnerAtDesk
      | WorkingHours

  function InAfterHours(start: int, end: int, minutes: int): bool {
    if start == end then true
    else if start < end then !(start <= minutes < end)
    else !(minutes >= start || minutes < end)
  }

  function AutoEligible(cfg: Config, s: State, c: Contact, env: Surroundings): Gate {
    if s.mode == Off || s.mode == Drafts then ModeNeverSends
    else if c in s.suppressed then ContactOptedOut
    else if Conv(s, c).frozen.Some? then ConversationFrozen
    else if c in cfg.vip then VipContact
    else if s.mode == AfterHours then
      var away := env.busy || s.dnd || s.vacation;
      if env.ownerAtDesk && !away then OwnerAtDesk
      else if !(InAfterHours(cfg.workingStart, cfg.workingEnd, env.minutes) || away) then WorkingHours
      else Eligible
    else Eligible
  }

  // ----- sending

  predicate Contains(text: string, part: string) {
    exists i :: 0 <= i <= |text| && part <= text[i..]
  }

  function Signed(cfg: Config, text: string): string {
    if cfg.signature != "" && !Contains(text, cfg.signature) then text + "\n" + cfg.signature else text
  }

  /** `gateway` is what the bridge answers: a reference, or a refusal. */
  function SendDraft(cfg: Config, s: State, id: DraftId, text: string, byAi: bool, gateway: Option<string>,
                     now: int): State
    requires id in s.drafts
  {
    var d := s.drafts[id];
    match gateway
    case None => s.(drafts := s.drafts[id := d.(status := Pending, touched := now)])
    case Some(ref) =>
      var c := d.contact;
      var sent :=
          s.(drafts := s.drafts[id := d.(status := Sent, sentText := text, byAi := byAi, ref := ref, touched := now)],
                     trail := s.trail + [Delivered(c, id, text, byAi, ref)]);
      var told := AppendMessage(sent, c, Message(false, text, byAi, ref, ""));
      if byAi then MarkAutoSent(told, c, cfg.maxAuto) else told
  }

  function MaybeSend(cfg: Config, s: State, id: DraftId, env: Surroundings, gateway: Option<string>, now: int): State
    requires id in s.drafts
  {
    var d := s.drafts[id];
    if AutoEligible(cfg, s, d.contact, env) != Eligible then s
    else if d.confidence < cfg.threshold then s
    else SendDraft(cfg, s, id, Signed(cfg, d.text), true, gateway, now)
  }

  /** Everything a drafting request takes from outside. */
  datatype Drafting = Drafting(reply: Option<Reply>, id: DraftId, env: Surroundings, gateway: Option<string>, now: int)

  function DraftAndMaybeSend(cfg: Config, s: State, c: Contact, x: Drafting): State {
    match GenerateDraft(cfg, s, c, x.reply, x.id, x.now)
    case None => s
    case Some(t) => MaybeSend(cfg, t, x.id, x.env, x.gateway, x.now)
  }

  // ----- requests

  function HandleInbound(cfg: Config, s: State, c: Contact, text: string, x: Drafting): State {
    match cfg.optOut(text)
    case Raises => s
    case Keyword => Suppress(s, c)
    case NoKeyword =>
      if c in s.suppressed || s.mode == Off then s else DraftAndMaybeSend(cfg, s, c, x)
  }

  function HandleMissedCall(cfg: Config, s: State, c: Contact, x: Drafting): State {
    if c == "" || c in s.suppressed || s.mode == Off then s else DraftAndMaybeSend(cfg, s, c, x)
  }

  predicate Known(s: State, c: Contact, messageId: string) {
    exists i :: 0 <= i < |Conv(s, c).messages| && Conv(s, c).messages[i].messageId == messageId
  }

  function OnReceived(cfg: Config, s: State, c: Contact, text: string, messageId: string, x: Drafting): State {
    if c == "" || (messageId != "" && Known(s, c, messageId)) then s
    else
      var told := AppendMessage(s, c, Message(true, text, false, "", messageId));
      var checked := if text != "" && cfg.asksForHuman(text) then Freeze(told, c) else told;
      HandleInbound(cfg, checked, c, text, x)
  }

  /** message.sent is one of the three delivery webhooks; the other two share their handling. */
  datatype Webhook = MessageSent | MessageFinalizedOrUpdated

  predicate KnownReference(s: State, ref: string) {
    ref != "" && exists d :: d in s.drafts && s.drafts[d].status == Sent && s.drafts[d].ref == ref
  }

  predicate Recorded(s: State, c: Contact, ref: string) {
    ref != "" && exists i :: 0 <= i < |Conv(s, c).messages| && Conv(s, c).messages[i].ref == ref
  }

  /** The guards under which a delivery webhook is dropped. */
  predicate Ignored(cfg: Config, s: State, kind: Webhook, sender: Contact, c: Contact, ref: string) {
    || c == "" || (cfg.ownDid != "" && sender != cfg.ownDid)
    || (kind == MessageSent && KnownReference(s, ref))
    || Recorded(s, c, ref)
  }

  function OnDelivery(cfg: Config, s: State, kind: Webhook, sender: Contact, c: Contact, ref: string,
                      text: string): State {
    if Ignored(cfg, s, kind, sender, c, ref) then s
    else AppendMessage(s, c, Message(false, text, false, ref, ""))
  }

  function Strip(t: string): string { JsonExtract.StripRight(JsonExtract.StripLeft(t)) }

  datatype Action = Approve(text: string) | Edit(text: string) | Discard

  /** An action on a draft that is missing, no longer pending, or left without text changes nothing. */
  function ReviewAction(cfg: Config, s: State, id: DraftId, action: Action, gateway: Option<string>, now: int): State {
    if id !in s.drafts || s.drafts[id].status != Pending then s
    else
      var d := s.drafts[id];
      match action
      case Discard => s.(drafts := s.drafts[id := d.(status := Discarded, touched := now)])
      case Approve(given) =>
        var text := Strip(if given != "" then given else d.text);
        if text == "" then s else SendDraft(cfg, s, id, text, false, gateway, now)
      case Edit(given) =>
        var text := Strip(given);
        if text == "" then s else s.(drafts := s.drafts[id := d.(text := text, touched := now)])
  }

  /** One whole request, as the review API, the log tailer, the event socket and the sweeper issue them. */
  datatype Step =
    | Received(c: Contact, text: string, messageId: string, x: Drafting)
    | Delivery(kind: Webhook, sender: Contact, to: Contact, ref: string, body: string)
    | MissedCall(caller: Contact, y: Drafting)
    | OnDemand(whom: Contact, reply: Option<Reply>, id: DraftId, now: int)
    | Review(draft: DraftId, action: Action, gateway: Option<string>, at: int)
    | Sweep(cutoff: int)
    | ResumeConversation(who: Contact)
    | ResetSuppression(contact: Contact)
    | SetMode(wanted: Mode)
    | ResetMode
    | SetPresence(dnd: bool, vacation: bool)

  function Next(cfg: Config, s: State, step: Step): State {
    match step
    case Received(c, text, messageId, x) => OnReceived(cfg, s, c, text, messageId, x)
    case Delivery(kind, sender, to, ref, body) => OnDelivery(cfg, s, kind, sender, to, ref, body)
    case MissedCall(caller, y) => HandleMissedCall(cfg, s, caller, y)
    case OnDemand(whom, reply, id, now) =>
      if whom == "" then s
      else (match GenerateDraft(cfg, s, whom, reply, id, now)
            case None => s
            case Some(t) => t)
    case Review(draft, action, gateway, at) => ReviewAction(cfg, s, draft, action, gateway, at)
    case Sweep(cutoff) => s.(drafts := Expiring(s.drafts, cutoff))
    case ResumeConversation(who) => Resume(s, who)
    case ResetSuppression(contact) => Unsuppress(s, contact)
    case SetMode(wanted) => if wanted == Unrecognised then s else s.(mode := wanted, modeOverride := Some(wanted))
    case ResetMode => s.(mode := cfg.defaultMode, modeOverride := None)
    case SetPresence(dnd, vacation) => s.(dnd := dnd, vacation := vacation)
  }

  /** The draft identifier a step would use is not taken. */
  predicate NewDraft(s: State, step: Step) {
    match step
    case Received(_, _, _, x) => x.id !in s.drafts
    case MissedCall(_, y) => y.id !in s.drafts
    case OnDemand(_, _, id, _) => id !in s.drafts
    case _ => true
  }

  function Run(cfg: Config, steps: seq<Step>): State {
    if steps == [] then Start(cfg) else Next(cfg, Run(cfg, steps[..|steps| - 1]), steps[|steps| - 1])
  }

  /** Draft identifiers are hashes of a nanosecond clock; a run in which none repeats. */
  predicate NewDrafts(cfg: Config, steps: seq<Step>) {
    forall i :: 0 <= i < |steps| ==> NewDraft(Run(cfg, steps[..i]), steps[i])
  }
}
