/**
 * Several threads of the text agent sending at once (modules/telephony/text-agent.py): the log
 * tailer answers messages while the event-socket listener answers missed calls. Each store
 * operation is atomic under the store's lock; checking the gates, sending, recording and marking
 * are separate steps, and any other request may run between them.
 */
module SendRace {
  import opened Wrappers
  import opened AgentState
  import opened AgentSafety

  type Thread = nat

  /** How far a thread has got with one autonomous send. */
  datatype Pc =
    | Idle
    | Cleared(contact: Contact, draft: DraftId, text: string)
    | Rejected(draft: DraftId)
    | Accepted(contact: Contact, draft: DraftId, text: string, ref: string)
    | Stored(contact: Contact, text: string, ref: string)
    | Told(contact: Contact)

  datatype Race = Race(s: State, pc: map<Thread, Pc>)

  /** A store operation of any other request. Drafts may be rewritten in any way. */
  datatype Op =
    | Inbound(c: Contact, text: string, messageId: string)
    | HumanMessage(c: Contact, text: string, ref: string)
    | FreezeOp(c: Contact)
    | ResumeOp(c: Contact)
    | SuppressOp(c: Contact)
    | UnsuppressOp(c: Contact)
    | Settings(mode: Mode, dnd: bool, vacation: bool)
    | RewriteDrafts(drafts: map<DraftId, Draft>)

  datatype Micro =
    | Check(t: Thread, c: Contact, draft: DraftId, text: string, confidence: int, env: Surroundings)
    | Transmit(t: Thread, gateway: Option<string>)
    | StoreDraft(t: Thread, now: int)
    | Tell(t: Thread)
    | Mark(t: Thread)
    | Other(op: Op)

  function Apply(s: State, op: Op): State {
    match op
    case Inbound(c, text, messageId) => AppendMessage(s, c, Message(true, text, false, "", messageId))
    case HumanMessage(c, text, ref) => AppendMessage(s, c, Message(false, text, false, ref, ""))
    case FreezeOp(c) => Freeze(s, c)
    case ResumeOp(c) => Resume(s, c)
    case SuppressOp(c) => Suppress(s, c)
    case UnsuppressOp(c) => Unsuppress(s, c)
    case Settings(mode, dnd, vacation) => s.(mode := mode, dnd := dnd, vacation := vacation)
    case RewriteDrafts(drafts) => s.(drafts := drafts)
  }

  predicate Enabled(r: Race, m: Micro) {
    match m
    case Other(_) => true
    case Check(t, _, _, _, _, _) => t in r.pc && r.pc[t].Idle?
    case Transmit(t, _) => t in r.pc && r.pc[t].Cleared?
    case StoreDraft(t, _) => t in r.pc && (r.pc[t].Accepted? || r.pc[t].Rejected?)
    case Tell(t) => t in r.pc && r.pc[t].Stored?
    case Mark(t) => t in r.pc && r.pc[t].Told?
  }

  /** update_draft: a draft that is gone stays gone. */
  function Rewritten(s: State, id: DraftId, change: Draft -> Draft): State {
    if id in s.drafts then s.(drafts := s.drafts[id := change(s.drafts[id])]) else s
  }

  function Micro1(cfg: Config, r: Race, m: Micro): Race
    requires Enabled(r, m)
  {
    match m
    case Other(op) => r.(s := Apply(r.s, op))
    case Check(t, c, draft, text, confidence, env) =>
      if AutoEligible(cfg, r.s, c, env) == Eligible && confidence >= cfg.threshold
      then r.(pc := r.pc[t := Cleared(c, draft, text)])
      else r
    case Transmit(t, gateway) =>
      var p := r.pc[t];
      (match gateway
       case None => r.(pc := r.pc[t := Rejected(p.draft)])
       case Some(ref) =>
         Race(r.s.(trail := r.s.trail + [Delivered(p.contact, p.draft, p.text, true, ref)]),
              r.pc[t := Accepted(p.contact, p.draft, p.text, ref)]))
    case StoreDraft(t, now) =>
      (match r.pc[t]
       case Accepted(c, id, text, ref) =>
         Race(Rewritten(r.s, id, (d: Draft) => d.(status := Sent, sentText := text, byAi := true, ref := ref,
                                                  touched := now)),
              r.pc[t := Stored(c, text, ref)])
       case Rejected(id) =>
         Race(Rewritten(r.s, id, (d: Draft) => d.(status := Pending, touched := now)), r.pc[t := Idle])
       case _ => r)
    case Tell(t) =>
      var p := r.pc[t];
      Race(AppendMessage(r.s, p.contact, Message(false, p.text, true, p.ref, "")), r.pc[t := Told(p.contact)])
    case Mark(t) =>
      Race(MarkAutoSent(r.s, r.pc[t].contact, cfg.maxAuto), r.pc[t := Idle])
  }

  function Begin(cfg: Config, threads: set<Thread>): Race {
    Race(Start(cfg), map t | t in threads :: Idle)
  }

  /** Steps that are not enabled do not happen. */
  function Steps(cfg: Config, threads: set<Thread>, ms: seq<Micro>): Race {
    if ms == [] then Begin(cfg, threads)
    else
      var r := Steps(cfg, threads, ms[..|ms| - 1]);
      if Enabled(r, ms[|ms| - 1]) then Micro1(cfg, r, ms[|ms| - 1]) else r
  }

  // ----- the invariant

  /** Threads that have passed the gates for `c` and not sent yet. */
  function Clearing(r: Race, c: Contact): set<Thread> {
    set t | t in r.pc && r.pc[t].Cleared? && r.pc[t].contact == c
  }

  /** Threads whose message to `c` is out but not counted yet. */
  function Unmarked(r: Race, c: Contact): set<Thread> {
    set t | t in r.pc && (r.pc[t].Accepted? || r.pc[t].Stored? || r.pc[t].Told?) && r.pc[t].contact == c
  }

  function Ceiling(cfg: Config, threads: set<Thread>): int { Limit(cfg) + |threads| - 1 }

  predicate ContactOk(cfg: Config, r: Race, c: Contact) {
    var v := Conv(r.s, c);
    && AutoSince(r.s.trail, c) <= v.consecutiveAuto + |Unmarked(r, c)|
    && AutoSince(r.s.trail, c) + |Clearing(r, c)| <= Ceiling(cfg, r.pc.Keys)
    && (v.frozen.None? ==> v.consecutiveAuto < Limit(cfg))
    && Below(r.s.trail, c, Ceiling(cfg, r.pc.Keys))
  }

  /** Every stage of the trail is within the ceiling. */
  predicate Below(t: seq<Event>, c: Contact, n: int) {
    t == [] || (AutoSince(t, c) <= n && Below(t[..|t| - 1], c, n))
  }

  ghost predicate RaceOk(cfg: Config, r: Race) {
    r.pc.Keys != {} && forall c :: ContactOk(cfg, r, c)
  }

  lemma SplitOff(s: set<Thread>, t: Thread)
    ensures |s| == |s - {t}| + (if t in s then 1 else 0)
  {
    if t in s { assert s == (s - {t}) + {t}; } else { assert s == s - {t}; }
  }

  lemma Subset(a: set<Thread>, b: set<Thread>)
    requires a <= b
    ensures |a| <= |b|
  {
    assert b == a + (b - a);
  }

  /** Two sets that differ in one thread at most. */
  lemma OneApart(a: set<Thread>, b: set<Thread>, t: Thread)
    requires a - {t} == b - {t}
    ensures |b| == |a| + (if t in b then 1 else 0) - (if t in a then 1 else 0)
  {
    SplitOff(a, t);
    SplitOff(b, t);
  }

  /** Moving one thread changes the two sets of a contact by that thread alone. */
  lemma ThreadMoves(r: Race, q: Race, t: Thread, p: Pc, c: Contact)
    requires t in r.pc && q.pc == r.pc[t := p]
    ensures q.pc.Keys == r.pc.Keys
    ensures |Clearing(q, c)| == |Clearing(r, c)| + (if t in Clearing(q, c) then 1 else 0)
            - (if t in Clearing(r, c) then 1 else 0)
    ensures |Unmarked(q, c)| == |Unmarked(r, c)| + (if t in Unmarked(q, c) then 1 else 0)
            - (if t in Unmarked(r, c) then 1 else 0)
  {
    OneApart(Clearing(r, c), Clearing(q, c), t);
    OneApart(Unmarked(r, c), Unmarked(q, c), t);
  }

  /** No more threads are on their way to `c` than there are threads. */
  lemma InFlight(r: Race, c: Contact, others: set<Thread>)
    requires Clearing(r, c) + Unmarked(r, c) <= others
    ensures |Clearing(r, c)| + |Unmarked(r, c)| <= |others|
  {
    assert Clearing(r, c) !! Unmarked(r, c);
    Subset(Clearing(r, c) + Unmarked(r, c), others);
  }

  /** How one more event moves the count of a contact. */
  lemma TrailStep(t: seq<Event>, e: Event, c: Contact, n: int)
    ensures AutoSince(t + [e], c) == if Rearms(e, c) then 0 else AutoSince(t, c) + (if Autonomous(e, c) then 1 else 0)
    ensures Below(t + [e], c, n) <==> Below(t, c, n) && AutoSince(t + [e], c) <= n
  {
    Extend(t, e);
  }

  // ----- a thread that nobody disturbs

  /** The steps of one send, as far as they are enabled. */
  function Undisturbed(cfg: Config, r: Race, ms: seq<Micro>): Race
    decreases |ms|
  {
    if ms == [] then r
    else Undisturbed(cfg, if Enabled(r, ms[0]) then Micro1(cfg, r, ms[0]) else r, ms[1..])
  }

  function Sending(cfg: Config, t: Thread, id: DraftId, d: Draft, env: Surroundings, gateway: Option<string>,
                   now: int): seq<Micro> {
    [Check(t, d.contact, id, Signed(cfg, d.text), d.confidence, env), Transmit(t, gateway), StoreDraft(t, now), Tell(t),
     Mark(t)]
  }

  /** A send that no other step comes between is the sequential one. */
  lemma UndisturbedIsMaybeSend(cfg: Config, r: Race, t: Thread, id: DraftId, env: Surroundings, gateway: Option<string>,
                               now: int)
    requires t in r.pc && r.pc[t].Idle? && id in r.s.drafts
    ensures Undisturbed(cfg, r, Sending(cfg, t, id, r.s.drafts[id], env, gateway, now))
         == r.(s := MaybeSend(cfg, r.s, id, env, gateway, now))
  {
    var d := r.s.drafts[id];
    var ms := Sending(cfg, t, id, d, env, gateway, now);
    var a := if Enabled(r, ms[0]) then Micro1(cfg, r, ms[0]) else r;
    var b := if Enabled(a, ms[1]) then Micro1(cfg, a, ms[1]) else a;
    var c := if Enabled(b, ms[2]) then Micro1(cfg, b, ms[2]) else b;
    var e := if Enabled(c, ms[3]) then Micro1(cfg, c, ms[3]) else c;
    var f := if Enabled(e, ms[4]) then Micro1(cfg, e, ms[4]) else e;
    FiveSteps(cfg, r, ms, a, b, c, e, f);
    assert f.pc == r.pc;
    assert f.s == MaybeSend(cfg, r.s, id, env, gateway, now);
  }

  lemma FiveSteps(cfg: Config, r: Race, ms: seq<Micro>, a: Race, b: Race, c: Race, e: Race, f: Race)
    requires |ms| == 5
    requires a == if Enabled(r, ms[0]) then Micro1(cfg, r, ms[0]) else r
    requires b == if Enabled(a, ms[1]) then Micro1(cfg, a, ms[1]) else a
    requires c == if Enabled(b, ms[2]) then Micro1(cfg, b, ms[2]) else b
    requires e == if Enabled(c, ms[3]) then Micro1(cfg, c, ms[3]) else c
    requires f == if Enabled(e, ms[4]) then Micro1(cfg, e, ms[4]) else e
    ensures Undisturbed(cfg, r, ms) == f
  {
    var m1, m2, m3, m4 := ms[1..], ms[2..], ms[3..], ms[4..];
    assert m1[1..] == m2 && m2[1..] == m3 && m3[1..] == m4 && m4[1..] == [];
    assert Undisturbed(cfg, e, m4) == Undisturbed(cfg, f, []);
    assert Undisturbed(cfg, c, m3) == Undisturbed(cfg, e, m4);
    assert Undisturbed(cfg, b, m2) == Undisturbed(cfg, c, m3);
    assert Undisturbed(cfg, a, m1) == Undisturbed(cfg, b, m2);
  }

  // ----- every step keeps the invariant

  /** What one operation of another request does to one contact. */
  lemma OpEffect(s: State, op: Op, c: Contact)
    ensures var t := Apply(s, op);
            var v, w := Conv(s, c), Conv(t, c);
            || (t.trail == s.trail && w.consecutiveAuto == v.consecutiveAuto && w.frozen == v.frozen)
            || (|t.trail| == |s.trail| + 1 && t.trail == s.trail + [t.trail[|s.trail|]]
                && var e := t.trail[|s.trail|];
                   !e.Delivered?
                   && (if Rearms(e, c) then w.consecutiveAuto == 0 && w.frozen == None
                       else w.consecutiveAuto == v.consecutiveAuto && (w.frozen.None? ==> v.frozen.None?)))
  {
  }

  lemma KeepOther(cfg: Config, r: Race, op: Op, c: Contact)
    requires r.pc.Keys != {} && ContactOk(cfg, r, c)
    ensures ContactOk(cfg, r.(s := Apply(r.s, op)), c)
  {
    var q := r.(s := Apply(r.s, op));
    OpEffect(r.s, op, c);
    assert Clearing(q, c) == Clearing(r, c) && Unmarked(q, c) == Unmarked(r, c);
    InFlight(r, c, r.pc.Keys);
    if |q.s.trail| > |r.s.trail| {
      TrailStep(r.s.trail, q.s.trail[|r.s.trail|], c, Ceiling(cfg, r.pc.Keys));
    }
  }

  /** The gates are open only while the switch is not armed, and the other threads leave room for one. */
  lemma KeepCheck(cfg: Config, r: Race, m: Micro, c: Contact)
    requires m.Check? && Enabled(r, m) && ContactOk(cfg, r, c)
    ensures ContactOk(cfg, Micro1(cfg, r, m), c)
  {
    var q := Micro1(cfg, r, m);
    if q != r {
      ThreadMoves(r, q, m.t, Cleared(m.c, m.draft, m.text), c);
      InFlight(r, c, r.pc.Keys - {m.t});
      SplitOff(r.pc.Keys, m.t);
    }
  }

  lemma KeepTransmit(cfg: Config, r: Race, m: Micro, c: Contact)
    requires m.Transmit? && Enabled(r, m) && ContactOk(cfg, r, c)
    ensures ContactOk(cfg, Micro1(cfg, r, m), c)
  {
    var q := Micro1(cfg, r, m);
    var p := r.pc[m.t];
    ThreadMoves(r, q, m.t, q.pc[m.t], c);
    if m.gateway.Some? {
      TrailStep(r.s.trail, Delivered(p.contact, p.draft, p.text, true, m.gateway.value), c, Ceiling(cfg, r.pc.Keys));
    }
  }

  lemma KeepBookkeeping(cfg: Config, r: Race, m: Micro, c: Contact)
    requires (m.StoreDraft? || m.Tell? || m.Mark?) && Enabled(r, m) && ContactOk(cfg, r, c)
    ensures ContactOk(cfg, Micro1(cfg, r, m), c)
  {
    var q := Micro1(cfg, r, m);
    ThreadMoves(r, q, m.t, q.pc[m.t], c);
  }

  lemma KeepMicro(cfg: Config, r: Race, m: Micro)
    requires RaceOk(cfg, r) && Enabled(r, m)
    ensures RaceOk(cfg, Micro1(cfg, r, m)) && Micro1(cfg, r, m).pc.Keys == r.pc.Keys
  {
    forall c ensures ContactOk(cfg, Micro1(cfg, r, m), c) {
      match m
      case Other(op) => KeepOther(cfg, r, op, c);
      case Check(_, _, _, _, _, _) => KeepCheck(cfg, r, m, c);
      case Transmit(_, _) => KeepTransmit(cfg, r, m, c);
      case _ => KeepBookkeeping(cfg, r, m, c);
    }
  }

  lemma {:induction false} StepsOk(cfg: Config, threads: set<Thread>, ms: seq<Micro>)
    requires threads != {}
    ensures RaceOk(cfg, Steps(cfg, threads, ms)) && Steps(cfg, threads, ms).pc.Keys == threads
    decreases |ms|
  {
    if ms == [] {
      var r := Begin(cfg, threads);
      Subset({}, threads);
      forall c ensures ContactOk(cfg, r, c) {
        assert Clearing(r, c) == {} && Unmarked(r, c) == {};
        assert |threads| >= 1 by { assert |threads| != 0; }
      }
    } else {
      var r := Steps(cfg, threads, ms[..|ms| - 1]);
      StepsOk(cfg, threads, ms[..|ms| - 1]);
      if Enabled(r, ms[|ms| - 1]) { KeepMicro(cfg, r, ms[|ms| - 1]); }
    }
  }

  lemma {:induction false} BelowEverywhere(t: seq<Event>, c: Contact, n: int, j: nat)
    requires Below(t, c, n) && n >= 0 && j <= |t|
    ensures AutoSince(t[..j], c) <= n
    decreases |t|
  {
    if j < |t| {
      BelowEverywhere(t[..|t| - 1], c, n, j);
      assert t[..|t| - 1][..j] == t[..j];
    } else {
      assert t[..j] == t;
    }
  }

  /**
   * With any interleaving of the threads and of every other request, the autonomous sends a contact
   * gets between two re-armings number at most max(1, max_auto) + (threads - 1): one more than the
   * sequential bound with the two threads of the agent, and no more than it with one.
   */
  lemma RaceBound(cfg: Config, threads: set<Thread>, ms: seq<Micro>, c: Contact, i: nat, j: nat)
    requires threads != {}
    requires i <= j <= |Steps(cfg, threads, ms).s.trail|
    requires forall k :: i <= k < j ==> !Rearms(Steps(cfg, threads, ms).s.trail[k], c)
    ensures AutoCount(Steps(cfg, threads, ms).s.trail[i..j], c) <= Limit(cfg) + |threads| - 1
  {
    StepsOk(cfg, threads, ms);
    var r := Steps(cfg, threads, ms);
    assert ContactOk(cfg, r, c);
    var t := r.s.trail[..j];
    assert |threads| != 0;
    BelowEverywhere(r.s.trail, c, Ceiling(cfg, threads), j);
    StretchCount(t, i, c);
    assert t[i..] == r.s.trail[i..j];
  }

  // ----- the bound is reached

  /** Nothing stands in the way of an autonomous send to `c`, and `n` of them have been counted. */
  predicate Open(cfg: Config, r: Race, c: Contact, n: nat) {
    && r.s.mode == Full && c !in r.s.suppressed && c !in cfg.vip
    && Conv(r.s, c).frozen.None? && Conv(r.s, c).consecutiveAuto == n
    && (forall t :: t in r.pc ==> r.pc[t].Idle?)
    && AutoSince(r.s.trail, c) == n && AutoCount(r.s.trail, c) == n
    && (forall k :: 0 <= k < |r.s.trail| ==> !Rearms(r.s.trail[k], c))
  }

  lemma StepsMore(cfg: Config, threads: set<Thread>, ms: seq<Micro>, r: Race, m: Micro)
    requires r == Steps(cfg, threads, ms) && Enabled(r, m)
    ensures Steps(cfg, threads, ms + [m]) == Micro1(cfg, r, m)
  {
    assert (ms + [m])[..|ms|] == ms;
  }

  lemma DeliveredCounts(t: seq<Event>, c: Contact)
    requires forall k :: 0 <= k < |t| ==> !Rearms(t[k], c)
    ensures var u := t + [Delivered(c, "d", "hi", true, "r")];
            && AutoSince(u, c) == AutoSince(t, c) + 1 && AutoCount(u, c) == AutoCount(t, c) + 1
            && forall k :: 0 <= k < |u| ==> !Rearms(u[k], c)
  {
    Extend(t, Delivered(c, "d", "hi", true, "r"));
  }

  /** Checking the gates and transmitting, while nothing stands in the way. */
  lemma GoesOut(cfg: Config, r: Race, c: Contact, t: Thread, env: Surroundings)
    requires r.s.mode == Full && c !in r.s.suppressed && c !in cfg.vip && Conv(r.s, c).frozen.None?
    requires t in r.pc && r.pc[t].Idle?
    ensures var m := Check(t, c, "d", "hi", cfg.threshold, env);
            var q := r.(pc := r.pc[t := Cleared(c, "d", "hi")]);
            && Enabled(r, m) && Micro1(cfg, r, m) == q && Enabled(q, Transmit(t, Some("r")))
            && Micro1(cfg, q, Transmit(t, Some("r")))
               == Race(r.s.(trail := r.s.trail + [Delivered(c, "d", "hi", true, "r")]),
                       q.pc[t := Accepted(c, "d", "hi", "r")])
  {
  }

  /** Storing, recording and counting what was accepted. */
  lemma IsBooked(cfg: Config, r: Race, c: Contact, t: Thread)
    requires t in r.pc && r.pc[t] == Accepted(c, "d", "hi", "r")
    ensures Enabled(r, StoreDraft(t, 0))
    ensures var q := Micro1(cfg, r, StoreDraft(t, 0));
            && Enabled(q, Tell(t)) && Enabled(Micro1(cfg, q, Tell(t)), Mark(t))
            && var z := Micro1(cfg, Micro1(cfg, q, Tell(t)), Mark(t));
               && z.s.trail == r.s.trail && z.s.mode == r.s.mode && z.s.suppressed == r.s.suppressed
               && z.pc.Keys == r.pc.Keys && z.pc[t] == Idle && (forall u :: u in r.pc && u != t ==> z.pc[u] == r.pc[u])
               && Conv(z.s, c).consecutiveAuto == Conv(r.s, c).consecutiveAuto + 1
               && (Conv(r.s, c).frozen.None? && Conv(r.s, c).consecutiveAuto + 1 < cfg.maxAuto ==>
                   Conv(z.s, c).frozen.None?)
  {
  }

  /** A whole send, undisturbed. */
  lemma OneSend(cfg: Config, threads: set<Thread>, ms: seq<Micro>, c: Contact, n: nat, env: Surroundings)
      returns (more: seq<Micro>)
    requires 0 in threads && Open(cfg, Steps(cfg, threads, ms), c, n) && n + 1 < cfg.maxAuto
    ensures Open(cfg, Steps(cfg, threads, more), c, n + 1)
  {
    var r := Steps(cfg, threads, ms);
    var out := TwoOut(cfg, threads, ms, r, c, 0, env);
    var q := Steps(cfg, threads, out);
    more := ThreeBooked(cfg, threads, out, q, c);
    DeliveredCounts(r.s.trail, c);
  }

  lemma TwoOut(cfg: Config, threads: set<Thread>, ms: seq<Micro>, r: Race, c: Contact, t: Thread, env: Surroundings)
      returns (out: seq<Micro>)
    requires r == Steps(cfg, threads, ms) && t in threads && (t in r.pc ==> r.pc[t].Idle?)
    requires r.s.mode == Full && c !in r.s.suppressed && c !in cfg.vip && Conv(r.s, c).frozen.None?
    ensures t in r.pc
    ensures Steps(cfg, threads, out)
         == Race(r.s.(trail := r.s.trail + [Delivered(c, "d", "hi", true, "r")]),
                 r.pc[t := Accepted(c, "d", "hi", "r")])
  {
    StepsThreads(cfg, threads, ms);
    var m := Check(t, c, "d", "hi", cfg.threshold, env);
    GoesOut(cfg, r, c, t, env);
    StepsMore(cfg, threads, ms, r, m);
    StepsMore(cfg, threads, ms + [m], Micro1(cfg, r, m), Transmit(t, Some("r")));
    out := ms + [m] + [Transmit(t, Some("r"))];
    assert r.pc[t := Cleared(c, "d", "hi")][t := Accepted(c, "d", "hi", "r")] == r.pc[t := Accepted(c, "d", "hi", "r")];
  }

  lemma ThreeBooked(cfg: Config, threads: set<Thread>, ms: seq<Micro>, r: Race, c: Contact) returns (more: seq<Micro>)
    requires r == Steps(cfg, threads, ms) && 0 in r.pc && r.pc[0] == Accepted(c, "d", "hi", "r")
    ensures var z := Steps(cfg, threads, more);
            && z.s.trail == r.s.trail && z.s.mode == r.s.mode && z.s.suppressed == r.s.suppressed
            && z.pc.Keys == r.pc.Keys && z.pc[0] == Idle && (forall u :: u in r.pc && u != 0 ==> z.pc[u] == r.pc[u])
            && Conv(z.s, c).consecutiveAuto == Conv(r.s, c).consecutiveAuto + 1
            && (Conv(r.s, c).frozen.None? && Conv(r.s, c).consecutiveAuto + 1 < cfg.maxAuto ==>
                Conv(z.s, c).frozen.None?)
  {
    var q := Micro1(cfg, r, StoreDraft(0, 0));
    IsBooked(cfg, r, c, 0);
    StepsMore(cfg, threads, ms, r, StoreDraft(0, 0));
    StepsMore(cfg, threads, ms + [StoreDraft(0, 0)], q, Tell(0));
    StepsMore(cfg, threads, ms + [StoreDraft(0, 0)] + [Tell(0)], Micro1(cfg, q, Tell(0)), Mark(0));
    more := ms + [StoreDraft(0, 0)] + [Tell(0)] + [Mark(0)];
  }

  lemma {:induction false} StepsThreads(cfg: Config, threads: set<Thread>, ms: seq<Micro>)
    ensures Steps(cfg, threads, ms).pc.Keys == threads
    decreases |ms|
  {
    if ms != [] { StepsThreads(cfg, threads, ms[..|ms| - 1]); }
  }

  lemma {:induction false} ManySends(cfg: Config, threads: set<Thread>, c: Contact, n: nat, env: Surroundings)
      returns (ms: seq<Micro>)
    requires 0 in threads && c !in cfg.vip && (n == 0 || n < cfg.maxAuto)
    ensures Open(cfg, Steps(cfg, threads, ms), c, n)
    decreases n
  {
    if n == 0 {
      ms := [] + [Other(Settings(Full, false, false))];
      StepsMore(cfg, threads, [], Begin(cfg, threads), Other(Settings(Full, false, false)));
    } else {
      var before := ManySends(cfg, threads, c, n - 1, env);
      ms := OneSend(cfg, threads, before, c, n - 1, env);
    }
  }

  /** Two threads do send max(1, max_auto) + 1 messages to a contact nobody re-armed. */
  lemma BoundIsReached(cfg: Config, c: Contact, env: Surroundings) returns (ms: seq<Micro>)
    requires c !in cfg.vip
    ensures var t := Steps(cfg, {0, 1}, ms).s.trail;
            AutoCount(t, c) == Limit(cfg) + 1 && forall k :: 0 <= k < |t| ==> !Rearms(t[k], c)
  {
    var threads: set<Thread> := {0, 1};
    var n := Limit(cfg) - 1;
    var a := ManySends(cfg, threads, c, n, env);
    StepsThreads(cfg, threads, a);
    var r := Steps(cfg, threads, a);
    var cleared := TwoCleared(cfg, threads, a, r, c, env);
    var q := Steps(cfg, threads, cleared);
    StepsMore(cfg, threads, cleared, q, Transmit(0, Some("r")));
    StepsMore(cfg, threads, cleared + [Transmit(0, Some("r"))], Micro1(cfg, q, Transmit(0, Some("r"))),
              Transmit(1, Some("r")));
    DeliveredCounts(r.s.trail, c);
    DeliveredCounts(r.s.trail + [Delivered(c, "d", "hi", true, "r")], c);
    ms := cleared + [Transmit(0, Some("r"))] + [Transmit(1, Some("r"))];
  }

  /** Both threads pass the gates before either sends. */
  lemma TwoCleared(cfg: Config, threads: set<Thread>, ms: seq<Micro>, r: Race, c: Contact, env: Surroundings)
      returns (cleared: seq<Micro>)
    requires r == Steps(cfg, threads, ms) && 0 in r.pc && 1 in r.pc && r.pc[0].Idle? && r.pc[1].Idle?
    requires r.s.mode == Full && c !in r.s.suppressed && c !in cfg.vip && Conv(r.s, c).frozen.None?
    ensures Steps(cfg, threads, cleared) == r.(pc := r.pc[0 := Cleared(c, "d", "hi")][1 := Cleared(c, "d", "hi")])
  {
    var m1, m2 := Check(0, c, "d", "hi", cfg.threshold, env), Check(1, c, "d", "hi", cfg.threshold, env);
    var q := r.(pc := r.pc[0 := Cleared(c, "d", "hi")]);
    GoesOut(cfg, r, c, 0, env);
    StepsMore(cfg, threads, ms, r, m1);
    GoesOut(cfg, q, c, 1, env);
    StepsMore(cfg, threads, ms + [m1], q, m2);
    cleared := ms + [m1] + [m2];
  }
}
