/**
 * Routing of execute completions in modules/telephony/voice-agent.py: the event-socket client with
 * its list of waiters, and the interleavings of the reader thread, the dispatch loop and one
 * handler thread for each call, on one connection.
 */
module EslWaiters {
  import opened Wrappers
  import JsonExtract

  const COMPLETE := "CHANNEL_EXECUTE_COMPLETE"
  const PARK := "CHANNEL_PARK"

  /** The event headers that routing looks at; an absent header is the empty string. */
  datatype Event = Event(name: string, uuid: string, app: string, data: string, agent: bool)

  /** One pending sendmsg-execute, by its identity. */
  datatype Waiter = Waiter(id: nat, uuid: string, app: string, arg: string)

  function LowerChar(c: char): char { if 'A' <= c <= 'Z' then ((c as int) + 32) as char else c }

  function Lower(s: string): string { seq(|s|, i requires 0 <= i < |s| => LowerChar(s[i])) }

  predicate Blank(c: char) { JsonExtract.IsSpace(c) }

  function UpToBlank(s: string): string {
    if s == "" || Blank(s[0]) then "" else [s[0]] + UpToBlank(s[1..])
  }

  /** arg.split()[0]. */
  function FirstWord(arg: string): string {
    if arg != "" && Blank(arg[0]) then FirstWord(arg[1..]) else UpToBlank(arg)
  }

  predicate Matches(w: Waiter, e: Event) {
    && e.name == COMPLETE && e.uuid == w.uuid && Lower(e.app) == Lower(w.app)
    && (w.arg == "" || FirstWord(w.arg) <= e.data)
  }

  /** The first waiter of the list that claims the event. */
  function Claim(ws: seq<Waiter>, e: Event): Option<Waiter> {
    if ws == [] then None else if Matches(ws[0], e) then Some(ws[0]) else Claim(ws[1..], e)
  }

  function Without(ws: seq<Waiter>, id: nat): seq<Waiter> {
    if ws == [] then [] else (if ws[0].id == id then [] else [ws[0]]) + Without(ws[1..], id)
  }

  /** ESLClient's waiter list and its events queue. */
  class Client {
    var waiters: seq<Waiter>
    var signalled: map<nat, Event>
    var queue: seq<Event>
    var next: nat

    constructor ()
      ensures waiters == [] && signalled == map[] && queue == [] && next == 0
    {
      waiters, signalled, queue, next := [], map[], [], 0;
    }

    method Register(uuid: string, app: string, arg: string) returns (w: Waiter)
      modifies this`waiters, this`next
      ensures w == Waiter(old(next), uuid, app, arg) && waiters == old(waiters) + [w] && next == old(next) + 1
    {
      w := Waiter(next, uuid, app, arg);
      waiters := waiters + [w];
      next := next + 1;
    }

    method Clear(w: Waiter)
      modifies this`waiters
      ensures waiters == Without(old(waiters), w.id)
    {
      var kept, i := [], 0;
      while i < |waiters|
        invariant i <= |waiters| && waiters == old(waiters)
        invariant kept + Without(waiters[i..], w.id) == Without(waiters, w.id)
      {
        assert waiters[i..][1..] == waiters[i + 1..];
        if waiters[i].id != w.id { kept := kept + [waiters[i]]; }
        i := i + 1;
      }
      waiters := kept;
    }

    /** The reader's scan of the snapshot it took. */
    method Resolve(e: Event, snapshot: seq<Waiter>) returns (resolved: bool)
      modifies this`signalled
      ensures resolved <==> Claim(snapshot, e).Some?
      ensures signalled == if resolved then old(signalled)[Claim(snapshot, e).value.id := e] else old(signalled)
    {
      var i := 0;
      while i < |snapshot|
        invariant i <= |snapshot| && Claim(snapshot, e) == Claim(snapshot[i..], e)
        invariant signalled == old(signalled)
      {
        if Matches(snapshot[i], e) {
          signalled := signalled[snapshot[i].id := e];
          return true;
        }
        assert snapshot[i..][1..] == snapshot[i + 1..];
        i := i + 1;
      }
      return false;
    }

    /** What the reader does with one event when nobody comes in between. */
    method Receive(e: Event)
      modifies this`signalled, this`queue
      ensures var claim := if e.name == COMPLETE then Claim(waiters, e) else None;
              && signalled == (if claim.Some? then old(signalled)[claim.value.id := e] else old(signalled))
              && queue == (if claim.Some? then old(queue) else old(queue) + [e])
    {
      var resolved := false;
      if e.name == COMPLETE { resolved := Resolve(e, waiters); }
      if !resolved { queue := queue + [e]; }
    }
  }

  // ----- the threads

  /** A call's handler: between executes, with a waiter registered, or with the command sent as well. */
  datatype Handler = Idle | Registered(w: Waiter) | Sent(w: Waiter)

  /** The reader thread: at the socket, with an event in hand, or with the snapshot it scans. */
  datatype Reader = AtSocket | Holding(e: Event) | Scanning(e: Event, snapshot: seq<Waiter>)

  datatype State = State(waiters: seq<Waiter>, next: nat, signalled: map<nat, Event>, queue: seq<Event>,
                         active: map<string, Handler>, reader: Reader)

  const START: State := State([], 0, map[], [], map[], AtSocket)

  /** One step of one thread. The lock makes registering, clearing and copying single steps. */
  datatype Action =
    | Arrive(e: Event) | Copy | Scan
    | Dispatch
    | Register(uuid: string, app: string, arg: string) | Transmit(uuid: string) | Clear(uuid: string)
        | Finish(uuid: string)

  /**
   * None when the step is not possible. Clear stands for every way out of the wait, and Finish for the end of the
   * handler.
   */
  function Step(s: State, a: Action): Option<State> {
    match a
    case Arrive(e) => if s.reader.AtSocket? then Some(s.(reader := Holding(e))) else None
    case Copy =>
      if !s.reader.Holding? then None
      else if s.reader.e.name != COMPLETE then Some(s.(queue := s.queue + [s.reader.e], reader := AtSocket))
      else Some(s.(reader := Scanning(s.reader.e, s.waiters)))
    case Scan =>
      if !s.reader.Scanning? then None
      else
        var e := s.reader.e;
        Some(match Claim(s.reader.snapshot, e)
             case Some(w) => s.(signalled := s.signalled[w.id := e], reader := AtSocket)
             case None => s.(queue := s.queue + [e], reader := AtSocket))
    case Dispatch =>
      if s.queue == [] then None
      else
        var e := s.queue[0];
        var t := s.(queue := s.queue[1..]);
        Some(if e.name == PARK && e.agent && e.uuid !in s.active then t.(active := s.active[e.uuid := Idle]) else t)
    case Register(uuid, app, arg) =>
      if uuid !in s.active || !s.active[uuid].Idle? then None
      else
        var w := Waiter(s.next, uuid, app, arg);
        Some(s.(waiters := s.waiters + [w], next := s.next + 1, active := s.active[uuid := Registered(w)]))
    case Transmit(uuid) =>
      if uuid !in s.active || !s.active[uuid].Registered? then None
      else Some(s.(active := s.active[uuid := Sent(s.active[uuid].w)]))
    case Clear(uuid) =>
      if uuid !in s.active || s.active[uuid].Idle? then None
      else Some(s.(waiters := Without(s.waiters, s.active[uuid].w.id), active := s.active[uuid := Idle]))
    case Finish(uuid) =>
      if uuid !in s.active || !s.active[uuid].Idle? then None
      else Some(s.(active := s.active - {uuid}))
  }

  function Run(s: State, actions: seq<Action>): Option<State>
    decreases |actions|
  {
    if actions == [] then Some(s)
    else match Step(s, actions[0])
         case None => None
         case Some(t) => Run(t, actions[1..])
  }

  // ----- what every run keeps

  ghost predicate OnePerCall(ws: seq<Waiter>) {
    forall i, j :: 0 <= i < j < |ws| ==> ws[i].uuid != ws[j].uuid && ws[i].id != ws[j].id
  }

  /** The list holds exactly the waiters of the handlers that wait, at most one for each call. */
  ghost predicate Inv(s: State) {
    && OnePerCall(s.waiters)
    && (forall w :: w in s.waiters ==>
          w.id < s.next && w.uuid in s.active && !s.active[w.uuid].Idle? && s.active[w.uuid].w == w)
    && (forall u :: u in s.active && !s.active[u].Idle? ==> s.active[u].w in s.waiters && s.active[u].w.uuid == u)
    && (s.reader.Scanning? ==> s.reader.e.name == COMPLETE && OnePerCall(s.reader.snapshot))
  }

  lemma {:induction false} WithoutIs(ws: seq<Waiter>, id: nat)
    ensures forall w :: w in Without(ws, id) <==> w in ws && w.id != id
    ensures OnePerCall(ws) ==> OnePerCall(Without(ws, id))
    decreases |ws|
  {
    if ws != [] {
      WithoutIs(ws[1..], id);
      var rest := Without(ws[1..], id);
      if OnePerCall(ws) {
        forall w | w in rest ensures w.uuid != ws[0].uuid && w.id != ws[0].id {
          var j :| 0 <= j < |ws[1..]| && ws[1..][j] == w;
          assert ws[j + 1] == w;
        }
      }
    }
  }

  lemma StepKeeps(s: State, a: Action)
    requires Inv(s) && Step(s, a).Some?
    ensures Inv(Step(s, a).value)
  {
    match a
    case Clear(uuid) => WithoutIs(s.waiters, s.active[uuid].w.id);
    case _ =>
  }

  /** In every interleaving there is at most one waiter for each call, and it is its handler's own. */
  lemma {:induction false} RunKeeps(s: State, actions: seq<Action>)
    requires Inv(s) && Run(s, actions).Some?
    ensures Inv(Run(s, actions).value)
    decreases |actions|
  {
    if actions != [] {
      StepKeeps(s, actions[0]);
      RunKeeps(Step(s, actions[0]).value, actions[1..]);
    }
  }

  /**
   * A handler starts exactly when the dispatch loop takes a parked call of the agent's that has none,
   * and a call is given up exactly when its handler finishes.
   */
  lemma HandlersAre(s: State, a: Action, u: string)
    requires Step(s, a).Some?
    ensures var t := Step(s, a).value;
            && (u !in s.active && u in t.active <==>
                  a == Dispatch && u !in s.active
                  && s.queue[0].name == "CHANNEL_PARK" && s.queue[0].agent && s.queue[0].uuid == u)
            && (u in s.active && u !in t.active <==> a == Finish(u))
            && (u in s.active && u in t.active && s.active[u] != t.active[u] ==>
                  a == Transmit(u) || a == Clear(u) || exists app, arg :: a == Register(u, app, arg))
  {
  }

  /** So it is from the client's start on: no waiters, no calls, nothing in the queue. */
  lemma RunFromStart(actions: seq<Action>)
    requires Run(START, actions).Some?
    ensures Inv(Run(START, actions).value)
  {
    assert Inv(START);
    RunKeeps(START, actions);
  }

  // ----- what a waiter claims

  /** Equal, or the upper and the lower case of one letter. */
  predicate SameLetter(x: char, y: char) {
    || x == y
    || ('A' <= x <= 'Z' && y as int == x as int + 32)
    || ('A' <= y <= 'Z' && x as int == y as int + 32)
  }

  predicate SameIgnoringCase(x: string, y: string) {
    |x| == |y| && forall i :: 0 <= i < |x| ==> SameLetter(x[i], y[i])
  }

  /** arg[i..j] is the first stretch without whitespace; nothing, when there is only whitespace. */
  predicate FirstWordAt(arg: string, i: nat, j: nat) {
    && i <= j <= |arg|
    && (forall k :: 0 <= k < i ==> JsonExtract.IsSpace(arg[k]))
    && (forall k :: i <= k < j ==> !JsonExtract.IsSpace(arg[k]))
    && (j < |arg| ==> i < j && JsonExtract.IsSpace(arg[j]))
  }

  /** The event completes the execute: same call, same application, and data that begin as its argument does. */
  ghost predicate Completes(e: Event, w: Waiter) {
    && e.name == "CHANNEL_EXECUTE_COMPLETE" && e.uuid == w.uuid && SameIgnoringCase(e.app, w.app)
    && (w.arg == "" || exists i: nat, j: nat :: FirstWordAt(w.arg, i, j) && w.arg[i..j] <= e.data)
  }

  lemma LowerAgrees(x: string, y: string)
    ensures Lower(x) == Lower(y) <==> SameIgnoringCase(x, y)
  {
    if Lower(x) == Lower(y) {
      forall i | 0 <= i < |x| ensures SameLetter(x[i], y[i]) { assert Lower(x)[i] == Lower(y)[i]; }
    }
    if SameIgnoringCase(x, y) {
      forall i | 0 <= i < |x| ensures Lower(x)[i] == Lower(y)[i] { assert SameLetter(x[i], y[i]); }
    }
  }

  lemma {:induction false} UpToBlankIs(s: string, j: nat)
    requires j <= |s| && (forall k :: 0 <= k < j ==> !JsonExtract.IsSpace(s[k]))
    requires j < |s| ==> JsonExtract.IsSpace(s[j])
    ensures UpToBlank(s) == s[..j]
    decreases |s|
  {
    if j > 0 {
      UpToBlankIs(s[1..], j - 1);
      assert s[..j] == [s[0]] + s[1..][..j - 1];
    }
  }

  lemma SliceOfTail(s: string, i: nat, j: nat)
    requires 0 < i <= j <= |s|
    ensures s[i..j] == s[1..][i - 1..j - 1]
  {
    forall k | 0 <= k < j - i ensures s[i..j][k] == s[1..][i - 1..j - 1][k] { assert s[1..][i - 1 + k] == s[i + k]; }
  }

  /** There is one first word, the one that is computed. */
  lemma {:induction false} FirstWordIs(arg: string, i: nat, j: nat)
    requires FirstWordAt(arg, i, j)
    ensures FirstWord(arg) == arg[i..j]
    decreases |arg|
  {
    if i > 0 {
      FirstWordIs(arg[1..], i - 1, j - 1);
      SliceOfTail(arg, i, j);
    } else {
      UpToBlankIs(arg, j);
      assert arg[0..j] == arg[..j];
    }
  }

  lemma {:induction false} FirstNonBlank(arg: string) returns (i: nat, j: nat)
    ensures FirstWordAt(arg, i, j)
    decreases |arg|
  {
    if arg != "" && JsonExtract.IsSpace(arg[0]) {
      var m, n := FirstNonBlank(arg[1..]);
      i, j := m + 1, n + 1;
      assert forall k :: 1 <= k < |arg| ==> arg[k] == arg[1..][k - 1];
    } else {
      i := 0;
      j := EndOfWord(arg);
    }
  }

  lemma {:induction false} EndOfWord(s: string) returns (j: nat)
    ensures j <= |s| && (forall k :: 0 <= k < j ==> !JsonExtract.IsSpace(s[k]))
    ensures (j < |s| ==> JsonExtract.IsSpace(s[j])) && (s != "" && !JsonExtract.IsSpace(s[0]) ==> j > 0)
    decreases |s|
  {
    j := 0;
    if s != "" && !JsonExtract.IsSpace(s[0]) {
      var n := EndOfWord(s[1..]);
      j := n + 1;
      assert forall k :: 1 <= k < |s| ==> s[k] == s[1..][k - 1];
    }
  }

  /** The matcher means that, no more and no less. */
  lemma MatchesExactly(w: Waiter, e: Event)
    ensures Matches(w, e) <==> Completes(e, w)
  {
    LowerAgrees(e.app, w.app);
    var i, j := FirstNonBlank(w.arg);
    FirstWordIs(w.arg, i, j);
    if m: nat, n: nat :| FirstWordAt(w.arg, m, n) && w.arg[m..n] <= e.data { FirstWordIs(w.arg, m, n); }
  }

  // ----- no completion is lost

  predicate ReaderStep(a: Action) { a.Arrive? || a.Copy? || a.Scan? }

  /** The command of `w` is out and its handler has not cleared it yet. */
  predicate Waits(s: State, w: Waiter) { w.uuid in s.active && s.active[w.uuid] == Sent(w) && w in s.waiters }

  lemma {:induction false} ClaimOwner(ws: seq<Waiter>, w: Waiter, e: Event)
    requires OnePerCall(ws) && w in ws && Matches(w, e)
    ensures Claim(ws, e) == Some(w)
    decreases |ws|
  {
    if ws[0] != w {
      assert w in ws[1..];
      var j :| 1 <= j < |ws| && ws[j] == w;
      assert ws[0].uuid != ws[j].uuid;
      ClaimOwner(ws[1..], w, e);
    }
  }

  lemma {:induction false} ClaimMatches(ws: seq<Waiter>, e: Event)
    ensures Claim(ws, e).Some? ==> Claim(ws, e).value in ws && Matches(Claim(ws, e).value, e)
    ensures Claim(ws, e).None? ==> forall w :: w in ws ==> !Matches(w, e)
    decreases |ws|
  {
    if ws != [] { ClaimMatches(ws[1..], e); }
  }

  /** Steps of the other threads leave the reader, and what it signalled, alone; they only take from the queue. */
  lemma {:induction false} OthersLeaveReader(s: State, actions: seq<Action>)
    requires Run(s, actions).Some? && forall a :: a in actions ==> !ReaderStep(a)
    ensures var t := Run(s, actions).value;
            t.reader == s.reader && t.signalled == s.signalled && Taken(s.queue, t.queue)
    decreases |actions|
  {
    if actions == [] {
      NothingTaken(s.queue);
    } else {
      var m := Step(s, actions[0]).value;
      assert actions[0] in actions;
      OtherLeavesReader(s, actions[0]);
      forall a | a in actions[1..] ensures !ReaderStep(a) { assert a in actions; }
      OthersLeaveReader(m, actions[1..]);
      TakenTwice(s.queue, m.queue, Run(m, actions[1..]).value.queue);
    }
  }

  lemma OtherLeavesReader(s: State, a: Action)
    requires Step(s, a).Some? && !ReaderStep(a)
    ensures var t := Step(s, a).value; t.reader == s.reader && t.signalled == s.signalled && Taken(s.queue, t.queue)
  {
    NothingTaken(s.queue);
  }

  /** Events were only taken from the front of the queue. */
  predicate Taken(p: seq<Event>, q: seq<Event>) { |q| <= |p| && q == p[|p| - |q|..] }

  lemma NothingTaken(p: seq<Event>)
    ensures Taken(p, p)
  {
    assert p[0..] == p;
  }

  lemma TakenTwice(p: seq<Event>, q: seq<Event>, r: seq<Event>)
    requires Taken(p, q) && Taken(q, r)
    ensures Taken(p, r)
  {
    forall i | 0 <= i < |r| ensures r[i] == p[|p| - |r| + i] { assert r[i] == q[|q| - |r| + i]; }
  }

  /** A waiting execute goes on waiting while its own handler does not clear it. */
  lemma {:induction false} GoesOnWaiting(s: State, actions: seq<Action>, w: Waiter)
    requires Inv(s) && Waits(s, w) && Run(s, actions).Some?
    requires forall a :: a in actions ==> a != Clear(w.uuid)
    ensures Waits(Run(s, actions).value, w)
    decreases |actions|
  {
    if actions != [] {
      var m := Step(s, actions[0]).value;
      StepKeeps(s, actions[0]);
      assert actions[0] in actions && actions[0] != Clear(w.uuid);
      if actions[0].Clear? { WithoutIs(s.waiters, s.active[actions[0].uuid].w.id); }
      forall a | a in actions[1..] ensures a != Clear(w.uuid) { assert a in actions; }
      GoesOnWaiting(m, actions[1..], w);
    }
  }

  lemma {:induction false} RunConcat(s: State, x: seq<Action>, y: seq<Action>)
    ensures Run(s, x + y) == (match Run(s, x)
                              case None => None
                              case Some(t) => Run(t, y))
    decreases |x|
  {
    if x == [] {
      assert x + y == y;
    } else {
      assert (x + y)[0] == x[0] && (x + y)[1..] == x[1..] + y;
      match Step(s, x[0])
      case None =>
      case Some(t) => RunConcat(t, x[1..], y);
    }
  }

  lemma OneAction(s: State, a: Action)
    ensures Run(s, [a]) == Step(s, a)
  {
    assert [a][1..] == [];
  }

  /** The reader's handling of one event, with whatever the other threads do before and after the snapshot. */
  function Handling(e: Event, before: seq<Action>, after: seq<Action>): seq<Action> {
    [Arrive(e)] + before + [Copy] + after + [Scan]
  }

  lemma HandlingRuns(s: State, e: Event, before: seq<Action>, after: seq<Action>) returns (atCopy: State, atScan: State)
    requires Run(s, Handling(e, before, after)).Some?
    ensures Run(s, [Arrive(e)]) == Step(s, Arrive(e)) && Step(s, Arrive(e)).Some?
    ensures Run(Step(s, Arrive(e)).value, before) == Some(atCopy) && Step(atCopy, Copy).Some?
    ensures Run(Step(atCopy, Copy).value, after) == Some(atScan)
    ensures Run(s, Handling(e, before, after)) == Step(atScan, Scan)
  {
    RunConcat(s, [Arrive(e)] + before + [Copy] + after, [Scan]);
    RunConcat(s, [Arrive(e)] + before + [Copy], after);
    RunConcat(s, [Arrive(e)] + before, [Copy]);
    RunConcat(s, [Arrive(e)], before);
    OneAction(s, Arrive(e));
    atCopy := Run(Step(s, Arrive(e)).value, before).value;
    OneAction(atCopy, Copy);
    atScan := Run(Step(atCopy, Copy).value, after).value;
    OneAction(atScan, Scan);
  }

  /** From the socket to the snapshot. */
  lemma UpToCopy(s: State, e: Event, w: Waiter, before: seq<Action>, held: State, atCopy: State)
    requires Inv(s) && Waits(s, w) && Step(s, Arrive(e)) == Some(held) && Run(held, before) == Some(atCopy)
    requires forall a :: a in before ==> !ReaderStep(a) && a != Clear(w.uuid)
    ensures Inv(atCopy) && Waits(atCopy, w) && atCopy.reader == Holding(e)
    ensures atCopy.signalled == s.signalled && Taken(s.queue, atCopy.queue)
  {
    StepKeeps(s, Arrive(e));
    RunKeeps(held, before);
    GoesOnWaiting(held, before, w);
    OthersLeaveReader(held, before);
  }

  /** From the snapshot to the scan. */
  lemma UpToScan(s: State, e: Event, w: Waiter, after: seq<Action>, atScan: State)
    requires Inv(s) && Waits(s, w) && s.reader == Holding(e) && Matches(w, e)
    requires Step(s, Copy).Some? && Run(Step(s, Copy).value, after) == Some(atScan)
    requires forall a :: a in after ==> !ReaderStep(a)
    ensures var t := Step(atScan, Scan);
            t.Some? ==> t.value.signalled == s.signalled[w.id := e] && Taken(s.queue, t.value.queue)
  {
    OthersLeaveReader(Step(s, Copy).value, after);
    ClaimOwner(s.waiters, w, e);
  }

  /**
   * No lost completion: a completion of an execute that was sent and is not cleared before the
   * reader's snapshot signals that execute's waiter and no other, and never enters the dispatch
   * queue, however the dispatch loop and the handlers interleave with the reader.
   */
  lemma CompletionReachesItsWaiter(s: State, e: Event, w: Waiter, before: seq<Action>, after: seq<Action>)
    requires Inv(s) && Waits(s, w) && Completes(e, w)
    requires forall a :: a in before + after ==> !ReaderStep(a)
    requires forall a :: a in before ==> a != Clear(w.uuid)
    requires Run(s, Handling(e, before, after)).Some?
    ensures var t := Run(s, Handling(e, before, after)).value;
            t.signalled == s.signalled[w.id := e] && Taken(s.queue, t.queue)
  {
    MatchesExactly(w, e);
    var atCopy, atScan := HandlingRuns(s, e, before, after);
    forall a | a in before ensures !ReaderStep(a) { assert a in before + after; }
    forall a | a in after ensures !ReaderStep(a) { assert a in before + after; }
    UpToCopy(s, e, w, before, Step(s, Arrive(e)).value, atCopy);
    UpToScan(atCopy, e, w, after, atScan);
    TakenTwice(s.queue, atCopy.queue, Step(atScan, Scan).value.queue);
  }

  /** And so for every run from the client's start, whatever came before the completion. */
  lemma CompletionOfARun(past: seq<Action>, e: Event, w: Waiter, before: seq<Action>, after: seq<Action>)
    requires Run(START, past + Handling(e, before, after)).Some?
    requires Run(START, past).Some? && Waits(Run(START, past).value, w) && Completes(e, w)
    requires forall a :: a in before + after ==> !ReaderStep(a)
    requires forall a :: a in before ==> a != Clear(w.uuid)
    ensures var s, t := Run(START, past).value, Run(START, past + Handling(e, before, after)).value;
            t.signalled == s.signalled[w.id := e] && Taken(s.queue, t.queue)
  {
    RunConcat(START, past, Handling(e, before, after));
    RunFromStart(past);
    CompletionReachesItsWaiter(Run(START, past).value, e, w, before, after);
  }

  /** Whatever is signalled at all is signalled to a waiter whose execute the event completes. */
  lemma OnlyOwnCall(s: State)
    requires Inv(s) && s.reader.Scanning?
    ensures var t := Step(s, Scan).value;
            forall id :: id in t.signalled && (id !in s.signalled || t.signalled[id] != s.signalled[id]) ==>
              t.signalled[id] == s.reader.e
              && exists w :: w in s.reader.snapshot && w.id == id && Completes(s.reader.e, w)
  {
    ClaimMatches(s.reader.snapshot, s.reader.e);
    var claim := Claim(s.reader.snapshot, s.reader.e);
    if claim.Some? { MatchesExactly(claim.value, s.reader.e); }
  }

  // ----- no event is lost, and none is routed twice

  ghost predicate Claimable(e: Event, ws: seq<Waiter>) { exists w :: w in ws && Completes(e, w) }

  function Arrived(s: State, a: Action): seq<Event> { if a.Arrive? then [a.e] else [] }

  /** What the dispatch loop takes in one step. */
  function Dispatched(s: State, a: Action): seq<Event> { if a.Dispatch? && s.queue != [] then [s.queue[0]] else [] }

  /** What the reader gives to a waiter in one step. */
  ghost function Claimed(s: State, a: Action): seq<Event> {
    if a.Scan? && s.reader.Scanning? && Claimable(s.reader.e, s.reader.snapshot) then [s.reader.e] else []
  }

  /** What it puts into the queue: what is no completion, and completions that nobody claims. */
  ghost function Queued(s: State, a: Action): seq<Event> {
    if a.Copy? && s.reader.Holding? && s.reader.e.name != "CHANNEL_EXECUTE_COMPLETE" then [s.reader.e]
    else if a.Scan? && s.reader.Scanning? && !Claimable(s.reader.e, s.reader.snapshot) then [s.reader.e]
    else []
  }

  function InHand(s: State): seq<Event> { if s.reader.AtSocket? then [] else [s.reader.e] }

  lemma StepRoutes(s: State, a: Action)
    requires Step(s, a).Some?
    ensures var t := Step(s, a).value;
            && Dispatched(s, a) + t.queue == s.queue + Queued(s, a)
            && InHand(s) + Arrived(s, a) == Claimed(s, a) + Queued(s, a) + InHand(t)
  {
    if a.Scan? {
      var ws, e := s.reader.snapshot, s.reader.e;
      ClaimMatches(ws, e);
      forall w | w in ws ensures Matches(w, e) <==> Completes(e, w) { MatchesExactly(w, e); }
      if Claim(ws, e).Some? { assert Completes(e, Claim(ws, e).value); }
    }
  }

  /** The same four over a run. */
  ghost function Along(s: State, actions: seq<Action>, part: (State, Action) -> seq<Event>): seq<Event>
    requires Run(s, actions).Some?
    decreases |actions|
  {
    if actions == [] then [] else part(s, actions[0]) + Along(Step(s, actions[0]).value, actions[1..], part)
  }

  /**
   * In every interleaving each event that arrives ends up in exactly one place: with a waiter whose
   * execute it completes, or in the queue, which the dispatch loop empties in order, or still in hand.
   */
  lemma {:induction false} EveryEventIsRouted(s: State, actions: seq<Action>)
    requires Run(s, actions).Some?
    ensures var t := Run(s, actions).value;
            && Along(s, actions, Dispatched) + t.queue == s.queue + Along(s, actions, Queued)
            && multiset(InHand(s)) + multiset(Along(s, actions, Arrived))
               == multiset(Along(s, actions, Claimed)) + multiset(Along(s, actions, Queued)) + multiset(InHand(t))
    decreases |actions|
  {
    if actions != [] {
      var a, m, rest := actions[0], Step(s, actions[0]).value, actions[1..];
      StepRoutes(s, a);
      EveryEventIsRouted(m, rest);
      var t := Run(m, rest).value;
      TwoQueues(s.queue, m.queue, t.queue, Dispatched(s, a), Queued(s, a),
                Along(m, rest, Dispatched), Along(m, rest, Queued));
      TwoBags(InHand(s), InHand(m), InHand(t), Arrived(s, a), Claimed(s, a), Queued(s, a),
              Along(m, rest, Arrived), Along(m, rest, Claimed), Along(m, rest, Queued));
    }
  }

  lemma TwoQueues(p: seq<Event>, q: seq<Event>, r: seq<Event>,
                  out1: seq<Event>, in1: seq<Event>, out2: seq<Event>, in2: seq<Event>)
    requires out1 + q == p + in1 && out2 + r == q + in2
    ensures (out1 + out2) + r == p + (in1 + in2)
  {
    assert (out1 + out2) + r == out1 + (out2 + r);
    assert out1 + (q + in2) == (out1 + q) + in2;
  }

  lemma TwoBags(x: seq<Event>, y: seq<Event>, z: seq<Event>, a1: seq<Event>, c1: seq<Event>, q1: seq<Event>,
                a2: seq<Event>, c2: seq<Event>, q2: seq<Event>)
    requires x + a1 == c1 + q1 + y
    requires multiset(y) + multiset(a2) == multiset(c2) + multiset(q2) + multiset(z)
    ensures multiset(x) + multiset(a1 + a2) == multiset(c1 + c2) + multiset(q1 + q2) + multiset(z)
  {
    assert multiset(x) + multiset(a1) == multiset(x + a1) == multiset(c1 + q1 + y);
    assert multiset(c1 + q1 + y) == multiset(c1) + multiset(q1) + multiset(y);
    assert multiset(a1 + a2) == multiset(a1) + multiset(a2);
    assert multiset(c1 + c2) == multiset(c1) + multiset(c2) && multiset(q1 + q2) == multiset(q1) + multiset(q2);
    forall e ensures (multiset(x) + multiset(a1) + multiset(a2))[e]
                  == (multiset(c1) + multiset(c2) + (multiset(q1) + multiset(q2)) + multiset(z))[e]
    {
      assert multiset(x)[e] + multiset(a1)[e] == (multiset(x) + multiset(a1))[e];
      assert multiset(y)[e] + multiset(a2)[e] == (multiset(y) + multiset(a2))[e];
    }
  }

  /** The state with one more waiter, that of call `u`. */
  function Waiting(s: State, u: string, w: Waiter, h: Handler): State {
    s.(waiters := s.waiters + [w], next := s.next + 1, active := s.active[u := h])
  }

  lemma RegisterStep(s: State, u: string, app: string, arg: string)
    requires u in s.active && s.active[u].Idle?
    ensures var w := Waiter(s.next, u, app, arg);
            Step(s, Register(u, app, arg)) == Some(Waiting(s, u, w, Registered(w)))
  {
  }

  lemma TransmitStep(s: State, u: string, w: Waiter)
    ensures Step(Waiting(s, u, w, Registered(w)), Transmit(u)) == Some(Waiting(s, u, w, Sent(w)))
  {
    PutTwice(s.active, u, Registered(w), Sent(w));
  }

  lemma ClearStep(s: State, u: string, w: Waiter)
    requires Inv(s) && u in s.active && s.active[u].Idle? && w.id == s.next
    ensures Step(Waiting(s, u, w, Sent(w)), Clear(u)) == Some(s.(next := s.next + 1))
  {
    PutTwice(s.active, u, Sent(w), Idle);
    assert s.active[u := Idle] == s.active;
    WithoutLast(s.waiters, w);
  }

  /** An execute that is sent and then given up, on a timeout say, and the state after it. */
  lemma GivenUp(s: State, u: string, app: string, arg: string)
    requires Inv(s) && u in s.active && s.active[u].Idle?
    ensures Run(s, [Register(u, app, arg), Transmit(u), Clear(u)]) == Some(s.(next := s.next + 1))
  {
    var w := Waiter(s.next, u, app, arg);
    RegisterStep(s, u, app, arg);
    TransmitStep(s, u, w);
    ClearStep(s, u, w);
    ThreeSteps(s, Waiting(s, u, w, Registered(w)), Waiting(s, u, w, Sent(w)), s.(next := s.next + 1),
               Register(u, app, arg), Transmit(u), Clear(u));
  }

  lemma ThreeSteps(s: State, s1: State, s2: State, s3: State, a: Action, b: Action, c: Action)
    requires Step(s, a) == Some(s1) && Step(s1, b) == Some(s2) && Step(s2, c) == Some(s3)
    ensures Run(s, [a, b, c]) == Some(s3)
  {
    assert [a, b, c][1..] == [b, c];
    assert [b, c][1..] == [c];
    OneAction(s2, c);
  }

  lemma {:induction false} WithoutLast(ws: seq<Waiter>, w: Waiter)
    requires forall x :: x in ws ==> x.id != w.id
    ensures Without(ws + [w], w.id) == ws
    decreases |ws|
  {
    if ws == [] {
      assert ws + [w] == [w] && [w][1..] == [];
    } else {
      assert (ws + [w])[0] == ws[0] && (ws + [w])[1..] == ws[1..] + [w];
      WithoutLast(ws[1..], w);
    }
  }

  lemma SentNow(s: State, u: string, app: string, arg: string)
    requires Inv(s) && u in s.active && s.active[u].Idle?
    ensures var w, t := Waiter(s.next, u, app, arg), Run(s, [Register(u, app, arg), Transmit(u)]);
            t.Some? && Inv(t.value) && Waits(t.value, w) && t.value.signalled == s.signalled
                && t.value.reader == s.reader
  {
    var w := Waiter(s.next, u, app, arg);
    RegisterStep(s, u, app, arg);
    TransmitStep(s, u, w);
    assert [Register(u, app, arg), Transmit(u)][1..] == [Transmit(u)];
    OneAction(Waiting(s, u, w, Registered(w)), Transmit(u));
    RunKeeps(s, [Register(u, app, arg), Transmit(u)]);
  }

  /**
   * What matching by call, application and first word cannot tell apart: a completion that comes
   * after its execute has been given up is taken for the next execute of the same application on that call.
   */
  lemma LateCompletionSignalsNext(s: State, e: Event, app: string, arg: string)
    requires Inv(s) && e.uuid in s.active && s.active[e.uuid].Idle? && s.reader.AtSocket?
             && Completes(e, Waiter(s.next, e.uuid, app, arg))
    ensures var given, sent := [Register(e.uuid, app, arg), Transmit(e.uuid), Clear(e.uuid)],
            [Register(e.uuid, app, arg), Transmit(e.uuid)];
            var t := Run(s, given + sent + Handling(e, [], []));
            t.Some? && t.value.signalled == s.signalled[s.next + 1 := e]
  {
    var given, sent := [Register(e.uuid, app, arg), Transmit(e.uuid), Clear(e.uuid)],
        [Register(e.uuid, app, arg), Transmit(e.uuid)];
    GivenUp(s, e.uuid, app, arg);
    var m := s.(next := s.next + 1);
    SentNow(m, e.uuid, app, arg);
    RunConcat(s, given + sent, Handling(e, [], []));
    RunConcat(s, given, sent);
    var t := Run(m, sent).value;
    var held := t.(reader := Holding(e));
    var scanning := t.(reader := Scanning(e, t.waiters));
    assert Handling(e, [], []) == [Arrive(e), Copy, Scan];
    ThreeSteps(t, held, scanning, Step(scanning, Scan).value, Arrive(e), Copy, Scan);
    CompletionReachesItsWaiter(t, e, Waiter(s.next + 1, e.uuid, app, arg), [], []);
  }

  lemma PutTwice(m: map<string, Handler>, u: string, x: Handler, y: Handler)
    ensures m[u := x][u := y] == m[u := y]
  {
  }
}
