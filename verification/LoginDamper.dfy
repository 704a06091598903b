/**
 * The login damper of packages/telephony-operator/api.py (auth_gate over check_extension_auth), each
 * attempt as one atomic step. The clock is real-valued; a password's hash stands for the pair it hashes.
 */
module LoginDamper {
  import opened Wrappers

  const CACHE_TTL: real := 300.0
  const FAIL_LIMIT: nat := 5
  const FAIL_WINDOW: real := 600.0
  const LOCK: real := 900.0

  /** [count, time of the last failure, locked until]. */
  datatype Entry = Entry(count: nat, last: real, until: real)

  datatype State = State(fails: map<string, Entry>, cache: map<(string, string), real>)

  const START: State := State(map[], map[])

  /** `right` is the directory's answer, false also when it cannot be asked. */
  datatype Attempt = Attempt(ext: string, password: string, now: real, right: bool)

  datatype Outcome = Refused(retry: int) | Accepted | Failed(retry: int)

  predicate Locked(s: State, ext: string, now: real) { ext in s.fails && s.fails[ext].until > now }

  predicate Cached(s: State, a: Attempt) {
    (a.ext, a.password) in s.cache && s.cache[(a.ext, a.password)] != 0.0 && s.cache[(a.ext, a.password)] > a.now
  }

  /** check_extension_auth: a cached success is not asked again, an expired one is dropped. */
  function Check(s: State, a: Attempt): (State, bool) {
    if Cached(s, a) then (s, true)
    else
      var t := s.(cache := s.cache - {(a.ext, a.password)});
      if a.right then (t.(cache := t.cache[(a.ext, a.password) := a.now + CACHE_TTL]), true) else (t, false)
  }

  /** The count after one more failure. */
  function CountAfter(s: State, ext: string, now: real): nat {
    if ext in s.fails && now - s.fails[ext].last < FAIL_WINDOW then s.fails[ext].count + 1 else 1
  }

  function EntryAfter(s: State, ext: string, now: real): Entry {
    if CountAfter(s, ext, now) >= FAIL_LIMIT then Entry(0, now, now + LOCK)
    else Entry(CountAfter(s, ext, now), now, 0.0)
  }

  function Gate(s: State, a: Attempt): (State, Outcome) {
    if Locked(s, a.ext, a.now) then (s, Refused((s.fails[a.ext].until - a.now).Floor + 1))
    else
      var checked := Check(s, a);
      var t := checked.0;
      if checked.1 then (t.(fails := t.fails - {a.ext}), Accepted)
      else (t.(fails := t.fails[a.ext := EntryAfter(s, a.ext, a.now)]),
            Failed(if CountAfter(s, a.ext, a.now) >= FAIL_LIMIT then 900 else 0))
  }

  class Damper {
    var fails: map<string, Entry>
    var cache: map<(string, string), real>

    function View(): State
      reads this
    {
      State(fails, cache)
    }

    constructor ()
      ensures View() == START
    {
      fails, cache := map[], map[];
    }

    method CheckExtensionAuth(a: Attempt) returns (ok: bool)
      modifies this`cache
      ensures (View(), ok) == Check(old(View()), a)
    {
      var key := (a.ext, a.password);
      if key in cache && cache[key] != 0.0 && cache[key] > a.now { return true; }
      cache := cache - {key};
      if !a.right { return false; }
      cache := cache[key := a.now + CACHE_TTL];
      return true;
    }

    /** What the caller sees: whether the password passed, and after how many seconds to come back. */
    method AuthGate(a: Attempt) returns (ok: bool, retry: int)
      modifies this
      ensures View() == Gate(old(View()), a).0
      ensures ok == Gate(old(View()), a).1.Accepted?
      ensures retry == match Gate(old(View()), a).1
                       case Refused(r) => r
                       case Accepted => 0
                       case Failed(r) => r
    {
      if a.ext in fails && fails[a.ext].until > a.now { return false, (fails[a.ext].until - a.now).Floor + 1; }
      var right := CheckExtensionAuth(a);
      if right {
        fails := fails - {a.ext};
        return true, 0;
      }
      var inWindow := a.ext in fails && a.now - fails[a.ext].last < FAIL_WINDOW;
      var count := if inWindow then fails[a.ext].count + 1 else 1;
      if count >= FAIL_LIMIT {
        fails := fails[a.ext := Entry(0, a.now, a.now + LOCK)];
        return false, 900;
      }
      fails := fails[a.ext := Entry(count, a.now, 0.0)];
      return false, 0;
    }
  }

  // ----- what an attempt comes to

  /**
   * One attempt, in full: refused while the lock lasts, without a change; else the check, whose success wipes the
   * extension's books, and whose failure counts if the last one is less than ten minutes old, and the fifth
   * locks for fifteen minutes.
   */
  lemma GateMeans(s: State, a: Attempt)
    ensures var g := Gate(s, a);
            var passes := a.right || ((a.ext, a.password) in s.cache && s.cache[(a.ext, a.password)] > a.now
                                      && s.cache[(a.ext, a.password)] != 0.0);
            if a.ext in s.fails && s.fails[a.ext].until > a.now then g.0 == s && g.1.Refused?
            else if passes then g.1 == Accepted && g.0.fails == s.fails - {a.ext}
            else
              var n := if a.ext in s.fails && a.now - s.fails[a.ext].last < 600.0 then s.fails[a.ext].count + 1 else 1;
              if n >= 5 then g.1 == Failed(900) && g.0.fails == s.fails[a.ext := Entry(0, a.now, a.now + 900.0)]
              else g.1 == Failed(0) && g.0.fails == s.fails[a.ext := Entry(n, a.now, 0.0)]
  {
  }

  // ----- histories

  function Run(s: State, attempts: seq<Attempt>): State
    decreases |attempts|
  {
    if attempts == [] then s else Gate(Run(s, attempts[..|attempts| - 1]), attempts[|attempts| - 1]).0
  }

  function OutcomeAt(s: State, attempts: seq<Attempt>, i: nat): Outcome
    requires i < |attempts|
  {
    Gate(Run(s, attempts[..i]), attempts[i]).1
  }

  predicate Ordered(attempts: seq<Attempt>) {
    && (forall i :: 0 <= i < |attempts| ==> attempts[i].now >= 0.0)
    && forall i, j :: 0 <= i < j < |attempts| ==> attempts[i].now <= attempts[j].now
  }

  /**
   * What every history keeps of an extension: fewer than five failures on the books, and a lock only after the fifth.
   */
  predicate Booked(e: Entry) {
    e.count < FAIL_LIMIT && (e.count == 0 ==> e.until == e.last + LOCK) && (e.count > 0 ==> e.until == 0.0)
  }

  ghost predicate Inv(s: State) { forall ext :: ext in s.fails ==> Booked(s.fails[ext]) }

  lemma GateKeeps(s: State, a: Attempt)
    requires Inv(s)
    ensures Inv(Gate(s, a).0)
  {
  }

  lemma {:induction false} RunKeeps(s: State, attempts: seq<Attempt>)
    requires Inv(s)
    ensures Inv(Run(s, attempts))
    decreases |attempts|
  {
    if attempts != [] {
      RunKeeps(s, attempts[..|attempts| - 1]);
      GateKeeps(Run(s, attempts[..|attempts| - 1]), attempts[|attempts| - 1]);
    }
  }

  // ----- the rate bound

  /** How many password checks of the extension failed. */
  function Failures(s: State, attempts: seq<Attempt>, ext: string): nat
    decreases |attempts|
  {
    if attempts == [] then 0
    else
      var front, a := attempts[..|attempts| - 1], attempts[|attempts| - 1];
      Failures(s, front, ext) + if a.ext == ext && Gate(Run(s, front), a).1.Failed? then 1 else 0
  }

  ghost predicate NoSuccess(s: State, attempts: seq<Attempt>, ext: string) {
    forall i :: 0 <= i < |attempts| && attempts[i].ext == ext ==> !OutcomeAt(s, attempts, i).Accepted?
  }

  /** How many failures the entry can stand for without time having passed: a lock is the fifth. */
  function Burst(e: Entry): nat { if e.count == 0 then 5 else e.count }

  /** `n` failures since `start`: paid for by the windows and locks in between, but for the last burst. */
  ghost predicate PaidFor(s: State, ext: string, start: real, n: nat) {
    && ext in s.fails && Booked(s.fails[ext]) && s.fails[ext].last >= start
    && s.fails[ext].last - start >= 150.0 * (n as real - Burst(s.fails[ext]) as real)
    && exists gaps: nat :: s.fails[ext].last - start >= 600.0 * gaps as real && n <= 5 * gaps + Burst(s.fails[ext])
  }

  /** A failure comes within the window, or after the window or the lock has passed. */
  lemma FailurePays(s: State, a: Attempt, start: real, n: nat)
    requires PaidFor(s, a.ext, start, n) && Gate(s, a).1.Failed? && a.now >= s.fails[a.ext].last && a.now >= 0.0
    ensures PaidFor(Gate(s, a).0, a.ext, start, n + 1)
  {
    var e, t := s.fails[a.ext], Gate(s, a).0;
    var g := t.fails[a.ext];
    var gaps: nat :| e.last - start >= 600.0 * gaps as real && n <= 5 * gaps + Burst(e);
    if a.now - e.last < FAIL_WINDOW {
      assert e.count > 0;
      assert Burst(g) == Burst(e) + 1;
      assert n + 1 <= 5 * gaps + Burst(g);
    } else {
      assert Burst(g) == 1;
      var more: nat := gaps + 1;
      assert g.last - start >= 600.0 * more as real && n + 1 <= 5 * more + Burst(g);
    }
  }

  lemma OtherAttempt(s: State, a: Attempt, ext: string)
    requires a.ext != ext || Gate(s, a).1.Refused?
    ensures ext in Gate(s, a).0.fails <==> ext in s.fails
    ensures ext in s.fails ==> Gate(s, a).0.fails[ext] == s.fails[ext]
  {
  }

  lemma FirstFailure(s: State, a: Attempt)
    requires Inv(s) && Gate(s, a).1.Failed?
    ensures PaidFor(Gate(s, a).0, a.ext, a.now, 1)
  {
    var g := Gate(s, a).0.fails[a.ext];
    assert g.last - a.now >= 600.0 * 0 as real && 1 <= 5 * 0 + Burst(g);
  }

  /** From a first failure on, with no success, every failure is paid for. */
  lemma {:induction false} HistoryPays(s: State, attempts: seq<Attempt>, ext: string)
    requires Inv(s) && Ordered(attempts) && attempts != [] && attempts[0].ext == ext && Gate(s, attempts[0]).1.Failed?
    requires NoSuccess(s, attempts, ext)
    ensures PaidFor(Run(s, attempts), ext, attempts[0].now, Failures(s, attempts, ext))
    ensures Run(s, attempts).fails[ext].last <= attempts[|attempts| - 1].now
    decreases |attempts|
  {
    var front, a := attempts[..|attempts| - 1], attempts[|attempts| - 1];
    if |attempts| == 1 {
      assert front == [];
      FirstFailure(s, a);
    } else {
      forall i | 0 <= i < |front| && front[i].ext == ext ensures !OutcomeAt(s, front, i).Accepted? {
        assert front[..i] == attempts[..i] && !OutcomeAt(s, attempts, i).Accepted?;
      }
      HistoryPays(s, front, ext);
      var before := Run(s, front);
      assert attempts[..|attempts| - 1] == front
             && (a.ext == ext ==> !OutcomeAt(s, attempts, |attempts| - 1).Accepted?);
      assert attempts[|front| - 1].now <= a.now;
      if a.ext == ext && Gate(before, a).1.Failed? {
        FailurePays(before, a, attempts[0].now, Failures(s, front, ext));
      } else {
        OtherAttempt(before, a, ext);
      }
    }
  }

  /**
   * The rate bound: on one extension, with no success in between, 5k + 1 failing checks take at least
   * 600 k seconds; and n of them take at least 150 (n - 5), whatever other extensions do.
   */
  lemma RateBound(s: State, attempts: seq<Attempt>, ext: string, k: nat)
    requires Inv(s) && Ordered(attempts) && attempts != [] && attempts[0].ext == ext && Gate(s, attempts[0]).1.Failed?
    requires NoSuccess(s, attempts, ext)
    ensures var n, span := Failures(s, attempts, ext), attempts[|attempts| - 1].now - attempts[0].now;
            && (n >= 5 * k + 1 ==> span >= 600.0 * k as real)
            && span >= 150.0 * (n as real - 5.0)
  {
    HistoryPays(s, attempts, ext);
    var t := Run(s, attempts);
    var n, e := Failures(s, attempts, ext), t.fails[ext];
    var gaps: nat :| e.last - attempts[0].now >= 600.0 * gaps as real && n <= 5 * gaps + Burst(e);
    if n >= 5 * k + 1 { assert gaps >= k; }
  }

  // ----- the cache

  /**
   * Until when the directory's last word for the password is trusted: five minutes from the attempt that asked
   * it and was right; attempts before that do not ask, and refused ones do nothing.
   */
  function TrustedUntil(attempts: seq<Attempt>, ext: string, password: string): real {
    if attempts == [] then 0.0
    else
      var front, a := attempts[..|attempts| - 1], attempts[|attempts| - 1];
      var before := TrustedUntil(front, ext, password);
      if a.ext != ext || a.password != password || OutcomeAt(START, attempts, |attempts| - 1).Refused? || a.now < before
      then before
      else if a.right then a.now + 300.0
      else 0.0
  }

  lemma {:induction false} CacheIs(attempts: seq<Attempt>, ext: string, password: string)
    requires Ordered(attempts)
    ensures var s, t := Run(START, attempts), TrustedUntil(attempts, ext, password);
            if (ext, password) in s.cache then s.cache[(ext, password)] == t && t > 0.0 else t == 0.0
    decreases |attempts|
  {
    if attempts != [] {
      var front, a := attempts[..|attempts| - 1], attempts[|attempts| - 1];
      CacheIs(front, ext, password);
      assert attempts[..|attempts| - 1] == front;
    }
  }

  /** Over any history an attempt that is not refused passes exactly if the directory says so or has said so lately. */
  lemma PassesExactly(attempts: seq<Attempt>, i: nat)
    requires Ordered(attempts) && i < |attempts| && !OutcomeAt(START, attempts, i).Refused?
    ensures var a := attempts[i];
            OutcomeAt(START, attempts, i).Accepted? <==>
              a.right || a.now < TrustedUntil(attempts[..i], a.ext, a.password)
  {
    CacheIs(attempts[..i], attempts[i].ext, attempts[i].password);
  }

  // ----- the lock

  /**
   * After the failure that locks, and until the lock is over, every attempt on the extension is refused without a
   * check.
   */
  lemma {:induction false} LockHolds(s: State, attempts: seq<Attempt>, ext: string, t: real)
    requires ext in s.fails && s.fails[ext].until == t && forall i :: 0 <= i < |attempts| ==> attempts[i].now < t
    ensures ext in Run(s, attempts).fails && Run(s, attempts).fails[ext] == s.fails[ext]
    ensures forall i :: 0 <= i < |attempts| && attempts[i].ext == ext ==> OutcomeAt(s, attempts, i).Refused?
    decreases |attempts|
  {
    if attempts != [] {
      var front, a := attempts[..|attempts| - 1], attempts[|attempts| - 1];
      LockHolds(s, front, ext, t);
      forall i | 0 <= i < |attempts| && attempts[i].ext == ext ensures OutcomeAt(s, attempts, i).Refused? {
        if i < |front| {
          assert front[..i] == attempts[..i];
          assert OutcomeAt(s, front, i).Refused?;
        } else {
          assert attempts[..i] == front;
        }
      }
      OtherAttempt(Run(s, front), a, ext);
    }
  }

  /**
   * A locked attempt changes nothing, even with a cached password; the seconds it is told are enough, by less than
   * one.
   */
  lemma LockWins(s: State, a: Attempt)
    requires Locked(s, a.ext, a.now)
    ensures Gate(s, a).0 == s && Gate(s, a).1.Refused?
    ensures var back := a.now + Gate(s, a).1.retry as real;
            !Locked(s, a.ext, back) && s.fails[a.ext].until < back <= s.fails[a.ext].until + 1.0
  {
  }

  // ----- the bound is met

  /** `n` failures of one wrong password at the same moment. */
  function Storm(ext: string, now: real, n: nat): seq<Attempt> {
    if n == 0 then [] else Storm(ext, now, n - 1) + [Attempt(ext, "guess", now, false)]
  }

  /** Four failures every ten minutes, `bursts` times, and five at the end. */
  function Bursts(ext: string, bursts: nat): seq<Attempt> {
    if bursts == 0 then [] else Bursts(ext, bursts - 1) + Storm(ext, 600.0 * (bursts - 1) as real, FAIL_LIMIT - 1)
  }

  /** The entry before a storm does not lock, and its window is over. */
  predicate Rested(s: State, ext: string, now: real) {
    s.cache == map[] && (ext in s.fails ==> s.fails[ext].until <= now && now - s.fails[ext].last >= FAIL_WINDOW)
  }

  /** `n` failures at `now`, from a rest. */
  predicate Stormed(s: State, ext: string, now: real, n: nat) {
    if n == 0 then Rested(s, ext, now)
    else
      && s.cache == map[] && ext in s.fails
      && s.fails[ext] == if n == 5 then Entry(0, now, now + LOCK) else Entry(n, now, 0.0)
  }

  lemma StormGoesOn(s: State, ext: string, now: real, n: nat)
    requires n < 5 && now >= 0.0 && Stormed(s, ext, now, n)
    ensures var g := Gate(s, Attempt(ext, "guess", now, false)); g.1.Failed? && Stormed(g.0, ext, now, n + 1)
  {
    var a := Attempt(ext, "guess", now, false);
    assert s.cache - {(ext, "guess")} == map[];
    assert CountAfter(s, ext, now) == n + 1;
  }

  lemma RunMore(attempts: seq<Attempt>, a: Attempt)
    ensures Run(START, attempts + [a]) == Gate(Run(START, attempts), a).0
    ensures Failures(START, attempts + [a], a.ext) == Failures(START, attempts, a.ext)
            + if Gate(Run(START, attempts), a).1.Failed? then 1 else 0
  {
    assert (attempts + [a])[..|attempts + [a]| - 1] == attempts;
  }

  lemma {:induction false} StormCounts(attempts: seq<Attempt>, ext: string, now: real, n: nat)
    requires n <= 5 && now >= 0.0 && Rested(Run(START, attempts), ext, now)
    ensures Stormed(Run(START, attempts + Storm(ext, now, n)), ext, now, n)
    ensures Failures(START, attempts + Storm(ext, now, n), ext) == Failures(START, attempts, ext) + n
    decreases n
  {
    if n == 0 {
      assert attempts + [] == attempts;
    } else {
      var before, a := attempts + Storm(ext, now, n - 1), Attempt(ext, "guess", now, false);
      StormCounts(attempts, ext, now, n - 1);
      assert attempts + Storm(ext, now, n) == before + [a];
      StormGoesOn(Run(START, before), ext, now, n - 1);
      RunMore(before, a);
    }
  }

  lemma {:induction false} BurstsCount(ext: string, bursts: nat)
    ensures Failures(START, Bursts(ext, bursts), ext) == 4 * bursts
            && Rested(Run(START, Bursts(ext, bursts)), ext, 600.0 * bursts as real)
    decreases bursts
  {
    if bursts > 0 {
      BurstsCount(ext, bursts - 1);
      OneBurst(Bursts(ext, bursts - 1), ext, 600.0 * (bursts - 1) as real, 600.0 * bursts as real, Bursts(ext, bursts));
    }
  }

  lemma OneBurst(attempts: seq<Attempt>, ext: string, now: real, later: real, all: seq<Attempt>)
    requires Rested(Run(START, attempts), ext, now) && now >= 0.0 && later == now + 600.0
             && all == attempts + Storm(ext, now, FAIL_LIMIT - 1)
    ensures Failures(START, all, ext) == Failures(START, attempts, ext) + 4 && Rested(Run(START, all), ext, later)
  {
    StormCounts(attempts, ext, now, FAIL_LIMIT - 1);
    RestAfterFour(Run(START, all), ext, now, later);
  }

  lemma RestAfterFour(s: State, ext: string, now: real, later: real)
    requires Stormed(s, ext, now, 4) && later == now + 600.0 && now >= 0.0
    ensures Rested(s, ext, later)
  {
  }

  function Guesses(ext: string, bursts: nat): seq<Attempt> {
    Bursts(ext, bursts) + Storm(ext, 600.0 * bursts as real, FAIL_LIMIT)
  }

  /**
   * The bound of 150 (n - 5) seconds for n failures is met, by arbitrarily long histories that lock
   * only at the very end: here are n = 4 bursts + 5 failures, and below the 600 bursts seconds they take.
   */
  lemma BoundIsMet(ext: string, bursts: nat, attempts: seq<Attempt>)
    requires attempts == Guesses(ext, bursts)
    ensures Failures(START, attempts, ext) == 4 * bursts + 5
  {
    BurstsCount(ext, bursts);
    LastStorm(Bursts(ext, bursts), ext, 600.0 * bursts as real, 4 * bursts, attempts);
  }

  lemma LastStorm(front: seq<Attempt>, ext: string, now: real, n: nat, attempts: seq<Attempt>)
    requires Rested(Run(START, front), ext, now) && now >= 0.0 && n == Failures(START, front, ext)
    requires attempts == front + Storm(ext, now, FAIL_LIMIT)
    ensures Failures(START, attempts, ext) == n + 5
  {
    StormCounts(front, ext, now, FAIL_LIMIT);
  }

  lemma {:induction false} SpanIsMet(ext: string, bursts: nat)
    ensures var attempts := Guesses(ext, bursts);
            |attempts| > 0 && attempts[0].now == 0.0 && attempts[|attempts| - 1].now == 600.0 * bursts as real
    decreases bursts
  {
    StormIs(ext, 600.0 * bursts as real, FAIL_LIMIT);
    if bursts > 0 {
      SpanIsMet(ext, bursts - 1);
      StormIs(ext, 600.0 * (bursts - 1) as real, FAIL_LIMIT - 1);
      StormIs(ext, 600.0 * (bursts - 1) as real, FAIL_LIMIT);
    }
  }

  lemma {:induction false} StormIs(ext: string, now: real, n: nat)
    ensures |Storm(ext, now, n)| == n && forall i :: 0 <= i < n ==> Storm(ext, now, n)[i].now == now
    decreases n
  {
    if n > 0 { StormIs(ext, now, n - 1); }
  }
}
