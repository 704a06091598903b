/**
 * The session layer of modules/telephony/oidc_session.py: the value of the session cookie, and the
 * store of pending logins. HMAC and int() are parameters; what is assumed of them is in the lemmas.
 */
module OidcSession {
  import opened Wrappers

  const VERSION := "v1"
  const STATE_MAX_AGE: int := 600

  type Key = string

  datatype Crypto = Crypto(sign: (Key, string) -> string, number: string -> Option<int>)

  // ----- dots

  /** One more character at the front of a text that splits into `parts`. */
  function Push(c: char, parts: seq<string>): (more: seq<string>)
    requires parts != []
    ensures more != []
  {
    if c == '.' then [""] + parts else [[c] + parts[0]] + parts[1..]
  }

  /** value.split("."). */
  function Split(s: string): (parts: seq<string>)
    ensures parts != []
  {
    if s == "" then [""] else Push(s[0], Split(s[1..]))
  }

  lemma PushConcat(c: char, x: seq<string>, y: seq<string>)
    requires x != []
    ensures Push(c, x + y) == Push(c, x) + y
  {
    assert (x + y)[0] == x[0] && (x + y)[1..] == x[1..] + y;
  }

  function Join(parts: seq<string>): string
    requires parts != []
  {
    if |parts| == 1 then parts[0] else parts[0] + "." + Join(parts[1..])
  }

  predicate NoDot(s: string) { '.' !in s }

  lemma {:induction false} SplitPlain(s: string, rest: string)
    requires NoDot(s)
    ensures Split(s) == [s]
    ensures Split(s + "." + rest) == [s] + Split(rest)
    decreases |s|
  {
    var all := s + "." + rest;
    if s == "" {
      assert all[0] == '.' && all[1..] == rest;
    } else {
      SplitPlain(s[1..], rest);
      assert all[0] == s[0] && all[1..] == s[1..] + "." + rest;
      assert [s[0]] + s[1..] == s;
    }
  }

  lemma {:induction false} SplitJoin(parts: seq<string>)
    requires parts != [] && forall p :: p in parts ==> NoDot(p)
    ensures Split(Join(parts)) == parts
    decreases |parts|
  {
    if |parts| == 1 {
      SplitPlain(parts[0], "");
    } else {
      SplitJoin(parts[1..]);
      SplitPlain(parts[0], Join(parts[1..]));
    }
  }

  lemma {:induction false} JoinSplit(s: string)
    ensures Join(Split(s)) == s
    ensures forall p :: p in Split(s) ==> NoDot(p)
    decreases |s|
  {
    if s != "" {
      JoinSplit(s[1..]);
      var rest := Split(s[1..]);
      if s[0] == '.' {
        assert Split(s) == [""] + rest && ([""] + rest)[1..] == rest;
        assert "" + "." + s[1..] == s;
      } else {
        var parts := [[s[0]] + rest[0]] + rest[1..];
        assert parts[1..] == rest[1..];
        assert rest[0] in rest && NoDot(rest[0]);
        assert NoDot(parts[0]) && forall p :: p in rest[1..] ==> p in rest;
        if |rest| > 1 {
          assert ([s[0]] + rest[0]) + "." + Join(rest[1..]) == [s[0]] + (rest[0] + "." + Join(rest[1..]));
        }
      }
    }
  }

  /** A text with a dot splits in two or more, and takes the parts around it along. */
  lemma {:induction false} DotSplits(s: string)
    requires '.' in s
    ensures |Split(s)| >= 2
    decreases |s|
  {
    if s[0] != '.' { DotSplits(s[1..]); }
  }

  lemma {:induction false} SplitConcat(s: string, rest: string)
    ensures Split(s + "." + rest) == Split(s) + Split(rest)
    decreases |s|
  {
    var all := s + "." + rest;
    if s == "" {
      assert all[0] == '.' && all[1..] == rest;
    } else {
      assert all[0] == s[0] && all[1..] == s[1..] + "." + rest;
      SplitConcat(s[1..], rest);
      PushConcat(s[0], Split(s[1..]), Split(rest));
    }
  }

  // ----- the session cookie's value

  function Digits(n: nat): string {
    (if n < 10 then "" else Digits(n / 10)) + [(('0' as int) + n % 10) as char]
  }

  lemma {:induction false} DigitsNoDot(n: nat)
    ensures NoDot(Digits(n))
    decreases n
  {
    if n >= 10 { DigitsNoDot(n / 10); }
  }

  function Payload(expires: nat, username: string, nonce: string): string {
    VERSION + "." + (Digits(expires) + "." + (username + "." + nonce))
  }

  function Mint(c: Crypto, key: Key, expires: nat, username: string, nonce: string): string {
    Payload(expires, username, nonce) + "." + c.sign(key, Payload(expires, username, nonce))
  }

  /** None for a request without a session. */
  function Identity(c: Crypto, key: Key, value: string, now: int): Option<string> {
    var parts := Split(value);
    if |parts| != 5 || parts[0] != VERSION then None
    else if parts[4] != c.sign(key, Join(parts[..4])) then None
    else match c.number(parts[1])
         case None => None
         case Some(expires) => if expires <= now then None else Some(parts[2])
  }

  /** What is assumed of the outside: signatures and nonces have no dot, and int() reads a printed number. */
  ghost predicate Sound(c: Crypto) {
    && (forall k, p :: NoDot(c.sign(k, p)))
    && (forall n: nat :: c.number(Digits(n)) == Some(n))
  }

  lemma MintedParts(c: Crypto, key: Key, expires: nat, username: string, nonce: string)
    requires Sound(c) && NoDot(nonce)
    ensures Split(Mint(c, key, expires, username, nonce))
         == [VERSION, Digits(expires)] + Split(username) + [nonce, c.sign(key, Payload(expires, username, nonce))]
  {
    var sig := c.sign(key, Payload(expires, username, nonce));
    DigitsNoDot(expires);
    SplitConcat(Payload(expires, username, nonce), sig);
    SplitPlain(sig, "");
    SplitPlain(VERSION, Digits(expires) + "." + (username + "." + nonce));
    SplitPlain(Digits(expires), username + "." + nonce);
    SplitConcat(username, nonce);
    SplitPlain(nonce, "");
  }

  lemma JoinFour(a: string, b: string, c: string, d: string)
    ensures Join([a, b, c, d]) == a + "." + (b + "." + (c + "." + d))
  {
    assert [a, b, c, d][1..] == [b, c, d] && [b, c, d][1..] == [c, d] && [c, d][1..] == [d];
    assert Join([d]) == d && Join([c, d]) == c + "." + d && Join([b, c, d]) == b + "." + Join([c, d]);
  }

  /** Round trip: a minted value names its user, before it expires, if and only if the name has no dot. */
  lemma MintedIdentity(c: Crypto, key: Key, expires: nat, username: string, nonce: string, now: int)
    requires Sound(c) && NoDot(nonce) && now < expires
    ensures Identity(c, key, Mint(c, key, expires, username, nonce), now)
            == if NoDot(username) then Some(username) else None
  {
    MintedParts(c, key, expires, username, nonce);
    var parts := Split(Mint(c, key, expires, username, nonce));
    if NoDot(username) {
      SplitPlain(username, "");
      assert parts == [VERSION, Digits(expires), username, nonce, c.sign(key, Payload(expires, username, nonce))];
      assert parts[..4] == [VERSION, Digits(expires), username, nonce];
      JoinFour(VERSION, Digits(expires), username, nonce);
    } else {
      DotSplits(username);
    }
  }

  /**
   * What identity accepts: five parts without dots, the signature over the first four, not expired; and nothing else.
   */
  lemma AcceptsExactly(c: Crypto, key: Key, value: string, now: int, username: string)
    ensures Identity(c, key, value, now) == Some(username) <==>
              exists stamp, nonce, sig ::
                && NoDot(stamp) && NoDot(username) && NoDot(nonce) && NoDot(sig)
                && value == Join(["v1", stamp, username, nonce, sig])
                && sig == c.sign(key, Join(["v1", stamp, username, nonce]))
                && c.number(stamp).Some? && c.number(stamp).value > now
  {
    if Identity(c, key, value, now) == Some(username) {
      JoinSplit(value);
      var parts := Split(value);
      assert parts == [VERSION, parts[1], username, parts[3], parts[4]];
      assert parts[..4] == [VERSION, parts[1], username, parts[3]];
      assert NoDot(parts[1]) && NoDot(parts[2]) && NoDot(parts[3]) && NoDot(parts[4]);
    }
    forall stamp, nonce, sig |
      && NoDot(stamp) && NoDot(username) && NoDot(nonce) && NoDot(sig)
      && value == Join([VERSION, stamp, username, nonce, sig])
      && sig == c.sign(key, Join([VERSION, stamp, username, nonce]))
      && c.number(stamp).Some? && c.number(stamp).value > now
      ensures Identity(c, key, value, now) == Some(username)
    {
      var parts := [VERSION, stamp, username, nonce, sig];
      SplitJoin(parts);
      assert parts[..4] == [VERSION, stamp, username, nonce];
    }
  }

  // ----- pending logins

  datatype Pending = Pending(nonce: string, verifier: string, at: int)

  type Store = map<string, Pending>

  function Issue(store: Store, state: string, p: Pending): Store {
    (map k | k in store && p.at - store[k].at < STATE_MAX_AGE :: store[k])[state := p]
  }

  /** The part of handle_callback before the exchange; an absent parameter or cookie is "". */
  function Take(store: Store, code: string, state: string, cookie: string): (Store, Option<Pending>) {
    if code == "" || state == "" || cookie == "" || state != cookie || state !in store then (store, None)
    else (store - {state}, Some(store[state]))
  }

  class Logins {
    var pending: Store

    constructor ()
      ensures pending == map[]
    {
      pending := map[];
    }

    method LoginRedirect(state: string, nonce: string, verifier: string, now: int)
      modifies this
      ensures pending == Issue(old(pending), state, Pending(nonce, verifier, now))
    {
      pending := map k | k in pending && now - pending[k].at < STATE_MAX_AGE :: pending[k];
      pending := pending[state := Pending(nonce, verifier, now)];
    }

    /** The verifier to exchange, or None for the state error. */
    method HandleCallback(code: string, state: string, cookie: string) returns (p: Option<Pending>)
      modifies this
      ensures (pending, p) == Take(old(pending), code, state, cookie)
    {
      if code == "" || state == "" || cookie == "" || state != cookie { return None; }
      if state !in pending { return None; }
      p := Some(pending[state]);
      pending := pending - {state};
    }
  }

  datatype Step = Login(state: string, p: Pending) | Callback(code: string, state: string, cookie: string)

  function After(steps: seq<Step>): Store {
    if steps == [] then map[]
    else
      var store := After(steps[..|steps| - 1]);
      match steps[|steps| - 1]
      case Login(state, p) => Issue(store, state, p)
      case Callback(code, state, cookie) => Take(store, code, state, cookie).0
  }

  predicate Accepts(steps: seq<Step>, i: nat)
    requires i < |steps|
  {
    steps[i].Callback? && Take(After(steps[..i]), steps[i].code, steps[i].state, steps[i].cookie).1.Some?
  }

  function Issued(steps: seq<Step>, state: string): nat {
    if steps == [] then 0
    else
      var last := steps[|steps| - 1];
      Issued(steps[..|steps| - 1], state) + if last.Login? && last.state == state then 1 else 0
  }

  function AcceptedCount(steps: seq<Step>, state: string): nat {
    if steps == [] then 0
    else
      var last := steps[|steps| - 1];
      AcceptedCount(steps[..|steps| - 1], state) + if Accepts(steps, |steps| - 1) && last.state == state then 1 else 0
  }

  /**
   * Over any run a state is accepted at most as often as it was issued; so one that was issued once
   * is accepted at most once, and one that never was, never.
   */
  lemma {:induction false} SingleUse(steps: seq<Step>, state: string)
    ensures AcceptedCount(steps, state) + (if state in After(steps) then 1 else 0) <= Issued(steps, state)
    decreases |steps|
  {
    if steps != [] { SingleUse(steps[..|steps| - 1], state); }
  }

  /** A login leaves only states younger than ten minutes. */
  lemma LoginPrunes(store: Store, state: string, p: Pending)
    ensures var after := Issue(store, state, p);
            && state in after && after[state] == p
            && (forall k :: k != state ==> (k in after <==> k in store && p.at - store[k].at < 600))
            && forall k :: k != state && k in after ==> after[k] == store[k]
  {
  }

  /**
   * A callback is accepted exactly when it has a code and its state, which is not empty, is the cookie's and
   * is stored; it takes that state out and no other, and a callback that is not accepted changes nothing.
   */
  lemma CallbackMeans(store: Store, code: string, state: string, cookie: string)
    ensures var taken := Take(store, code, state, cookie);
            if code != "" && state != "" && cookie == state && state in store
            then taken.1 == Some(store[state]) && taken.0 == store - {state}
            else taken == (store, None)
  {
  }

  /** The step gives the state away, or replaces it, or drops it for its age. */
  predicate Ends(step: Step, state: string, p: Pending) {
    match step
    case Login(s, q) => s == state || q.at - p.at >= 600
    case Callback(code, s, cookie) => code != "" && s == state && cookie == state && state != ""
  }

  /** Step j made the pending login, and no step after it has ended it. */
  ghost predicate Standing(steps: seq<Step>, j: nat, state: string, p: Pending) {
    j < |steps| && steps[j] == Login(state, p) && forall m :: j < m < |steps| ==> !Ends(steps[m], state, p)
  }

  lemma StandingMore(front: seq<Step>, last: Step, j: nat, state: string, p: Pending)
    ensures Standing(front + [last], j, state, p) <==>
              if j == |front| then last == Login(state, p) else Standing(front, j, state, p) && !Ends(last, state, p)
  {
    var steps := front + [last];
    assert forall m :: 0 <= m < |front| ==> steps[m] == front[m];
    assert steps[|front|] == last;
  }

  lemma StoredStep(steps: seq<Step>, state: string, p: Pending)
    requires steps != []
    ensures var before, last := After(steps[..|steps| - 1]), steps[|steps| - 1];
            state in After(steps) && After(steps)[state] == p <==>
              last == Login(state, p) || (state in before && before[state] == p && !Ends(last, state, p))
  {
  }

  /** A pending login is on store exactly from the step that made it to the first that ends it. */
  lemma {:induction false} StoredExactly(steps: seq<Step>, state: string, p: Pending)
    ensures state in After(steps) && After(steps)[state] == p <==> exists j: nat :: Standing(steps, j, state, p)
    decreases |steps|
  {
    if steps != [] {
      var n := |steps| - 1;
      var front, last := steps[..n], steps[n];
      assert front + [last] == steps;
      StoredExactly(front, state, p);
      StoredStep(steps, state, p);
      if j: nat :| Standing(steps, j, state, p) { StandingMore(front, last, j, state, p); }
      if last == Login(state, p) { StandingMore(front, last, n, state, p); }
      if state in After(front) && After(front)[state] == p {
        var j: nat :| Standing(front, j, state, p);
        StandingMore(front, last, j, state, p);
      }
    }
  }

  /** But a callback does not look at the age: a state stays good, however long, until the next login. */
  lemma {:induction false} NoLoginNoExpiry(steps: seq<Step>, state: string, p: Pending, later: seq<Step>)
    requires forall i :: 0 <= i < |later| ==> later[i].Callback? && later[i].state != state
    ensures var run := steps + [Login(state, p)] + later; state in After(run) && After(run)[state] == p
    decreases |later|
  {
    var run := steps + [Login(state, p)] + later;
    if later == [] {
      assert run[..|run| - 1] == steps && run[|run| - 1] == Login(state, p);
    } else {
      NoLoginNoExpiry(steps, state, p, later[..|later| - 1]);
      assert run[..|run| - 1] == steps + [Login(state, p)] + later[..|later| - 1];
      assert run[|run| - 1] == later[|later| - 1];
    }
  }
}
