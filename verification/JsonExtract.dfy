/**
 * extract_json_object of modules/telephony/text-agent.py: code fences are cut out, and the
 * first brace-balanced stretch that the JSON parser accepts is the answer.
 */
module JsonExtract {
  import opened Wrappers
  import opened JsonText
  import opened JsonScan

  /** The two ways the source raises, and its answer. */
  datatype Extraction<V> = EmptyReply | NoObject | Found(value: V)

  // ----- preparation of the reply: fences out, surrounding space out

  function RemoveFences(t: string): string
    decreases |t|
  {
    if t == [] then []
    else if "```json" <= t then RemoveFences(t[7..])
    else if "```" <= t then RemoveFences(t[3..])
    else [t[0]] + RemoveFences(t[1..])
  }

  predicate IsSpace(c: char) {
    var n := c as int;
    || 0x09 <= n <= 0x0d || 0x1c <= n <= 0x20 || n == 0x85 || n == 0xa0 || n == 0x1680
    || 0x2000 <= n <= 0x200a || n == 0x2028 || n == 0x2029 || n == 0x202f || n == 0x205f || n == 0x3000
  }

  function StripLeft(t: string): string {
    if t != [] && IsSpace(t[0]) then StripLeft(t[1..]) else t
  }

  function StripRight(t: string): string {
    if t != [] && IsSpace(t[|t| - 1]) then StripRight(t[..|t| - 1]) else t
  }

  function Prepare(reply: string): string { StripRight(StripLeft(RemoveFences(reply))) }

  // ----- candidates, by an account of balance that mentions no scanner

  /** A run of text cut at its braces and strings. */
  datatype Pieces =
    | Stop
    | Plain(c: char, next: Pieces)
    | Quoted(body: seq<QuotedChar>, next: Pieces)
    | Group(inside: Pieces, next: Pieces)

  datatype QuotedChar = Bare(c: char) | Slashed(c: char)

  predicate PiecesOk(p: Pieces) {
    match p
    case Stop => true
    case Plain(c, n) => c !in ['"', '{', '}'] && PiecesOk(n)
    case Quoted(b, n) => (forall i :: 0 <= i < |b| ==> b[i].Bare? ==> b[i].c !in ['"', '\\']) && PiecesOk(n)
    case Group(i, n) => PiecesOk(i) && PiecesOk(n)
  }

  function PrintQuoted(b: seq<QuotedChar>): string {
    if b == [] then ""
    else if b[0].Bare? then [b[0].c] + PrintQuoted(b[1..])
    else ['\\'] + ([b[0].c] + PrintQuoted(b[1..]))
  }

  function PrintPieces(p: Pieces): string {
    match p
    case Stop => ""
    case Plain(c, n) => [c] + PrintPieces(n)
    case Quoted(b, n) => ['"'] + (PrintQuoted(b) + (['"'] + PrintPieces(n)))
    case Group(i, n) => ['{'] + (PrintPieces(i) + (['}'] + PrintPieces(n)))
  }

  /** `w` is one balanced pair of braces: braces in strings do not count, escapes are honoured. */
  ghost predicate Balanced(w: string) {
    exists p: Pieces :: PiecesOk(p) && w == ['{'] + (PrintPieces(p) + ['}'])
  }

  /** The stretch the inner loop cuts out when it starts at `i`, if the braces ever close. */
  function Candidate(s: string, i: nat): Option<string>
    requires i < |s|
    ensures Candidate(s, i).Some? ==> |Candidate(s, i).value| <= |s| - i
  {
    if s[i] != '{' then None
    else match FirstClose(Out(0), s[i..])
         case None => None
         case Some(j) =>
           FirstCloseInside(Out(0), s[i..]);
           Some(s[i..i + j + 1])
  }

  predicate Hit<V>(loads: string -> Option<V>, s: string, i: nat) {
    i < |s| && Candidate(s, i).Some? && loads(Candidate(s, i).value).Some?
  }

  ghost predicate FirstHit<V>(loads: string -> Option<V>, s: string, i: nat) {
    Hit(loads, s, i) && forall k: nat :: k < i ==> !Hit(loads, s, k)
  }

  /** What extract_json_object owes its caller. */
  ghost predicate IsResult<V>(loads: string -> Option<V>, reply: string, r: Extraction<V>) {
    var s := Prepare(reply);
    match r
    case EmptyReply => reply == ""
    case NoObject => reply != "" && forall i: nat :: !Hit(loads, s, i)
    case Found(v) => reply != "" && exists i: nat :: FirstHit(loads, s, i) && loads(Candidate(s, i).value) == Some(v)
  }

  // ----- the loops

  method FindBrace(s: string, from: nat) returns (at: int)
    requires from <= |s|
    ensures at == -1 ==> forall k :: from <= k < |s| ==> s[k] != '{'
    ensures at != -1 ==> from <= at < |s| && s[at] == '{' && forall k :: from <= k < at ==> s[k] != '{'
  {
    at := from;
    while at < |s| && s[at] != '{'
      invariant from <= at <= |s|
      invariant forall k :: from <= k < at ==> s[k] != '{'
    {
      at := at + 1;
    }
    if at == |s| { at := -1; }
  }

  /** The inner loop: scan from the brace at `start` until the depth is back at zero. */
  method FindClose(s: string, start: nat) returns (end: Option<nat>)
    requires start < |s|
    ensures end == FirstClose(Out(0), s[start..])
  {
    var depth, inString, escape := 0, false, false;
    var index := start;
    while index < |s|
      invariant start <= index <= |s|
      invariant FirstClose(Out(0), s[start..])
             == Later(index - start, FirstClose(Scan(depth, inString, escape), s[index..]))
    {
      var c := s[index];
      FirstCloseCons(Scan(depth, inString, escape), c, s[index + 1..]);
      assert s[index..] == [c] + s[index + 1..];
      if inString {
        if escape {
          escape := false;
        } else if c == '\\' {
          escape := true;
        } else if c == '"' {
          inString := false;
        }
      } else if c == '"' {
        inString := true;
      } else if c == '{' {
        depth := depth + 1;
      } else if c == '}' {
        depth := depth - 1;
        if depth == 0 { return Some(index - start); }
      }
      index := index + 1;
    }
    return None;
  }

  method ExtractJsonObject<V>(loads: string -> Option<V>, reply: string) returns (r: Extraction<V>)
    ensures IsResult(loads, reply, r)
  {
    if reply == "" { return EmptyReply; }
    var s := Prepare(reply);
    var start := FindBrace(s, 0);
    while start >= 0
      invariant -1 <= start < |s|
      invariant start >= 0 ==> s[start] == '{'
      invariant forall k: nat :: k < (if start >= 0 then start else |s|) ==> !Hit(loads, s, k)
      decreases if start >= 0 then |s| - start else 0
    {
      var end := FindClose(s, start);
      if end.Some? {
        FirstCloseInside(Out(0), s[start..]);
        var candidate := s[start..start + end.value + 1];
        assert Candidate(s, start) == Some(candidate);
        var parsed := loads(candidate);
        if parsed.Some? {
          assert FirstHit(loads, s, start);
          return Found(parsed.value);
        }
      }
      var next := FindBrace(s, start + 1);
      forall k: nat | k < (if next >= 0 then next else |s|) ensures !Hit(loads, s, k) {
        if k > start { assert s[k] != '{'; }
      }
      start := next;
    }
    return NoObject;
  }

  // ----- the closing brace

  lemma {:induction false} FirstCloseInside(s: Scan, t: string)
    ensures FirstClose(s, t).Some? ==> FirstClose(s, t).value < |t| && t[FirstClose(s, t).value] == '}'
    decreases |t|
  {
    if t != [] { FirstCloseInside(Step(s, t[0]), t[1..]); }
  }

  /** Text that stays below the surface cannot close the candidate. */
  lemma {:induction false} FirstCloseSkips(s: Scan, a: string, b: string)
    requires Stays(s, a, 1)
    ensures FirstClose(s, a + b) == Later(|a|, FirstClose(Run(s, a), b))
    decreases |a|
  {
    if a == [] {
      assert a + b == b;
    } else {
      assert (a + b)[1..] == a[1..] + b;
      FirstCloseSkips(Step(s, a[0]), a[1..], b);
      assert Stays(Step(s, a[0]), a[1..], 1);
    }
  }

  /** The scanner stops exactly at the end of a printed object, whatever follows it. */
  lemma PrintedObjectCloses(v: Json, rest: string)
    requires Ok(v) && v.Obj?
    ensures FirstClose(Out(0), Print(v) + rest) == Some(|Print(v)| - 1)
  {
    var t := Print(v);
    ObjectScan(v, 0);
    var inner := t[..|t| - 1][1..];
    assert t + rest == "{" + (inner + ("}" + rest));
    assert ("{" + (inner + ("}" + rest)))[1..] == inner + ("}" + rest);
    FirstCloseSkips(Out(1), inner, "}" + rest);
    assert t[..|t| - 1][0] == '{';
    assert Run(Out(0), t[..|t| - 1]) == Run(Out(1), inner);
    assert ("}" + rest)[1..] == rest;
  }

  // ----- balance and the scanner are the same thing

  lemma Assoc(a: string, b: string, c: string)
    ensures (a + b) + c == a + (b + c)
  {
  }

  lemma Assoc4(a: string, b: string, c: string, d: string, e: string)
    ensures (a + (b + (c + d))) + e == a + (b + (c + (d + e)))
  {
    Assoc(a, b + (c + d), e);
    Assoc(b, c + d, e);
    Assoc(c, d, e);
  }

  /** One scanned character in front of `rest`, said of named texts so that nothing unfolds. */
  lemma CloseAfter(s: Scan, c: char, next: Scan, rest: string, whole: string, n: nat, r: Option<nat>)
    requires next == Step(s, c) && (s.inString || c != '}' || s.depth != 1)
    requires FirstClose(next, rest) == Later(n, r) && whole == [c] + rest
    ensures FirstClose(s, whole) == Later(n + 1, r)
  {
    FirstCloseCons(s, c, rest);
  }

  /** A printed run of pieces is neutral below the surface. */
  lemma {:induction false} PiecesScan(p: Pieces, d: int, rest: string)
    requires PiecesOk(p) && d >= 1
    ensures FirstClose(Out(d), PrintPieces(p) + rest) == Later(|PrintPieces(p)|, FirstClose(Out(d), rest))
    decreases p
  {
    match p
    case Stop =>
      assert PrintPieces(p) + rest == rest;
    case Plain(c, n) =>
      PiecesScan(n, d, rest);
      FirstCloseCons(Out(d), c, PrintPieces(n) + rest);
      assert PrintPieces(p) + rest == [c] + (PrintPieces(n) + rest);
    case Quoted(b, n) =>
      PiecesScan(n, d, rest);
      QuotedPieceScan(b, PrintPieces(n), d, rest);
    case Group(i, n) =>
      GroupScan(i, n, d, rest);
  }

  lemma QuotedPieceScan(b: seq<QuotedChar>, y: string, d: int, rest: string)
    requires (forall i :: 0 <= i < |b| ==> b[i].Bare? ==> b[i].c !in ['"', '\\']) && d >= 1
    requires FirstClose(Out(d), y + rest) == Later(|y|, FirstClose(Out(d), rest))
    ensures var whole := ['"'] + (PrintQuoted(b) + (['"'] + y));
            FirstClose(Out(d), whole + rest) == Later(|whole|, FirstClose(Out(d), rest))
  {
    var tail := y + rest;
    QuotedScan(b, d, tail);
    FirstCloseCons(Out(d), '"', PrintQuoted(b) + (['"'] + tail));
    Assoc(['"'], PrintQuoted(b) + (['"'] + y), rest);
    Assoc(PrintQuoted(b), ['"'] + y, rest);
    Assoc(['"'], y, rest);
  }

  lemma {:induction false} GroupScan(i: Pieces, n: Pieces, d: int, rest: string)
    requires PiecesOk(i) && PiecesOk(n) && d >= 1
    ensures FirstClose(Out(d), PrintPieces(Group(i, n)) + rest)
         == Later(|PrintPieces(Group(i, n))|, FirstClose(Out(d), rest))
    decreases Group(i, n), 0
  {
    var y := PrintPieces(n);
    var close := ['}'] + (y + rest);
    PiecesScan(n, d, rest);
    PiecesScan(i, d + 1, close);
    GroupCloses(PrintPieces(i), y, close, d, rest, FirstClose(Out(d), rest));
    GroupText(PrintPieces(i), y, rest);
  }

  lemma GroupCloses(x: string, y: string, close: string, d: int, rest: string, r: Option<nat>)
    requires d >= 1 && close == ['}'] + (y + rest) && FirstClose(Out(d), y + rest) == Later(|y|, r)
    requires FirstClose(Out(d + 1), x + close) == Later(|x|, FirstClose(Out(d + 1), close))
    ensures FirstClose(Out(d), ['{'] + (x + close)) == Later(|x| + |y| + 2, r)
  {
    CloseAfter(Out(d + 1), '}', Out(d), y + rest, close, |y|, r);
    LaterTwice(|x|, |y| + 1, r);
    GroupOpens(x + close, ['{'] + (x + close), d, |x| + |y| + 1, r);
  }

  lemma GroupOpens(inner: string, whole: string, d: int, n: nat, r: Option<nat>)
    requires d >= 1 && whole == ['{'] + inner && FirstClose(Out(d + 1), inner) == Later(n, r)
    ensures FirstClose(Out(d), whole) == Later(n + 1, r)
  {
    CloseAfter(Out(d), '{', Out(d + 1), inner, whole, n, r);
  }

  lemma GroupText(x: string, y: string, rest: string)
    ensures ['{'] + (x + (['}'] + (y + rest))) == (['{'] + (x + (['}'] + y))) + rest
  {
    Assoc4(['{'], x, ['}'], y, rest);
  }

  lemma {:induction false} QuotedScan(b: seq<QuotedChar>, d: int, tail: string)
    requires forall i :: 0 <= i < |b| ==> b[i].Bare? ==> b[i].c !in ['"', '\\']
    ensures FirstClose(Scan(d, true, false), PrintQuoted(b) + (['"'] + tail))
         == Later(|PrintQuoted(b)| + 1, FirstClose(Out(d), tail))
    decreases |b|
  {
    var In := Scan(d, true, false);
    var end := ['"'] + tail;
    var r := FirstClose(Out(d), tail);
    if b == [] {
      assert PrintQuoted(b) + end == end;
      CloseAfter(In, '"', Out(d), tail, end, 0, r);
    } else {
      var c := b[0].c;
      var q := PrintQuoted(b[1..]);
      QuotedScan(b[1..], d, tail);
      if b[0].Bare? {
        Assoc([c], q, end);
        CloseAfter(In, c, In, q + end, [c] + (q + end), |q| + 1, r);
      } else {
        Assoc(['\\'], [c] + q, end);
        Assoc([c], q, end);
        CloseAfter(Scan(d, true, true), c, In, q + end, [c] + (q + end), |q| + 1, r);
        CloseAfter(In, '\\', Scan(d, true, true), [c] + (q + end), ['\\'] + ([c] + (q + end)), |q| + 2, r);
      }
    }
  }

  /** Pieces laid one after the other, each followed by a closing brace. */
  function PrintClosing(ps: seq<Pieces>): string {
    if ps == [] then "" else PrintPieces(ps[0]) + (['}'] + PrintClosing(ps[1..]))
  }

  predicate AllOk(ps: seq<Pieces>) { forall i :: 0 <= i < |ps| ==> PiecesOk(ps[i]) }

  /** From depth `d` the text up to the closing brace is `d` runs of pieces, each one closed. */
  lemma {:induction false} CutAtBraces(d: nat, t: string) returns (ps: seq<Pieces>)
    requires d >= 1 && FirstClose(Out(d), t).Some?
    ensures FirstClose(Out(d), t).value < |t|
    ensures |ps| == d && AllOk(ps) && PrintClosing(ps) == t[..FirstClose(Out(d), t).value + 1]
    decreases |t|
  {
    var j := FirstClose(Out(d), t).value;
    FirstCloseInside(Out(d), t);
    var u := t[1..];
    assert t[..j + 1] == [t[0]] + u[..j];
    if t[0] == '}' && d == 1 {
      assert u[..0] == [];
      ps := [Stop];
      ClosingCons(Stop, []);
    } else if t[0] == '}' {
      var qs := CutAtBraces(d - 1, u);
      ps := [Stop] + qs;
      ClosingCons(Stop, qs);
    } else if t[0] == '{' {
      var qs := CutAtBraces(d + 1, u);
      ps := [Group(qs[0], qs[1])] + qs[2..];
      ClosingGroup(qs);
    } else if t[0] == '"' {
      ps := CutAtQuote(d, t);
    } else {
      var qs := CutAtBraces(d, u);
      ps := [Plain(t[0], qs[0])] + qs[1..];
      ClosingPlain(t[0], qs);
    }
  }

  lemma ClosingPlain(c: char, qs: seq<Pieces>)
    requires |qs| >= 1
    ensures PrintClosing([Plain(c, qs[0])] + qs[1..]) == [c] + PrintClosing(qs)
  {
    ClosingCons(Plain(c, qs[0]), qs[1..]);
    ClosingCons(qs[0], qs[1..]);
    assert qs == [qs[0]] + qs[1..];
    Assoc([c], PrintPieces(qs[0]), ['}'] + PrintClosing(qs[1..]));
  }

  lemma {:induction false} CutAtQuote(d: nat, t: string) returns (ps: seq<Pieces>)
    requires d >= 1 && FirstClose(Out(d), t).Some? && t[0] == '"'
    ensures FirstClose(Out(d), t).value < |t|
    ensures |ps| == d && AllOk(ps) && PrintClosing(ps) == t[..FirstClose(Out(d), t).value + 1]
    decreases |t|, 0
  {
    var j := FirstClose(Out(d), t).value;
    FirstCloseInside(Out(d), t);
    var u := t[1..];
    var b, n := CutString(d, u);
    var v := u[n..];
    var qs := CutAtBraces(d, v);
    ps := [Quoted(b, qs[0])] + qs[1..];
    ClosingQuote(b, qs, v[..j - n]);
    QuotePrefix(t, u, n, j);
  }

  lemma QuotePrefix(t: string, u: string, n: nat, j: nat)
    requires |t| > j >= n && u == t[1..] && n <= |u|
    ensures j - n <= |u[n..]| && t[..j + 1] == [t[0]] + (u[..n] + u[n..][..j - n])
  {
  }

  lemma ClosingQuote(b: seq<QuotedChar>, qs: seq<Pieces>, v: string)
    requires |qs| >= 1 && PrintClosing(qs) == v
    ensures PrintClosing([Quoted(b, qs[0])] + qs[1..]) == ['"'] + ((PrintQuoted(b) + ['"']) + v)
  {
    ClosingCons(Quoted(b, qs[0]), qs[1..]);
    ClosingCons(qs[0], qs[1..]);
    assert qs == [qs[0]] + qs[1..];
    Assoc4(['"'], PrintQuoted(b), ['"'], PrintPieces(qs[0]), ['}'] + PrintClosing(qs[1..]));
    Assoc(PrintQuoted(b), ['"'], v);
  }

  lemma ClosingCons(p: Pieces, ps: seq<Pieces>)
    ensures PrintClosing([p] + ps) == PrintPieces(p) + (['}'] + PrintClosing(ps))
  {
    assert ([p] + ps)[1..] == ps;
  }

  lemma ClosingGroup(qs: seq<Pieces>)
    requires |qs| >= 2
    ensures PrintClosing([Group(qs[0], qs[1])] + qs[2..]) == ['{'] + PrintClosing(qs)
  {
    ClosingCons(Group(qs[0], qs[1]), qs[2..]);
    ClosingCons(qs[0], qs[1..]);
    ClosingCons(qs[1], qs[2..]);
    assert qs == [qs[0]] + qs[1..] && qs[1..] == [qs[1]] + qs[2..];
    var rest := ['}'] + PrintClosing(qs[2..]);
    Assoc(['{'], PrintPieces(qs[0]) + (['}'] + PrintPieces(qs[1])), rest);
    Assoc(PrintPieces(qs[0]), ['}'] + PrintPieces(qs[1]), rest);
    Assoc(['}'], PrintPieces(qs[1]), rest);
  }

  /** A string that is ever left again is a list of quoted characters and a quote. */
  lemma {:induction false} CutString(d: int, t: string) returns (b: seq<QuotedChar>, n: nat)
    requires FirstClose(Scan(d, true, false), t).Some?
    ensures n <= |t| && t[..n] == PrintQuoted(b) + ['"']
    ensures forall i :: 0 <= i < |b| ==> b[i].Bare? ==> b[i].c !in ['"', '\\']
    ensures FirstClose(Scan(d, true, false), t) == Later(n, FirstClose(Out(d), t[n..]))
    decreases |t|
  {
    if t[0] == '"' {
      b, n := [], 1;
      assert t[..1] == ['"'];
    } else if t[0] == '\\' {
      var w := t[2..];
      SlashStep(d, t, w);
      var c, m := CutString(d, w);
      b, n := [Slashed(t[1])] + c, m + 2;
      assert t[..n] == PrintQuoted(b) + ['"'] && t[n..] == w[m..] by {
        QuotedCons(Slashed(t[1]), c);
        FrontTwo(t, w, m);
      }
      LaterTwice(2, m, FirstClose(Out(d), w[m..]));
    } else {
      var w := t[1..];
      var c, m := CutString(d, w);
      b, n := [Bare(t[0])] + c, m + 1;
      assert t[..n] == PrintQuoted(b) + ['"'] && t[n..] == w[m..] by {
        QuotedCons(Bare(t[0]), c);
        FrontOne(t, w, m);
      }
      LaterTwice(1, m, FirstClose(Out(d), w[m..]));
    }
  }

  lemma SlashStep(d: int, t: string, w: string)
    requires t != [] && t[0] == '\\' && FirstClose(Scan(d, true, false), t).Some? && (|t| >= 2 ==> w == t[2..])
    ensures |t| >= 2 && FirstClose(Scan(d, true, false), t) == Later(2, FirstClose(Scan(d, true, false), w))
  {
    var u := t[1..];
    assert FirstClose(Scan(d, true, false), t) == Later(1, FirstClose(Scan(d, true, true), u));
    assert u != [] && u[1..] == w;
    assert FirstClose(Scan(d, true, true), u) == Later(1, FirstClose(Scan(d, true, false), w));
  }

  lemma LaterTwice(k: nat, m: nat, r: Option<nat>)
    ensures Later(k, Later(m, r)) == Later(m + k, r)
  {
  }

  lemma FrontOne(t: string, w: string, m: nat)
    requires t != [] && w == t[1..] && m <= |w|
    ensures t[..m + 1] == [t[0]] + w[..m] && t[m + 1..] == w[m..]
  {
  }

  lemma FrontTwo(t: string, w: string, m: nat)
    requires |t| >= 2 && w == t[2..] && m <= |w|
    ensures t[..m + 2] == [t[0]] + ([t[1]] + w[..m]) && t[m + 2..] == w[m..]
  {
  }

  lemma QuotedCons(x: QuotedChar, c: seq<QuotedChar>)
    ensures PrintQuoted([x] + c) + ['"']
         == if x.Bare? then [x.c] + (PrintQuoted(c) + ['"']) else ['\\'] + ([x.c] + (PrintQuoted(c) + ['"']))
  {
    assert ([x] + c)[1..] == c;
    Assoc([x.c], PrintQuoted(c), ['"']);
    Assoc(['\\'], [x.c] + PrintQuoted(c), ['"']);
  }

  /** The candidate at `i` is the one balanced stretch that starts there; there is at most one. */
  lemma CandidateIsBalanced(s: string, i: nat, j: nat)
    requires i <= j <= |s| && i < |s|
    ensures Candidate(s, i) == Some(s[i..j]) <==> Balanced(s[i..j])
  {
    if Balanced(s[i..j]) { BalancedIsCandidate(s, i, j); }
    if Candidate(s, i) == Some(s[i..j]) { CandidateHasPieces(s, i, j); }
  }

  lemma BalancedIsCandidate(s: string, i: nat, j: nat)
    requires i <= j <= |s| && i < |s| && Balanced(s[i..j])
    ensures Candidate(s, i) == Some(s[i..j])
  {
    var p :| PiecesOk(p) && s[i..j] == ['{'] + (PrintPieces(p) + ['}']);
    var rest := ['}'] + s[j..];
    assert s[i..] == s[i..j] + s[j..];
    assert s[i..] == ['{'] + (PrintPieces(p) + rest);
    PiecesScan(p, 1, rest);
    FirstCloseCons(Out(0), '{', PrintPieces(p) + rest);
    FirstCloseCons(Out(1), '}', s[j..]);
    assert FirstClose(Out(0), s[i..]) == Some(|s[i..j]| - 1);
  }

  lemma CandidateHasPieces(s: string, i: nat, j: nat)
    requires i <= j <= |s| && i < |s| && Candidate(s, i) == Some(s[i..j])
    ensures Balanced(s[i..j])
  {
    var t := s[i..];
    var c := FirstClose(Out(0), t).value;
    FirstCloseInside(Out(0), t);
    assert |s[i..i + c + 1]| == c + 1 == |s[i..j]|;
    var ps := CutAtBraces(1, t[1..]);
    assert ps == [ps[0]] + [];
    ClosingCons(ps[0], []);
    assert s[i..j] == ['{'] + t[1..][..c];
    assert s[i..j] == ['{'] + (PrintPieces(ps[0]) + ['}']);
  }

  // ----- fences and the object inside the reply

  predicate NoFence(t: string) { forall i :: 0 <= i <= |t| ==> !("```" <= t[i..]) }

  lemma {:induction false} RemoveFencesNone(t: string)
    requires NoFence(t)
    ensures RemoveFences(t) == t
    decreases |t|
  {
    assert t[0..] == t;
    if t != [] {
      assert "```json" <= t ==> "```" <= t;
      forall i | 0 <= i <= |t[1..]| ensures !("```" <= t[1..][i..]) {
        assert t[1..][i..] == t[i + 1..];
      }
      RemoveFencesNone(t[1..]);
    }
  }

  /** No fence can reach across the border between `a` and `b`. */
  predicate Separated(a: string, b: string) {
    || a == [] || b == []
    || a[|a| - 1] !in ['`', 'j', 's', 'o'] || b[0] !in ['`', 'j', 's', 'o', 'n']
  }

  lemma {:induction false} RemoveFencesSplits(a: string, b: string)
    requires Separated(a, b)
    ensures RemoveFences(a + b) == RemoveFences(a) + RemoveFences(b)
    decreases |a|
  {
    if a == [] {
      assert a + b == b;
    } else {
      var n := FenceLength(a);
      FenceStays(a, b, "```json");
      FenceStays(a, b, "```");
      DropFront(a, b, n);
      RemoveFencesSplits(a[n..], b);
      Assoc(if n == 1 then [a[0]] else [], RemoveFences(a[n..]), RemoveFences(b));
      FenceStep(a, n);
      FenceStep(a + b, n);
    }
  }

  /** How much one step of the replacement consumes. */
  function FenceLength(t: string): (n: nat)
    requires t != []
    ensures 0 < n <= |t|
  {
    if "```json" <= t then 7 else if "```" <= t then 3 else 1
  }

  lemma FenceStep(t: string, n: nat)
    requires t != [] && n == FenceLength(t)
    ensures RemoveFences(t) == (if n == 1 then [t[0]] else []) + RemoveFences(t[n..])
  {
  }

  lemma DropFront(a: string, b: string, n: nat)
    requires n <= |a|
    ensures (a + b)[n..] == a[n..] + b
  {
  }

  lemma FenceStays(a: string, b: string, f: string)
    requires Separated(a, b) && a != [] && f in ["```", "```json"]
    ensures f <= a + b <==> f <= a
  {
    assert |f| <= |a| ==> (a + b)[..|f|] == a[..|f|];
    assert (a + b)[|a| - 1] == a[|a| - 1];
    assert b != [] ==> (a + b)[|a|] == b[0];
  }

  lemma {:induction false} RemoveFencesKeepsOut(t: string, c: char)
    requires c !in t
    ensures c !in RemoveFences(t)
    decreases |t|
  {
    if t != [] {
      if "```json" <= t { RemoveFencesKeepsOut(t[7..], c); }
      else if "```" <= t { RemoveFencesKeepsOut(t[3..], c); }
      else { RemoveFencesKeepsOut(t[1..], c); }
    }
  }

  lemma {:induction false} StripLeftKeeps(a: string, b: string)
    requires b != [] && !IsSpace(b[0])
    ensures exists n :: 0 <= n <= |a| && StripLeft(a + b) == a[n..] + b
    decreases |a|
  {
    if a == [] {
      assert a + b == b;
      assert a[0..] + b == b;
    } else if IsSpace(a[0]) {
      assert (a + b)[1..] == a[1..] + b;
      StripLeftKeeps(a[1..], b);
      var n :| 0 <= n <= |a[1..]| && StripLeft(a[1..] + b) == a[1..][n..] + b;
      assert a[1..][n..] == a[n + 1..];
    } else {
      assert a[0..] == a;
    }
  }

  lemma {:induction false} StripRightKeeps(a: string, b: string)
    requires a != [] && !IsSpace(a[|a| - 1])
    ensures exists n :: 0 <= n <= |b| && StripRight(a + b) == a + b[..n]
    decreases |b|
  {
    if b == [] {
      assert a + b == a;
      assert a + b[..0] == a;
    } else if IsSpace(b[|b| - 1]) {
      var u := b[..|b| - 1];
      assert (a + b)[..|a + b| - 1] == a + u;
      StripRightKeeps(a, u);
      var n :| 0 <= n <= |u| && StripRight(a + u) == a + u[..n];
      assert u[..n] == b[..n];
    } else {
      assert b[..|b|] == b;
    }
  }

  lemma FencesAround(pre: string, obj: string, post: string)
    requires |obj| >= 2 && obj[0] == '{' && obj[|obj| - 1] == '}' && NoFence(obj)
    ensures RemoveFences(pre + obj + post) == RemoveFences(pre) + (obj + RemoveFences(post))
  {
    Assoc(pre, obj, post);
    RemoveFencesSplits(pre, obj + post);
    RemoveFencesSplits(obj, post);
    RemoveFencesNone(obj);
  }

  lemma StripAround(p: string, obj: string, q: string) returns (a: string, b: string)
    requires |obj| >= 2 && obj[0] == '{' && obj[|obj| - 1] == '}' && '{' !in p
    ensures StripRight(StripLeft(p + (obj + q))) == a + obj + b && '{' !in a
  {
    StripLeftKeeps(p, obj + q);
    var n :| 0 <= n <= |p| && StripLeft(p + (obj + q)) == p[n..] + (obj + q);
    a := p[n..];
    Assoc(a, obj, q);
    StripRightKeeps(a + obj, q);
    var m :| 0 <= m <= |q| && StripRight((a + obj) + q) == (a + obj) + q[..m];
    b := q[..m];
  }

  /** Preparing a reply trims what surrounds the object and nothing else. */
  lemma PrepareKeepsObject(pre: string, obj: string, post: string) returns (a: string, b: string)
    requires |obj| >= 2 && obj[0] == '{' && obj[|obj| - 1] == '}' && NoFence(obj)
    requires '{' !in pre
    ensures Prepare(pre + obj + post) == a + obj + b && '{' !in a
  {
    FencesAround(pre, obj, post);
    RemoveFencesKeepsOut(pre, '{');
    a, b := StripAround(RemoveFences(pre), obj, RemoveFences(post));
  }

  /** An object that closes at its end, with no brace in front of it, is the leftmost candidate. */
  lemma ObjectBehindIsHit<V>(loads: string -> Option<V>, s: string, a: string, obj: string, b: string)
    requires s == a + obj + b && '{' !in a && obj != "" && obj[0] == '{' && loads(obj).Some?
    requires FirstClose(Out(0), obj + b) == Some(|obj| - 1)
    ensures |a| < |s| && FirstHit(loads, s, |a|) && Candidate(s, |a|) == Some(obj)
  {
    var k := |a|;
    assert s[k..] == obj + b;
    assert s[k..k + |obj|] == obj;
    forall i: nat | i < k ensures !Hit(loads, s, i) { assert s[i] == a[i]; }
  }

  /**
   * A reply that holds a printed object, with any text around it that has no opening brace
   * before the object, and no fence inside the object, yields exactly that object.
   */
  lemma PrintedObjectIsExtracted<V>(loads: string -> Option<V>, v: Json, pre: string, post: string, r: Extraction<V>)
    requires Ok(v) && v.Obj? && NoFence(Print(v)) && '{' !in pre
    requires loads(Print(v)).Some?
    requires IsResult(loads, pre + Print(v) + post, r)
    ensures r == Found(loads(Print(v)).value)
  {
    var obj := Print(v);
    ObjectScan(v, 0);
    var a, b := PrepareKeepsObject(pre, obj, post);
    var s := Prepare(pre + obj + post);
    PrintedObjectCloses(v, b);
    ObjectBehindIsHit(loads, s, a, obj, b);
  }
}
