/**
 * JsonlTailer of modules/telephony/text-agent.py: an incremental reader of a log that other
 * programs append to, truncate, replace and refill. The log is a text; the JSON parser and
 * the choice of an identity are the parameter `classify`.
 */
module LogTailer {
  import opened Wrappers
  import opened JsonText
  import JsonExtract

  /** What _dispatch makes of one line. Poison is a line on which it raises. */
  datatype Kind<Id> = Garbage | NotObject | Poison | Event(id: Id)

  datatype Log = Log(inode: nat, text: string)

  /** The saved bookkeeping (tailer.json). */
  datatype Book = Book(offset: nat, inode: Option<nat>)

  /** The identities remembered, and every identity handed to the handler, in order. */
  datatype Tail<Id> = Tail(seen: set<Id>, handed: seq<Id>)

  datatype Outcome = Missing | Completed | Raised

  /** An enumeration of a set, free to differ every time it is asked for. */
  type Order<!Id> = (set<Id>, nat) -> seq<Id>

  const REMEMBERED := 5000
  const KEPT := 2500

  // ----- lines

  function LineEnd(t: string): (n: nat)
    ensures n <= |t| && (t != [] ==> n > 0)
  {
    if t == [] then 0 else if t[0] == '\n' then 1 else 1 + LineEnd(t[1..])
  }

  /** A text cut after each newline; the last line may lack one. */
  function Lines(t: string): seq<string>
    decreases |t|
  {
    if t == [] then [] else [t[..LineEnd(t)]] + Lines(t[LineEnd(t)..])
  }

  predicate Blank(t: string) { forall i :: 0 <= i < |t| ==> JsonExtract.IsSpace(t[i]) }

  // ----- what the methods compute

  function LastOf<T>(xs: seq<T>, n: nat): seq<T> {
    if |xs| <= n then xs else xs[|xs| - n..]
  }

  /** Hand an identity over unless it is remembered; forget half when too many are. */
  function Deliver<Id>(order: Order<Id>, t: Tail<Id>, id: Id): Tail<Id> {
    if id in t.seen then t
    else
      var seen := t.seen + {id};
      Tail(if |seen| > REMEMBERED then (set x | x in LastOf(order(seen, |t.handed|), KEPT)) else seen, t.handed + [id])
  }

  datatype Pass<Id> = Pass(tail: Tail<Id>, raised: bool)

  function DispatchAll<Id>(classify: string -> Kind<Id>, order: Order<Id>, t: Tail<Id>, lines: seq<string>): Pass<Id>
    decreases |lines|
  {
    if lines == [] then Pass(t, false)
    else match classify(lines[0])
         case Poison => Pass(t, true)
         case Event(id) => DispatchAll(classify, order, Deliver(order, t, id), lines[1..])
         case _ => DispatchAll(classify, order, t, lines[1..])
  }

  /** The first line read at the saved offset betrays a seek into the middle of a line. */
  predicate Torn<Id>(classify: string -> Kind<Id>, offset: nat, lines: seq<string>) {
    offset > 0 && lines != [] && classify(lines[0]).Garbage? && !Blank(lines[0])
  }

  predicate Reset(book: Book, log: Log) {
    (book.inode.Some? && book.inode.value != log.inode) || |log.text| < book.offset
  }

  function StartAt(book: Book, log: Log): (n: nat)
    ensures n <= |log.text|
  {
    if Reset(book, log) then 0 else book.offset
  }

  /** The lines a poll dispatches: from the offset on, or all of them when it is no longer trusted. */
  function LinesRead<Id>(classify: string -> Kind<Id>, book: Book, log: Log): seq<string> {
    var lines := Lines(log.text[StartAt(book, log)..]);
    if Torn(classify, StartAt(book, log), lines) then Lines(log.text) else lines
  }

  datatype Polled<Id> = Polled(outcome: Outcome, book: Book, tail: Tail<Id>)

  function Poll<Id>(classify: string -> Kind<Id>, order: Order<Id>, book: Book, t: Tail<Id>,
                    log: Option<Log>): Polled<Id> {
    match log
    case None => Polled(Missing, book, t)
    case Some(l) =>
      var p := DispatchAll(classify, order, t, LinesRead(classify, book, l));
      if p.raised then Polled(Raised, book, p.tail)
      else Polled(Completed, Book(|l.text|, Some(l.inode)), p.tail)
  }

  // ----- the class

  class JsonlTailer<Id(==)> {
    const classify: string -> Kind<Id>
    const order: Order<Id>
    var offset: nat
    var inode: Option<nat>
    var seen: set<Id>
    var handed: seq<Id>  // the calls made to the handler

    function View(): Tail<Id>
      reads this
    {
      Tail(seen, handed)
    }

    constructor (classify: string -> Kind<Id>, order: Order<Id>)
      ensures this.classify == classify && this.order == order
      ensures offset == 0 && inode == None && View() == Tail({}, [])
    {
      this.classify, this.order := classify, order;
      offset, inode, seen, handed := 0, None, {}, [];
    }

    method Dispatch(line: string) returns (raised: bool)
      modifies this`seen, this`handed
      ensures Pass(View(), raised) == DispatchAll(classify, order, old(View()), [line])
    {
      var kind := classify(line);
      match kind
      case Poison => return true;
      case Event(id) =>
        if id !in seen {
          seen := seen + {id};
          if |seen| > REMEMBERED {
            seen := set x | x in LastOf(order(seen, |handed|), KEPT);
          }
          handed := handed + [id];
        }
        return false;
      case _ => return false;
    }

    /** Reads from `start`; `clean` is false, and nothing is dispatched, when that is the middle of a line. */
    method ReadPass(text: string, start: nat) returns (raised: bool, clean: bool)
      requires start <= |text|
      modifies this`seen, this`handed
      ensures clean == !Torn(classify, start, Lines(text[start..]))
      ensures !clean ==> !raised && View() == old(View())
      ensures clean ==> Pass(View(), raised) == DispatchAll(classify, order, old(View()), Lines(text[start..]))
    {
      var lines := Lines(text[start..]);
      var i := 0;
      while i < |lines|
        invariant i <= |lines|
        invariant i > 0 ==> !Torn(classify, start, lines)
        invariant i == 0 ==> View() == old(View())
        invariant DispatchAll(classify, order, View(), lines[i..]) == DispatchAll(classify, order, old(View()), lines)
      {
        if i == 0 && start > 0 {
          var first := classify(lines[0]);
          if first.Garbage? && !Blank(lines[0]) { return false, false; }
        }
        ghost var before := View();
        var broken := Dispatch(lines[i]);
        assert lines[i..][1..] == lines[i + 1..];
        if broken { return true, true; }
        i := i + 1;
      }
      return false, true;
    }

    method PollOnce(log: Option<Log>) returns (outcome: Outcome)
      modifies this
      ensures Polled(outcome, Book(offset, inode), View())
           == Poll(classify, order, old(Book(offset, inode)), old(View()), log)
    {
      if log.None? { return Missing; }
      var text := log.value.text;
      var start := offset;
      if inode.Some? && log.value.inode != inode.value { start := 0; }
      if |text| < start { start := 0; }
      var raised, clean := ReadPass(text, start);
      if !clean && start > 0 {
        assert text[0..] == text;
        raised, clean := ReadPass(text, 0);
      }
      if raised { return Raised; }
      offset, inode := |text|, Some(log.value.inode);
      return Completed;
    }
  }

  // ----- dispatching a list of lines

  predicate Remembers<Id>(t: Tail<Id>) { forall id :: id in t.seen ==> id in t.handed }

  lemma {:induction false} DispatchKeeps<Id>(classify: string -> Kind<Id>, order: Order<Id>, t: Tail<Id>,
                                             lines: seq<string>, id: Id)
    requires id in t.handed
    ensures id in DispatchAll(classify, order, t, lines).tail.handed
    decreases |lines|
  {
    if lines != [] {
      match classify(lines[0])
      case Poison =>
      case Event(x) => DispatchKeeps(classify, order, Deliver(order, t, x), lines[1..], id);
      case _ => DispatchKeeps(classify, order, t, lines[1..], id);
    }
  }

  /** `order` only ever lists what is in the set. */
  ghost predicate Enumerates<Id(!new)>(order: Order<Id>) {
    forall s, n, x :: x in order(s, n) ==> x in s
  }

  lemma DeliverRemembers<Id(!new)>(order: Order<Id>, t: Tail<Id>, id: Id)
    requires Enumerates(order) && Remembers(t)
    ensures Remembers(Deliver(order, t, id)) && id in Deliver(order, t, id).handed
  {
    var d := Deliver(order, t, id);
    forall x | x in d.seen ensures x in d.handed {
      var seen := t.seen + {id};
      assert x in LastOf(order(seen, |t.handed|), KEPT) ==> x in order(seen, |t.handed|);
    }
  }

  lemma {:induction false} DispatchRemembers<Id(!new)>(classify: string -> Kind<Id>, order: Order<Id>, t: Tail<Id>,
                                                       lines: seq<string>)
    requires Enumerates(order) && Remembers(t)
    ensures Remembers(DispatchAll(classify, order, t, lines).tail)
    decreases |lines|
  {
    if lines != [] {
      match classify(lines[0])
      case Poison =>
      case Event(x) =>
        DeliverRemembers(order, t, x);
        DispatchRemembers(classify, order, Deliver(order, t, x), lines[1..]);
      case _ => DispatchRemembers(classify, order, t, lines[1..]);
    }
  }

  /** Every event among the lines is delivered, unless a poisonous line stops the pass. */
  lemma {:induction false} DispatchDelivers<Id(!new)>(
    classify: string -> Kind<Id>, order: Order<Id>, t: Tail<Id>, lines: seq<string>, i: nat)
    requires Enumerates(order) && Remembers(t) && i < |lines| && classify(lines[i]).Event?
    requires !DispatchAll(classify, order, t, lines).raised
    ensures classify(lines[i]).id in DispatchAll(classify, order, t, lines).tail.handed
    decreases |lines|
  {
    if classify(lines[0]).Event? {
      var x := classify(lines[0]).id;
      DeliverRemembers(order, t, x);
      if i == 0 {
        DispatchKeeps(classify, order, Deliver(order, t, x), lines[1..], x);
      } else {
        DispatchDelivers(classify, order, Deliver(order, t, x), lines[1..], i - 1);
      }
    } else if i > 0 {
      DispatchDelivers(classify, order, t, lines[1..], i - 1);
    }
  }

  lemma {:induction false} DispatchRaises<Id>(classify: string -> Kind<Id>, order: Order<Id>, t: Tail<Id>,
                                              lines: seq<string>)
    ensures DispatchAll(classify, order, t, lines).raised
            <==> exists i :: 0 <= i < |lines| && classify(lines[i]).Poison?
    decreases |lines|
  {
    if lines != [] {
      var rest := lines[1..];
      assert forall i :: 0 <= i < |rest| ==> rest[i] == lines[i + 1];
      assert forall i :: 1 <= i < |lines| ==> lines[i] == rest[i - 1];
      match classify(lines[0])
      case Poison =>
      case Event(x) => DispatchRaises(classify, order, Deliver(order, t, x), rest);
      case _ => DispatchRaises(classify, order, t, rest);
    }
  }

  // ----- lines of a log that has grown

  lemma {:induction false} LineEndGrows(f: string, g: string)
    ensures '\n' in f ==> LineEnd(f + g) == LineEnd(f)
    ensures '\n' !in f ==> LineEnd(f) == |f| && LineEnd(f + g) == |f| + LineEnd(g)
    decreases |f|
  {
    if f == [] {
      assert f + g == g;
    } else {
      assert (f + g)[1..] == f[1..] + g;
      LineEndGrows(f[1..], g);
    }
  }

  /** A line of the grown log is an old line, a new line, or the old unfinished line continued. */
  lemma {:induction false} GrownLine(f: string, g: string, line: string) returns (p: string)
    requires line in Lines(f + g)
    ensures || line in Lines(f) || line in Lines(g)
            || (p != "" && p in Lines(f) && g != "" && line == p + Lines(g)[0])
    decreases |f|
  {
    p := "";
    var n := LineEnd(f);
    LineEndGrows(f, g);
    if f == "" {
      assert f + g == g;
    } else if '\n' in f {
      assert (f + g)[..n] == f[..n];
      assert (f + g)[n..] == f[n..] + g;
      if line != f[..n] {
        p := GrownLine(f[n..], g, line);
      }
    } else {
      assert f[..n] == f && f[n..] == "";
      UnfinishedLine(f, g, line, LineEnd(g));
      if line == f + g[..LineEnd(g)] { p := f; }
    }
  }

  /** The first line of the grown log continues an unfinished old one. */
  lemma UnfinishedLine(f: string, g: string, line: string, m: nat)
    requires f != "" && m == LineEnd(g) && LineEnd(f + g) == |f| + m && line in Lines(f + g)
    ensures line == f + g[..m] || line in Lines(g)
    ensures g == "" ==> f + g[..m] == f
    ensures g != "" ==> Lines(g)[0] == g[..m]
  {
    assert (f + g)[..|f| + m] == f + g[..m];
    assert (f + g)[|f| + m..] == g[m..];
  }

  // ----- records

  /**
   * A record body that tears cleanly: with any JSON whitespace behind it the parser reads the same
   * event, and what is left of it after a cut inside it does not parse. `of` is the event an
   * identity stands for: of an `id` field the identity itself, of a hashed line what it hashes.
   */
  ghost predicate RecordBody<Id, E>(classify: string -> Kind<Id>, of: Id -> E, body: string, e: E) {
    && body != "" && !JsonExtract.IsSpace(body[|body| - 1])
    && (forall w :: AllWs(w) ==> classify(body + w).Event? && of(classify(body + w).id) == e)
    && (forall k, w :: 0 < k < |body| && AllWs(w) ==> classify(body[k..] + w).Garbage?)
  }

  ghost predicate RecordLine<Id, E>(classify: string -> Kind<Id>, of: Id -> E, line: string, e: E) {
    exists body, w :: RecordBody(classify, of, body, e) && AllWs(w) && line == body + w
  }

  /** The event has been handed to the handler, under whatever identity. */
  ghost predicate Handed<Id, E>(of: Id -> E, t: Tail<Id>, e: E) {
    exists i :: 0 <= i < |t.handed| && of(t.handed[i]) == e
  }

  /** Every record of the text has been handed to the handler. */
  ghost predicate Covered<Id, E(!new)>(classify: string -> Kind<Id>, of: Id -> E, text: string, t: Tail<Id>) {
    forall line, e :: line in Lines(text) && RecordLine(classify, of, line, e) ==> Handed(of, t, e)
  }

  lemma RecordIsEvent<Id, E>(classify: string -> Kind<Id>, of: Id -> E, line: string, e: E)
    requires RecordLine(classify, of, line, e)
    ensures classify(line).Event? && of(classify(line).id) == e
  {
  }

  /** A record whose start was read before its end either was complete then, or shows up as torn now. */
  lemma TornRecord<Id, E>(classify: string -> Kind<Id>, of: Id -> E, p: string, q: string, e: E)
    requires p != "" && RecordLine(classify, of, p + q, e)
    ensures RecordLine(classify, of, p, e) || (classify(q).Garbage? && !Blank(q))
  {
    var body, w :| RecordBody(classify, of, body, e) && AllWs(w) && p + q == body + w;
    if |p| >= |body| {
      var v := p[|body|..];
      assert p[..|body|] == (p + q)[..|body|] == (body + w)[..|body|] == body;
      assert v == (p + q)[|body|..|p|] == (body + w)[|body|..|p|] == w[..|v|];
      assert p == body + v;
    } else {
      assert q == (p + q)[|p|..] == (body + w)[|p|..] == body[|p|..] + w;
      assert q[|body| - |p| - 1] == body[|body| - 1];
    }
  }

  // ----- when the guard at the saved offset fires

  /** `line` is a line of the text, and begins at `start`. */
  predicate LineAt(text: string, start: nat, line: string) {
    && start < |text| && (start == 0 || text[start - 1] == '\n')
    && Lines(text[start..])[0] == line
  }

  lemma {:induction false} LineTail(t: string, k: nat)
    requires k < LineEnd(t)
    ensures LineEnd(t[k..]) == LineEnd(t) - k
    decreases k
  {
    if k > 0 {
      LineTail(t[1..], k - 1);
      assert t[1..][k - 1..] == t[k..];
    }
  }

  /** From an offset inside a line, the first line read is what is left of it. */
  lemma LeftOfLine(text: string, start: nat, line: string, offset: nat)
    requires LineAt(text, start, line) && start <= offset < start + |line|
    ensures offset < |text| && Lines(text[offset..])[0] == line[offset - start..]
  {
    var t, k := text[start..], offset - start;
    assert t[..LineEnd(t)] == line;
    LineTail(t, k);
    assert t[k..] == text[offset..];
    assert t[k..][..LineEnd(t) - k] == line[k..];
  }

  /** What is left of a record's line does not parse, and is not blank, exactly after a cut inside the body. */
  lemma CutOfRecord<Id, E>(
    classify: string -> Kind<Id>, of: Id -> E, body: string, w: string, e: E, left: string, k: nat)
    requires RecordBody(classify, of, body, e) && AllWs(w) && k < |body + w| && left == (body + w)[k..]
    ensures classify(left).Garbage? && !Blank(left) <==> 0 < k < |body|
  {
    if k == 0 {
      assert left == body + w;
    } else if k < |body| {
      assert left == body[k..] + w;
      assert left[|body| - k - 1] == body[|body| - 1];
    } else {
      assert left == w[k - |body|..];
      assert Blank(left);
    }
  }

  /**
   * With the saved offset somewhere in a record's line, the guard fires if and only if the offset is
   * strictly inside the record's body: not at its start, and not in the whitespace behind it.
   */
  lemma TornExactly<Id, E>(
    classify: string -> Kind<Id>, of: Id -> E, text: string, start: nat, body: string, w: string, e: E, offset: nat)
    requires LineAt(text, start, body + w) && RecordBody(classify, of, body, e) && AllWs(w)
    requires start <= offset < start + |body + w|
    ensures offset <= |text|
    ensures Torn(classify, offset, Lines(text[offset..])) <==> start < offset < start + |body|
  {
    LeftOfLine(text, start, body + w, offset);
    CutOfRecord(classify, of, body, w, e, Lines(text[offset..])[0], offset - start);
  }

  /** The offset is strictly inside the body of a record of the text. */
  ghost predicate InsideRecord<Id, E(!new)>(classify: string -> Kind<Id>, of: Id -> E, text: string, offset: nat) {
    exists start: nat, body, w, e: E ::
      RecordBody(classify, of, body, e) && AllWs(w) && LineAt(text, start, body + w) && start < offset < start + |body|
  }

  lemma InsideIsTorn<Id, E(!new)>(classify: string -> Kind<Id>, of: Id -> E, text: string, offset: nat)
    requires InsideRecord(classify, of, text, offset)
    ensures offset <= |text| && Torn(classify, offset, Lines(text[offset..]))
  {
    var start: nat, body, w, e: E :|
      RecordBody(classify, of, body, e) && AllWs(w) && LineAt(text, start, body + w) && start < offset < start + |body|;
    TornExactly(classify, of, text, start, body, w, e, offset);
  }

  // ----- one poll

  /** The log at the last completed poll, if there was one: its text, and what the books must say of it. */
  function TextOf(prev: Option<Log>): string { if prev.None? then "" else prev.value.text }

  function BookOf(prev: Option<Log>): Book {
    if prev.None? then Book(0, None) else Book(|prev.value.text|, Some(prev.value.inode))
  }

  /**
   * What may have happened to the log since the last completed poll saw `prev`: it was replaced, or
   * it shrank, or it only grew, or it was refilled so that the old end falls inside a record.
   */
  ghost predicate Visible<Id, E(!new)>(classify: string -> Kind<Id>, of: Id -> E, prev: Option<Log>, log: Log) {
    prev.Some? ==>
      || log.inode != prev.value.inode
      || |log.text| < |prev.value.text|
      || prev.value.text <= log.text
      || InsideRecord(classify, of, log.text, |prev.value.text|)
  }

  ghost predicate InStep<Id, E(!new)>(classify: string -> Kind<Id>, of: Id -> E, book: Book, prev: Option<Log>,
                                      t: Tail<Id>) {
    book == BookOf(prev) && Remembers(t) && Covered(classify, of, TextOf(prev), t)
  }

  lemma ReadLinesDelivered<Id(!new), E>(
    classify: string -> Kind<Id>, of: Id -> E, order: Order<Id>, t: Tail<Id>, lines: seq<string>, line: string, e: E)
    requires Enumerates(order) && Remembers(t) && line in lines && RecordLine(classify, of, line, e)
    requires !DispatchAll(classify, order, t, lines).raised
    ensures Handed(of, DispatchAll(classify, order, t, lines).tail, e)
  {
    var i :| 0 <= i < |lines| && lines[i] == line;
    RecordIsEvent(classify, of, line, e);
    DispatchDelivers(classify, order, t, lines, i);
    InHanded(of, DispatchAll(classify, order, t, lines).tail, classify(line).id, e);
  }

  lemma InHanded<Id, E>(of: Id -> E, t: Tail<Id>, id: Id, e: E)
    requires id in t.handed && of(id) == e
    ensures Handed(of, t, e)
  {
    var i :| 0 <= i < |t.handed| && t.handed[i] == id;
  }

  /** What was handed over stays so. */
  lemma HandedStays<Id, E>(
    classify: string -> Kind<Id>, of: Id -> E, order: Order<Id>, t: Tail<Id>, lines: seq<string>, e: E)
    requires Handed(of, t, e)
    ensures Handed(of, DispatchAll(classify, order, t, lines).tail, e)
  {
    var i :| 0 <= i < |t.handed| && of(t.handed[i]) == e;
    DispatchKeeps(classify, order, t, lines, t.handed[i]);
    InHanded(of, DispatchAll(classify, order, t, lines).tail, t.handed[i], e);
  }

  /** A record line of the grown log is a record line of the old one, or one of the new text. */
  lemma GrownRecord<Id, E>(
    classify: string -> Kind<Id>, of: Id -> E, prev: string, g: string, read: seq<string>, line: string, e: E)
    returns (earlier: Option<string>)
    requires line in Lines(prev + g) && RecordLine(classify, of, line, e) && read == Lines(g)
    requires read != [] ==> !(classify(read[0]).Garbage? && !Blank(read[0]))
    ensures earlier.None? ==> line in read
    ensures earlier.Some? ==> earlier.value in Lines(prev) && RecordLine(classify, of, earlier.value, e)
  {
    var p := GrownLine(prev, g, line);
    if line in read { return None; }
    if line in Lines(prev) { return Some(line); }
    TornRecord(classify, of, p, read[0], e);
    return Some(p);
  }

  /** A pass over the new text leaves no record of the grown log behind. */
  lemma GrownIsHanded<Id(!new), E(!new)>(
    classify: string -> Kind<Id>, of: Id -> E, order: Order<Id>, t: Tail<Id>, prev: string, g: string,
    read: seq<string>, line: string, e: E)
    requires Enumerates(order) && Remembers(t) && Covered(classify, of, prev, t)
    requires line in Lines(prev + g) && RecordLine(classify, of, line, e) && read == Lines(g)
    requires read != [] ==> !(classify(read[0]).Garbage? && !Blank(read[0]))
    requires !DispatchAll(classify, order, t, read).raised
    ensures Handed(of, DispatchAll(classify, order, t, read).tail, e)
  {
    var earlier := GrownRecord(classify, of, prev, g, read, line, e);
    if earlier.Some? {
      HandedStays(classify, of, order, t, read, e);
    } else {
      ReadLinesDelivered(classify, of, order, t, read, line, e);
    }
  }

  /** The pass reads the whole text, or the part behind `prev` and finds no torn line at its start. */
  predicate ReadsEnough<Id>(classify: string -> Kind<Id>, prev: string, text: string, read: seq<string>) {
    || read == Lines(text)
    || (prev <= text && read == Lines(text[|prev|..])
        && (read != [] ==> !(classify(read[0]).Garbage? && !Blank(read[0]))))
  }

  /** Whatever visibly happened to the log, the poll reads enough of it. */
  lemma VisibleReadsEnough<Id, E(!new)>(
    classify: string -> Kind<Id>, of: Id -> E, prev: Option<Log>, log: Log)
    requires Visible(classify, of, prev, log)
    ensures ReadsEnough(classify, TextOf(prev), log.text, LinesRead(classify, BookOf(prev), log))
  {
    var text, was := log.text, TextOf(prev);
    assert text[0..] == text;
    if prev.Some? && log.inode == prev.value.inode && |was| <= |text| && !(was <= text) {
      InsideIsTorn(classify, of, text, |was|);
    }
  }

  lemma EnoughIsHanded<Id(!new), E(!new)>(
    classify: string -> Kind<Id>, of: Id -> E, order: Order<Id>, t: Tail<Id>, prev: string, text: string,
    read: seq<string>, line: string, e: E)
    requires Enumerates(order) && Remembers(t) && Covered(classify, of, prev, t)
    requires ReadsEnough(classify, prev, text, read) && !DispatchAll(classify, order, t, read).raised
    requires line in Lines(text) && RecordLine(classify, of, line, e)
    ensures Handed(of, DispatchAll(classify, order, t, read).tail, e)
  {
    if line in read {
      ReadLinesDelivered(classify, of, order, t, read, line, e);
    } else {
      var g := text[|prev|..];
      assert text == prev + g;
      GrownIsHanded(classify, of, order, t, prev, g, read, line, e);
    }
  }

  lemma EnoughCovers<Id(!new), E(!new)>(
    classify: string -> Kind<Id>, of: Id -> E, order: Order<Id>, t: Tail<Id>, prev: string, text: string,
    read: seq<string>)
    requires Enumerates(order) && Remembers(t) && Covered(classify, of, prev, t)
    requires ReadsEnough(classify, prev, text, read) && !DispatchAll(classify, order, t, read).raised
    ensures Covered(classify, of, text, DispatchAll(classify, order, t, read).tail)
  {
    forall line, e | line in Lines(text) && RecordLine(classify, of, line, e)
      ensures Handed(of, DispatchAll(classify, order, t, read).tail, e)
    {
      EnoughIsHanded(classify, of, order, t, prev, text, read, line, e);
    }
  }

  /** A completed poll has every record of the log handed over, whatever came before it. */
  lemma PollCovers<Id(!new), E(!new)>(
    classify: string -> Kind<Id>, of: Id -> E, order: Order<Id>, book: Book, prev: Option<Log>, t: Tail<Id>, log: Log)
    requires Enumerates(order) && InStep(classify, of, book, prev, t) && Visible(classify, of, prev, log)
    requires Poll(classify, order, book, t, Some(log)).outcome == Completed
    ensures var r := Poll(classify, order, book, t, Some(log)); InStep(classify, of, r.book, Some(log), r.tail)
  {
    var read := LinesRead(classify, book, log);
    VisibleReadsEnough(classify, of, prev, log);
    DispatchRemembers(classify, order, t, read);
    EnoughCovers(classify, of, order, t, TextOf(prev), log.text, read);
  }

  /** A log under another inode, or shorter than before, is read whole: every record of it has been handed over. */
  lemma ReplacedIsCovered<Id(!new), E(!new)>(
    classify: string -> Kind<Id>, of: Id -> E, order: Order<Id>, book: Book, t: Tail<Id>, log: Log)
    requires Enumerates(order) && Remembers(t)
    requires (book.inode.Some? && log.inode != book.inode.value) || |log.text| < book.offset
    requires Poll(classify, order, book, t, Some(log)).outcome == Completed
    ensures Covered(classify, of, log.text, Poll(classify, order, book, t, Some(log)).tail)
  {
    assert log.text[0..] == log.text;
    assert Covered(classify, of, "", t);
    EnoughCovers(classify, of, order, t, "", log.text, Lines(log.text));
  }

  // ----- whole runs

  /** The tailer between polls, and the log as the last completed poll saw it. */
  datatype Running<Id> = Running(book: Book, tail: Tail<Id>, prev: Option<Log>)

  function Start<Id>(): Running<Id> { Running(Book(0, None), Tail({}, []), None) }

  /** The state after the polls of `logs`, one log for each poll. */
  function After<Id>(classify: string -> Kind<Id>, order: Order<Id>, logs: seq<Option<Log>>): Running<Id>
    decreases |logs|
  {
    if logs == [] then Start()
    else
      var s := After(classify, order, logs[..|logs| - 1]);
      var log := logs[|logs| - 1];
      var r := Poll(classify, order, s.book, s.tail, log);
      Running(r.book, r.tail, if r.outcome == Completed then log else s.prev)
  }

  /** No poll of the run meets a refill that hides behind a clean first line. */
  ghost predicate AllVisible<Id, E(!new)>(
    classify: string -> Kind<Id>, of: Id -> E, order: Order<Id>, logs: seq<Option<Log>>)
  {
    forall i :: 0 <= i < |logs| && logs[i].Some? ==>
      var s := After(classify, order, logs[..i]); Visible(classify, of, s.prev, logs[i].value)
  }

  lemma {:induction false} RunInStep<Id(!new), E(!new)>(
    classify: string -> Kind<Id>, of: Id -> E, order: Order<Id>, logs: seq<Option<Log>>)
    requires Enumerates(order) && AllVisible(classify, of, order, logs)
    ensures var s := After(classify, order, logs); InStep(classify, of, s.book, s.prev, s.tail)
    decreases |logs|
  {
    if logs != [] {
      var n := |logs| - 1;
      var before := logs[..n];
      assert forall i :: 0 <= i < n ==> before[..i] == logs[..i] && before[i] == logs[i];
      RunInStep(classify, of, order, before);
      var s := After(classify, order, before);
      if logs[n].Some? { PollInStep(classify, of, order, s, logs[n].value); }
    }
  }

  lemma PollInStep<Id(!new), E(!new)>(
    classify: string -> Kind<Id>, of: Id -> E, order: Order<Id>, s: Running<Id>, log: Log)
    requires Enumerates(order) && InStep(classify, of, s.book, s.prev, s.tail)
    requires Visible(classify, of, s.prev, log)
    ensures var r := Poll(classify, order, s.book, s.tail, Some(log));
            InStep(classify, of, r.book, if r.outcome == Completed then Some(log) else s.prev, r.tail)
  {
    var r := Poll(classify, order, s.book, s.tail, Some(log));
    if r.outcome == Completed {
      PollCovers(classify, of, order, s.book, s.prev, s.tail, log);
    } else {
      var read := LinesRead(classify, s.book, log);
      DispatchRemembers(classify, order, s.tail, read);
      forall line, e | line in Lines(TextOf(s.prev)) && RecordLine(classify, of, line, e)
          ensures Handed(of, r.tail, e) {
        HandedStays(classify, of, order, s.tail, read, e);
      }
    }
  }

  /** After every completed poll of a run, each record then in the log has been handed over in the run. */
  lemma CompletedPollsCover<Id(!new), E(!new)>(
    classify: string -> Kind<Id>, of: Id -> E, order: Order<Id>, logs: seq<Option<Log>>, log: Log)
    requires Enumerates(order) && AllVisible(classify, of, order, logs + [Some(log)])
    requires var s := After(classify, order, logs);
             Poll(classify, order, s.book, s.tail, Some(log)).outcome == Completed
    ensures Covered(classify, of, log.text, After(classify, order, logs + [Some(log)]).tail)
  {
    var all := logs + [Some(log)];
    assert all[..|all| - 1] == logs;
    RunInStep(classify, of, order, all);
  }

  // ----- nothing is handed over twice

  predicate Distinct<T(==)>(xs: seq<T>) { forall i, j :: 0 <= i < j < |xs| ==> xs[i] != xs[j] }

  /** Until the memory first overflows, it is exactly what was handed over. */
  predicate Faithful<Id(==)>(t: Tail<Id>) {
    && (|t.handed| <= 5000 ==> t.seen == (set x | x in t.handed) && Distinct(t.handed))
    && (|t.handed| == 5001 ==> Distinct(t.handed))
  }

  lemma SetOfSeqSmall<T>(xs: seq<T>)
    ensures |(set x | x in xs)| <= |xs|
  {
    if xs != [] {
      var ys := xs[..|xs| - 1];
      SetOfSeqSmall(ys);
      assert (set x | x in xs) == (set x | x in ys) + {xs[|xs| - 1]};
    }
  }

  lemma DeliverFaithful<Id>(order: Order<Id>, t: Tail<Id>, id: Id)
    requires Faithful(t)
    ensures Faithful(Deliver(order, t, id))
  {
    var d := Deliver(order, t, id);
    if id !in t.seen && |t.handed| <= 5000 {
      assert t.seen + {id} == (set x | x in d.handed);
      SetOfSeqSmall(d.handed);
      assert Distinct(d.handed);
    }
  }

  lemma {:induction false} DispatchFaithful<Id>(classify: string -> Kind<Id>, order: Order<Id>, t: Tail<Id>,
                                                lines: seq<string>)
    requires Faithful(t)
    ensures Faithful(DispatchAll(classify, order, t, lines).tail)
    decreases |lines|
  {
    if lines != [] {
      match classify(lines[0])
      case Poison =>
      case Event(x) =>
        DeliverFaithful(order, t, x);
        DispatchFaithful(classify, order, Deliver(order, t, x), lines[1..]);
      case _ => DispatchFaithful(classify, order, t, lines[1..]);
    }
  }

  /** No identity is handed over twice in a run, re-reads from the top included, while at most 5000 are known. */
  lemma {:induction false} NoIdentityTwice<Id>(classify: string -> Kind<Id>, order: Order<Id>, logs: seq<Option<Log>>)
    ensures Faithful(After(classify, order, logs).tail)
    ensures |After(classify, order, logs).tail.handed| <= 5001 ==>
            Distinct(After(classify, order, logs).tail.handed)
    decreases |logs|
  {
    if logs != [] {
      var s := After(classify, order, logs[..|logs| - 1]);
      NoIdentityTwice(classify, order, logs[..|logs| - 1]);
      var log := logs[|logs| - 1];
      if log.Some? { DispatchFaithful(classify, order, s.tail, LinesRead(classify, s.book, log.value)); }
    }
  }

  // ----- the limits of the promise

  /** A poll completes if and only if it reads no line on which the identity lookup raises. */
  lemma PollCompletesExactly<Id>(classify: string -> Kind<Id>, order: Order<Id>, book: Book, t: Tail<Id>, log: Log)
    ensures Poll(classify, order, book, t, Some(log)).outcome == Completed
       <==> forall line :: line in LinesRead(classify, book, log) ==> !classify(line).Poison?
  {
    DispatchRaises(classify, order, t, LinesRead(classify, book, log));
  }

  lemma {:induction false} HandedOnlyIfRead<Id>(
    classify: string -> Kind<Id>, order: Order<Id>, t: Tail<Id>, lines: seq<string>, id: Id)
    requires id in DispatchAll(classify, order, t, lines).tail.handed && id !in t.handed
    ensures exists i :: 0 <= i < |lines| && classify(lines[i]) == Event(id)
    decreases |lines|
  {
    if lines != [] {
      var rest := lines[1..];
      assert forall i :: 0 <= i < |rest| ==> rest[i] == lines[i + 1];
      match classify(lines[0])
      case Poison =>
      case Event(x) => if x != id { HandedOnlyIfRead(classify, order, Deliver(order, t, x), rest, id); }
      case _ => HandedOnlyIfRead(classify, order, t, rest, id);
    }
  }

  /**
   * A refill that is not given away loses exactly this: the records that begin before the saved
   * offset and are neither handed over already nor repeated behind it.
   */
  lemma QuietRefillLoses<Id(!new), E(!new)>(
    classify: string -> Kind<Id>, of: Id -> E, order: Order<Id>, book: Book, t: Tail<Id>, log: Log)
    requires Enumerates(order) && Remembers(t)
    requires (book.inode.Some? ==> log.inode == book.inode.value) && book.offset <= |log.text|
    requires !Torn(classify, book.offset, Lines(log.text[book.offset..]))
    requires Poll(classify, order, book, t, Some(log)).outcome == Completed
    ensures Covered(classify, of, log.text, Poll(classify, order, book, t, Some(log)).tail)
       <==> forall line, e :: line in Lines(log.text) && RecordLine(classify, of, line, e) ==>
              Handed(of, t, e) || Reads(classify, of, Lines(log.text[book.offset..]), e)
  {
    var r := Poll(classify, order, book, t, Some(log));
    var read := Lines(log.text[book.offset..]);
    forall e ensures Handed(of, r.tail, e) <==> Handed(of, t, e) || Reads(classify, of, read, e) {
      HandedExactly(classify, of, order, t, read, e);
    }
  }

  /** One of the lines is the event. */
  ghost predicate Reads<Id, E>(classify: string -> Kind<Id>, of: Id -> E, lines: seq<string>, e: E) {
    exists l :: l in lines && classify(l).Event? && of(classify(l).id) == e
  }

  lemma HandedExactly<Id(!new), E>(
    classify: string -> Kind<Id>, of: Id -> E, order: Order<Id>, t: Tail<Id>, read: seq<string>, e: E)
    requires Enumerates(order) && Remembers(t) && !DispatchAll(classify, order, t, read).raised
    ensures Handed(of, DispatchAll(classify, order, t, read).tail, e)
            <==> Handed(of, t, e) || Reads(classify, of, read, e)
  {
    var u := DispatchAll(classify, order, t, read).tail;
    if Handed(of, t, e) { HandedStays(classify, of, order, t, read, e); }
    if l :| l in read && classify(l).Event? && of(classify(l).id) == e {
      var i :| 0 <= i < |read| && read[i] == l;
      DispatchDelivers(classify, order, t, read, i);
      InHanded(of, u, classify(l).id, e);
    }
    if i :| 0 <= i < |u.handed| && of(u.handed[i]) == e {
      var id := u.handed[i];
      if id in t.handed {
        InHanded(of, t, id, e);
      } else {
        HandedOnlyIfRead(classify, order, t, read, id);
        var k :| 0 <= k < |read| && classify(read[k]) == Event(id);
        assert read[k] in read;
      }
    }
  }

  /**
   * Off a line boundary is not enough to be noticed: a log refilled so that the saved offset falls
   * just before a newline loses its record, although that offset is inside a line.
   */
  lemma RefillBeforeNewlineIsLost<Id, E(!new)>(
    classify: string -> Kind<Id>, of: Id -> E, order: Order<Id>, a: string, b: string, x: E, y: E)
    requires RecordBody(classify, of, a, x) && RecordBody(classify, of, b, y) && x != y && |a| == |b|
    requires '\n' !in a && '\n' !in b && classify("\n").Garbage?
    ensures var s := After(classify, order, [Some(Log(1, a)), Some(Log(1, b + "\n"))]);
            s.prev == Some(Log(1, b + "\n")) && |s.tail.handed| == 1 && of(s.tail.handed[0]) == x
    ensures b + "\n" in Lines(b + "\n") && RecordLine(classify, of, b + "\n", y)
  {
    OneLine(a, "");
    OneLine(b, "\n");
    assert a + "" == a;
    var first, second := Log(1, a), Log(1, b + "\n");
    TwoPolls(classify, order, first, second);
    PollOfOneLine(classify, order, Book(0, None), Tail({}, []), first, a);
    var t := Deliver(order, Tail({}, []), classify(a).id);
    PollOfOneLine(classify, order, Book(|a|, Some(1)), t, second, "\n");
    assert RecordLine(classify, of, b + "\n", y);
  }

  /** A run of two polls that complete, step by step. */
  lemma TwoPolls<Id>(classify: string -> Kind<Id>, order: Order<Id>, first: Log, second: Log)
    ensures var r1 := Poll(classify, order, Book(0, None), Tail({}, []), Some(first));
            var r2 := Poll(classify, order, r1.book, r1.tail, Some(second));
            r1.outcome == Completed && r2.outcome == Completed ==>
            After(classify, order, [Some(first), Some(second)]) == Running(r2.book, r2.tail, Some(second))
  {
    var one: seq<Option<Log>> := [Some(first)];
    var both := [Some(first), Some(second)];
    assert both[..1] == one && one[..0] == [];
    var s0: Running<Id> := After(classify, order, []);
    var s1 := After(classify, order, one);
    assert s0 == Start();
    var r1 := Poll(classify, order, s0.book, s0.tail, Some(first));
    assert s1 == Running(r1.book, r1.tail, if r1.outcome == Completed then Some(first) else s0.prev);
  }

  lemma OneLine(a: string, end: string)
    requires a != "" && '\n' !in a && (end == "" || end == "\n")
    ensures Lines(a + end) == [a + end] && Lines((a + end)[0..]) == [a + end]
            && Lines((a + end)[|a|..]) == (if end == "" then [] else [end])
  {
    LineEndGrows(a, end);
    var t := a + end;
    assert t[..|t|] == t && t[|t|..] == "" && t[0..] == t && t[|a|..] == end;
    assert end[|end|..] == "" && end[..|end|] == end;
  }

  lemma PollOfOneLine<Id>(classify: string -> Kind<Id>, order: Order<Id>, book: Book, t: Tail<Id>, log: Log,
                          line: string)
    requires (book.inode.Some? ==> log.inode == book.inode.value) && book.offset <= |log.text|
    requires Lines(log.text[book.offset..]) == [line]
    requires book.offset == 0 || Blank(line)
    requires classify(line).Event? || classify(line).Garbage?
    ensures Poll(classify, order, book, t, Some(log))
         == Polled(Completed, Book(|log.text|, Some(log.inode)),
                   if classify(line).Event? then Deliver(order, t, classify(line).id) else t)
  {
    assert LinesRead(classify, book, log) == [line] && [line][1..] == [];
    var next := if classify(line).Event? then Deliver(order, t, classify(line).id) else t;
    assert DispatchAll(classify, order, next, []) == Pass(next, false);
  }

  // ----- the records a JSON writer produces

  /** The parser rejects every text that is no JSON value with whitespace around it. */
  ghost predicate ReadsJson<Id>(classify: string -> Kind<Id>) {
    forall t :: !Parses(t) ==> classify(t).Garbage?
  }
}
