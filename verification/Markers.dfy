/**
 * The two line scanners of scripts/markers_check.py. A file is a sequence of classified lines, each
 * with the number of verdict markers on it. A row is a table row that is no item (a header, a
 * separator or a bare bar) but ends an item's block all the same.
 */
module Markers {
  import opened Wrappers

  datatype Kind = Section(name: string) | Step2 | Heading | Item(key: Option<string>) | Row | Text

  datatype Line = Line(kind: Kind, marks: nat)

  predicate IsHeading(l: Line) { l.kind.Section? || l.kind.Step2? || l.kind.Heading? }

  const STEP2 := "step2"

  predicate InScope(section: Option<string>, sections: set<string>) {
    section.Some? && (section.value in sections || section.value == STEP2)
  }

  function After(section: Option<string>, l: Line): Option<string> {
    match l.kind
    case Section(name) => Some(name)
    case Step2 => Some(STEP2)
    case Heading => None
    case _ => section
  }

  /** The section in force before line n. */
  function SectionAt(lines: seq<Line>, n: nat): Option<string>
    requires n <= |lines|
  {
    if n == 0 then None else After(SectionAt(lines, n - 1), lines[n - 1])
  }

  // ----- the content sweep

  /** Some line of the block has a marker: one that only text lies before. */
  predicate BlockHasVerdict(lines: seq<Line>, index: nat) {
    exists j :: index < j < |lines| && lines[j].marks > 0 && forall i :: index < i <= j ==> lines[i].kind.Text?
  }

  method FindVerdict(lines: seq<Line>, index: nat) returns (found: bool)
    ensures found <==> BlockHasVerdict(lines, index)
  {
    var probe := index + 1;
    while probe < |lines|
      invariant index < probe
      invariant forall i :: index < i < probe && i < |lines| ==> lines[i].kind.Text? && lines[i].marks == 0
      decreases |lines| - probe
    {
      if IsHeading(lines[probe]) { return false; }
      if lines[probe].kind.Item? || lines[probe].kind.Row? { return false; }
      if lines[probe].marks > 0 { return true; }
      probe := probe + 1;
    }
    return false;
  }

  predicate ScopedItem(lines: seq<Line>, sections: set<string>, i: nat) {
    i < |lines| && lines[i].kind.Item? && InScope(SectionAt(lines, i), sections)
  }

  predicate Unmarked(lines: seq<Line>, sections: set<string>, i: nat) {
    ScopedItem(lines, sections, i) && lines[i].marks == 0 && !BlockHasVerdict(lines, i)
  }

  /** Exactly the scoped items without a marker of their own or in their block, in order. */
  method UnmarkedItems(lines: seq<Line>, sections: set<string>) returns (findings: seq<nat>)
    ensures forall i :: i in findings <==> Unmarked(lines, sections, i)
    ensures forall a, b :: 0 <= a < b < |findings| ==> findings[a] < findings[b]
  {
    findings := [];
    var section: Option<string> := None;
    var index := 0;
    while index < |lines|
      invariant index <= |lines| && section == SectionAt(lines, index)
      invariant forall i: nat :: i in findings <==> i < index && Unmarked(lines, sections, i)
      invariant forall a, b :: 0 <= a < b < |findings| ==> findings[a] < findings[b]
    {
      var line := lines[index];
      if IsHeading(line) {
        section := After(section, line);
      } else if InScope(section, sections) && line.kind.Item? && line.marks == 0 {
        var verdict := FindVerdict(lines, index);
        if !verdict {
          assert forall a :: 0 <= a < |findings| ==> findings[a] in findings;
          findings := findings + [index];
        }
      }
      index := index + 1;
    }
  }

  // ----- the item counts

  type Counts = map<string, nat>

  datatype Scan = Scan(section: Option<string>, key: Option<string>, counts: Counts)

  function KeyOf(section: Option<string>, key: Option<string>): Option<string> {
    if section.Some? && key.Some? then Some(section.value + ":" + key.value) else None
  }

  function Get(counts: Counts, k: string): nat { if k in counts then counts[k] else 0 }

  /** The item a line belongs to: its own for an item, else the one before it in the section. */
  function KeyAfter(s: Scan, l: Line, sections: set<string>): Option<string> {
    if IsHeading(l) then None
    else if InScope(s.section, sections) && l.kind.Item? then KeyOf(s.section, l.kind.key)
    else s.key
  }

  function Counted(s: Scan, l: Line, sections: set<string>): Scan {
    var key := KeyAfter(s, l, sections);
    if IsHeading(l) then Scan(After(s.section, l), None, s.counts)
    else if InScope(s.section, sections) && key.Some? then
      Scan(s.section, key, s.counts[key.value := Get(s.counts, key.value) + l.marks])
    else s.(key := key)
  }

  function CountedTo(lines: seq<Line>, sections: set<string>, n: nat): Scan
    requires n <= |lines|
  {
    if n == 0 then Scan(None, None, map[]) else Counted(CountedTo(lines, sections, n - 1), lines[n - 1], sections)
  }

  method ItemCounts(lines: seq<Line>, sections: set<string>) returns (counts: Counts)
    ensures counts == CountedTo(lines, sections, |lines|).counts
  {
    counts := map[];
    var section: Option<string>, currentKey: Option<string> := None, None;
    var i := 0;
    while i < |lines|
      invariant i <= |lines| && Scan(section, currentKey, counts) == CountedTo(lines, sections, i)
      invariant currentKey.Some? ==> InScope(section, sections) && currentKey.value in counts
    {
      var line := lines[i];
      if IsHeading(line) {
        section := After(section, line);
        currentKey := None;
      } else {
        ghost var before := counts;
        if InScope(section, sections) && line.kind.Item? {
          currentKey := KeyOf(section, line.kind.key);
          if currentKey.Some? && currentKey.value !in counts { counts := counts[currentKey.value := 0]; }
        }
        if InScope(section, sections) && currentKey.Some? {
          assert Get(counts, currentKey.value) == Get(before, currentKey.value);
          var k := currentKey.value;
          assert counts[k := counts[k] + line.marks] == before[k := Get(before, k) + line.marks];
          counts := counts[k := counts[k] + line.marks];
        }
      }
      i := i + 1;
    }
  }

  // ----- no marker is counted twice

  function Marks(lines: seq<Line>, n: nat): nat
    requires n <= |lines|
  {
    if n == 0 then 0 else Marks(lines, n - 1) + lines[n - 1].marks
  }

  function Sum(keys: seq<string>, counts: Counts): nat {
    if keys == [] then 0 else Get(counts, keys[0]) + Sum(keys[1..], counts)
  }

  ghost predicate Distinct(keys: seq<string>) { forall i, j :: 0 <= i < j < |keys| ==> keys[i] != keys[j] }

  lemma {:induction false} SumBump(keys: seq<string>, counts: Counts, k: string, m: nat)
    requires Distinct(keys)
    ensures Sum(keys, counts[k := Get(counts, k) + m]) == Sum(keys, counts) + if k in keys then m else 0
    decreases |keys|
  {
    if keys != [] {
      var rest := keys[1..];
      assert forall i, j :: 0 <= i < j < |rest| ==> rest[i] == keys[i + 1] && rest[j] == keys[j + 1];
      SumBump(rest, counts, k, m);
      if keys[0] == k {
        forall i | 0 <= i < |rest| ensures rest[i] != k { assert keys[0] != keys[i + 1]; }
      }
    }
  }

  lemma {:induction false} SumWithin(lines: seq<Line>, sections: set<string>, keys: seq<string>, n: nat)
    requires n <= |lines| && Distinct(keys)
    ensures Sum(keys, CountedTo(lines, sections, n).counts) <= Marks(lines, n)
    decreases n
  {
    if n == 0 {
      SumOfNothing(keys);
    } else {
      SumWithin(lines, sections, keys, n - 1);
      var s, l := CountedTo(lines, sections, n - 1), lines[n - 1];
      var key := KeyAfter(s, l, sections);
      if key.Some? { SumBump(keys, s.counts, key.value, l.marks); }
    }
  }

  lemma {:induction false} SumOfNothing(keys: seq<string>)
    ensures Sum(keys, map[]) == 0
    decreases |keys|
  {
    if keys != [] { SumOfNothing(keys[1..]); }
  }

  /** All the items together have at most the markers of the file. */
  lemma ItemsWithinFile(lines: seq<Line>, sections: set<string>, keys: seq<string>)
    requires Distinct(keys)
    ensures Sum(keys, CountedTo(lines, sections, |lines|).counts) <= Marks(lines, |lines|)
  {
    SumWithin(lines, sections, keys, |lines|);
  }

  // ----- the scanners agree

  function FullKey(lines: seq<Line>, i: nat): Option<string>
    requires i < |lines| && lines[i].kind.Item?
  {
    KeyOf(SectionAt(lines, i), lines[i].kind.key)
  }

  /** How many scoped items before line n have the key. */
  function Items(lines: seq<Line>, sections: set<string>, k: string, n: nat): nat
    requires n <= |lines|
  {
    if n == 0 then 0
    else
      Items(lines, sections, k, n - 1)
      + if ScopedItem(lines, sections, n - 1) && FullKey(lines, n - 1) == Some(k) then 1 else 0
  }

  /** The item whose block line n would continue, if neither has had a marker yet. */
  function OpenItem(lines: seq<Line>, n: nat): (r: Option<nat>)
    requires n <= |lines|
    ensures r.Some? ==>
              && r.value < n && lines[r.value].kind.Item? && lines[r.value].marks == 0
              && forall j :: r.value < j < n ==> lines[j].kind.Text? && lines[j].marks == 0
  {
    if n == 0 then None
    else if lines[n - 1].marks > 0 then None
    else if lines[n - 1].kind.Item? then Some(n - 1)
    else if lines[n - 1].kind.Text? then OpenItem(lines, n - 1)
    else None
  }

  /** An open item of the key still owes it a marker. */
  function Owed(lines: seq<Line>, sections: set<string>, k: string, n: nat): nat
    requires n <= |lines|
  {
    var i := OpenItem(lines, n);
    if i.Some? && ScopedItem(lines, sections, i.value) && FullKey(lines, i.value) == Some(k) then 1 else 0
  }

  lemma {:induction false} SameSection(lines: seq<Line>, i: nat, n: nat)
    requires i <= n <= |lines| && forall j :: i <= j < n ==> !IsHeading(lines[j])
    ensures SectionAt(lines, n) == SectionAt(lines, i)
    decreases n
  {
    if i < n { SameSection(lines, i, n - 1); }
  }

  lemma {:induction false} ScanSection(lines: seq<Line>, sections: set<string>, n: nat)
    requires n <= |lines|
    ensures CountedTo(lines, sections, n).section == SectionAt(lines, n)
    decreases n
  {
    if n > 0 { ScanSection(lines, sections, n - 1); }
  }

  /** While an item is open its key is the current one. */
  lemma {:induction false} OpenKey(lines: seq<Line>, sections: set<string>, n: nat)
    requires n <= |lines|
    ensures var i := OpenItem(lines, n);
            i.Some? && ScopedItem(lines, sections, i.value) ==>
              CountedTo(lines, sections, n).key == FullKey(lines, i.value)
                  && SectionAt(lines, n) == SectionAt(lines, i.value)
    decreases n
  {
    if n > 0 {
      ScanSection(lines, sections, n - 1);
      OpenKey(lines, sections, n - 1);
    }
  }

  /** An item still open where its block ends is a finding. */
  lemma OpenIsUnmarked(lines: seq<Line>, sections: set<string>, n: nat)
    requires n <= |lines| && (n == |lines| || !lines[n].kind.Text?)
    ensures var i := OpenItem(lines, n); i.Some? && ScopedItem(lines, sections, i.value) ==>
            Unmarked(lines, sections, i.value)
  {
    var i := OpenItem(lines, n);
    if i.Some? {
      forall j | i.value < j < |lines| && lines[j].marks > 0
          ensures exists x :: i.value < x <= j && !lines[x].kind.Text? {
        assert j >= n;
      }
    }
  }

  /** Without findings a block closes only after it had its marker. */
  lemma ClosedItems(lines: seq<Line>, sections: set<string>, n: nat)
    requires n <= |lines| && forall i :: !Unmarked(lines, sections, i)
    requires n == |lines| || !lines[n].kind.Text?
    ensures OpenItem(lines, n).None? || !ScopedItem(lines, sections, OpenItem(lines, n).value)
  {
    OpenIsUnmarked(lines, sections, n);
  }

  lemma {:induction false} Balance(lines: seq<Line>, sections: set<string>, k: string, n: nat)
    requires n <= |lines| && forall i :: !Unmarked(lines, sections, i)
    ensures Get(CountedTo(lines, sections, n).counts, k) + Owed(lines, sections, k, n) >= Items(lines, sections, k, n)
    decreases n
  {
    if n > 0 {
      Balance(lines, sections, k, n - 1);
      ScanSection(lines, sections, n - 1);
      OpenKey(lines, sections, n - 1);
      if !lines[n - 1].kind.Text? { ClosedItems(lines, sections, n - 1); }
      BalanceStep(lines, sections, k, n);
    }
  }

  lemma BalanceStep(lines: seq<Line>, sections: set<string>, k: string, n: nat)
    requires 0 < n <= |lines|
    requires Get(CountedTo(lines, sections, n - 1).counts, k)
             + Owed(lines, sections, k, n - 1) >= Items(lines, sections, k, n - 1)
    requires CountedTo(lines, sections, n - 1).section == SectionAt(lines, n - 1)
    requires Owed(lines, sections, k, n - 1) == 1 ==>
               CountedTo(lines, sections, n - 1).key == Some(k) && InScope(SectionAt(lines, n - 1), sections)
    requires !lines[n - 1].kind.Text? ==> Owed(lines, sections, k, n - 1) == 0
    ensures Get(CountedTo(lines, sections, n).counts, k) + Owed(lines, sections, k, n) >= Items(lines, sections, k, n)
  {
  }

  /** The two scanners agree: where the sweep finds nothing, every key has a marker for each of its items. */
  lemma ScannersAgree(lines: seq<Line>, sections: set<string>, k: string)
    requires forall i :: !Unmarked(lines, sections, i)
    ensures Get(CountedTo(lines, sections, |lines|).counts, k) >= Items(lines, sections, k, |lines|)
  {
    Balance(lines, sections, k, |lines|);
    ClosedItems(lines, sections, |lines|);
  }

  // ----- what the sections, the findings and the counts are of the lines themselves

  predicate Opens(k: Kind) { k.Section? || k.Step2? || k.Heading? }

  /** Line h is the last heading before line n. */
  predicate InForce(lines: seq<Line>, h: nat, n: nat) {
    h < n <= |lines| && Opens(lines[h].kind) && forall j :: h < j < n ==> !Opens(lines[j].kind)
  }

  /** The heading opens a section whose items are checked. */
  predicate Checked(k: Kind, sections: set<string>, name: string) {
    && (k == Section(name) || (k.Step2? && name == "step2"))
    && (name in sections || name == "step2")
  }

  /** The section before a line is what the last heading says, and no section without one. */
  lemma {:induction false} SectionIs(lines: seq<Line>, n: nat)
    requires n <= |lines|
    ensures SectionAt(lines, n).Some? ==> exists h: nat :: InForce(lines, h, n)
    ensures forall h: nat :: InForce(lines, h, n) ==>
              SectionAt(lines, n) == match lines[h].kind
                                     case Section(name) => Some(name)
                                     case Step2 => Some("step2")
                                     case _ => None
    decreases n
  {
    if n > 0 {
      SectionIs(lines, n - 1);
      if Opens(lines[n - 1].kind) {
        assert InForce(lines, n - 1, n);
      } else {
        if SectionAt(lines, n).Some? {
          var h: nat :| InForce(lines, h, n - 1);
          assert InForce(lines, h, n);
        }
        assert forall h: nat :: InForce(lines, h, n) ==> InForce(lines, h, n - 1);
      }
    }
  }

  /** Line a is an item under a heading that has section `name` checked. */
  ghost predicate ItemOf(lines: seq<Line>, sections: set<string>, a: nat, name: string) {
    && a < |lines| && lines[a].kind.Item?
    && exists h: nat :: InForce(lines, h, a) && Checked(lines[h].kind, sections, name)
  }

  lemma ItemOfIs(lines: seq<Line>, sections: set<string>, a: nat, name: string)
    ensures ItemOf(lines, sections, a, name) <==> ScopedItem(lines, sections, a) && SectionAt(lines, a) == Some(name)
  {
    if a < |lines| { SectionIs(lines, a); }
  }

  /** A finding is an item of a checked section with no marker on its line or on the text after it. */
  lemma UnmarkedMeans(lines: seq<Line>, sections: set<string>, i: nat)
    ensures Unmarked(lines, sections, i) <==>
              && (exists name :: ItemOf(lines, sections, i, name))
              && lines[i].marks == 0
              && forall j :: i < j < |lines| && lines[j].marks > 0 ==> exists x :: i < x <= j && !lines[x].kind.Text?
  {
    if ScopedItem(lines, sections, i) { ItemOfIs(lines, sections, i, SectionAt(lines, i).value); }
    forall name ensures ItemOf(lines, sections, i, name) ==> ScopedItem(lines, sections, i) {
      ItemOfIs(lines, sections, i, name);
    }
  }

  /** Line i is the item at `a`, or is behind it with no other item and no heading between. */
  predicate Owner(lines: seq<Line>, a: nat, i: nat) {
    && a <= i < |lines| && lines[a].kind.Item?
    && forall j :: a < j <= i ==> !lines[j].kind.Item? && !Opens(lines[j].kind)
  }

  ghost predicate HasKey(lines: seq<Line>, sections: set<string>, a: nat, k: string) {
    exists name ::
      ItemOf(lines, sections, a, name) && lines[a].kind.key.Some? && k == name + (":" + lines[a].kind.key.value)
  }

  ghost predicate CountsFor(lines: seq<Line>, sections: set<string>, i: nat, k: string) {
    exists a: nat :: Owner(lines, a, i) && HasKey(lines, sections, a, k)
  }

  /** The markers on the lines before n that belong to an item of the key. */
  ghost function MarksFor(lines: seq<Line>, sections: set<string>, k: string, n: nat): nat
    requires n <= |lines|
  {
    if n == 0 then 0
    else MarksFor(lines, sections, k, n - 1) + if CountsFor(lines, sections, n - 1, k) then lines[n - 1].marks else 0
  }

  lemma HasKeyIs(lines: seq<Line>, sections: set<string>, a: nat, k: string)
    requires a < |lines|
    ensures HasKey(lines, sections, a, k) <==> ScopedItem(lines, sections, a) && FullKey(lines, a) == Some(k)
  {
    forall name ensures ItemOf(lines, sections, a, name)
                   <==> ScopedItem(lines, sections, a) && SectionAt(lines, a) == Some(name) {
      ItemOfIs(lines, sections, a, name);
    }
    if ScopedItem(lines, sections, a) {
      var name := SectionAt(lines, a).value;
      assert ItemOf(lines, sections, a, name);
      if lines[a].kind.key.Some? {
        var key := lines[a].kind.key.value;
        assert name + ":" + key == name + (":" + key);
      }
    }
  }

  /** The scan's key after line i is that of the item the line belongs to. */
  lemma {:induction false} KeyIs(lines: seq<Line>, sections: set<string>, i: nat, k: string)
    requires i < |lines|
    ensures CountedTo(lines, sections, i + 1).key == Some(k) <==> CountsFor(lines, sections, i, k)
    ensures CountsFor(lines, sections, i, k) ==> InScope(SectionAt(lines, i), sections)
    decreases i
  {
    ScanSection(lines, sections, i);
    HasKeyIs(lines, sections, i, k);
    if IsHeading(lines[i]) {
    } else if lines[i].kind.Item? {
      assert forall a: nat :: Owner(lines, a, i) <==> a == i;
      if !InScope(SectionAt(lines, i), sections) { KeyHere(lines, sections, i); }
    } else if i == 0 {
      assert forall a: nat :: !Owner(lines, a, i);
    } else {
      KeyIs(lines, sections, i - 1, k);
      assert forall a: nat :: Owner(lines, a, i) <==> Owner(lines, a, i - 1);
    }
  }

  /** Outside the checked sections there is no current key. */
  lemma {:induction false} KeyHere(lines: seq<Line>, sections: set<string>, n: nat)
    requires n <= |lines| && !InScope(SectionAt(lines, n), sections)
    ensures CountedTo(lines, sections, n).key == None
    decreases n
  {
    if n > 0 {
      ScanSection(lines, sections, n - 1);
      if !IsHeading(lines[n - 1]) { KeyHere(lines, sections, n - 1); }
    }
  }

  /** The keys that are counted are those of the items, marked or not. */
  lemma {:induction false} KeysAre(lines: seq<Line>, sections: set<string>, k: string, n: nat)
    requires n <= |lines|
    ensures k in CountedTo(lines, sections, n).counts <==> exists a: nat :: a < n && HasKey(lines, sections, a, k)
    decreases n
  {
    if n > 0 {
      KeysAre(lines, sections, k, n - 1);
      HasKeyIs(lines, sections, n - 1, k);
      if k in CountedTo(lines, sections, n).counts && k !in CountedTo(lines, sections, n - 1).counts {
        KeyIs(lines, sections, n - 1, k);
        var a: nat :| Owner(lines, a, n - 1) && HasKey(lines, sections, a, k);
        assert a < n;
      }
      ScanSection(lines, sections, n - 1);
    }
  }

  /**
   * The count of a key is the number of markers on its items' lines and on the lines behind them up
   * to the next item or heading.
   */
  lemma {:induction false} CountsAre(lines: seq<Line>, sections: set<string>, k: string, n: nat)
    requires n <= |lines|
    ensures Get(CountedTo(lines, sections, n).counts, k) == MarksFor(lines, sections, k, n)
    decreases n
  {
    if n > 0 {
      CountsAre(lines, sections, k, n - 1);
      KeyIs(lines, sections, n - 1, k);
      ScanSection(lines, sections, n - 1);
    }
  }
}
