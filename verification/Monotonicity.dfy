/** The two running-peak checks of scripts/markers_check.py over a file's history, oldest revision first. */
module Monotonicity {
  import opened Wrappers

  /** What a finding says: the peak, the first revision at it, and the revisions below the peak so far. */
  datatype Finding = Finding(peak: nat, at: nat, drops: seq<nat>)

  /** The highest count of the first n revisions. */
  function Max(xs: seq<nat>, n: nat): (m: nat)
    requires 0 < n <= |xs|
    ensures forall i :: 0 <= i < n ==> xs[i] <= m
    ensures exists i :: 0 <= i < n && xs[i] == m
  {
    if n == 1 then xs[0]
    else
      var m := Max(xs, n - 1);
      if xs[n - 1] > m then xs[n - 1] else m
  }

  /** Below some earlier revision, and so below the running peak. */
  predicate Dropped(xs: seq<nat>, i: nat) { i < |xs| && exists j :: 0 <= j < i && xs[j] > xs[i] }

  /** The revisions below the running peak among the first n. */
  function Drops(xs: seq<nat>, n: nat): seq<nat> {
    if n == 0 then [] else Drops(xs, n - 1) + if Dropped(xs, n - 1) then [n - 1] else []
  }

  lemma {:induction false} DropsAre(xs: seq<nat>, n: nat)
    ensures forall i: nat :: i in Drops(xs, n) <==> i < n && Dropped(xs, i)
    ensures forall a, b :: 0 <= a < b < |Drops(xs, n)| ==> Drops(xs, n)[a] < Drops(xs, n)[b]
    decreases n
  {
    if n > 0 {
      DropsAre(xs, n - 1);
      var before := Drops(xs, n - 1);
      assert forall a :: 0 <= a < |before| ==> before[a] in before;
    }
  }

  /** The finding the first n revisions deserve. */
  predicate Describes(f: Finding, xs: seq<nat>, n: nat) {
    && 0 < n <= |xs| && f.peak == Max(xs, n)
    && f.at < n && xs[f.at] == f.peak && (forall j :: 0 <= j < f.at ==> xs[j] < f.peak)
    && f.drops == Drops(xs, n)
  }

  /** Lost and not restored: the newest revision is below the highest. */
  predicate Lost(xs: seq<nat>) { |xs| >= 2 && xs[|xs| - 1] < Max(xs, |xs|) }

  /** One step of either loop. */
  lemma PeakStep(f: Finding, xs: seq<nat>, n: nat)
    requires n < |xs| && Describes(f, xs, n)
    ensures Describes(if xs[n] > f.peak then Finding(xs[n], n, f.drops)
                      else if xs[n] < f.peak then f.(drops := f.drops + [n]) else f, xs, n + 1)
  {
    assert xs[n] < f.peak ==> xs[f.at] > xs[n];
  }

  lemma FirstRevision(xs: seq<nat>)
    requires xs != []
    ensures Describes(Finding(xs[0], 0, []), xs, 1)
  {
    assert !Dropped(xs, 0);
    assert Drops(xs, 1) == [];
  }

  lemma LossIsDrop(f: Finding, xs: seq<nat>)
    requires xs != [] && Describes(f, xs, |xs|) && xs[|xs| - 1] < f.peak
    ensures f.drops != [] && |xs| >= 2
  {
    DropsAre(xs, |xs|);
    assert xs[f.at] > xs[|xs| - 1];
    assert Dropped(xs, |xs| - 1);
  }

  method MonotonicityFindings(xs: seq<nat>) returns (r: Option<Finding>)
    ensures r.Some? <==> Lost(xs)
    ensures r.Some? ==> Describes(r.value, xs, |xs|)
  {
    if |xs| < 2 { return None; }
    var f := Finding(xs[0], 0, []);
    var i := 1;
    FirstRevision(xs);
    while i < |xs|
      invariant 1 <= i <= |xs| && Describes(f, xs, i)
    {
      PeakStep(f, xs, i);
      if xs[i] < f.peak { f := f.(drops := f.drops + [i]); }
      if xs[i] > f.peak { f := Finding(xs[i], i, f.drops); }
      i := i + 1;
    }
    if xs[|xs| - 1] < f.peak { LossIsDrop(f, xs); }
    if f.drops == [] || xs[|xs| - 1] >= f.peak { return None; }
    return Some(f);
  }

  // ----- item by item

  type Counts = map<string, nat>

  function Get(counts: Counts, k: string): nat { if k in counts then counts[k] else 0 }

  /** The counts of one item over the history. */
  function Track(revisions: seq<Counts>, k: string): (xs: seq<nat>)
    ensures |xs| == |revisions|
  {
    if revisions == [] then [] else [Get(revisions[0], k)] + Track(revisions[1..], k)
  }

  /** What the loop knows after one more revision. */
  function Advanced(f: Option<Finding>, count: nat, i: nat): Finding {
    if f.None? then Finding(count, i, [])
    else if count > f.value.peak then Finding(count, i, f.value.drops)
    else if count < f.value.peak then f.value.(drops := f.value.drops + [i])
    else f.value
  }

  lemma AdvancedDescribes(f: Option<Finding>, xs: seq<nat>, i: nat)
    requires i < |xs| && (f.None? <==> i == 0) && (f.Some? ==> Describes(f.value, xs, i))
    ensures Describes(Advanced(f, xs[i], i), xs, i + 1)
  {
    if f.Some? { PeakStep(f.value, xs, i); } else { FirstRevision(xs); }
  }

  /** The loop's body: the peak and its revision, or one more drop. */
  method Advance(f: Option<Finding>, count: nat, i: nat) returns (g: Option<Finding>)
    ensures g == Some(Advanced(f, count, i))
  {
    g := f;
    if f.None? || count > f.value.peak {
      g := Some(Finding(count, i, if f.None? then [] else f.value.drops));
    } else if count < f.value.peak {
      g := Some(f.value.(drops := f.value.drops + [i]));
    }
  }

  lemma {:induction false} TrackAt(revisions: seq<Counts>, k: string, i: nat)
    requires i < |revisions|
    ensures Track(revisions, k)[i] == Get(revisions[i], k)
    decreases |revisions|
  {
    if i > 0 { TrackAt(revisions[1..], k, i - 1); }
  }

  /** The loop over the revisions. */
  method PeakOf(revisions: seq<Counts>, k: string) returns (f: Finding)
    requires revisions != []
    ensures Describes(f, Track(revisions, k), |revisions|)
  {
    ghost var xs := Track(revisions, k);
    var g: Option<Finding> := None;
    var i := 0;
    while i < |revisions|
      invariant i <= |revisions| && (g.None? <==> i == 0)
      invariant g.Some? ==> Describes(g.value, xs, i)
    {
      TrackAt(revisions, k, i);
      AdvancedDescribes(g, xs, i);
      g := Advance(g, Get(revisions[i], k), i);
      i := i + 1;
    }
    return g.value;
  }

  method ItemFinding(revisions: seq<Counts>, k: string) returns (r: Option<Finding>)
    requires |revisions| >= 2 && k in revisions[|revisions| - 1]
    ensures r.Some? <==> Lost(Track(revisions, k))
    ensures r.Some? ==> Describes(r.value, Track(revisions, k), |revisions|)
  {
    var f := PeakOf(revisions, k);
    TrackAt(revisions, k, |revisions| - 1);
    var newest := revisions[|revisions| - 1][k];
    if newest < f.peak { LossIsDrop(f, Track(revisions, k)); }
    if f.drops != [] && newest < f.peak { return Some(f); }
    return None;
  }

  // ----- the order of the items

  /** The order of strings: by the first character that differs, a beginning before what it begins. */
  predicate Before(x: string, y: string) {
    y != "" && (x == "" || x[0] < y[0] || (x[0] == y[0] && Before(x[1..], y[1..])))
  }

  lemma {:induction false} BeforeOrders(x: string, y: string)
    ensures !Before(x, x)
    ensures (if Before(x, y) then 1 else 0) + (if x == y then 1 else 0) + (if Before(y, x) then 1 else 0) == 1
    decreases |x|
  {
    if x != "" {
      if y != "" {
        BeforeOrders(x[1..], y[1..]);
        if x[0] == y[0] && x[1..] == y[1..] { assert x == [x[0]] + x[1..] == [y[0]] + y[1..] == y; }
      } else {
        BeforeOrders(x[1..], x[1..]);
      }
    }
  }

  lemma {:induction false} BeforeTransitive(x: string, y: string, z: string)
    requires Before(x, y) && Before(y, z)
    ensures Before(x, z)
    decreases |x|
  {
    if x != "" && x[0] == y[0] && y[0] == z[0] { BeforeTransitive(x[1..], y[1..], z[1..]); }
  }

  predicate Increasing(xs: seq<string>) { forall i, j :: 0 <= i < j < |xs| ==> Before(xs[i], xs[j]) }

  /** The place of a new string in an increasing sequence. */
  method Place(xs: seq<string>, x: string) returns (n: nat)
    requires Increasing(xs) && x !in xs
    ensures n <= |xs| && Increasing(xs[..n] + [x] + xs[n..])
  {
    n := 0;
    while n < |xs| && Before(xs[n], x)
      invariant n <= |xs| && forall i :: 0 <= i < n ==> Before(xs[i], x)
    {
      n := n + 1;
    }
    forall j | n <= j < |xs| ensures Before(x, xs[j]) {
      BeforeOrders(xs[n], x);
      if j > n { BeforeTransitive(x, xs[n], xs[j]); }
    }
  }

  /** Python's sorted of a set of strings. */
  method Sorted(items: set<string>) returns (xs: seq<string>)
    ensures Increasing(xs) && forall x :: x in xs <==> x in items
  {
    xs := [];
    var left := items;
    while left != {}
      invariant Increasing(xs) && left <= items && forall x :: x in xs <==> x in items - left
      decreases |left|
    {
      var x :| x in left;
      var n := Place(xs, x);
      left := left - {x};
      assert forall y :: y in xs[..n] + [x] + xs[n..] <==> y in xs || y == x by { assert xs == xs[..n] + xs[n..]; }
      xs := xs[..n] + [x] + xs[n..];
    }
  }

  /** Each item's finding is the one its history deserves. */
  predicate AllDescribed(revisions: seq<Counts>, names: seq<string>, findings: seq<Finding>) {
    |findings| == |names| && forall i :: 0 <= i < |names| ==>
        Describes(findings[i], Track(revisions, names[i]), |revisions|)
  }

  lemma OneMoreDescribed(revisions: seq<Counts>, names: seq<string>, findings: seq<Finding>, k: string, f: Finding)
    requires AllDescribed(revisions, names, findings) && Describes(f, Track(revisions, k), |revisions|)
    ensures AllDescribed(revisions, names + [k], findings + [f])
  {
  }

  /** The items among `keys` that lost a marker for good, and no others, in increasing order. */
  ghost predicate ExactlyLost(revisions: seq<Counts>, keys: seq<string>, names: seq<string>) {
    Increasing(names) && forall k :: k in names <==> k in keys && Lost(Track(revisions, k))
  }

  lemma IncreasingPush(names: seq<string>, k: string)
    requires Increasing(names) && forall i :: 0 <= i < |names| ==> Before(names[i], k)
    ensures Increasing(names + [k])
  {
  }

  lemma MembersPush(xs: seq<string>, k: string)
    ensures forall x :: x in xs + [k] <==> x in xs || x == k
  {
  }

  lemma LostBefore(revisions: seq<Counts>, keys: seq<string>, i: nat, names: seq<string>)
    requires Increasing(keys) && i < |keys| && ExactlyLost(revisions, keys[..i], names)
    ensures forall j :: 0 <= j < |names| ==> Before(names[j], keys[i])
  {
    forall j | 0 <= j < |names| ensures Before(names[j], keys[i]) {
      assert names[j] in keys[..i];
      var m :| 0 <= m < i && keys[m] == names[j];
    }
  }

  lemma ExactlyLostStep(revisions: seq<Counts>, keys: seq<string>, i: nat, names: seq<string>, more: seq<string>)
    requires Increasing(keys) && i < |keys| && ExactlyLost(revisions, keys[..i], names)
    requires more == if Lost(Track(revisions, keys[i])) then names + [keys[i]] else names
    ensures ExactlyLost(revisions, keys[..i + 1], more)
  {
    var k := keys[i];
    LostBefore(revisions, keys, i, names);
    IncreasingPush(names, k);
    assert keys[..i + 1] == keys[..i] + [k];
    MembersPush(keys[..i], k);
    MembersPush(names, k);
  }

  /** Exactly the items of the newest revision that lost a marker for good are reported, in increasing order. */
  method ItemMonotonicityFindings(revisions: seq<Counts>) returns (names: seq<string>, findings: seq<Finding>)
    ensures |revisions| < 2 ==> names == []
    ensures |revisions| >= 2 ==> Increasing(names)
    ensures |revisions| >= 2 ==>
              forall k :: k in names <==> k in revisions[|revisions| - 1] && Lost(Track(revisions, k))
    ensures AllDescribed(revisions, names, findings)
  {
    names, findings := [], [];
    if |revisions| < 2 { return; }
    var keys := Sorted(revisions[|revisions| - 1].Keys);
    var i := 0;
    while i < |keys|
      invariant i <= |keys| && ExactlyLost(revisions, keys[..i], names)
      invariant AllDescribed(revisions, names, findings)
    {
      ghost var lost := Lost(Track(revisions, keys[i]));
      ExactlyLostStep(revisions, keys, i, names, if lost then names + [keys[i]] else names);
      assert keys[i] in keys;
      var f := ItemFinding(revisions, keys[i]);
      if f.Some? {
        OneMoreDescribed(revisions, names, findings, keys[i], f.value);
        names, findings := names + [keys[i]], findings + [f.value];
      }
      i := i + 1;
    }
    assert keys[..|keys|] == keys;
  }
}
