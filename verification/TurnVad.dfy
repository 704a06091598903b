/** The end-of-turn detector of modules/telephony/voice-agent.py, fed with one sound level for each poll window. */
module TurnVad {
  import opened Wrappers

  const WINDOW_MS: int := 200

  /** Python's // for a positive divisor is Dafny's /. */
  function AtLeastOne(n: int): (m: nat)
    ensures m >= 1
  {
    if n < 1 then 1 else n
  }

  /** The level of a window; None when no samples arrived. */
  type Window = Option<int>

  class Detector {
    const threshold: int
    const trailing: nat
    const initial: nat
    var speechSeen: bool
    var quiet: nat
    var windows: nat
    ghost var heard: seq<Window>

    constructor (silenceThreshold: int, silenceHits: int, initialSilenceMs: int)
      ensures Valid() && heard == [] && threshold == silenceThreshold
      ensures trailing == (if silenceHits * 20 / 200 >= 1 then silenceHits * 20 / 200 else 1)
      ensures initial == (if initialSilenceMs / 200 >= 1 then initialSilenceMs / 200 else 1)
    {
      threshold := silenceThreshold;
      trailing, initial := AtLeastOne(silenceHits * 20 / WINDOW_MS), AtLeastOne(initialSilenceMs / WINDOW_MS);
      speechSeen, quiet, windows := false, 0, 0;
      heard := [];
    }

    ghost predicate Valid()
      reads this
    {
      speechSeen == Speech(heard, threshold) && quiet == QuietTail(heard, threshold) && windows == |heard|
    }

    method Append(w: Window)
      requires Valid()
      modifies this
      ensures Valid() && heard == old(heard) + [w]
    {
      LastWindow(heard, w, threshold);
      heard := heard + [w];
      windows := windows + 1;
      if w.Some? && w.value >= threshold {
        speechSeen, quiet := true, 0;
      } else {
        quiet := quiet + 1;
      }
    }

    method TurnComplete() returns (complete: bool)
      requires Valid()
      ensures complete == Complete(heard, threshold, trailing, initial)
    {
      if speechSeen { return quiet >= trailing; }
      return windows >= initial;
    }
  }

  predicate Loud(w: Window, threshold: int) { w.Some? && w.value >= threshold }

  predicate Speech(ws: seq<Window>, threshold: int) { exists i :: 0 <= i < |ws| && Loud(ws[i], threshold) }

  function QuietTail(ws: seq<Window>, threshold: int): nat {
    if ws == [] || Loud(ws[|ws| - 1], threshold) then 0 else 1 + QuietTail(ws[..|ws| - 1], threshold)
  }

  predicate Complete(ws: seq<Window>, threshold: int, trailing: nat, initial: nat) {
    if Speech(ws, threshold) then QuietTail(ws, threshold) >= trailing else |ws| >= initial
  }

  lemma LastWindow(ws: seq<Window>, w: Window, threshold: int)
    ensures Speech(ws + [w], threshold) <==> Speech(ws, threshold) || Loud(w, threshold)
    ensures QuietTail(ws + [w], threshold) == if Loud(w, threshold) then 0 else QuietTail(ws, threshold) + 1
  {
    var all := ws + [w];
    assert all[..|all| - 1] == ws;
    if i :| 0 <= i < |ws| && Loud(ws[i], threshold) { assert Loud(all[i], threshold); }
    if Loud(w, threshold) { assert Loud(all[|ws|], threshold); }
  }

  lemma {:induction false} TailIs(ws: seq<Window>, threshold: int, n: nat)
    ensures QuietTail(ws, threshold) <= |ws|
    ensures QuietTail(ws, threshold) >= n <==> n <= |ws| && forall i :: |ws| - n <= i < |ws| ==> !Loud(ws[i], threshold)
    decreases |ws|
  {
    if ws != [] {
      var front := ws[..|ws| - 1];
      TailIs(front, threshold, if n > 0 then n - 1 else 0);
      if n > 0 && n <= |ws| {
        assert forall i :: |front| - (n - 1) <= i < |front| ==> front[i] == ws[i];
      }
    }
  }

  /**
   * A turn is over exactly when somebody spoke and the last `trailing` windows were quiet, or nobody
   * spoke for `initial` windows.
   */
  lemma TurnIsOver(ws: seq<Window>, threshold: int, trailing: nat, initial: nat)
    requires trailing >= 1 && initial >= 1
    ensures Complete(ws, threshold, trailing, initial) <==>
              || ((exists i :: 0 <= i < |ws| && ws[i].Some? && ws[i].value >= threshold) && trailing <= |ws|
                  && forall i :: |ws| - trailing <= i < |ws| && ws[i].Some? ==> ws[i].value < threshold)
              || (|ws| >= initial && forall i :: 0 <= i < |ws| && ws[i].Some? ==> ws[i].value < threshold)
  {
    TailIs(ws, threshold, trailing);
    assert Speech(ws, threshold) <==> exists i :: 0 <= i < |ws| && ws[i].Some? && ws[i].value >= threshold by {
      assert forall i :: 0 <= i < |ws| ==> (Loud(ws[i], threshold) <==> ws[i].Some? && ws[i].value >= threshold);
    }
  }
}
