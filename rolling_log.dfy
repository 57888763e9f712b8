/**
  The bounded log of the dashboard: each logged frame rebuilds it as
  `[...prev.slice(-50), entry]` (app/page.js:48-56).
 */
module RollingLog {

  /** Entries kept from the old log when a new one is appended. */
  const Kept: nat := 50

  /** The most entries the log holds after an append. */
  const Capacity: nat := Kept + 1

  /** `s.slice(-n)` for a positive `n`: the last `n` elements, or all of `s` when it is shorter. */
  function LastN<T>(s: seq<T>, n: nat): (r: seq<T>)
    requires n > 0
    ensures |r| == if |s| <= n then |s| else n
    ensures r == s[|s| - |r|..]
  {
    if |s| <= n then s else s[|s| - n..]
  }

  /** One append to the log. */
  function Push<T>(log: seq<T>, e: T): (r: seq<T>)
    ensures 0 < |r| <= Capacity
    // the new entry is the last one
    ensures r[|r| - 1] == e
    // before it stand the newest min(50, |log|) old entries, in their order
    ensures |r| - 1 == if |log| <= Kept then |log| else Kept
    ensures r[..|r| - 1] == log[|log| - (|r| - 1)..]
  {
    LastN(log, Kept) + [e]
  }

  /** An append keeps exactly the newest `Capacity` entries of the log extended by the new one. */
  lemma PushIsWindow<T>(log: seq<T>, e: T)
    ensures Push(log, e) == LastN(log + [e], Capacity)
  {
    var x := log + [e];
    if |log| > Kept {
      assert x[|x| - Capacity..] == log[|log| - Kept..] + [e];
    }
  }

  /** A full log drops its oldest entry: eviction is first in, first out. */
  lemma PushFull<T>(log: seq<T>, e: T)
    requires |log| == Capacity
    ensures Push(log, e) == log[1..] + [e]
  {
  }

  /** Taking the newest entries twice is the same as taking them once. */
  lemma WindowOfWindow<T>(x: seq<T>, e: T)
    ensures LastN(LastN(x, Capacity) + [e], Capacity) == LastN(x + [e], Capacity)
  {
    var w := LastN(x, Capacity);
    PushIsWindow(w, e);
    PushIsWindow(x, e);
    assert LastN(w, Kept) == LastN(x, Kept);
  }
}
