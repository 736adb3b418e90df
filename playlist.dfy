/**
 * The track list a player is bound to, the wrap-around step of the
 * previous/next controls, and the "active" marking of playlist entries.
 */
module Playlist {

  /** One album entry: its title, audio source and pre-formatted duration label. */
  datatype Track = Track(title: string, src: string, duration: string)

  /** The index nextTrack moves to: (i + 1) % n. */
  function NextIndex(i: nat, n: nat): (r: nat)
    requires i < n
    ensures r < n
    ensures r == if i == n - 1 then 0 else i + 1
  {
    (i + 1) % n
  }

  /** The index prevTrack moves to: (i - 1 + n) % n. */
  function PrevIndex(i: nat, n: nat): (r: nat)
    requires i < n
    ensures r < n
    ensures r == if i == 0 then n - 1 else i - 1
  {
    (i - 1 + n) % n
  }

  lemma PrevUndoesNext(i: nat, n: nat)
    requires i < n
    ensures PrevIndex(NextIndex(i, n), n) == i
  {
  }

  lemma NextUndoesPrev(i: nat, n: nat)
    requires i < n
    ensures NextIndex(PrevIndex(i, n), n) == i
  {
  }

  /** The index after k successive nextTrack steps from i. */
  function NextSteps(i: nat, n: nat, k: nat): (r: nat)
    requires i < n
    ensures r < n
    decreases k
  {
    if k == 0 then i else NextIndex(NextSteps(i, n, k - 1), n)
  }

  /** The index after k successive prevTrack steps from i. */
  function PrevSteps(i: nat, n: nat, k: nat): (r: nat)
    requires i < n
    ensures r < n
    decreases k
  {
    if k == 0 then i else PrevIndex(PrevSteps(i, n, k - 1), n)
  }

  /** k next steps advance the index by k around the playlist. */
  lemma {:induction false} NextStepsShift(i: nat, n: nat, k: nat)
    requires i < n
    ensures NextSteps(i, n, k) == (i + k) % n
  {
    if k > 0 {
      NextStepsShift(i, n, k - 1);
      var a := i + k - 1;
      ModStep(a, n);
      assert NextSteps(i, n, k) == NextIndex(a % n, n);
    }
  }

  /** k previous steps move the index back by k around the playlist. */
  lemma {:induction false} PrevStepsShift(i: nat, n: nat, k: nat)
    requires i < n
    ensures PrevSteps(i, n, k) == (i - k) % n
  {
    if k > 0 {
      PrevStepsShift(i, n, k - 1);
      var a := i - k;
      ModStep(a, n);
      assert PrevSteps(i, n, k) == PrevIndex((a + 1) % n, n);
    }
  }

  /** Going one up from a residue is going one up before taking it. */
  lemma ModStep(a: int, n: nat)
    requires n > 0
    ensures (a + 1) % n == if a % n == n - 1 then 0 else a % n + 1
  {
    var q := a / n;
    if a % n == n - 1 {
      ModUnique(a + 1, n, q + 1, 0);
    } else {
      ModUnique(a + 1, n, q, a % n + 1);
    }
  }

  /** Quotient and remainder are the only ones of their kind. */
  lemma ModUnique(a: int, n: nat, q: int, r: int)
    requires 0 <= r < n && a == q * n + r
    ensures a % n == r
  {
    var q', r' := a / n, a % n;
    var d := q - q';
    assert d * n == r' - r by {
      assert d * n == q * n - q' * n;
    }
    if d >= 1 {
      MulAtLeast(d, n);
    } else if d <= -1 {
      MulAtLeast(-d, n);
    }
  }

  lemma MulAtLeast(d: int, n: nat)
    requires d >= 1
    ensures d * n >= n
  {
  }

  /** n next steps bring the player back to the track it started on. */
  lemma NextFullCycle(i: nat, n: nat)
    requires i < n
    ensures NextSteps(i, n, n) == i
  {
    NextStepsShift(i, n, n);
    ModUnique(i + n, n, 1, i);
  }

  /** n previous steps bring the player back to the track it started on. */
  lemma PrevFullCycle(i: nat, n: nat)
    requires i < n
    ensures PrevSteps(i, n, n) == i
  {
    PrevStepsShift(i, n, n);
    ModUnique(i - n, n, -1, i);
  }

  /** The active flags updateActiveTrack leaves on n entries: entry index only. */
  function ActiveFlags(n: nat, index: int): seq<bool>
  {
    seq(n, k => k == index)
  }

  function CountActive(flags: seq<bool>): nat
  {
    if flags == [] then 0 else CountActive(flags[..|flags| - 1]) + (if flags[|flags| - 1] then 1 else 0)
  }

  /**
   * Exactly one entry is active when the index names an entry, and none
   * when it does not.
   */
  lemma {:induction false} ActiveFlagsCount(n: nat, index: int)
    ensures CountActive(ActiveFlags(n, index)) == if 0 <= index < n then 1 else 0
  {
    if n > 0 {
      assert ActiveFlags(n, index)[..n - 1] == ActiveFlags(n - 1, index);
      ActiveFlagsCount(n - 1, index);
    }
  }
}
