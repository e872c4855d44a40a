/** The seats as a ring: clockwise distance and the circular search for the next seat to act. */
module Ring {
  import opened TableTypes

  /** The seat after `k` on a table of `n` seats. */
  function Succ(k: int, n: int): (r: int)
    requires 0 <= k < n
    ensures 0 <= r < n
  {
    if k + 1 < n then k + 1 else 0
  }

  lemma SuccIsMod(k: int, n: int)
    requires 0 <= k < n
    ensures (k + 1) % n == Succ(k, n)
  {
    if k + 1 < n {
      SmallMod(k + 1, n);
    } else {
      assert (k + 1) % n == n % n == 0;
    }
  }

  lemma SmallMod(k: int, n: int)
    requires 0 <= k < n
    ensures k % n == k
  {
  }

  /** How many steps clockwise lead from `a` to `b`. */
  function Dist(a: int, b: int, n: int): (d: int)
    requires 0 <= a < n && 0 <= b < n
    ensures 0 <= d < n
  {
    if b >= a then b - a else b - a + n
  }

  /** The search started at `curr`, with `steps` seats still to look at. */
  function NextLiveFrom(ss: seq<Seat>, curr: int, steps: nat): (r: int)
    requires 0 <= curr < |ss|
    ensures r == -1 || (0 <= r < |ss| && Live(ss[r]))
    decreases steps
  {
    if steps == 0 then -1
    else if Live(ss[curr]) then curr
    else NextLiveFrom(ss, Succ(curr, |ss|), steps - 1)
  }

  /** `findNextActiveSeat`. */
  function NextLive(ss: seq<Seat>, start: int): (r: int)
    requires 0 <= start < |ss|
    ensures r == -1 || (0 <= r < |ss| && Live(ss[r]))
  {
    NextLiveFrom(ss, start, |ss|)
  }

  lemma {:induction false} NextLiveFromIsFirst(ss: seq<Seat>, curr: int, steps: nat)
    requires 0 <= curr < |ss| && steps <= |ss|
    ensures var r := NextLiveFrom(ss, curr, steps);
            if r == -1
            then forall i :: 0 <= i < |ss| && Dist(curr, i, |ss|) < steps ==> !Live(ss[i])
            else 0 <= r < |ss| && Live(ss[r]) && Dist(curr, r, |ss|) < steps
                 && forall i :: 0 <= i < |ss| && Dist(curr, i, |ss|) < Dist(curr, r, |ss|) ==> !Live(ss[i])
    decreases steps
  {
    if steps > 0 && !Live(ss[curr]) {
      var next := Succ(curr, |ss|);
      NextLiveFromIsFirst(ss, next, steps - 1);
      assert forall i :: 0 <= i < |ss| && i != curr ==> Dist(curr, i, |ss|) == Dist(next, i, |ss|) + 1;
      assert Dist(next, curr, |ss|) == |ss| - 1;
    }
  }

  /** The seat found is the first live one clockwise; -1 means that there is none at all. */
  lemma NextLiveIsFirst(ss: seq<Seat>, start: int)
    requires 0 <= start < |ss|
    ensures var r := NextLive(ss, start);
            if r == -1
            then forall i :: 0 <= i < |ss| ==> !Live(ss[i])
            else 0 <= r < |ss| && Live(ss[r])
                 && forall i :: 0 <= i < |ss| && Dist(start, i, |ss|) < Dist(start, r, |ss|) ==> !Live(ss[i])
  {
    NextLiveFromIsFirst(ss, start, |ss|);
    assert forall i :: 0 <= i < |ss| ==> Dist(start, i, |ss|) < |ss|;
  }
}
