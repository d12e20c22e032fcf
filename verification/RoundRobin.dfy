/** Cyclic scans: the next ready slot from a cursor, and why none waits forever. */
module RoundRobin {
  import opened Wrappers
  import opened Words

  /** The slot `o` places after `c`, cyclically. */
  function Plus(c: nat, o: nat, n: nat): (i: nat)
    requires c < n && o <= n
    ensures i < n
  {
    if c + o < n then c + o else c + o - n
  }

  lemma PlusIsMod(c: nat, o: nat, n: nat)
    requires c < n && o <= n
    ensures Plus(c, o, n) == (c + o) % n
  {
    if c + o < n { ModIs(c + o, 0, c + o, n); } else { ModIs(c + o, 1, c + o - n, n); }
  }

  /** How far the scan from `c` has to go to reach `i`. */
  function Distance(c: nat, i: nat, n: nat): (d: nat)
    requires c < n && i < n
    ensures d < n && Plus(c, d, n) == i
  {
    if i >= c then i - c else i + n - c
  }

  /** The first ready slot at least `o` places after `c`. */
  function NextReady(ready: seq<bool>, c: nat, o: nat): Option<nat>
    requires c < |ready| && o <= |ready|
    decreases |ready| - o
  {
    if o == |ready| then None
    else if ready[Plus(c, o, |ready|)] then Some(Plus(c, o, |ready|))
    else NextReady(ready, c, o + 1)
  }

  /** The scan finds the nearest ready slot, and nothing only if none is ready. */
  lemma {:induction false} NextIsNearest(ready: seq<bool>, c: nat, o: nat)
    requires c < |ready| && o <= |ready|
    ensures var r := NextReady(ready, c, o);
            && (r.Some? ==> r.value < |ready| && ready[r.value] && Distance(c, r.value, |ready|) >= o)
            && (forall i :: 0 <= i < |ready| && ready[i] && Distance(c, i, |ready|) >= o ==>
                  r.Some? && Distance(c, r.value, |ready|) <= Distance(c, i, |ready|))
    decreases |ready| - o
  {
    if o < |ready| {
      NextIsNearest(ready, c, o + 1);
    }
  }

  /** The cursor moves past the slot it served: every other ready slot is strictly nearer. */
  lemma {:induction false} ServingBringsNearer(ready: seq<bool>, c: nat, i: nat)
    requires c < |ready| && i < |ready| && ready[i]
    ensures var r := NextReady(ready, c, 0);
            && r.Some? && r.value < |ready| && ready[r.value]
            && (r.value != i ==> Distance(Plus(r.value, 1, |ready|), i, |ready|) < Distance(c, i, |ready|))
  {
    NextIsNearest(ready, c, 0);
  }
}
