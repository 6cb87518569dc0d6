/** Finding text in text. */
module Text {
  import opened DialogueTypes

  predicate OccursAt(t: string, pat: string, i: nat) {
    i + |pat| <= |t| && t[i..i + |pat|] == pat
  }

  predicate EndsWith(t: string, pat: string) {
    |pat| <= |t| && t[|t| - |pat|..] == pat
  }

  ghost predicate Occurs(t: string, pat: string) {
    exists i :: 0 <= i <= |t| && OccursAt(t, pat, i)
  }

  /** The first position of pat at or after `from`. */
  function Find(t: string, pat: string, from: nat): (r: Option<nat>)
    requires from <= |t|
    ensures r.Some? ==> from <= r.value && OccursAt(t, pat, r.value)
    ensures r.Some? ==> forall i :: from <= i < r.value ==> !OccursAt(t, pat, i)
    ensures r.None? ==> forall i: nat :: from <= i ==> !OccursAt(t, pat, i)
    decreases |t| - from
  {
    if from + |pat| > |t| then None
    else if OccursAt(t, pat, from) then Some(from)
    else if from == |t| then None
    else Find(t, pat, from + 1)
  }

  lemma OccursInside(t: string, pat: string, lo: nat, hi: nat, i: nat)
    requires lo <= hi <= |t| && lo + i + |pat| <= hi
    ensures OccursAt(t[lo..hi], pat, i) <==> OccursAt(t, pat, lo + i)
  {
    SliceOfSlice(t, lo, hi, i, i + |pat|);
  }

  /** Text that follows does not change what occurs before it. */
  lemma {:induction false} Extend(t: string, u: string, pat: string, i: nat)
    requires i + |pat| <= |t|
    ensures OccursAt(t + u, pat, i) <==> OccursAt(t, pat, i)
  {
    assert (t + u)[i..i + |pat|] == t[i..i + |pat|];
  }

  lemma SliceOfSlice(t: string, lo: nat, hi: nat, i: nat, j: nat)
    requires lo <= hi <= |t| && i <= j <= hi - lo
    ensures t[lo..hi][i..j] == t[lo + i..lo + j]
  {
    var a, b := t[lo..hi][i..j], t[lo + i..lo + j];
    forall k | 0 <= k < j - i ensures a[k] == b[k] {}
    assert |a| == |b|;
  }

  lemma Associate(a: string, b: string, c: string)
    ensures (a + b) + c == a + (b + c)
  {}

  lemma DropDrop(t: string, a: nat, b: nat)
    requires a + b <= |t|
    ensures t[a..][b..] == t[a + b..]
  {}

  lemma OccursFits(t: string, pat: string, i: nat)
    requires OccursAt(t, pat, i)
    ensures i + |pat| <= |t|
  {}

  /** One differing character rules an occurrence out. */
  lemma Mismatch(t: string, pat: string, i: nat, k: nat)
    requires k < |pat| && i + k < |t| && t[i + k] != pat[k]
    ensures !OccursAt(t, pat, i)
  {
    assert i + |pat| <= |t| ==> t[i..i + |pat|][k] == t[i + k];
  }

  /** Finding in a suffix and finding from a position agree. */
  lemma {:induction false} FindShift(t: string, pat: string, from: nat)
    requires from <= |t|
    ensures var a := Find(t, pat, from); var b := Find(t[from..], pat, 0);
      (a.Some? <==> b.Some?) && (a.Some? ==> a.value == from + b.value)
  {
    var a, b := Find(t, pat, from), Find(t[from..], pat, 0);
    forall i: nat | i + |pat| <= |t| - from ensures OccursAt(t[from..], pat, i) <==> OccursAt(t, pat, from + i) {
      OccursInside(t, pat, from, |t|, i);
    }
    if a.Some? { assert OccursAt(t[from..], pat, a.value - from); }
    if b.Some? { assert OccursAt(t, pat, from + b.value); }
  }

  function Concat<T>(parts: seq<seq<T>>): seq<T> {
    if parts == [] then [] else Concat(parts[..|parts| - 1]) + parts[|parts| - 1]
  }

  lemma ConcatSnoc<T>(parts: seq<seq<T>>, last: seq<T>)
    ensures Concat(parts + [last]) == Concat(parts) + last
  {
    assert (parts + [last])[..|parts|] == parts;
  }

  /** A found position is the first occurrence, so it is what Find returns. */
  lemma FindIs(t: string, pat: string, from: nat, i: nat)
    requires from <= i && OccursAt(t, pat, i)
    requires forall k :: from <= k < i ==> !OccursAt(t, pat, k)
    ensures Find(t, pat, from) == Some(i)
  {}
}
