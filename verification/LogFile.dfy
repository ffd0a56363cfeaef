/** A log file of fixed-size slots, one per instance, that grows by blocks of zeroed slots and is
    written in place (src/logger.hpp), and the scan that rebuilds a server from it
    (src/logger.cpp). */
module LogFile {

  datatype Slot<T> = Slot(sequence: nat, state: T)

  /** The slots on disk, and how many of them the recorded file size counts. A write past the end
      makes the file longer than recorded. */
  datatype File<T> = File(slots: seq<Slot<T>>, recorded: nat)

  const BLOCKS: nat := 1024

  /** All bytes zero; `zero` is the state that zero bytes decode to. */
  function Zeros<T>(count: nat, zero: T): (z: seq<Slot<T>>)
    ensures |z| == count && forall k :: 0 <= k < count ==> z[k] == Slot(0, zero)
  {
    seq(count, (k: nat) => Slot(0, zero))
  }

  /** Growing always appends one block at the end of the file, however far i is. */
  function AppendAsNeed<T>(f: File<T>, i: nat, zero: T): File<T> {
    if i >= f.recorded then File(f.slots + Zeros(BLOCKS, zero), |f.slots| + BLOCKS) else f
  }

  /** Seeking past the end and writing fills the gap with zeros. */
  function PutAt<T>(slots: seq<Slot<T>>, i: nat, x: Slot<T>, zero: T): seq<Slot<T>> {
    if i < |slots| then slots[i := x] else slots + Zeros(i - |slots|, zero) + [x]
  }

  function WriteLog<T>(f: File<T>, i: nat, x: T, zero: T): File<T> {
    var g := AppendAsNeed(f, i, zero);
    g.(slots := PutAt(g.slots, i, Slot(i, x), zero))
  }

  /** The file is at least as long as recorded, and slot 0 is never used. */
  ghost predicate WellFormed<T>(f: File<T>) {
    f.recorded <= |f.slots|
  }

  /** The test recovery makes: the slot carries its own number. */
  predicate Logged<T>(f: File<T>, i: nat) {
    0 < i < |f.slots| && f.slots[i].sequence == i
  }

  /** The file read as a map from instance to last state written. */
  function Contents<T>(f: File<T>): map<nat, T> {
    map i: nat | i < |f.slots| && Logged(f, i) :: f.slots[i].state
  }

  /** One write at an index of at least 1, near or far, is a map update. */
  lemma WriteIsUpdate<T>(f: File<T>, i: nat, x: T, zero: T)
    requires WellFormed(f) && i > 0
    ensures WellFormed(WriteLog(f, i, x, zero))
    ensures Contents(WriteLog(f, i, x, zero)) == Contents(f)[i := x]
  {
    var g := AppendAsNeed(f, i, zero);
    assert forall j: nat :: Logged(g, j) <==> Logged(f, j);
    var h := WriteLog(f, i, x, zero);
    assert forall j: nat :: j != i ==> (Logged(h, j) <==> Logged(g, j));
  }

  /** How long a write leaves the file. A block of 1024 slots is appended exactly if the index is not
      below the size recorded, and then the size recorded is the true one, block included; an index
      beyond even that makes the file longer than recorded. */
  lemma WriteSizes<T>(f: File<T>, i: nat, x: T, zero: T)
    requires WellFormed(f)
    ensures var g := WriteLog(f, i, x, zero);
            if i < f.recorded then |g.slots| == |f.slots| && g.recorded == f.recorded
            else g.recorded == |f.slots| + 1024
                 && |g.slots| == if i < |f.slots| + 1024 then |f.slots| + 1024 else i + 1
  {
  }

  function Write<T>(ws: seq<(nat, T)>, zero: T): File<T> {
    if ws == [] then File([], 0)
    else WriteLog(Write(ws[..|ws| - 1], zero), ws[|ws| - 1].0, ws[|ws| - 1].1, zero)
  }

  function LastWrites<T>(ws: seq<(nat, T)>): map<nat, T> {
    if ws == [] then map[] else LastWrites(ws[..|ws| - 1])[ws[|ws| - 1].0 := ws[|ws| - 1].1]
  }

  /** Any series of writes at indices of at least 1, in any order and with any jumps, leaves a
      file whose logged slots are exactly the indices written, each with its last state. */
  lemma {:induction false} FileIsMap<T>(ws: seq<(nat, T)>, zero: T)
    requires forall k :: 0 <= k < |ws| ==> ws[k].0 > 0
    ensures WellFormed(Write(ws, zero)) && Contents(Write(ws, zero)) == LastWrites(ws)
  {
    if ws == [] {
    } else {
      FileIsMap(ws[..|ws| - 1], zero);
      WriteIsUpdate(Write(ws[..|ws| - 1], zero), ws[|ws| - 1].0, ws[|ws| - 1].1, zero);
    }
  }

  // ---- the recovery scan ----

  /** Some slot that the scan visits was never written. */
  predicate HasGap<T>(f: File<T>) {
    exists i :: 1 <= i < f.recorded && !Logged(f, i)
  }

  /** The largest prefix of logged slots, but 0 if every slot visited is logged. */
  ghost predicate IsMinSequence<T>(f: File<T>, min: nat) {
    if HasGap(f) then
      && min + 1 < f.recorded && !Logged(f, min + 1)
      && forall i :: 1 <= i <= min ==> Logged(f, i)
    else min == 0
  }

  ghost predicate IsMaxSequence<T>(f: File<T>, max: nat) {
    && (max == 0 || (max < f.recorded && Logged(f, max)))
    && forall i :: max < i < f.recorded ==> !Logged(f, i)
  }

  predicate Increasing(holes: seq<nat>) {
    forall j, k :: 0 <= j < k < |holes| ==> holes[j] < holes[k]
  }

  /** The unlogged sequences below `below`, in increasing order. */
  ghost predicate AreHoles<T>(f: File<T>, holes: seq<nat>, below: nat) {
    && Increasing(holes)
    && forall i :: i in holes <==> 1 <= i < below && !Logged(f, i)
  }

  /** The specification determines the scan's three results. */
  lemma ScanIsDetermined<T>(f: File<T>, min: nat, max: nat, holes: seq<nat>, min': nat, max': nat, holes': seq<nat>)
    requires IsMinSequence(f, min) && IsMaxSequence(f, max) && AreHoles(f, holes, max)
    requires IsMinSequence(f, min') && IsMaxSequence(f, max') && AreHoles(f, holes', max')
    ensures min == min' && max == max' && holes == holes'
  {
    assert !(min < min') && !(min' < min);
    assert !(max < max') && !(max' < max);
    SortedUnique(holes, holes');
  }

  lemma {:induction false} SortedUnique(a: seq<nat>, b: seq<nat>)
    requires Increasing(a) && Increasing(b) && forall i :: i in a <==> i in b
    ensures a == b
  {
    assert a != [] ==> a[0] in b;
    assert b != [] ==> b[0] in a;
    if a == [] {
    } else {
      var i, j := |a| - 1, |b| - 1;
      assert a[i] in b && b[j] in a;
      assert a[i] == b[j];
      forall x ensures x in a[..i] <==> x in b[..j] {
        if x in a[..i] {
          assert x in a && x != a[i];
        }
        if x in b[..j] {
          assert x in b && x != b[j];
        }
      }
      SortedUnique(a[..i], b[..j]);
      assert a == a[..i] + [a[i]] && b == b[..j] + [b[j]];
    }
  }

  /** Given that 1..executed are logged, the recovered prefix reaches at least as far if and only
      if some visited slot is unlogged or nothing had been executed. */
  lemma PrefixSurvives<T>(f: File<T>, executed: nat, min: nat)
    requires IsMinSequence(f, min) && forall i :: 1 <= i <= executed ==> Logged(f, i)
    ensures executed <= min <==> HasGap(f) || executed == 0
  {
  }

  /** Instances 1 to k logged in order. */
  function InOrder<T>(x: T, k: nat): seq<(nat, T)> {
    seq(k, (i: nat) => (i + 1, x))
  }

  /** A file without a gap does arise: 1023 writes in order fill the first block, and the scan
      then reports the prefix 0. */
  lemma {:induction false} FullBlock<T>(x: T, zero: T, k: nat)
    requires k <= 1023
    ensures var f := Write(InOrder(x, k), zero);
            && (k > 0 ==> f.recorded == 1024 == |f.slots|)
            && (forall i :: 1 <= i <= k ==> Logged(f, i))
            && (k == 1023 ==> !HasGap(f) && IsMinSequence(f, 0))
  {
    if k == 0 {
    } else {
      FullBlock(x, zero, k - 1);
      assert InOrder(x, k)[..k - 1] == InOrder(x, k - 1);
      var f, g := Write(InOrder(x, k - 1), zero), Write(InOrder(x, k), zero);
      assert g == WriteLog(f, k, x, zero);
      forall i | 1 <= i <= k ensures Logged(g, i) {
        assert i < k ==> Logged(f, i);
      }
    }
  }

  /** min_sequence as the scan computes it. */
  function MinFrom<T>(f: File<T>, i: nat): nat
    requires i > 0
    decreases f.recorded - i
  {
    if i >= f.recorded then 0 else if !Logged(f, i) then i - 1 else MinFrom(f, i + 1)
  }

  lemma {:induction false} MinFromIsMin<T>(f: File<T>, i: nat)
    requires i > 0 && forall j :: 1 <= j < i ==> Logged(f, j)
    ensures IsMinSequence(f, MinFrom(f, i))
    decreases f.recorded - i
  {
    if i < f.recorded && Logged(f, i) {
      MinFromIsMin(f, i + 1);
    }
  }

  // ---- which logged positions the scan passes over ----

  /** Either every visited slot is logged, or some slot before s is not. */
  predicate PassedOver<T>(f: File<T>, s: nat) {
    !HasGap(f) || exists j :: 1 <= j < s && !Logged(f, j)
  }

  /** The recovered prefix falls short of a logged position exactly if the scan passes it over. */
  lemma PassedOverExactly<T>(f: File<T>, s: nat)
    requires Logged(f, s) && s < f.recorded
    ensures MinFrom(f, 1) < s <==> PassedOver(f, s)
  {
    MinFromIsMin(f, 1);
    if PassedOver(f, s) && HasGap(f) {
      var j :| 1 <= j < s && !Logged(f, j);
      assert MinFrom(f, 1) < j;
    }
  }

  /** A full file heals when a position beyond it is logged: a new block opens a gap behind it. */
  lemma NextBlockHeals<T>(f: File<T>, s: nat, x: T, zero: T)
    requires f.recorded == |f.slots| && 1 < |f.slots| <= s && !HasGap(f)
    ensures var g := WriteLog(f, s, x, zero);
            var l := File(g.slots, |g.slots|);
            HasGap(l) && MinFrom(l, 1) == if s == |f.slots| then s else |f.slots| - 1
  {
    var g := WriteLog(f, s, x, zero);
    var l := File(g.slots, |g.slots|);
    var k := if s == |f.slots| then s + 1 else |f.slots|;
    assert forall i :: 1 <= i < |f.slots| ==> Logged(f, i) && l.slots[i] == f.slots[i];
    assert k < l.recorded && !Logged(l, k);
    assert forall i :: 1 <= i < k ==> Logged(l, i);
    MinFromIsMin(l, 1);
  }
}
