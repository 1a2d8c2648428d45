/**
 * Patient-zero selection (`infectOne`), stated over a host list that has
 * already been shuffled: for every device-class name in order, the first host
 * of the list carrying that name becomes infected; a name no host carries is
 * only a warning.
 */
module Seeding {
  import opened Options
  import opened Hosts

  /**
   * The scan of `infectOne` for one name, starting at position j: the first
   * host from j on whose label is `name`, or None when the list runs out.
   */
  function FirstWithLabelFrom(h: seq<Host>, name: string, j: nat): (r: Option<nat>)
    ensures r.Some? ==>
      j <= r.value < |h| && h[r.value].os == name &&
      forall m :: j <= m < r.value ==> h[m].os != name
    ensures r.None? ==> forall m :: j <= m < |h| ==> h[m].os != name
    decreases |h| - j
  {
    if j >= |h| then None
    else if h[j].os == name then Some(j)
    else FirstWithLabelFrom(h, name, j + 1)
  }

  function FirstWithLabel(h: seq<Host>, name: string): Option<nat>
  {
    FirstWithLabelFrom(h, name, 0)
  }

  /** No host before position k carries host k's label. */
  predicate FirstOfLabel(h: seq<Host>, k: nat)
    requires k < |h|
  {
    forall j :: 0 <= j < k ==> h[j].os != h[k].os
  }

  /** Host k is the one `infectOne` picks for its device class. */
  predicate IsPatientZero(h: seq<Host>, names: seq<string>, k: nat)
    requires k < |h|
  {
    h[k].os in names && FirstOfLabel(h, k)
  }

  /** The host list once every device class has had its patient zero marked. */
  function Seeded(h: seq<Host>, names: seq<string>): (r: seq<Host>)
    ensures |r| == |h|
    ensures forall k {:trigger r[k]} :: 0 <= k < |h| ==>
      r[k].(infected := h[k].infected) == h[k] &&
      (r[k].infected <==> h[k].infected || (h[k].os in names && FirstWithLabel(h, h[k].os) == Some(k)))
  {
    seq(|h|, k requires 0 <= k < |h| =>
      if IsPatientZero(h, names, k) then h[k].(infected := true) else h[k])
  }

  function PatientZeros(h: seq<Host>, names: seq<string>): set<nat>
  {
    set k: nat | k < |h| && IsPatientZero(h, names, k)
  }

  /** Positions whose host is infected in `after` but was not in `before`. */
  function NewlyInfected(before: seq<Host>, after: seq<Host>): set<nat>
  {
    set k: nat | k < |before| && k < |after| && after[k].infected && !before[k].infected
  }

  /**
   * Seeding keeps the order and every field of every host except the
   * infection flag, and it sets that flag on patient zeros only.
   */
  lemma SeededChangesOnlyPatientZeros(h: seq<Host>, names: seq<string>)
    ensures |Seeded(h, names)| == |h|
    ensures forall k :: 0 <= k < |h| ==>
      Seeded(h, names)[k].(infected := h[k].infected) == h[k] &&
      (Seeded(h, names)[k].infected <==> h[k].infected || IsPatientZero(h, names, k))
  {
  }

  /**
   * For each name, the scan's result is exactly the patient zero of that
   * device class: the host it finds is marked, and when it finds none no host
   * carries the name.
   */
  lemma ScanFindsPatientZero(h: seq<Host>, names: seq<string>, i: nat)
    requires i < |names|
    ensures FirstWithLabel(h, names[i]).Some? ==>
      var k := FirstWithLabel(h, names[i]).value;
      k < |h| && IsPatientZero(h, names, k) && Seeded(h, names)[k].infected &&
      forall m :: 0 <= m < |h| && m != k && h[m].os == names[i] ==> !IsPatientZero(h, names, m)
    ensures FirstWithLabel(h, names[i]).None? ==>
      forall m :: 0 <= m < |h| ==> h[m].os != names[i]
  {
  }

  /** Each patient zero is the host the scan finds for its own label. */
  lemma PatientZeroIsScanned(h: seq<Host>, names: seq<string>, k: nat)
    requires k < |h| && IsPatientZero(h, names, k)
    ensures FirstWithLabel(h, h[k].os) == Some(k)
  {
  }

  /** Two patient zeros never share a device class. */
  lemma OnePatientZeroPerClass(h: seq<Host>, names: seq<string>, a: nat, b: nat)
    requires a < |h| && b < |h|
    requires IsPatientZero(h, names, a) && IsPatientZero(h, names, b)
    requires h[a].os == h[b].os
    ensures a == b
  {
  }

  lemma {:induction false} LabelSetSize(names: seq<string>)
    ensures |set x | x in names| <= |names|
  {
    if names != [] {
      var init := names[..|names| - 1];
      LabelSetSize(init);
      assert (set x | x in names) == (set x | x in init) + {names[|names| - 1]} by {
        assert names == init + [names[|names| - 1]];
      }
    }
  }

  lemma {:induction false} InjectiveLabels(p: set<nat>, h: seq<Host>, t: set<string>)
    requires forall k :: k in p ==> k < |h| && h[k].os in t
    requires forall a, b :: a in p && b in p && h[a].os == h[b].os ==> a == b
    ensures |p| <= |t|
    decreases p
  {
    if p != {} {
      var k :| k in p;
      InjectiveLabels(p - {k}, h, t - {h[k].os});
    }
  }

  /**
   * Seeding infects no more hosts than there are device-class names: the
   * newly infected hosts are patient zeros, and those have pairwise
   * different labels taken from the names.
   */
  lemma {:induction false} SeedingBound(h: seq<Host>, names: seq<string>)
    ensures NewlyInfected(h, Seeded(h, names)) <= PatientZeros(h, names)
    ensures |NewlyInfected(h, Seeded(h, names))| <= |PatientZeros(h, names)| <= |names|
  {
    var p := PatientZeros(h, names);
    var s := Seeded(h, names);
    assert NewlyInfected(h, s) <= p;
    assert forall a, b :: a in p && b in p && h[a].os == h[b].os ==> a == b by {
      forall a, b | a in p && b in p && h[a].os == h[b].os
        ensures a == b
      {
        OnePatientZeroPerClass(h, names, a, b);
      }
    }
    InjectiveLabels(p, h, set x | x in names);
    LabelSetSize(names);
    SubsetSize(NewlyInfected(h, s), p);
  }

  lemma {:induction false} SubsetSize(a: set<nat>, b: set<nat>)
    requires a <= b
    ensures |a| <= |b|
  {
    assert b == a + (b - a);
  }

  /**
   * Scanning for one more name marks exactly the host the scan finds, on top
   * of what the earlier names marked.
   */
  lemma SeededStep(h: seq<Host>, names: seq<string>, n: string)
    ensures Seeded(h, names + [n]) ==
      match FirstWithLabel(h, n)
      case None => Seeded(h, names)
      case Some(j) => Seeded(h, names)[j := h[j].(infected := true)]
  {
  }

  /** The scan looks at labels only, so changing infection flags does not change what it finds. */
  lemma SameLabelsSameScan(a: seq<Host>, b: seq<Host>, name: string)
    requires |a| == |b| && forall k :: 0 <= k < |a| ==> a[k].os == b[k].os
    ensures FirstWithLabel(a, name) == FirstWithLabel(b, name)
  {
  }

  /**
   * One round of `infectOne`'s loop: scanning the partly seeded list `cur`
   * for name i and marking the host found gives the seeding of the first
   * i + 1 names; when none is found, name i is the next warning.
   */
  lemma {:induction false} InfectStep(h: seq<Host>, names: seq<string>, i: nat, cur: seq<Host>, j: nat)
    requires i < |names| && cur == Seeded(h, names[..i]) && j <= |cur|
    requires FirstWithLabel(cur, names[i]) == if j < |cur| then Some(j) else None
    ensures j < |cur| ==> Seeded(h, names[..i + 1]) == cur[j := cur[j].(infected := true)]
    ensures j == |cur| ==> Seeded(h, names[..i + 1]) == cur
    ensures AbsentClasses(h, names[..i + 1]) ==
      AbsentClasses(h, names[..i]) + (if j < |cur| then [] else [names[i]])
  {
    SameLabelsSameScan(cur, h, names[i]);
    SeededStep(h, names[..i], names[i]);
    assert names[..i + 1] == names[..i] + [names[i]];
    assert names[..i + 1][..i] == names[..i];
  }

  /** The device-class names `infectOne` warns about, in the order it warns. */
  function AbsentClasses(h: seq<Host>, names: seq<string>): seq<string>
  {
    if names == [] then []
    else
      var last := names[|names| - 1];
      AbsentClasses(h, names[..|names| - 1]) +
      (if FirstWithLabel(h, last).None? then [last] else [])
  }

  /** There is at most one warning per listed name. */
  lemma {:induction false} AbsentClassesBound(h: seq<Host>, names: seq<string>)
    ensures |AbsentClasses(h, names)| <= |names|
  {
    if names != [] {
      AbsentClassesBound(h, names[..|names| - 1]);
    }
  }

  /** A warning is issued for a name exactly when it is listed and no host carries it. */
  lemma {:induction false} AbsentClassesExact(h: seq<Host>, names: seq<string>, n: string)
    ensures n in AbsentClasses(h, names) <==>
      n in names && forall m :: 0 <= m < |h| ==> h[m].os != n
  {
    if names != [] {
      var init := names[..|names| - 1];
      AbsentClassesExact(h, init, n);
      assert names == init + [names[|names| - 1]];
    }
  }
}
