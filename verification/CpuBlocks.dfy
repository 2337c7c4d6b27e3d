/** The greedy choice of disjoint three-CPU windows on one NUMA node. */
module CpuBlocks {
  import opened Common

  /** All three CPUs of the window at `base` exist and may be used. */
  predicate Allowed(cpus: seq<nat>, allowed: set<nat>, base: nat) {
    base + 2 < |cpus| && cpus[base] in allowed && cpus[base + 1] in allowed && cpus[base + 2] in allowed
  }

  /** Two windows share no index. */
  predicate Apart(a: nat, b: nat) { a + 3 <= b || b + 3 <= a }

  /** A family of usable windows, pairwise disjoint. */
  ghost predicate Family(cpus: seq<nat>, allowed: set<nat>, f: set<nat>) {
    && (forall b :: b in f ==> Allowed(cpus, allowed, b))
    && (forall a, b | a in f && b in f && a != b :: Apart(a, b))
  }

  /** The chosen windows, in ascending order. */
  ghost predicate Chosen(cpus: seq<nat>, allowed: set<nat>, s: seq<nat>) {
    && (forall i :: 0 <= i < |s| ==> Allowed(cpus, allowed, s[i]))
    && (forall i, j | 0 <= i < j < |s| :: s[i] + 3 <= s[j])
  }

  ghost function Bases(s: seq<nat>): (f: set<nat>) { set b | b in s }

  /** Some window of `f` meets the window at `b` from below or at the same place. */
  ghost predicate Covered(f: set<nat>, b: nat) { exists s :: s in f && s <= b <= s + 2 }

  /** If every window of a family is covered by the chosen ones, the family is no larger. */
  lemma {:induction false} CoveredFamilyIsSmall(f: set<nat>, chosen: set<nat>)
    requires forall a, b | a in f && b in f && a != b :: Apart(a, b)
    requires forall b :: b in f ==> Covered(chosen, b)
    ensures |f| <= |chosen|
    decreases |f|
  {
    if f != {} {
      var b :| b in f;
      var s :| s in chosen && s <= b <= s + 2;
      forall c | c in f - {b} ensures Covered(chosen - {s}, c) {
        var t :| t in chosen && t <= c <= t + 2;
        assert Apart(b, c);
        assert t != s && t in chosen - {s};
      }
      CoveredFamilyIsSmall(f - {b}, chosen - {s});
    }
  }

  lemma {:induction false} DistinctBases(s: seq<nat>)
    requires forall i, j | 0 <= i < j < |s| :: s[i] != s[j]
    ensures |Bases(s)| == |s|
  {
    if s != [] {
      var init, last := s[..|s| - 1], s[|s| - 1];
      DistinctBases(init);
      assert Bases(s) == Bases(init) + {last};
      assert last !in init;
    }
  }

  /** The occupied indices are exactly those of the chosen windows. */
  ghost predicate Occupies(occupied: set<nat>, s: seq<nat>) {
    && (forall x :: x in occupied ==> Covered(Bases(s), x))
    && (forall b :: b in s ==> b in occupied && b + 1 in occupied && b + 2 in occupied)
  }

  /** All windows below `base` have been considered. */
  ghost predicate Progress(cpus: seq<nat>, allowed: set<nat>, s: seq<nat>, occupied: set<nat>, base: nat) {
    && Chosen(cpus, allowed, s) && Occupies(occupied, s)
    && (forall b :: b in s ==> b < base)
    && (forall b: nat :: b < base && Allowed(cpus, allowed, b) ==> Covered(Bases(s), b))
  }

  lemma MoreCovers(s: seq<nat>, base: nat, x: nat)
    ensures Covered(Bases(s), x) ==> Covered(Bases(s + [base]), x)
    ensures base <= x <= base + 2 ==> Covered(Bases(s + [base]), x)
  {
    assert base in s + [base];
    assert base in Bases(s + [base]);
    if Covered(Bases(s), x) {
      var b :| b in Bases(s) && b <= x <= b + 2;
      assert b in Bases(s + [base]);
    }
  }

  lemma TakeOne(cpus: seq<nat>, allowed: set<nat>, s: seq<nat>, occupied: set<nat>, base: nat)
    requires Progress(cpus, allowed, s, occupied, base) && Allowed(cpus, allowed, base)
    requires {base, base + 1, base + 2} !! occupied
    ensures Progress(cpus, allowed, s + [base], occupied + {base, base + 1, base + 2}, base + 1)
  {
    forall i | 0 <= i < |s| ensures s[i] + 3 <= base {
      assert s[i] in s;
      assert base !in occupied && base + 1 !in occupied;
    }
    forall x: nat ensures Covered(Bases(s), x) ==> Covered(Bases(s + [base]), x)
                  ensures base <= x <= base + 2 ==> Covered(Bases(s + [base]), x)
    {
      MoreCovers(s, base, x);
    }
  }

  lemma SkipOne(cpus: seq<nat>, allowed: set<nat>, s: seq<nat>, occupied: set<nat>, base: nat)
    requires Progress(cpus, allowed, s, occupied, base)
    requires !({base, base + 1, base + 2} !! occupied) || !Allowed(cpus, allowed, base)
    ensures Progress(cpus, allowed, s, occupied, base + 1)
  {
    if Allowed(cpus, allowed, base) {
      var x :| x in {base, base + 1, base + 2} && x in occupied;
      var b :| b in Bases(s) && b <= x <= b + 2;
      assert b < base;
    }
  }

  lemma NoLargerFamily(cpus: seq<nat>, allowed: set<nat>, s: seq<nat>, occupied: set<nat>, base: nat, f: set<nat>)
    requires Progress(cpus, allowed, s, occupied, base) && base + 2 >= |cpus| && Family(cpus, allowed, f)
    ensures |f| <= |s|
  {
    forall b | b in f ensures Covered(Bases(s), b) {
      assert Allowed(cpus, allowed, b);
    }
    CoveredFamilyIsSmall(f, Bases(s));
    DistinctBases(s);
  }

  /**
    Greedy optimality: the planner returns `count` disjoint usable windows if and only if some family of
    that many exists; otherwise every family is smaller than `count`.
  */
  method Select(cpus: seq<nat>, allowed: set<nat>, count: nat) returns (r: Option<seq<nat>>)
    requires count > 0
    ensures r.Some? ==> |r.value| == count && Chosen(cpus, allowed, r.value)
    ensures r.None? ==> forall f :: Family(cpus, allowed, f) ==> |f| < count
  {
    var selected: seq<nat>, occupied: set<nat> := [], {};
    var last := if |cpus| >= 2 then |cpus| - 2 else 0;
    for base := 0 to last
      invariant Progress(cpus, allowed, selected, occupied, base) && |selected| < count
    {
      var block := {base, base + 1, base + 2};
      if !(block !! occupied) || !(cpus[base] in allowed && cpus[base + 1] in allowed && cpus[base + 2] in allowed) {
        SkipOne(cpus, allowed, selected, occupied, base);
        continue;
      }
      TakeOne(cpus, allowed, selected, occupied, base);
      selected := selected + [base];
      occupied := occupied + block;
      if |selected| == count { return Some(selected); }
    }
    forall f | Family(cpus, allowed, f) ensures |f| < count {
      NoLargerFamily(cpus, allowed, selected, occupied, last, f);
    }
    r := None;
  }

  /** The returned windows are themselves such a family. */
  lemma ChosenIsFamily(cpus: seq<nat>, allowed: set<nat>, s: seq<nat>)
    requires Chosen(cpus, allowed, s)
    ensures Family(cpus, allowed, Bases(s)) && |Bases(s)| == |s|
  {
    forall a, b | a in Bases(s) && b in Bases(s) && a != b ensures Apart(a, b) {
      var i :| 0 <= i < |s| && s[i] == a;
      var j :| 0 <= j < |s| && s[j] == b;
    }
    DistinctBases(s);
  }
}
