/**
 * The weekday toggle that the doctor portal, the admin doctor form and the profile page share:
 * remove the day if present, otherwise append it, then sort the list by position in WEEKDAYS.
 */
module Weekdays {
  import opened Types

  const WEEKDAYS: seq<string> := ["Mon", "Tue", "Wed", "Thu", "Fri", "Sat", "Sun"]

  /** `xs.indexOf(x)`: the first position of `x` in `xs`, or -1 when it does not occur. */
  function IndexIn(xs: seq<string>, x: string): (k: int)
    ensures -1 <= k < |xs|
    ensures k == -1 <==> x !in xs
    ensures k >= 0 ==> xs[k] == x && x !in xs[..k]
  {
    if xs == [] then -1
    else if xs[0] == x then 0
    else
      var k := IndexIn(xs[1..], x);
      assert xs[1..][..(if k < 0 then 0 else k)] == xs[1..(if k < 0 then 1 else k + 1)];
      if k < 0 then -1 else k + 1
  }

  /** The sort key of the comparator `WEEKDAYS.indexOf(a) - WEEKDAYS.indexOf(b)`. */
  function Key(d: string): int {
    IndexIn(WEEKDAYS, d)
  }

  /** Two weekdays share a sort key exactly when they are the same day. */
  lemma KeyInjective(a: string, b: string)
    requires a in WEEKDAYS && b in WEEKDAYS
    ensures Key(a) == Key(b) <==> a == b
  {
  }

  /** The seven labels are pairwise different. */
  lemma WeekdaysDistinct()
    ensures forall i, j :: 0 <= i < j < |WEEKDAYS| ==> WEEKDAYS[i] != WEEKDAYS[j]
  {
  }

  /** The sort key of a label is its position in WEEKDAYS. */
  lemma KeyAt(i: nat)
    requires i < |WEEKDAYS|
    ensures Key(WEEKDAYS[i]) == i
  {
    WeekdaysDistinct();
  }

  /** The labels at the positions `idx`, in that order. */
  function Pick(idx: seq<nat>): seq<string>
    requires forall k :: 0 <= k < |idx| ==> idx[k] < |WEEKDAYS|
  {
    seq(|idx|, k requires 0 <= k < |idx| => WEEKDAYS[idx[k]])
  }

  /** Labels picked at strictly increasing positions form a canonical day list. */
  lemma PickCanonical(idx: seq<nat>)
    requires forall k :: 0 <= k < |idx| ==> idx[k] < |WEEKDAYS|
    requires forall i, j :: 0 <= i < j < |idx| ==> idx[i] < idx[j]
    ensures Canonical(Pick(idx))
  {
    forall k | 0 <= k < |idx|
      ensures Key(Pick(idx)[k]) == idx[k]
    {
      KeyAt(idx[k]);
    }
  }

  /** Sorted by the comparator `key(a) - key(b)` (ties allowed). */
  ghost predicate SortedBy(key: string -> int, s: seq<string>) {
    forall i, j :: 0 <= i < j < |s| ==> key(s[i]) <= key(s[j])
  }

  /** Sorted in Mon..Sun order (ties allowed). */
  ghost predicate SortedByDay(s: seq<string>) {
    SortedBy(Key, s)
  }

  /** No entry occurs twice. */
  ghost predicate Distinct(s: seq<string>) {
    forall i, j :: 0 <= i < j < |s| ==> s[i] != s[j]
  }

  /** The canonical form of a day list: weekday labels only, strictly in Mon..Sun order. */
  ghost predicate Canonical(s: seq<string>) {
    && (forall i :: 0 <= i < |s| ==> s[i] in WEEKDAYS)
    && (forall i, j :: 0 <= i < j < |s| ==> Key(s[i]) < Key(s[j]))
  }

  // ---------------------------------------------------------------------------------------------
  // The stable sort that `Array.prototype.sort` performs with this comparator

  /** Insert `x` after every trailing element whose key exceeds it, scanning from the right. */
  function InsertBy(key: string -> int, x: string, t: seq<string>): (r: seq<string>)
    ensures |r| == |t| + 1
  {
    if t == [] then [x]
    else if key(t[|t| - 1]) <= key(x) then t + [x]
    else
      assert t == t[..|t| - 1] + [t[|t| - 1]];
      InsertBy(key, x, t[..|t| - 1]) + [t[|t| - 1]]
  }

  /** Stable insertion sort by `key`, inserting the elements from left to right. */
  function SortBy(key: string -> int, s: seq<string>): (r: seq<string>)
    ensures |r| == |s|
  {
    if s == [] then [] else InsertBy(key, s[|s| - 1], SortBy(key, s[..|s| - 1]))
  }

  /** Inserting adds exactly the one element. */
  lemma {:induction false} InsertPermutes(key: string -> int, x: string, t: seq<string>)
    ensures multiset(InsertBy(key, x, t)) == multiset(t) + multiset{x}
    decreases |t|
  {
    if t != [] && key(t[|t| - 1]) > key(x) {
      var u := t[..|t| - 1];
      InsertPermutes(key, x, u);
      assert t == u + [t[|t| - 1]];
    }
  }

  /** The sort is a permutation of its input. */
  lemma {:induction false} SortPermutes(key: string -> int, s: seq<string>)
    ensures multiset(SortBy(key, s)) == multiset(s)
  {
    if s != [] {
      var u := s[..|s| - 1];
      SortPermutes(key, u);
      InsertPermutes(key, s[|s| - 1], SortBy(key, u));
      assert s == u + [s[|s| - 1]];
    }
  }

  /** `days.sort((a, b) => WEEKDAYS.indexOf(a) - WEEKDAYS.indexOf(b))`: a stable sort by `Key`. */
  function SortDays(s: seq<string>): (r: seq<string>) {
    SortBy(Key, s)
  }

  /** Where the in-place shifting loop stops is where `InsertBy` puts the new element. */
  lemma {:induction false} InsertSplit(key: string -> int, x: string, t: seq<string>, j: nat)
    requires j <= |t|
    requires forall k :: j <= k < |t| ==> key(x) < key(t[k])
    requires j == 0 || key(t[j - 1]) <= key(x)
    ensures InsertBy(key, x, t) == t[..j] + [x] + t[j..]
    decreases |t|
  {
    if t == [] {
    } else if key(t[|t| - 1]) <= key(x) {
      assert j == |t|;
    } else {
      var u, last := t[..|t| - 1], t[|t| - 1];
      assert InsertBy(key, x, u) == u[..j] + [x] + u[j..] by {
        assert j < |t|;
        assert forall k :: j <= k < |u| ==> u[k] == t[k];
        assert j > 0 ==> u[j - 1] == t[j - 1];
        InsertSplit(key, x, u, j);
      }
      assert t[..j] + [x] + t[j..] == (u[..j] + [x] + u[j..]) + [last] by {
        assert t[j..] == u[j..] + [last];
        assert t[..j] == u[..j];
      }
      assert InsertBy(key, x, t) == InsertBy(key, x, u) + [last];
    }
  }

  /** Inserting into a sorted list keeps it sorted. */
  lemma {:induction false} InsertSorted(key: string -> int, x: string, t: seq<string>)
    requires SortedBy(key, t)
    ensures SortedBy(key, InsertBy(key, x, t))
    decreases |t|
  {
    if t == [] {
    } else if key(t[|t| - 1]) <= key(x) {
    } else {
      var u := t[..|t| - 1];
      var last := t[|t| - 1];
      assert SortedBy(key, u);
      InsertSorted(key, x, u);
      var r := InsertBy(key, x, u);
      InsertPermutes(key, x, u);
      forall i | 0 <= i < |r| ensures key(r[i]) <= key(last) {
        assert r[i] in multiset(r);
        if r[i] != x {
          assert r[i] in multiset(u);
          var k :| 0 <= k < |u| && u[k] == r[i];
          assert t[k] == u[k];
        }
      }
      assert InsertBy(key, x, t) == r + [last];
    }
  }

  /** The sort's result is sorted. */
  lemma {:induction false} SortSorted(key: string -> int, s: seq<string>)
    ensures SortedBy(key, SortBy(key, s))
  {
    if s != [] {
      SortSorted(key, s[..|s| - 1]);
      InsertSorted(key, s[|s| - 1], SortBy(key, s[..|s| - 1]));
    }
  }

  /** Sorting an already sorted list changes nothing. */
  lemma {:induction false} SortOfSorted(key: string -> int, s: seq<string>)
    requires SortedBy(key, s)
    ensures SortBy(key, s) == s
  {
    if s != [] {
      var u := s[..|s| - 1];
      assert SortedBy(key, u);
      SortOfSorted(key, u);
      assert s == u + [s[|s| - 1]];
    }
  }

  // ---------------------------------------------------------------------------------------------
  // The toggle

  /** `days.filter(d => d !== day)` */
  function Without(s: seq<string>, day: string): (r: seq<string>)
    ensures forall x :: x in r <==> x in s && x != day
  {
    if s == [] then []
    else if s[0] == day then Without(s[1..], day)
    else [s[0]] + Without(s[1..], day)
  }

  /** The list before sorting: without the day if it was there, with it appended otherwise. */
  function Flipped(days: seq<string>, day: string): seq<string> {
    if day in days then Without(days, day) else days + [day]
  }

  /** What `toggleDay(day)` leaves as the new list of available days. */
  function Toggled(days: seq<string>, day: string): seq<string> {
    SortDays(Flipped(days, day))
  }

  /** `toggleDay`: build the flipped list in a fresh array, sort that array in place, return it. */
  method ToggleDay(days: seq<string>, day: string) returns (r: seq<string>)
    ensures r == Toggled(days, day)
  {
    var newDays := Flipped(days, day);
    var a := new string[|newDays|](i requires 0 <= i < |newDays| => newDays[i]);
    assert a[..] == newDays;
    SortInPlace(a, Key);
    r := a[..];
  }

  /** `a.sort` with the comparator `key(x) - key(y)`, as a stable insertion sort in place. */
  method SortInPlace(a: array<string>, key: string -> int)
    modifies a
    ensures a[..] == SortBy(key, old(a[..]))
  {
    ghost var orig := a[..];
    var i := 0;
    while i < a.Length
      invariant 0 <= i <= a.Length
      invariant a[..i] == SortBy(key, orig[..i])
      invariant a[i..] == orig[i..]
    {
      assert a[i] == orig[i];
      InsertInPlace(a, i, key);
      assert orig[..i + 1][..i] == orig[..i];
      i := i + 1;
    }
    assert orig[..a.Length] == orig;
  }

  /** One step of the insertion sort: shift `a[i]` left past every larger key in `a[..i]`. */
  method InsertInPlace(a: array<string>, i: nat, key: string -> int)
    requires i < a.Length
    modifies a
    ensures a[..i + 1] == InsertBy(key, old(a[i]), old(a[..i]))
    ensures a[i + 1..] == old(a[i + 1..])
  {
    ghost var t := a[..i];
    var x := a[i];
    var j := i;
    while j > 0 && key(x) < key(a[j - 1])
      invariant 0 <= j <= i
      invariant forall k :: 0 <= k < j ==> a[k] == t[k]
      invariant forall k :: j < k <= i ==> a[k] == t[k - 1]
      invariant forall k :: i < k < a.Length ==> a[k] == old(a[k])
      invariant forall k :: j <= k < i ==> key(x) < key(t[k])
    {
      a[j] := a[j - 1];
      j := j - 1;
    }
    a[j] := x;
    InsertSplit(key, x, t, j);
    assert a[..i + 1] == t[..j] + [x] + t[j..];
  }

  // ---------------------------------------------------------------------------------------------
  // Properties of the toggle

  /** The toggled day's membership flips; every other day keeps its membership. */
  lemma ToggledMembership(days: seq<string>, day: string, x: string)
    ensures x in Toggled(days, day) <==> (if x == day then day !in days else x in days)
  {
    var f := Flipped(days, day);
    SortPermutes(Key, f);
    assert x in Toggled(days, day) <==> x in multiset(SortDays(f));
    assert x in f <==> x in multiset(f);
  }

  lemma {:induction false} DistinctCount(s: seq<string>, x: string)
    requires Distinct(s)
    ensures multiset(s)[x] <= 1
  {
    if s != [] {
      assert s == [s[0]] + s[1..];
      assert Distinct(s[1..]);
      DistinctCount(s[1..], x);
      if x == s[0] {
        assert x !in s[1..];
      }
    }
  }

  lemma DuplicateCount(s: seq<string>, i: nat, j: nat)
    requires i < j < |s| && s[i] == s[j]
    ensures multiset(s)[s[i]] >= 2
  {
    assert s == s[..j] + s[j..];
    assert s[i] in s[..j];
    assert s[j] in s[j..];
  }

  /** Rearranging a list that has no duplicates gives a list that has none. */
  lemma DistinctPermutation(a: seq<string>, b: seq<string>)
    requires Distinct(a) && multiset(a) == multiset(b)
    ensures Distinct(b)
  {
    forall i, j | 0 <= i < j < |b| ensures b[i] != b[j] {
      if b[i] == b[j] {
        DuplicateCount(b, i, j);
        DistinctCount(a, b[i]);
      }
    }
  }

  lemma {:induction false} WithoutDistinct(s: seq<string>, day: string)
    requires Distinct(s)
    ensures Distinct(Without(s, day))
  {
    if s != [] {
      assert Distinct(s[1..]);
      WithoutDistinct(s[1..], day);
      if s[0] != day {
        assert s[0] !in s[1..];
      }
    }
  }

  lemma CanonicalIsDistinct(s: seq<string>)
    requires Canonical(s)
    ensures Distinct(s)
  {
  }

  /** A sorted list of distinct weekday labels is canonical. */
  lemma SortedDistinctCanonical(s: seq<string>)
    requires SortedByDay(s) && Distinct(s)
    requires forall i :: 0 <= i < |s| ==> s[i] in WEEKDAYS
    ensures Canonical(s)
  {
    forall i, j | 0 <= i < j < |s| ensures Key(s[i]) < Key(s[j]) {
      KeyInjective(s[i], s[j]);
    }
  }

  /** Toggling a weekday in a canonical list gives a canonical list (sorted, no duplicates). */
  lemma ToggledCanonical(days: seq<string>, day: string)
    requires Canonical(days) && day in WEEKDAYS
    ensures Canonical(Toggled(days, day))
  {
    var f := Flipped(days, day);
    CanonicalIsDistinct(days);
    if day in days {
      WithoutDistinct(days, day);
    } else {
      forall i, j | 0 <= i < j < |f| ensures f[i] != f[j] {
        if j == |days| {
          assert f[i] == days[i];
        }
      }
    }
    var r := SortDays(f);
    SortSorted(Key, f);
    SortPermutes(Key, f);
    DistinctPermutation(f, r);
    forall i | 0 <= i < |r| ensures r[i] in WEEKDAYS {
      assert r[i] in multiset(r);
      assert r[i] in f;
    }
    SortedDistinctCanonical(r);
  }

  /** Strictly increasing by `key`. */
  ghost predicate StrictlyBy(key: string -> int, s: seq<string>) {
    forall i, j :: 0 <= i < j < |s| ==> key(s[i]) < key(s[j])
  }

  /** The head of a strictly increasing list has the least key. */
  lemma HeadLeast(key: string -> int, s: seq<string>, x: string)
    requires StrictlyBy(key, s) && x in s
    ensures key(s[0]) <= key(x)
  {
    var p :| 0 <= p < |s| && s[p] == x;
    assert p == 0 || key(s[0]) < key(s[p]);
  }

  /** The tail of a strictly increasing list holds every member but the head. */
  lemma TailMembers(key: string -> int, s: seq<string>, x: string)
    requires StrictlyBy(key, s) && s != []
    ensures x in s[1..] <==> x in s && x != s[0]
  {
    assert s == [s[0]] + s[1..];
    if x in s[1..] {
      var p :| 0 <= p < |s| - 1 && s[1..][p] == x;
      assert key(s[0]) < key(s[p + 1]);
    }
  }

  /** `s` and `t` have the same members. */
  ghost predicate SameMembers(s: seq<string>, t: seq<string>) {
    forall x :: x in s <==> x in t
  }

  /** `key` tells any two members of `s` apart. */
  ghost predicate InjectiveOn(key: string -> int, s: seq<string>) {
    forall a, b :: a in s && b in s && key(a) == key(b) ==> a == b
  }

  /** Two strictly increasing lists with the same members are equal, when `key` tells their members apart. */
  lemma {:induction false} StrictUnique(key: string -> int, s: seq<string>, t: seq<string>)
    requires StrictlyBy(key, s) && StrictlyBy(key, t)
    requires SameMembers(s, t) && InjectiveOn(key, s)
    ensures s == t
    decreases |s|
  {
    SameMembersEmpty(s, t);
    if s != [] {
      StrictTails(key, s, t);
      StrictUnique(key, s[1..], t[1..]);
      assert s == [s[0]] + s[1..] && t == [t[0]] + t[1..];
    }
  }

  lemma SameMembersEmpty(s: seq<string>, t: seq<string>)
    requires SameMembers(s, t)
    ensures s == [] <==> t == []
  {
    if t != [] {
      assert t[0] in s;
    }
    if s != [] {
      assert s[0] in t;
    }
  }

  /** The step of `StrictUnique`: equal heads, and tails that again satisfy its hypotheses. */
  lemma StrictTails(key: string -> int, s: seq<string>, t: seq<string>)
    requires s != [] && t != []
    requires StrictlyBy(key, s) && StrictlyBy(key, t)
    requires SameMembers(s, t) && InjectiveOn(key, s)
    ensures s[0] == t[0]
    ensures StrictlyBy(key, s[1..]) && StrictlyBy(key, t[1..])
    ensures SameMembers(s[1..], t[1..]) && InjectiveOn(key, s[1..])
  {
    HeadLeast(key, t, s[0]);
    HeadLeast(key, s, t[0]);
    forall x ensures x in s[1..] <==> x in t[1..] {
      TailMembers(key, s, x);
      TailMembers(key, t, x);
    }
    forall x | x in s[1..] ensures x in s {
      TailMembers(key, s, x);
    }
  }

  /** Two canonical lists with the same days are the same list. */
  lemma CanonicalUnique(s: seq<string>, t: seq<string>)
    requires Canonical(s) && Canonical(t)
    requires forall x :: x in s <==> x in t
    ensures s == t
  {
    assert StrictlyBy(Key, s) && StrictlyBy(Key, t);
    forall a, b | a in s && b in s && Key(a) == Key(b) ensures a == b {
      KeyInjective(a, b);
    }
    StrictUnique(Key, s, t);
  }

  /** Toggling the same weekday twice restores a canonical list. */
  lemma ToggleTwice(days: seq<string>, day: string)
    requires Canonical(days) && day in WEEKDAYS
    ensures Toggled(Toggled(days, day), day) == days
  {
    var once := Toggled(days, day);
    ToggledCanonical(days, day);
    ToggledCanonical(once, day);
    forall x ensures x in Toggled(once, day) <==> x in days {
      ToggledMembership(days, day, x);
      ToggledMembership(once, day, x);
    }
    CanonicalUnique(Toggled(once, day), days);
  }

  /** The canonical form of any list of distinct weekday labels is what the sort produces. */
  lemma SortCanonicalizes(s: seq<string>)
    requires Distinct(s) && forall i :: 0 <= i < |s| ==> s[i] in WEEKDAYS
    ensures Canonical(SortDays(s))
  {
    var r := SortDays(s);
    SortSorted(Key, s);
    SortPermutes(Key, s);
    DistinctPermutation(s, r);
    forall i | 0 <= i < |r| ensures r[i] in WEEKDAYS {
      assert r[i] in multiset(r);
      assert r[i] in s;
    }
    SortedDistinctCanonical(r);
  }
}
