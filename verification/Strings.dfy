/**
 * Go strings: each `char` stands for one byte, so `Less` is Go's `<` on strings.
 */
module Strings {

  predicate Less(a: string, b: string)
  {
    if b == "" then false
    else if a == "" then true
    else a[0] < b[0] || (a[0] == b[0] && Less(a[1..], b[1..]))
  }

  lemma {:induction false} LessIrreflexive(a: string)
    ensures !Less(a, a)
  {
    if a != "" { LessIrreflexive(a[1..]); }
  }

  lemma {:induction false} LessTransitive(a: string, b: string, c: string)
    requires Less(a, b) && Less(b, c)
    ensures Less(a, c)
  {
    if a != "" && a[0] == b[0] && b[0] == c[0] { LessTransitive(a[1..], b[1..], c[1..]); }
  }

  lemma {:induction false} LessTotal(a: string, b: string)
    ensures Less(a, b) || a == b || Less(b, a)
  {
    if a != "" && b != "" && a[0] == b[0] {
      LessTotal(a[1..], b[1..]);
      assert a == [a[0]] + a[1..] && b == [b[0]] + b[1..];
    }
  }

  lemma LessAsymmetric(a: string, b: string)
    requires Less(a, b)
    ensures !Less(b, a) && a != b
  {
    LessIrreflexive(a);
    if Less(b, a) { LessTransitive(a, b, a); }
  }

  ghost predicate Ascending(ids: seq<string>)
  {
    forall i, j :: 0 <= i < j < |ids| ==> Less(ids[i], ids[j])
  }

  /** The least element of a finite nonempty set of strings. */
  lemma {:induction false} LeastExists(ids: set<string>) returns (least: string)
    requires ids != {}
    ensures least in ids && forall id :: id in ids ==> id == least || Less(least, id)
    decreases |ids|
  {
    var x :| x in ids;
    var rest := ids - {x};
    if rest == {} {
      assert ids == {x};
      return x;
    }
    var y := LeastExists(rest);
    LessTotal(x, y);
    if Less(x, y) {
      forall id | id in ids ensures id == x || Less(x, id) {
        if id != x && id != y { LessTransitive(x, y, id); }
      }
      return x;
    } else {
      return y;
    }
  }

  /** The ids in ascending order: the order in which a prefix iterator yields them. */
  ghost function Sorted(ids: set<string>): (r: seq<string>)
    ensures Ascending(r) && |r| == |ids|
    ensures forall id :: id in r <==> id in ids
    decreases |ids|
  {
    if ids == {} then []
    else
      var least := Least(ids);
      var rest := Sorted(ids - {least});
      assert forall i :: 0 <= i < |rest| ==> rest[i] in rest;
      assert forall i :: 0 <= i < |rest| ==> Less(least, rest[i]);
      [least] + rest
  }

  ghost function Least(ids: set<string>): (r: string)
    requires ids != {}
    ensures r in ids && forall id :: id in ids ==> id == r || Less(r, id)
  {
    assert exists x :: x in ids && forall id :: id in ids ==> id == x || Less(x, id) by {
      var x := LeastExists(ids);
    }
    var x :| x in ids && forall id :: id in ids ==> id == x || Less(x, id);
    x
  }

  ghost predicate IsLeast(ids: set<string>, least: string)
  {
    least in ids && forall id :: id in ids ==> id == least || Less(least, id)
  }

  /** The first of the sorted ids, and the rest. */
  lemma SortedStep(ids: set<string>, least: string)
    requires IsLeast(ids, least)
    ensures Sorted(ids) == [least] + Sorted(ids - {least})
  {
    var first := Least(ids);
    if first != least { LessAsymmetric(first, least); }
  }

  lemma SortedAppend(rest: set<string>, ids: seq<string>, id: string)
    requires IsLeast(rest, id)
    ensures ids + [id] + Sorted(rest - {id}) == ids + Sorted(rest)
  {
    SortedStep(rest, id);
    hide Sorted, IsLeast;
  }

  /** What an iterator in key order yields next. */
  method LeastKey(keys: set<string>) returns (key: string)
    requires keys != {}
    ensures key in keys && IsLeast(keys, key)
  {
    ghost var least := LeastExists(keys);
    key :| key in keys && forall x :: x in keys ==> x == key || Less(key, x);
  }

  /** An ascending sequence is determined by its elements. */
  lemma {:induction false} AscendingUnique(a: seq<string>, b: seq<string>)
    requires Ascending(a) && Ascending(b)
    requires forall id :: id in a <==> id in b
    ensures a == b
  {
    assert a != [] ==> a[0] in a;
    assert b != [] ==> b[0] in b;
    if a != [] && b != [] {
      if a[0] != b[0] {
        assert a[0] in b && b[0] in a;
        var i :| 0 <= i < |b| && b[i] == a[0];
        var j :| 0 <= j < |a| && a[j] == b[0];
        assert Less(b[0], a[0]) && Less(a[0], b[0]);
        LessAsymmetric(a[0], b[0]);
      }
      forall id ensures id in a[1..] <==> id in b[1..] {
        LessIrreflexive(a[0]);
        if id in a[1..] {
          assert id in b;
          var i :| 1 <= i < |a| && a[i] == id;
          assert Less(a[0], id);
        }
        if id in b[1..] {
          assert id in a;
          var i :| 1 <= i < |b| && b[i] == id;
          assert Less(b[0], id);
        }
      }
      AscendingUnique(a[1..], b[1..]);
      assert a == [a[0]] + a[1..] && b == [b[0]] + b[1..];
    }
  }

  /** strings.ToUpper on ASCII text. */
  function UpperChar(c: char): char
  {
    if 'a' <= c <= 'z' then c - 'a' + 'A' else c
  }

  function Upper(s: string): (r: string)
    ensures |r| == |s|
    ensures forall i :: 0 <= i < |s| ==> r[i] == UpperChar(s[i])
  {
    if s == "" then "" else [UpperChar(s[0])] + Upper(s[1..])
  }

  /** strings.EqualFold on ASCII text. */
  predicate EqualFold(a: string, b: string)
  {
    Upper(a) == Upper(b)
  }
}
