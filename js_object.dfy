/**
 * Two properties of a plain JavaScript object (`{}`) used as a dictionary that
 * the monthly report depends on: a lookup of a name that `Object.prototype`
 * defines finds the inherited member (a truthy function or object), and
 * `Object.values` visits the own keys that are array indices first, in
 * ascending numeric order, then the other string keys in insertion order
 * (OrdinaryOwnPropertyKeys, section 10.1.11.1 of ECMA-262).
 */
module JsObject {
  import opened Common

  /** The members every plain object inherits from `Object.prototype`. */
  const InheritedNames: set<string> := {
    "constructor", "hasOwnProperty", "isPrototypeOf", "propertyIsEnumerable",
    "toString", "toLocaleString", "valueOf", "__proto__",
    "__defineGetter__", "__defineSetter__", "__lookupGetter__", "__lookupSetter__"
  }

  predicate Distinct<T(==)>(xs: seq<T>)
  {
    forall i, j :: 0 <= i < j < |xs| ==> xs[i] != xs[j]
  }

  /** An array index: a decimal numeral without a leading zero whose value is below 2^32 - 1. */
  predicate IsIndexKey(k: string)
  {
    k != [] && AllDigits(k) && (k[0] == '0' ==> |k| == 1) && NatOf(k) < 0xFFFF_FFFF
  }

  /** The numeric value of an index key (0 for any other key, which is never compared). */
  function IndexValue(k: string): nat
  {
    if AllDigits(k) then NatOf(k) else 0
  }

  /** The index keys of `ks`, in order. */
  function IndexKeys(ks: seq<string>): seq<string>
  {
    if ks == [] then []
    else
      var rest := IndexKeys(ks[..|ks| - 1]);
      if IsIndexKey(ks[|ks| - 1]) then rest + [ks[|ks| - 1]] else rest
  }

  /** The keys of `ks` that are not index keys, in order. */
  function OtherKeys(ks: seq<string>): seq<string>
  {
    if ks == [] then []
    else
      var rest := OtherKeys(ks[..|ks| - 1]);
      if IsIndexKey(ks[|ks| - 1]) then rest else rest + [ks[|ks| - 1]]
  }

  predicate Ascending(ks: seq<string>)
  {
    forall i, j :: 0 <= i < j < |ks| ==> IndexValue(ks[i]) <= IndexValue(ks[j])
  }

  /** Inserts `k` in front of the first key of `sorted` whose value is not smaller. */
  function InsertIndex(k: string, sorted: seq<string>): seq<string>
  {
    if sorted == [] then [k]
    else if IndexValue(k) <= IndexValue(sorted[0]) then [k] + sorted
    else [sorted[0]] + InsertIndex(k, sorted[1..])
  }

  function SortIndices(ks: seq<string>): seq<string>
  {
    if ks == [] then [] else InsertIndex(ks[|ks| - 1], SortIndices(ks[..|ks| - 1]))
  }

  /** The order in which `Object.values` visits an object whose keys were inserted in the order `ks`. */
  function KeyOrder(ks: seq<string>): seq<string>
  {
    SortIndices(IndexKeys(ks)) + OtherKeys(ks)
  }

  // ---------------------------------------------------------------------------
  // Lemmas
  // ---------------------------------------------------------------------------

  lemma DistinctCons(x: string, xs: seq<string>)
    requires x !in xs && Distinct(xs)
    ensures Distinct([x] + xs)
  {
    forall i, j | 0 <= i < j < |[x] + xs| ensures ([x] + xs)[i] != ([x] + xs)[j] {
      if i > 0 {
        assert ([x] + xs)[i] == xs[i - 1];
      }
      assert ([x] + xs)[j] == xs[j - 1];
    }
  }

  lemma {:induction false} FiltersOfKeys(ks: seq<string>)
    ensures forall x :: x in IndexKeys(ks) <==> x in ks && IsIndexKey(x)
    ensures forall x :: x in OtherKeys(ks) <==> x in ks && !IsIndexKey(x)
    ensures Distinct(ks) ==> Distinct(IndexKeys(ks)) && Distinct(OtherKeys(ks))
  {
    if ks != [] {
      var init := ks[..|ks| - 1];
      var k := ks[|ks| - 1];
      FiltersOfKeys(init);
      assert forall x :: x in ks <==> x in init || x == k;
      if Distinct(ks) {
        assert k !in init;
      }
    }
  }

  lemma TailProps(xs: seq<string>)
    requires xs != []
    ensures forall x :: x in xs <==> x == xs[0] || x in xs[1..]
    ensures Ascending(xs) ==> Ascending(xs[1..]) && forall y :: y in xs[1..] ==> IndexValue(xs[0]) <= IndexValue(y)
    ensures Distinct(xs) ==> Distinct(xs[1..]) && xs[0] !in xs[1..]
  {
    var t := xs[1..];
    assert forall i :: 0 <= i < |t| ==> t[i] == xs[i + 1];
    assert forall x :: x in xs <==> x == xs[0] || x in t by {
      assert xs == [xs[0]] + t;
    }
  }

  lemma {:induction false} InsertIndexMembers(k: string, sorted: seq<string>)
    ensures |InsertIndex(k, sorted)| == |sorted| + 1
    ensures forall x :: x in InsertIndex(k, sorted) <==> x == k || x in sorted
    decreases |sorted|
  {
    if sorted != [] && IndexValue(k) > IndexValue(sorted[0]) {
      InsertIndexMembers(k, sorted[1..]);
      TailProps(sorted);
    }
  }

  lemma AscendingCons(x: string, xs: seq<string>)
    requires Ascending(xs) && forall y :: y in xs ==> IndexValue(x) <= IndexValue(y)
    ensures Ascending([x] + xs)
  {
    var r := [x] + xs;
    forall i, j | 0 <= i < j < |r| ensures IndexValue(r[i]) <= IndexValue(r[j]) {
      assert r[j] == xs[j - 1] && r[j] in xs;
      if i > 0 {
        assert r[i] == xs[i - 1];
      }
    }
  }

  lemma {:induction false} InsertIndexAscending(k: string, sorted: seq<string>)
    requires Ascending(sorted)
    ensures Ascending(InsertIndex(k, sorted))
    decreases |sorted|
  {
    if sorted != [] {
      TailProps(sorted);
      if IndexValue(k) <= IndexValue(sorted[0]) {
        AscendingCons(k, sorted);
      } else {
        InsertIndexAscending(k, sorted[1..]);
        InsertIndexMembers(k, sorted[1..]);
        AscendingCons(sorted[0], InsertIndex(k, sorted[1..]));
      }
    }
  }

  lemma {:induction false} InsertIndexDistinct(k: string, sorted: seq<string>)
    requires Distinct(sorted) && k !in sorted
    ensures Distinct(InsertIndex(k, sorted))
    decreases |sorted|
  {
    if sorted != [] {
      TailProps(sorted);
      if IndexValue(k) <= IndexValue(sorted[0]) {
        DistinctCons(k, sorted);
      } else {
        InsertIndexDistinct(k, sorted[1..]);
        InsertIndexMembers(k, sorted[1..]);
        DistinctCons(sorted[0], InsertIndex(k, sorted[1..]));
      }
    } else {
      DistinctCons(k, []);
    }
  }

  lemma {:induction false} SortIndicesProps(ks: seq<string>)
    ensures |SortIndices(ks)| == |ks|
    ensures forall x :: x in SortIndices(ks) <==> x in ks
    ensures Ascending(SortIndices(ks))
    ensures Distinct(ks) ==> Distinct(SortIndices(ks))
  {
    if ks != [] {
      var init := ks[..|ks| - 1];
      var k := ks[|ks| - 1];
      SortIndicesProps(init);
      InsertIndexMembers(k, SortIndices(init));
      InsertIndexAscending(k, SortIndices(init));
      if Distinct(ks) {
        assert k !in init;
        InsertIndexDistinct(k, SortIndices(init));
      }
      assert forall x :: x in ks <==> x in init || x == k;
    }
  }

  /** `Object.values` visits every own key, and each exactly once. */
  lemma KeyOrderPermutes(ks: seq<string>)
    ensures forall x :: x in KeyOrder(ks) <==> x in ks
    ensures Distinct(ks) ==> Distinct(KeyOrder(ks))
  {
    var sorted := SortIndices(IndexKeys(ks));
    var others := OtherKeys(ks);
    var r := KeyOrder(ks);
    FiltersOfKeys(ks);
    SortIndicesProps(IndexKeys(ks));
    if Distinct(ks) {
      forall i, j | 0 <= i < j < |r| ensures r[i] != r[j] {
        if j < |sorted| {
          assert r[i] == sorted[i] && r[j] == sorted[j];
        } else if i >= |sorted| {
          assert r[i] == others[i - |sorted|] && r[j] == others[j - |sorted|];
        } else {
          assert r[i] == sorted[i] && sorted[i] in sorted;
          assert r[j] == others[j - |sorted|] && r[j] in others;
        }
      }
    }
  }

  /** `Object.values` lists the index keys first, in ascending numeric order, then the other keys in insertion order. */
  lemma KeyOrderShape(ks: seq<string>)
    ensures var r := KeyOrder(ks); var n := |IndexKeys(ks)|;
      && n <= |r|
      && (forall i :: 0 <= i < n ==> IsIndexKey(r[i]))
      && (forall i, j :: 0 <= i < j < n ==> IndexValue(r[i]) <= IndexValue(r[j]))
      && r[n..] == OtherKeys(ks)
  {
    var sorted := SortIndices(IndexKeys(ks));
    var r := KeyOrder(ks);
    FiltersOfKeys(ks);
    SortIndicesProps(IndexKeys(ks));
    forall i | 0 <= i < |sorted| ensures IsIndexKey(r[i]) {
      assert r[i] == sorted[i] && sorted[i] in sorted;
    }
    forall i, j | 0 <= i < j < |sorted| ensures IndexValue(r[i]) <= IndexValue(r[j]) {
      assert r[i] == sorted[i] && r[j] == sorted[j];
    }
  }

  /** With no index key among them, `Object.values` keeps the insertion order. */
  lemma {:induction false} KeyOrderWithoutIndices(ks: seq<string>)
    requires forall i :: 0 <= i < |ks| ==> !IsIndexKey(ks[i])
    ensures KeyOrder(ks) == ks
  {
    if ks != [] {
      var init := ks[..|ks| - 1];
      KeyOrderWithoutIndices(init);
    }
  }

  /** A category named like a number is listed before every other one. */
  lemma KeyOrderExample()
    ensures KeyOrder(["Food", "2024", "10"]) == ["10", "2024", "Food"]
  {
    assert NatOf("10") == 10 by {
      assert "10"[..1] == "1";
    }
    assert NatOf("2024") == 2024 by {
      assert "2024"[..3] == "202";
      assert "202"[..2] == "20";
      assert "20"[..1] == "2";
    }
    assert ["Food", "2024", "10"][..2] == ["Food", "2024"];
    assert ["Food", "2024"][..1] == ["Food"];
    assert !IsIndexKey("Food") by {
      assert !IsDigit("Food"[0]);
    }
    assert IndexKeys(["Food", "2024", "10"]) == ["2024", "10"];
    assert OtherKeys(["Food", "2024", "10"]) == ["Food"];
    assert ["2024", "10"][..1] == ["2024"];
    assert ["2024"][..0] == [];
    assert SortIndices(["2024"]) == ["2024"];
    assert IndexValue("10") <= IndexValue("2024");
    assert SortIndices(["2024", "10"]) == InsertIndex("10", ["2024"]) == ["10", "2024"];
  }
}
