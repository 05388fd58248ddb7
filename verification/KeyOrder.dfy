/** The sorted key order in which the source walks its maps (sortedMapKeys in schema.go). */
module KeyOrder {

  predicate LessEq(a: string, b: string) {
    a == "" || (b != "" && (a[0] < b[0] || (a[0] == b[0] && LessEq(a[1..], b[1..]))))
  }

  /** The order of Go strings: a prefix comes first, and otherwise the first difference decides. */
  lemma {:induction false} LessEqMeans(a: string, b: string, k: nat)
    requires k <= |a| && k <= |b| && a[..k] == b[..k]
    ensures k == |a| ==> LessEq(a, b)
    ensures k < |a| && k == |b| ==> !LessEq(a, b)
    ensures k < |a| && k < |b| && a[k] != b[k] ==> (LessEq(a, b) <==> a[k] < b[k])
  {
    if k > 0 {
      assert a[0] == a[..k][0] == b[..k][0] == b[0];
      assert a[1..][..k - 1] == a[..k][1..] == b[..k][1..] == b[1..][..k - 1];
      LessEqMeans(a[1..], b[1..], k - 1);
    }
  }

  lemma {:induction false} Total(a: string, b: string)
    ensures LessEq(a, b) || LessEq(b, a)
    ensures LessEq(a, b) && LessEq(b, a) ==> a == b
  {
    if a != "" && b != "" {
      Total(a[1..], b[1..]);
      assert a == [a[0]] + a[1..] && b == [b[0]] + b[1..];
    }
  }

  lemma {:induction false} Transitive(a: string, b: string, c: string)
    requires LessEq(a, b) && LessEq(b, c)
    ensures LessEq(a, c)
  {
    if a != "" && a[0] == b[0] == c[0] {
      Transitive(a[1..], b[1..], c[1..]);
    }
  }

  predicate IsLeast(key: string, keys: set<string>) {
    key in keys && forall other :: other in keys ==> LessEq(key, other)
  }

  lemma {:induction false} LeastExists(keys: set<string>)
    requires keys != {}
    ensures exists key :: IsLeast(key, keys)
  {
    var some :| some in keys;
    Total(some, some);
    if keys == {some} {
      assert IsLeast(some, keys);
    } else {
      var rest := keys - {some};
      LeastExists(rest);
      var least :| IsLeast(least, rest);
      Total(some, least);
      if LessEq(some, least) {
        forall other | other in rest ensures LessEq(some, other) { Transitive(some, least, other); }
        assert IsLeast(some, keys);
      } else {
        assert IsLeast(least, keys);
      }
    }
  }

  function Least(keys: set<string>): (key: string)
    requires keys != {}
    ensures IsLeast(key, keys)
  {
    LeastExists(keys);
    assert forall a, b :: IsLeast(a, keys) && IsLeast(b, keys) ==> a == b by {
      forall a, b | IsLeast(a, keys) && IsLeast(b, keys) ensures a == b { Total(a, b); }
    }
    var key :| IsLeast(key, keys); key
  }

  function SortedKeys(keys: set<string>): seq<string> {
    if keys == {} then []
    else var least := Least(keys); [least] + SortedKeys(keys - {least})
  }

  lemma {:induction false} SortedKeysAreKeys(keys: set<string>)
    ensures forall key :: key in SortedKeys(keys) <==> key in keys
  {
    if keys != {} {
      SortedKeysAreKeys(keys - {Least(keys)});
    }
  }

  lemma {:induction false} SortedKeysAscend(keys: set<string>, i: nat, j: nat)
    requires i < j < |SortedKeys(keys)|
    ensures LessEq(SortedKeys(keys)[i], SortedKeys(keys)[j]) && SortedKeys(keys)[i] != SortedKeys(keys)[j]
  {
    var least := Least(keys);
    var rest := SortedKeys(keys - {least});
    if i == 0 {
      SortedKeysAreKeys(keys - {least});
      assert rest[j - 1] in rest;
    } else {
      SortedKeysAscend(keys - {least}, i - 1, j - 1);
    }
  }

  lemma {:induction false} SortedKeysEnumerate(keys: set<string>)
    ensures forall key :: key in SortedKeys(keys) <==> key in keys
    ensures forall i, j :: 0 <= i < j < |SortedKeys(keys)| ==>
              LessEq(SortedKeys(keys)[i], SortedKeys(keys)[j]) && SortedKeys(keys)[i] != SortedKeys(keys)[j]
  {
    SortedKeysAreKeys(keys);
    forall i, j | 0 <= i < j < |SortedKeys(keys)|
      ensures LessEq(SortedKeys(keys)[i], SortedKeys(keys)[j]) && SortedKeys(keys)[i] != SortedKeys(keys)[j]
    {
      SortedKeysAscend(keys, i, j);
    }
  }
}
