/**
  Lists of items that carry an id, and the dictionaries keyed by it.
*/
module Dictionary {
  import opened Ordering
  import opened Text

  // As in a dictionary comprehension, the last item with an id counts.
  function ById<T>(items: seq<T>, id: T -> string): map<string, T> {
    if items == [] then map[]
    else
      var n := |items| - 1;
      ById(items[..n], id)[id(items[n]) := items[n]]
  }

  lemma ByIdOne<T>(x: T, id: T -> string)
    ensures ById([x], id) == map[id(x) := x]
  {
    assert [x][..0] == [];
  }

  lemma {:induction false} ByIdKeys<T>(items: seq<T>, id: T -> string, x: string)
    ensures x in ById(items, id) <==> exists i :: 0 <= i < |items| && id(items[i]) == x
  {
    if items != [] {
      var n := |items| - 1;
      ByIdKeys(items[..n], id, x);
      if i :| 0 <= i < n && id(items[..n][i]) == x {
        assert id(items[i]) == x;
      }
      if i :| 0 <= i < |items| && id(items[i]) == x {
        assert i < n ==> id(items[..n][i]) == x;
      }
    }
  }

  lemma {:induction false} ByIdValues<T>(items: seq<T>, id: T -> string, x: string)
    requires x in ById(items, id)
    ensures ById(items, id)[x] in items && id(ById(items, id)[x]) == x
  {
    var n := |items| - 1;
    if x != id(items[n]) {
      ByIdValues(items[..n], id, x);
    }
  }

  lemma ByIdLooksUp<T>(items: seq<T>, id: T -> string)
    ensures forall x :: x in ById(items, id) <==> exists i :: 0 <= i < |items| && id(items[i]) == x
    ensures forall x :: x in ById(items, id) ==> ById(items, id)[x] in items && id(ById(items, id)[x]) == x
  {
    forall x ensures x in ById(items, id) <==> exists i :: 0 <= i < |items| && id(items[i]) == x {
      ByIdKeys(items, id, x);
    }
    forall x | x in ById(items, id) ensures ById(items, id)[x] in items && id(ById(items, id)[x]) == x {
      ByIdValues(items, id, x);
    }
  }

  function Ids<T>(items: seq<T>, id: T -> string): seq<string> {
    seq(|items|, i requires 0 <= i < |items| => id(items[i]))
  }

  // With distinct ids the dictionary is a one-to-one view of the list.
  lemma ByIdDistinct<T>(items: seq<T>, id: T -> string, i: nat)
    requires i < |items| && Distinct(Ids(items, id))
    ensures id(items[i]) in ById(items, id) && ById(items, id)[id(items[i])] == items[i]
  {
    var j := ByIdFinds(items, id, i);
    assert Ids(items, id)[i] == Ids(items, id)[j];
  }

  lemma {:induction false} ByIdFinds<T>(items: seq<T>, id: T -> string, i: nat) returns (j: nat)
    requires i < |items|
    ensures j < |items| && id(items[j]) == id(items[i])
    ensures id(items[i]) in ById(items, id) && ById(items, id)[id(items[i])] == items[j]
  {
    var n := |items| - 1;
    if id(items[i]) == id(items[n]) {
      j := n;
    } else {
      assert items[..n][i] == items[i];
      j := ByIdFinds(items[..n], id, i);
    }
  }

  // With distinct ids, an item is what its id looks up.
  lemma LooksUpItself<T>(items: seq<T>, id: T -> string, x: T)
    requires x in items && Distinct(Ids(items, id))
    ensures id(x) in ById(items, id) && ById(items, id)[id(x)] == x
  {
    var i :| 0 <= i < |items| && items[i] == x;
    ByIdDistinct(items, id, i);
  }

  function Lookup<K, V>(m: map<K, V>, k: K): Option<V> {
    if k in m then Some(m[k]) else None
  }
}
