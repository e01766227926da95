/**
 * Python dictionaries iterate in insertion order. A registry dictionary is
 * modelled as a map together with the sequence of its keys in insertion
 * order; these are the operations on that key sequence.
 */
module OrderedKeys {

  /** No key occurs twice. */
  predicate Distinct(xs: seq<string>) {
    forall i, j :: 0 <= i < j < |xs| ==> xs[i] != xs[j]
  }

  /** The elements of `order` that are not in `ids`, in their original order. */
  function Without(order: seq<string>, ids: set<string>): seq<string> {
    if |order| == 0 then []
    else if order[0] in ids then Without(order[1..], ids)
    else [order[0]] + Without(order[1..], ids)
  }

  lemma {:induction false} WithoutMembers(order: seq<string>, ids: set<string>)
    ensures forall x :: x in Without(order, ids) <==> x in order && x !in ids
  {
    if |order| > 0 {
      WithoutMembers(order[1..], ids);
      assert order == [order[0]] + order[1..];
    }
  }

  lemma {:induction false} WithoutTwice(order: seq<string>, ids: set<string>, id: string)
    ensures Without(Without(order, ids), {id}) == Without(order, ids + {id})
  {
    if |order| > 0 {
      WithoutTwice(order[1..], ids, id);
      if order[0] !in ids {
        var w := Without(order[1..], ids);
        assert ([order[0]] + w)[1..] == w;
      }
    }
  }

  lemma WithoutNothing(order: seq<string>)
    ensures Without(order, {}) == order
  {
  }

  lemma {:induction false} WithoutKeepsDistinct(order: seq<string>, ids: set<string>)
    requires Distinct(order)
    ensures Distinct(Without(order, ids))
  {
    if |order| > 0 {
      var w := Without(order[1..], ids);
      assert Distinct(order[1..]) by {
        forall i, j | 0 <= i < j < |order| - 1 ensures order[1..][i] != order[1..][j] {
          assert order[1..][i] == order[i + 1] && order[1..][j] == order[j + 1];
        }
      }
      WithoutKeepsDistinct(order[1..], ids);
      WithoutMembers(order[1..], ids);
      assert order[0] !in w;
      if order[0] !in ids {
        var r := Without(order, ids);
        assert r == [order[0]] + w;
        forall i, j | 0 <= i < j < |r| ensures r[i] != r[j] {
          assert r[j] == w[j - 1];
          if i > 0 {
            assert r[i] == w[i - 1];
          }
        }
      } else {
        assert Without(order, ids) == w;
      }
    }
  }

  /** Appending a key and then removing it gives what removing it alone gives. */
  lemma {:induction false} WithoutAppended(order: seq<string>, id: string)
    ensures Without(order + [id], {id}) == Without(order, {id})
  {
    if |order| == 0 {
      assert [id][1..] == [];
    } else {
      assert (order + [id])[1..] == order[1..] + [id];
      WithoutAppended(order[1..], id);
    }
  }

  /** The first `j + 1` keys are the first `j` followed by key `j`. */
  lemma PrefixSnoc(xs: seq<string>, j: nat)
    requires j < |xs|
    ensures xs[..j + 1] == xs[..j] + [xs[j]]
    ensures forall x :: x in xs[..j + 1] <==> x in xs[..j] || x == xs[j]
  {
  }

  /** Adding a key and then removing it leaves what removing it alone leaves. */
  lemma AddedThenRemoved<V>(m: map<string, V>, order: seq<string>, id: string, v: V)
    ensures m[id := v] - {id} == m - {id}
    ensures Without(if id in m then order else order + [id], {id}) == Without(order, {id})
  {
    WithoutAppended(order, id);
  }

  /** Removing a set of keys and then one more key removes their union. */
  lemma RemoveTwice<V>(m: map<string, V>, removed: set<string>, id: string)
    ensures (m - removed) - {id} == m - (removed + {id})
  {
  }
}
