/**
 * A Python `dict` with string keys as the walker and the locator use it: iteration
 * follows insertion order, and assigning to a key that is already present replaces
 * its value in place.
 */
module Dict {
  import opened Wrappers

  datatype Entry<V> = Entry(key: string, value: V)

  function Keys<V>(d: seq<Entry<V>>): set<string> {
    set i | 0 <= i < |d| :: d[i].key
  }

  /** No key occurs twice, as in every Python dictionary. */
  predicate DistinctKeys<V>(d: seq<Entry<V>>) {
    forall i, j :: 0 <= i < j < |d| ==> d[i].key != d[j].key
  }

  /** The position of `k`, if it is a key. */
  function IndexOf<V>(d: seq<Entry<V>>, k: string): (r: Option<nat>)
    ensures r.None? <==> k !in Keys(d)
    ensures r.Some? ==> r.value < |d| && d[r.value].key == k
                        && forall i :: 0 <= i < r.value ==> d[i].key != k
    decreases |d|
  {
    if |d| == 0 then None
    else if d[0].key == k then Some(0)
    else
      var r := IndexOf(d[1..], k);
      assert Keys(d) == {d[0].key} + Keys(d[1..]) by {
        forall x | x in Keys(d) ensures x in {d[0].key} + Keys(d[1..]) {
          var i :| 0 <= i < |d| && d[i].key == x;
          if i > 0 { assert d[1..][i - 1].key == x; }
        }
      }
      if r.None? then None else Some(r.value + 1)
  }

  /** `d.get(k)`. */
  function Get<V>(d: seq<Entry<V>>, k: string): (r: Option<V>)
    ensures r.Some? <==> k in Keys(d)
  {
    match IndexOf(d, k)
    case Some(i) => Some(d[i].value)
    case None => None
  }

  /** `d[k] = v`. */
  function Assign<V>(d: seq<Entry<V>>, k: string, v: V): (r: seq<Entry<V>>)
    ensures Keys(r) == Keys(d) + {k}
    ensures Get(r, k) == Some(v)
    ensures forall k' :: k' != k ==> Get(r, k') == Get(d, k')
    ensures k in Keys(d) ==> |r| == |d| && forall i :: 0 <= i < |d| ==> r[i].key == d[i].key
    ensures k !in Keys(d) ==> r == d + [Entry(k, v)]
    ensures DistinctKeys(d) ==> DistinctKeys(r)
  {
    match IndexOf(d, k)
    case Some(i) =>
      var r := d[i := Entry(k, v)];
      assert Keys(r) == Keys(d) by {
        assert forall j :: 0 <= j < |d| ==> r[j].key == d[j].key;
      }
      GetOnSameKeys(d, r, i, k);
      r
    case None =>
      var r := d + [Entry(k, v)];
      assert Keys(r) == Keys(d) + {k} by {
        assert r[|d|].key == k;
        assert forall j :: 0 <= j < |d| ==> r[j] == d[j];
      }
      AppendGet(d, k, v);
      r
  }

  lemma GetOnSameKeys<V>(d: seq<Entry<V>>, r: seq<Entry<V>>, i: nat, k: string)
    requires i < |d| && d[i].key == k && (forall j :: 0 <= j < i ==> d[j].key != k)
    requires |r| == |d| && r[i].key == k
    requires forall j :: 0 <= j < |d| && j != i ==> r[j] == d[j]
    ensures IndexOf(r, k) == Some(i) && IndexOf(d, k) == Some(i)
    ensures forall k' :: k' != k ==> Get(r, k') == Get(d, k')
  {
    IndexOfFirst(d, i, k);
    IndexOfFirst(r, i, k);
    forall k' | k' != k ensures Get(r, k') == Get(d, k') {
      IndexOfAgree(d, r, i, k');
    }
  }

  lemma {:induction false} IndexOfFirst<V>(d: seq<Entry<V>>, i: nat, k: string)
    requires i < |d| && d[i].key == k && forall j :: 0 <= j < i ==> d[j].key != k
    ensures IndexOf(d, k) == Some(i)
    decreases i
  {
    if i > 0 {
      IndexOfFirst(d[1..], i - 1, k);
    }
  }

  /** Two dictionaries that differ only at an entry holding key `k` agree on every other key. */
  lemma {:induction false} IndexOfAgree<V>(d: seq<Entry<V>>, r: seq<Entry<V>>, i: nat, k': string)
    requires |r| == |d| && i < |d| && r[i].key == d[i].key && d[i].key != k'
    requires forall j :: 0 <= j < |d| && j != i ==> r[j] == d[j]
    ensures IndexOf(r, k') == IndexOf(d, k')
    ensures Get(r, k') == Get(d, k')
    decreases |d|
  {
    if |d| > 0 && i > 0 && d[0].key != k' {
      IndexOfAgree(d[1..], r[1..], i - 1, k');
    } else if |d| > 0 && i == 0 {
      assert d[1..] == r[1..];
    }
  }

  lemma {:induction false} AppendGet<V>(d: seq<Entry<V>>, k: string, v: V)
    requires k !in Keys(d)
    ensures Get(d + [Entry(k, v)], k) == Some(v)
    ensures forall k' :: k' != k ==> Get(d + [Entry(k, v)], k') == Get(d, k')
  {
    var r := d + [Entry(k, v)];
    IndexOfFirst(r, |d|, k);
    forall k' | k' != k ensures Get(r, k') == Get(d, k') {
      AppendIndexOf(d, Entry(k, v), k');
    }
  }

  lemma {:induction false} AppendIndexOf<V>(d: seq<Entry<V>>, e: Entry<V>, k': string)
    requires e.key != k'
    ensures IndexOf(d + [e], k') == IndexOf(d, k')
    decreases |d|
  {
    if |d| > 0 {
      assert (d + [e])[1..] == d[1..] + [e];
      AppendIndexOf(d[1..], e, k');
    }
  }

  // ---------------------------------------------------------------------------
  // A dictionary filled by assigning a list of entries in order

  /** `d = {}` followed by `d[k] = v` for each entry, in order. */
  function AssignAll<V>(es: seq<Entry<V>>): seq<Entry<V>>
    decreases |es|
  {
    if |es| == 0 then [] else Assign(AssignAll(es[..|es| - 1]), es[|es| - 1].key, es[|es| - 1].value)
  }

  lemma AssignAllStep<V>(es: seq<Entry<V>>, e: Entry<V>)
    ensures AssignAll(es + [e]) == Assign(AssignAll(es), e.key, e.value)
  {
    assert (es + [e])[..|es|] == es;
  }

  lemma KeysAppendOne<V>(es: seq<Entry<V>>, e: Entry<V>)
    ensures Keys(es + [e]) == Keys(es) + {e.key}
  {
    var r := es + [e];
    forall x | x in Keys(r) ensures x in Keys(es) + {e.key} {
      var i :| 0 <= i < |r| && r[i].key == x;
      if i < |es| {
        assert es[i].key == x;
      }
    }
    assert r[|es|].key == e.key;
    forall x | x in Keys(es) ensures x in Keys(r) {
      var i :| 0 <= i < |es| && es[i].key == x;
      assert r[i].key == x;
    }
  }

  lemma KeysAppendNone<V>(es: seq<Entry<V>>)
    ensures Keys(es + []) == Keys(es)
  {
    assert es + [] == es;
  }

  /** Assigning a list of entries stores exactly their keys, each once. */
  lemma {:induction false} AssignAllKeys<V>(es: seq<Entry<V>>)
    ensures Keys(AssignAll(es)) == Keys(es)
    ensures DistinctKeys(AssignAll(es))
    decreases |es|
  {
    if |es| > 0 {
      var init, e := es[..|es| - 1], es[|es| - 1];
      assert es == init + [e];
      AssignAllKeys(init);
      KeysAppendOne(init, e);
    }
  }

  /** With no key repeated, every entry gets its own slot. */
  lemma {:induction false} AssignAllSize<V>(es: seq<Entry<V>>)
    requires DistinctKeys(es)
    ensures |AssignAll(es)| == |es|
    decreases |es|
  {
    if |es| > 0 {
      var init, e := es[..|es| - 1], es[|es| - 1];
      assert es == init + [e];
      AssignAllSize(init);
      AssignAllKeys(init);
      forall j | 0 <= j < |init| ensures init[j].key != e.key {
        assert init[j] == es[j];
      }
    }
  }

  /** The value stored under a key is the one from the last entry with that key. */
  lemma {:induction false} AssignAllLast<V>(es: seq<Entry<V>>, i: nat)
    requires i < |es|
    requires forall j :: i < j < |es| ==> es[j].key != es[i].key
    ensures Get(AssignAll(es), es[i].key) == Some(es[i].value)
    decreases |es|
  {
    var init, e := es[..|es| - 1], es[|es| - 1];
    assert es == init + [e];
    if i < |es| - 1 {
      AssignAllLast(init, i);
      assert e.key != init[i].key;
    }
  }
}
