/** An insertion-ordered dictionary keyed by agent id, the structure both registries keep
    their agents in (a Python dict: assigning to an existing key replaces the value in place,
    a new key goes to the end, and iteration follows insertion order). */
module Table {
  import opened Py

  datatype OrderedTable<V> = OrderedTable(order: seq<string>, entries: map<string, V>) {

    /** Every key is listed once in `order`, and `order` lists exactly the keys. */
    ghost predicate Valid() {
      && (forall i, j :: 0 <= i < j < |order| ==> order[i] != order[j])
      && (forall k :: k in entries <==> k in order)
    }

    /** `d.get(k)` */
    function Get(k: string): Option<V> {
      if k in entries then Some(entries[k]) else None
    }

    /** `d[k] = v` */
    function Put(k: string, v: V): (r: OrderedTable<V>)
      ensures r.Get(k) == Some(v)
      ensures forall k' :: k' != k ==> r.Get(k') == Get(k')
      ensures k in entries ==> r.order == order
      ensures k !in entries ==> r.order == order + [k]
      ensures Valid() ==> r.Valid()
    {
      OrderedTable(if k in entries then order else order + [k], entries[k := v])
    }
  }

  function Empty<V>(): (t: OrderedTable<V>)
    ensures t.Valid() && t.order == []
  {
    OrderedTable([], map[])
  }

  /** Position of `k` in `ids`, or |ids| when absent. */
  function IndexOf(ids: seq<string>, k: string): (i: nat)
    ensures i <= |ids|
    ensures i < |ids| <==> k in ids
    ensures i < |ids| ==> ids[i] == k && k !in ids[..i]
  {
    if ids == [] then 0 else if ids[0] == k then 0 else 1 + IndexOf(ids[1..], k)
  }

  /** The entries whose value satisfies `keep`, seen through `view`, in the order of `ids`;
      ids without an entry are skipped. */
  function SelectIn<V, E>(ids: seq<string>, entries: map<string, V>, keep: V -> bool,
                          view: (string, V) -> E): seq<E>
  {
    if ids == [] then []
    else
      var k := ids[|ids| - 1];
      SelectIn(ids[..|ids| - 1], entries, keep, view)
        + (if k in entries && keep(entries[k]) then [view(k, entries[k])] else [])
  }

  /** The key each selected entry came from, in the same order. */
  function SelectedKeys<V, E>(ids: seq<string>, entries: map<string, V>, keep: V -> bool,
                              view: (string, V) -> E): (ks: seq<string>)
    ensures |ks| == |SelectIn(ids, entries, keep, view)|
  {
    if ids == [] then []
    else
      var k := ids[|ids| - 1];
      SelectedKeys(ids[..|ids| - 1], entries, keep, view)
        + (if k in entries && keep(entries[k]) then [k] else [])
  }

  /** A filter in the table's order: the view of the selected entries. */
  function Select<V, E>(t: OrderedTable<V>, keep: V -> bool, view: (string, V) -> E): seq<E> {
    SelectIn(t.order, t.entries, keep, view)
  }

  /** Each selected entry is the view of a kept table entry, and the keys are those of `ids`. */
  lemma {:induction false} SelectInSound<V, E>(ids: seq<string>, entries: map<string, V>,
                                               keep: V -> bool, view: (string, V) -> E)
    ensures forall j :: 0 <= j < |SelectIn(ids, entries, keep, view)| ==>
      var k := SelectedKeys(ids, entries, keep, view)[j];
      k in ids && k in entries && keep(entries[k]) && SelectIn(ids, entries, keep, view)[j] == view(k, entries[k])
  {
    if ids != [] {
      var init := ids[..|ids| - 1];
      var last := ids[|ids| - 1];
      SelectInSound(init, entries, keep, view);
      var r0, ks0 := SelectIn(init, entries, keep, view), SelectedKeys(init, entries, keep, view);
      var r, ks := SelectIn(ids, entries, keep, view), SelectedKeys(ids, entries, keep, view);
      assert ids == init + [last];
      forall j | 0 <= j < |r|
        ensures ks[j] in ids && ks[j] in entries && keep(entries[ks[j]]) && r[j] == view(ks[j], entries[ks[j]])
      {
        if j < |r0| {
          assert ks[j] == ks0[j] && r[j] == r0[j];
          assert ks0[j] in init;
        } else {
          assert ks[j] == last;
        }
      }
    }
  }

  /** Every kept entry listed in `ids` is selected. */
  lemma {:induction false} SelectInComplete<V, E>(ids: seq<string>, entries: map<string, V>,
                                                  keep: V -> bool, view: (string, V) -> E, k: string)
    requires k in ids && k in entries && keep(entries[k])
    ensures k in SelectedKeys(ids, entries, keep, view)
    ensures view(k, entries[k]) in SelectIn(ids, entries, keep, view)
  {
    var init := ids[..|ids| - 1];
    if ids[|ids| - 1] != k {
      assert k in init by { assert ids == init + [ids[|ids| - 1]]; }
      SelectInComplete(init, entries, keep, view, k);
    }
  }

  /** Selected keys appear in the order of `ids` when `ids` has no repetition. */
  lemma {:induction false} SelectInOrdered<V, E>(ids: seq<string>, entries: map<string, V>,
                                                 keep: V -> bool, view: (string, V) -> E)
    requires forall i, j :: 0 <= i < j < |ids| ==> ids[i] != ids[j]
    ensures KeysInOrder(ids, SelectedKeys(ids, entries, keep, view))
  {
    if ids != [] {
      var init := ids[..|ids| - 1];
      var last := ids[|ids| - 1];
      SelectInOrdered(init, entries, keep, view);
      SelectInSound(init, entries, keep, view);
      var ks0 := SelectedKeys(init, entries, keep, view);
      assert ids == init + [last];
      assert forall x :: x in ks0 ==> x in init;
      OrderedAppend(init, last, ks0, SelectedKeys(ids, entries, keep, view));
    }
  }

  /** `ks` lists keys in strictly increasing position of `ids`. */
  ghost predicate KeysInOrder(ids: seq<string>, ks: seq<string>) {
    forall a, b :: 0 <= a < b < |ks| ==> IndexOf(ids, ks[a]) < IndexOf(ids, ks[b])
  }

  lemma OrderedAppend(init: seq<string>, last: string, ks0: seq<string>, ks: seq<string>)
    requires last !in init
    requires forall x :: x in ks0 ==> x in init
    requires KeysInOrder(init, ks0)
    requires ks == ks0 || ks == ks0 + [last]
    ensures KeysInOrder(init + [last], ks)
  {
    forall k | k in init ensures IndexOf(init + [last], k) == IndexOf(init, k) {
      IndexOfPrefix(init, [last], k);
    }
    IndexOfPrefix(init, [last], last);
    forall a, b | 0 <= a < b < |ks| ensures IndexOf(init + [last], ks[a]) < IndexOf(init + [last], ks[b]) {
      assert ks[a] == ks0[a] && ks0[a] in init;
      if b < |ks0| {
        assert ks[b] == ks0[b] && ks0[b] in init;
      }
    }
  }

  lemma {:induction false} IndexOfPrefix(a: seq<string>, b: seq<string>, k: string)
    ensures IndexOf(a + b, k) == if k in a then IndexOf(a, k) else |a| + IndexOf(b, k)
  {
    if a != [] {
      assert (a + b)[1..] == a[1..] + b;
      IndexOfPrefix(a[1..], b, k);
    } else {
      assert a + b == b;
    }
  }

  /** Nothing is selected exactly when no listed entry is kept. */
  lemma {:induction false} SelectInEmpty<V, E>(ids: seq<string>, entries: map<string, V>,
                                               keep: V -> bool, view: (string, V) -> E)
    ensures SelectIn(ids, entries, keep, view) == [] <==>
      forall k :: k in ids && k in entries ==> !keep(entries[k])
  {
    if ids != [] {
      var init := ids[..|ids| - 1];
      SelectInEmpty(init, entries, keep, view);
      assert ids == init + [ids[|ids| - 1]];
    }
  }
}
