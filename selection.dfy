/**
 * The checkbox selection of row ids used for bulk delete: toggling one id, and the
 * header checkbox that selects every listed id or clears the selection.
 */
module Selection {

  /** `ids.filter(item => item !== x)`: every occurrence of `x` removed, the rest in order. */
  function Without(ids: seq<int>, x: int): (r: seq<int>)
    ensures x !in r
    ensures forall y :: y != x ==> (y in r <==> y in ids)
    ensures |r| <= |ids|
  {
    if ids == [] then []
    else if ids[0] == x then Without(ids[1..], x)
    else [ids[0]] + Without(ids[1..], x)
  }

  /** `handleCheckboxChange`: drop a selected id, otherwise append it. */
  function Toggle(ids: seq<int>, id: int): seq<int>
  {
    if id in ids then Without(ids, id) else ids + [id]
  }

  /** The ids of the listed rows, in list order: `rows.map(r => r.<id>)`. */
  function Ids<T>(rows: seq<T>, id: T -> int): (ids: seq<int>)
    ensures |ids| == |rows|
    ensures forall i :: 0 <= i < |rows| ==> ids[i] == id(rows[i])
  {
    if |rows| == 0 then [] else [id(rows[0])] + Ids(rows[1..], id)
  }

  /** The header checkbox: a set flag clears the selection, a clear one selects `listed`. */
  function SelectAllIds(selectAll: bool, listed: seq<int>): seq<int>
  {
    if selectAll then [] else listed
  }

  lemma {:induction false} WithoutAbsent(ids: seq<int>, x: int)
    requires x !in ids
    ensures Without(ids, x) == ids
  {
    if ids != [] {
      WithoutAbsent(ids[1..], x);
      assert [ids[0]] + ids[1..] == ids;
    }
  }

  lemma {:induction false} WithoutConcat(a: seq<int>, b: seq<int>, x: int)
    ensures Without(a + b, x) == Without(a, x) + Without(b, x)
  {
    if a == [] {
      assert a + b == b;
    } else {
      assert (a + b)[1..] == a[1..] + b;
      WithoutConcat(a[1..], b, x);
    }
  }

  /** Filtering keeps the number of occurrences of every other id. */
  lemma {:induction false} WithoutCounts(ids: seq<int>, x: int, y: int)
    ensures multiset(Without(ids, x))[x] == 0
    ensures y != x ==> multiset(Without(ids, x))[y] == multiset(ids)[y]
  {
    if ids != [] {
      WithoutCounts(ids[1..], x, y);
      assert ids == [ids[0]] + ids[1..];
    }
  }

  /**
   * A toggle changes the membership of `id` and of nothing else: an absent id is
   * appended at the end, a present one loses every occurrence, and with `id` set
   * aside the selection is the same sequence as before.
   */
  lemma ToggleMeaning(ids: seq<int>, id: int)
    ensures id in Toggle(ids, id) <==> id !in ids
    ensures forall y :: y != id ==> (y in Toggle(ids, id) <==> y in ids)
    ensures id !in ids ==> Toggle(ids, id) == ids + [id]
    ensures id in ids ==> multiset(Toggle(ids, id))[id] == 0
    ensures Without(Toggle(ids, id), id) == Without(ids, id)
  {
    if id in ids {
      WithoutAbsent(Without(ids, id), id);
      WithoutCounts(ids, id, id);
    } else {
      WithoutConcat(ids, [id], id);
      assert Without([id], id) == [];
      assert Without(ids, id) + [] == Without(ids, id);
    }
  }

  /** Ticking an unticked row and unticking it again restores the selection. */
  lemma ToggleTwiceRestores(ids: seq<int>, id: int)
    requires id !in ids
    ensures Toggle(Toggle(ids, id), id) == ids
  {
    WithoutConcat(ids, [id], id);
    WithoutAbsent(ids, id);
    assert Without([id], id) == [];
    assert ids + [] == ids;
  }

  /** No id occurs twice. */
  predicate Distinct(ids: seq<int>)
  {
    forall a, b :: 0 <= a < b < |ids| ==> ids[a] != ids[b]
  }

  /** Ticking the row checkboxes of `ids` one after another, starting from `selected`. */
  function TickEach(selected: seq<int>, ids: seq<int>): seq<int>
    decreases |ids|
  {
    if ids == [] then selected else TickEach(Toggle(selected, ids[0]), ids[1..])
  }

  /** Ticking unselected, distinct rows one by one appends them in the order ticked. */
  lemma {:induction false} TickEachAppends(selected: seq<int>, ids: seq<int>)
    requires Distinct(ids)
    requires forall k :: 0 <= k < |ids| ==> ids[k] !in selected
    ensures TickEach(selected, ids) == selected + ids
    decreases |ids|
  {
    if ids != [] {
      var next := Toggle(selected, ids[0]);
      assert next == selected + [ids[0]];
      forall k | 0 <= k < |ids[1..]|
        ensures ids[1..][k] !in next
      {
        assert ids[1..][k] == ids[k + 1];
      }
      TickEachAppends(next, ids[1..]);
      assert selected + [ids[0]] + ids[1..] == selected + ids;
    }
  }

  /**
   * The header checkbox and the row checkboxes agree: from an empty selection, ticking
   * every listed row in list order selects exactly what "select all" selects.
   */
  lemma TickingEveryRowSelectsAll(listed: seq<int>)
    requires Distinct(listed)
    ensures TickEach([], listed) == SelectAllIds(false, listed)
  {
    TickEachAppends([], listed);
  }
}
