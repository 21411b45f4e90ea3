/**
 * Row-set facts shared by the in-memory SQL tables: rows carry an integer
 * id, kept in ascending order, and `DELETE ... WHERE id = $1` keeps every
 * row with another id.
 */
module Tables {

  predicate HasKey<T>(rows: seq<T>, key: T -> int, id: int) {
    exists i :: 0 <= i < |rows| && key(rows[i]) == id
  }

  predicate KeysAscending<T>(rows: seq<T>, key: T -> int) {
    forall i, j :: 0 <= i < j < |rows| ==> key(rows[i]) < key(rows[j])
  }

  /** Every id is below the next id the table will hand out. */
  predicate KeysBelow<T>(rows: seq<T>, key: T -> int, bound: int) {
    forall i :: 0 <= i < |rows| ==> key(rows[i]) < bound
  }

  function WithoutKey<T(==, !new)>(rows: seq<T>, key: T -> int, id: int): (r: seq<T>)
    ensures forall x :: x in r <==> x in rows && key(x) != id
    ensures |r| <= |rows|
  {
    if rows == [] then []
    else
      var last := rows[|rows| - 1];
      assert rows == rows[..|rows| - 1] + [last];
      WithoutKey(rows[..|rows| - 1], key, id) + (if key(last) == id then [] else [last])
  }

  /** Zero rows are affected exactly when no row has the id. */
  lemma {:induction false} WithoutKeyLength<T(!new)>(rows: seq<T>, key: T -> int, id: int)
    ensures |WithoutKey(rows, key, id)| == |rows| <==> !HasKey(rows, key, id)
  {
    if rows != [] {
      var init := rows[..|rows| - 1];
      assert rows == init + [rows[|rows| - 1]];
      WithoutKeyLength(init, key, id);
      if HasKey(init, key, id) {
        var i :| 0 <= i < |init| && key(init[i]) == id;
        assert rows[i] == init[i];
      }
    }
  }

  /** Deleting keeps the remaining rows in ascending id order. */
  lemma {:induction false} WithoutKeyAscending<T(!new)>(rows: seq<T>, key: T -> int, id: int)
    requires KeysAscending(rows, key)
    ensures KeysAscending(WithoutKey(rows, key, id), key)
    ensures forall bound :: KeysBelow(rows, key, bound) ==> KeysBelow(WithoutKey(rows, key, id), key, bound)
  {
    if rows != [] {
      var init := rows[..|rows| - 1];
      var last := rows[|rows| - 1];
      WithoutKeyAscending(init, key, id);
      var r := WithoutKey(init, key, id);
      forall x | x in r ensures key(x) < key(last) {
        var k :| 0 <= k < |init| && init[k] == x;
        assert rows[k] == x;
      }
    }
    forall bound | KeysBelow(rows, key, bound)
      ensures KeysBelow(WithoutKey(rows, key, id), key, bound)
    {
      var r := WithoutKey(rows, key, id);
      forall i | 0 <= i < |r| ensures key(r[i]) < bound {
        var k :| 0 <= k < |rows| && rows[k] == r[i];
      }
    }
  }
}
