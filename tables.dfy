/**
 * Database tables as the ORM presents them: rows keyed by an auto-increment
 * primary key, the key the next created row receives, and the operations the
 * views use (`get`, `create`, `save`, `delete`, `filter`).  A query without
 * `order_by` is taken to list its rows in primary-key order.
 */
module Tables {
  datatype Option<T> = None | Some(value: T)

  /** One row: its primary key and its fields. */
  datatype Row<T> = Row(id: nat, val: T)

  /** The rows by primary key, and the key the next created row receives. */
  datatype Table<T> = Table(rows: map<nat, T>, next: nat)

  /** Keys start at 1 and every key in use was handed out before `next`. */
  ghost predicate Valid<T>(t: Table<T>)
  {
    1 <= t.next && forall k | k in t.rows :: 1 <= k < t.next
  }

  /** A table with no rows; key sequences start at 1. */
  function Empty<T>(): (t: Table<T>)
    ensures Valid(t) && Keys(t) == {} && t.next == 1
  {
    Table(map[], 1)
  }

  /** A table whose rows are the given values under keys 1, 2, ... in order. */
  function FromSeq<T>(vs: seq<T>): (t: Table<T>)
    ensures Valid(t) && t.next == |vs| + 1
    ensures forall k :: k in t.rows <==> 1 <= k <= |vs|
    ensures forall k | k in t.rows :: t.rows[k] == vs[k - 1]
  {
    if vs == [] then Empty()
    else
      var front := FromSeq(vs[..|vs| - 1]);
      assert forall k | k in front.rows :: vs[..|vs| - 1][k - 1] == vs[k - 1];
      Table(front.rows[|vs| := vs[|vs| - 1]], |vs| + 1)
  }

  function Keys<T>(t: Table<T>): set<nat>
  {
    t.rows.Keys
  }

  /** The ORM's `get(pk=id)`: the row's fields, or nothing when no row has that key. */
  function Get<T>(t: Table<T>, id: nat): (r: Option<T>)
    ensures r.Some? <==> id in Keys(t)
  {
    if id in t.rows then Some(t.rows[id]) else None
  }

  /** The ORM's `objects.create(...)`: a new row under the next key. */
  function Insert<T>(t: Table<T>, v: T): (t': Table<T>)
    requires Valid(t)
    ensures Valid(t') && t'.next == t.next + 1
    ensures t.next !in Keys(t) && Keys(t') == Keys(t) + {t.next}
    ensures Get(t', t.next) == Some(v)
    ensures forall k | k != t.next :: Get(t', k) == Get(t, k)
  {
    Table(t.rows[t.next := v], t.next + 1)
  }

  /** One `create` per value, in order: the values take consecutive keys from `next` on. */
  function InsertAll<T>(t: Table<T>, vs: seq<T>): (t': Table<T>)
    requires Valid(t)
    ensures Valid(t') && t'.next == t.next + |vs|
    ensures forall k :: k in Keys(t') <==> k in Keys(t) || t.next <= k < t.next + |vs|
    ensures forall j | 0 <= j < |vs| :: Get(t', t.next + j) == Some(vs[j])
    ensures forall k: nat | k < t.next :: Get(t', k) == Get(t, k)
  {
    if vs == [] then t
    else
      var t0 := InsertAll(t, vs[..|vs| - 1]);
      var t' := Insert(t0, vs[|vs| - 1]);
      assert forall j | 0 <= j < |vs| - 1 :: vs[..|vs| - 1][j] == vs[j];
      t'
  }

  /** The ORM's `obj.field = ...; obj.save()` on the existing row with key `id`. */
  function Put<T>(t: Table<T>, id: nat, v: T): (t': Table<T>)
    requires Valid(t) && id in Keys(t)
    ensures Valid(t') && t'.next == t.next && Keys(t') == Keys(t)
    ensures Get(t', id) == Some(v)
    ensures forall k | k != id :: Get(t', k) == Get(t, k)
  {
    Table(t.rows[id := v], t.next)
  }

  /** The ORM's `obj.delete()` for the row with key `id`. */
  function Delete<T>(t: Table<T>, id: nat): (t': Table<T>)
    requires Valid(t)
    ensures Valid(t') && t'.next == t.next
    ensures Keys(t') == Keys(t) - {id}
    ensures forall k | k != id :: Get(t', k) == Get(t, k)
  {
    Table(t.rows - {id}, t.next)
  }

  /** The ORM's `filter(...).delete()`: every row satisfying `drop` goes, the others stay. */
  function DeleteWhere<T>(t: Table<T>, drop: Row<T> -> bool): (t': Table<T>)
    requires Valid(t)
    ensures Valid(t') && t'.next == t.next
    ensures forall k :: k in Keys(t') <==> k in Keys(t) && !drop(Row(k, t.rows[k]))
    ensures forall k | k in Keys(t') :: t'.rows[k] == t.rows[k]
  {
    Table(map k | k in t.rows && !drop(Row(k, t.rows[k])) :: t.rows[k], t.next)
  }

  // ---------------------------------------------------------------------------
  // Queries: rows in key order

  /** Whether the table holds `row` (its key, with exactly those fields). */
  predicate Holds<T(==)>(t: Table<T>, row: Row<T>)
  {
    row.id in t.rows && t.rows[row.id] == row.val
  }

  ghost predicate Ascending<T>(rows: seq<Row<T>>)
  {
    forall i, j | 0 <= i < j < |rows| :: rows[i].id < rows[j].id
  }

  /** The keys of `m` below `n`, smallest first. */
  function KeysBelow<T>(m: map<nat, T>, n: nat): (ks: seq<nat>)
    ensures forall k :: k in ks <==> k in m && k < n
    ensures forall i, j | 0 <= i < j < |ks| :: ks[i] < ks[j]
    ensures forall i | 0 <= i < |ks| :: ks[i] < n
  {
    if n == 0 then []
    else KeysBelow(m, n - 1) + (if n - 1 in m then [n - 1] else [])
  }

  function IndexOf(ks: seq<nat>, k: nat): (i: nat)
    requires k in ks
    ensures i < |ks| && ks[i] == k
  {
    if ks[0] == k then 0 else 1 + IndexOf(ks[1..], k)
  }

  /** Every row of the table, in key order: what an unordered query lists. */
  function Rows<T(==,!new)>(t: Table<T>): (rs: seq<Row<T>>)
    requires Valid(t)
    ensures Ascending(rs)
    ensures forall row :: row in rs <==> Holds(t, row)
  {
    var ks := KeysBelow(t.rows, t.next);
    var rs := seq(|ks|, i requires 0 <= i < |ks| => Row(ks[i], t.rows[ks[i]]));
    assert forall row | Holds(t, row) :: rs[IndexOf(ks, row.id)] == row;
    rs
  }

  /** The rows satisfying `keep`, in their original order. */
  function Filter<T(!new)>(rows: seq<Row<T>>, keep: Row<T> -> bool): (r: seq<Row<T>>)
    ensures forall row :: row in r <==> row in rows && keep(row)
    ensures |r| <= |rows|
    ensures Ascending(rows) ==> Ascending(r)
  {
    if rows == [] then []
    else
      var rest := Filter(rows[1..], keep);
      assert Ascending(rows) ==> Ascending(rows[1..]) by {
        if Ascending(rows) {
          forall i, j | 0 <= i < j < |rows| - 1 ensures rows[1..][i].id < rows[1..][j].id {
            assert rows[1..][i] == rows[i + 1] && rows[1..][j] == rows[j + 1];
          }
        }
      }
      if keep(rows[0]) then
        assert Ascending(rows) ==> forall row | row in rest :: rows[0].id < row.id by {
          if Ascending(rows) {
            forall row | row in rest ensures rows[0].id < row.id {
              var k :| 0 <= k < |rows| - 1 && rows[1..][k] == row;
              assert rows[k + 1] == row;
            }
          }
        }
        [rows[0]] + rest
      else rest
  }

  /** The ORM's `filter(...)`: the rows satisfying `keep`, in key order. */
  function Query<T(==,!new)>(t: Table<T>, keep: Row<T> -> bool): (r: seq<Row<T>>)
    requires Valid(t)
    ensures Ascending(r)
    ensures forall row :: row in r <==> Holds(t, row) && keep(row)
  {
    Filter(Rows(t), keep)
  }

  /** A query is empty exactly when no row of the table passes it. */
  lemma QueryNone<T(!new)>(t: Table<T>, keep: Row<T> -> bool)
    requires Valid(t)
    ensures Query(t, keep) == [] <==> forall k | k in t.rows :: !keep(Row(k, t.rows[k]))
  {
    var q := Query(t, keep);
    if q != [] {
      assert q[0] in q;
    }
    forall k | k in t.rows && keep(Row(k, t.rows[k])) ensures q != [] {
      assert Row(k, t.rows[k]) in q;
    }
  }

  /** In key order, a list whose only member is `row` is `[row]`. */
  lemma {:induction false} OnlyMember<T>(rows: seq<Row<T>>, row: Row<T>)
    requires Ascending(rows)
    requires forall r :: r in rows <==> r == row
    ensures rows == [row]
  {
    assert row in rows;
    var last := |rows| - 1;
    assert rows[0] in rows && rows[last] in rows;
    assert rows[0].id == rows[last].id;
  }

  /** The rest of a list in key order is in key order and holds every member but the first. */
  lemma AscendingTail<T>(a: seq<Row<T>>)
    requires Ascending(a) && a != []
    ensures Ascending(a[1..])
    ensures forall r :: r in a[1..] <==> r in a && r != a[0]
  {
    forall x, y | 0 <= x < y < |a| - 1 ensures a[1..][x].id < a[1..][y].id {
      assert a[1..][x] == a[x + 1] && a[1..][y] == a[y + 1];
    }
    forall r | r in a && r != a[0] ensures r in a[1..] {
      var m :| 0 <= m < |a| && a[m] == r;
      assert m != 0 && a[1..][m - 1] == r;
    }
    forall r | r in a[1..] ensures r != a[0] {
      var k :| 0 <= k < |a| - 1 && a[1..][k] == r;
      assert a[k + 1] == r;
    }
  }

  /** Two lists in key order with the same members are the same list. */
  lemma {:induction false} SameRows<T>(a: seq<Row<T>>, b: seq<Row<T>>)
    requires Ascending(a) && Ascending(b)
    requires forall r :: r in a <==> r in b
    ensures a == b
    decreases |a|
  {
    if a != [] {
      assert a[0] in b;
    }
    if b != [] {
      assert b[0] in a;
    }
    if a != [] && b != [] {
      var i :| 0 <= i < |a| && a[i] == b[0];
      var j :| 0 <= j < |b| && b[j] == a[0];
      assert a[0].id <= a[i].id && b[0].id <= b[j].id;
      assert j == 0;
      AscendingTail(a);
      AscendingTail(b);
      SameRows(a[1..], b[1..]);
      assert a == [a[0]] + a[1..] && b == [b[0]] + b[1..];
    }
  }

  /** A query exactly one row passes lists just that row. */
  lemma QuerySingleton<T(!new)>(t: Table<T>, keep: Row<T> -> bool, id: nat)
    requires Valid(t) && id in t.rows && keep(Row(id, t.rows[id]))
    requires forall k | k in t.rows && keep(Row(k, t.rows[k])) :: k == id
    ensures Query(t, keep) == [Row(id, t.rows[id])]
  {
    OnlyMember(Query(t, keep), Row(id, t.rows[id]));
  }
}
