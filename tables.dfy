/** A database table whose primary key comes from an identity column, as the
    Panache repositories of the back end see it: the rows by id, the order
    `listAll` returns them in, and the id the next insert receives. Ids are
    handed out once and never reused. The listing order is modelled as
    insertion order, with an update keeping a row where it stood; the query
    behind `listAll` has no ORDER BY, so the database itself does not
    promise this order. */
module Tables {
  import opened Seqs

  datatype Table<R> = Table(rows: map<int, R>, order: seq<int>, nextId: int)

  /** Every stored id is listed exactly once, and every id was handed out
      already (the identity column starts at 1). */
  predicate Valid<R>(t: Table<R>) {
    1 <= t.nextId && Distinct(t.order) &&
    (forall id :: id in t.rows ==> id in t.order) &&
    (forall k :: 0 <= k < |t.order| ==> t.order[k] in t.rows && 1 <= t.order[k] < t.nextId)
  }

  /** A table nothing was ever inserted into. */
  function Empty<R>(): (t: Table<R>)
    ensures Valid(t) && t.rows == map[] && t.order == []
  {
    Table(map[], [], 1)
  }

  /** The rows stored under `ids`, in that order. */
  function RowsAt<R>(rows: map<int, R>, ids: seq<int>): (r: seq<R>)
    requires forall k :: 0 <= k < |ids| ==> ids[k] in rows
    ensures |r| == |ids|
    ensures forall k :: 0 <= k < |ids| ==> r[k] == rows[ids[k]]
  {
    if ids == [] then [] else [rows[ids[0]]] + RowsAt(rows, ids[1..])
  }

  /** `listAll`: every row once, in listing order. */
  function ListAll<R>(t: Table<R>): (r: seq<R>)
    requires Valid(t)
    ensures |r| == |t.order| == |t.rows|
    ensures forall k :: 0 <= k < |r| ==> r[k] == t.rows[t.order[k]]
  {
    OrderCoversRows(t);
    RowsAt(t.rows, t.order)
  }

  /** The listing order has as many entries as the table has rows. */
  lemma OrderCoversRows<R>(t: Table<R>)
    requires Valid(t)
    ensures |t.order| == |t.rows|
  {
    DistinctCard(t.order);
    var listed := set k | k in t.order;
    forall x ensures x in t.rows.Keys <==> x in listed {
      if x in t.order {
        var k :| 0 <= k < |t.order| && t.order[k] == x;
      }
    }
    assert t.rows.Keys == listed;
  }

  /** A duplicate-free sequence has as many distinct elements as entries. */
  lemma {:induction false} DistinctCard(s: seq<int>)
    requires Distinct(s)
    ensures |set k | k in s| == |s|
  {
    if s != [] {
      var tail := s[1..];
      assert Distinct(tail) by {
        forall i, j | 0 <= i < j < |tail| ensures tail[i] != tail[j] {
          assert tail[i] == s[i + 1] && tail[j] == s[j + 1];
        }
      }
      DistinctCard(tail);
      assert s[0] !in tail by {
        forall i | 0 <= i < |tail| ensures tail[i] != s[0] {
          assert tail[i] == s[i + 1];
        }
      }
      assert (set k | k in s) == (set k | k in tail) + {s[0]} by {
        HeadTail(s);
      }
    }
  }

  /** `persist` of a new row: it is stored under the next id and listed
      last; every other row stays as it was. */
  function Insert<R>(t: Table<R>, row: R): (r: Table<R>)
    requires Valid(t)
    ensures Valid(r)
    ensures t.nextId !in t.rows && r.rows.Keys == t.rows.Keys + {t.nextId}
    ensures r.rows[t.nextId] == row
    ensures forall id :: id in t.rows ==> r.rows[id] == t.rows[id]
    ensures |r.rows| == |t.rows| + 1
  {
    InsertValid(t, row);
    Table(t.rows[t.nextId := row], t.order + [t.nextId], t.nextId + 1)
  }

  lemma InsertValid<R>(t: Table<R>, row: R)
    requires Valid(t)
    ensures t.nextId !in t.rows
    ensures Valid(Table(t.rows[t.nextId := row], t.order + [t.nextId], t.nextId + 1))
  {
    var o := t.order + [t.nextId];
    forall i, j | 0 <= i < j < |o| ensures o[i] != o[j] {
      assert o[i] == t.order[i];
    }
    forall k | 0 <= k < |o| ensures o[k] in t.rows[t.nextId := row] && 1 <= o[k] < t.nextId + 1 {
      if k < |t.order| {
        assert o[k] == t.order[k];
      }
    }
  }

  /** After an insert, `listAll` gives the old listing followed by the new
      row. */
  lemma InsertListsLast<R>(t: Table<R>, row: R)
    requires Valid(t)
    ensures ListAll(Insert(t, row)) == ListAll(t) + [row]
  {
    var r := Insert(t, row);
    assert r.order == t.order + [t.nextId];
    assert |ListAll(r)| == |ListAll(t) + [row]|;
    forall k | 0 <= k < |ListAll(r)| ensures ListAll(r)[k] == (ListAll(t) + [row])[k] {
      if k < |t.order| {
        assert r.order[k] == t.order[k] && t.order[k] in t.rows;
      }
    }
  }

  /** `s` without the occurrences of `x`, in order. */
  function Without(s: seq<int>, x: int): (r: seq<int>)
    ensures |r| <= |s|
    ensures forall y :: y in r <==> y in s && y != x
  {
    if s == [] then []
    else if s[0] == x then Without(s[1..], x)
    else [s[0]] + Without(s[1..], x)
  }

  /** Dropping an element absent from `s` changes nothing. */
  lemma {:induction false} WithoutAbsent(s: seq<int>, x: int)
    requires x !in s
    ensures Without(s, x) == s
  {
    if s != [] {
      WithoutAbsent(s[1..], x);
      HeadTail(s);
    }
  }

  /** In a duplicate-free `s`, dropping the entry at `k` cuts exactly that
      entry out. */
  lemma {:induction false} WithoutAt(s: seq<int>, k: int)
    requires Distinct(s) && 0 <= k < |s|
    ensures Without(s, s[k]) == s[..k] + s[k + 1..]
  {
    var tail := s[1..];
    assert Distinct(tail) by {
      forall i, j | 0 <= i < j < |tail| ensures tail[i] != tail[j] {
        assert tail[i] == s[i + 1] && tail[j] == s[j + 1];
      }
    }
    if k == 0 {
      assert s[0] !in tail by {
        forall i | 0 <= i < |tail| ensures tail[i] != s[0] {
          assert tail[i] == s[i + 1];
        }
      }
      WithoutAbsent(tail, s[0]);
    } else {
      assert tail[k - 1] == s[k];
      WithoutAt(tail, k - 1);
      assert tail[..k - 1] + tail[k..] == s[1..k] + s[k + 1..];
      assert [s[0]] + (s[1..k] + s[k + 1..]) == s[..k] + s[k + 1..];
    }
  }

  /** Dropping an element keeps a sequence duplicate-free. */
  lemma {:induction false} WithoutDistinct(s: seq<int>, x: int)
    requires Distinct(s)
    ensures Distinct(Without(s, x))
  {
    if x in s {
      var k :| 0 <= k < |s| && s[k] == x;
      WithoutAt(s, k);
      var r := s[..k] + s[k + 1..];
      forall i, j | 0 <= i < j < |r| ensures r[i] != r[j] {
        var i' := if i < k then i else i + 1;
        var j' := if j < k then j else j + 1;
        assert r[i] == s[i'] && r[j] == s[j'];
      }
    } else {
      WithoutAbsent(s, x);
    }
  }

  lemma RemoveValid<R>(t: Table<R>, id: int)
    requires Valid(t)
    ensures Valid(Table(t.rows - {id}, Without(t.order, id), t.nextId))
  {
    var o := Without(t.order, id);
    WithoutDistinct(t.order, id);
    forall k | 0 <= k < |o| ensures o[k] in t.rows - {id} && 1 <= o[k] < t.nextId {
      assert o[k] in t.order;
      var j :| 0 <= j < |t.order| && t.order[j] == o[k];
    }
  }

  /** `deleteById`: the row is gone and every other row stays as it was; the
      id is not handed out again. An absent id deletes nothing. */
  function Remove<R>(t: Table<R>, id: int): (r: Table<R>)
    requires Valid(t)
    ensures Valid(r)
    ensures r.rows.Keys == t.rows.Keys - {id}
    ensures forall other :: other in r.rows ==> r.rows[other] == t.rows[other]
    ensures id !in t.rows ==> r == t
  {
    if id !in t.rows then WithoutAbsent(t.order, id); t
    else RemoveValid(t, id); Table(t.rows - {id}, Without(t.order, id), t.nextId)
  }

  /** After a delete, `listAll` gives the old listing with that one row cut
      out. */
  lemma RemoveListing<R>(t: Table<R>, k: int)
    requires Valid(t) && 0 <= k < |t.order|
    ensures ListAll(Remove(t, t.order[k])) == ListAll(t)[..k] + ListAll(t)[k + 1..]
  {
    var id := t.order[k];
    var r := Remove(t, id);
    WithoutAt(t.order, k);
    assert r.order == t.order[..k] + t.order[k + 1..];
    var a := ListAll(t);
    var b := ListAll(r);
    OrderCoversRows(t);
    assert |b| == |a[..k] + a[k + 1..]|;
    forall i | 0 <= i < |b| ensures b[i] == (a[..k] + a[k + 1..])[i] {
      if i < k {
        assert r.order[i] == t.order[i];
      } else {
        assert r.order[i] == t.order[i + 1];
      }
    }
  }

  /** An in-place change of a stored row: the listing order, the ids and the
      other rows are unchanged. */
  function Replace<R>(t: Table<R>, id: int, row: R): (r: Table<R>)
    requires Valid(t) && id in t.rows
    ensures Valid(r)
    ensures r.rows.Keys == t.rows.Keys && r.rows[id] == row
    ensures forall other :: other in t.rows && other != id ==> r.rows[other] == t.rows[other]
  {
    Table(t.rows[id := row], t.order, t.nextId)
  }

  /** After an in-place change, `listAll` gives the old listing with that
      one row replaced where it stood. */
  lemma ReplaceListing<R>(t: Table<R>, k: int, row: R)
    requires Valid(t) && 0 <= k < |t.order|
    ensures ListAll(Replace(t, t.order[k], row)) == ListAll(t)[k := row]
  {
    var r := Replace(t, t.order[k], row);
    var a := ListAll(t);
    var b := ListAll(r);
    OrderCoversRows(t);
    forall i | 0 <= i < |b| ensures b[i] == a[k := row][i] {
      if i != k {
        assert t.order[i] != t.order[k];
      }
    }
  }
}
