/** The relational store as the routes see it: one table per record kind,
    rows addressed by an autoincrement primary key. A query that filters a
    table yields the matching row ids in primary-key order; `.count()` is
    the length of that list. */
module Tables {
  import opened Common
  import opened Seqs

  /** Strictly ascending ids (so also free of duplicates). */
  predicate Increasing(s: seq<Id>) {
    forall i, j :: 0 <= i < j < |s| ==> s[i] < s[j]
  }

  /** A stable sort of ascending ids keeps ascending order among the ids
      of equal key. */
  lemma SortByTiesIncreasing(xs: seq<Id>, key: Id -> int, k: int)
    requires Increasing(xs)
    ensures Increasing(Filter(SortBy(xs, key), KeyIs(key, k)))
  {
    SortByStable<Id>(xs, key, k);
    FilterIncreasing(xs, KeyIs<Id>(key, k));
  }

  /** The ids below `n` that have a row, ascending. */
  function IdsBelow<T>(rows: map<Id, T>, n: nat): (r: seq<Id>)
    ensures forall i :: 0 <= i < |r| ==> r[i] in rows && r[i] < n
    ensures forall k :: k in rows && k < n ==> k in r
    ensures Increasing(r)
  {
    if n == 0 then []
    else IdsBelow(rows, n - 1) + (if n - 1 in rows then [n - 1] else [])
  }

  /** Which ids are listed depends only on which keys are present. */
  lemma IdsBelowKeys<T>(rows: map<Id, T>, rows': map<Id, T>, n: nat)
    requires rows.Keys == rows'.Keys
    ensures IdsBelow(rows, n) == IdsBelow(rows', n)
  {
    var a, b := IdsBelow(rows, n), IdsBelow(rows', n);
    forall k ensures k in a <==> k in b {
      assert k in rows <==> k in rows.Keys;
      assert k in rows' <==> k in rows'.Keys;
    }
    IncreasingUnique(a, b);
  }

  /** A row condition turned into a condition on ids of `rows`. */
  function RowIs<T>(rows: map<Id, T>, p: T -> bool): Id -> bool {
    k => k in rows && p(rows[k])
  }

  /** A table: its rows by primary key, and the key its autoincrement will
      hand out next. */
  datatype Table<T> = Table(rows: map<Id, T>, nextId: Id) {

    /** Every key was handed out by the autoincrement. */
    predicate Valid() {
      forall k :: k in rows ==> k < nextId
    }

    /** `query.all()`: every row id, in primary-key order. */
    function Ids(): (r: seq<Id>)
      requires Valid()
      ensures forall k :: k in r <==> k in rows
      ensures Increasing(r)
    {
      IdsBelow(rows, nextId)
    }

    /** `session.add` of a new row, which takes the next key. */
    function Insert(v: T): (t: Table<T>)
      requires Valid()
      ensures t.Valid() && nextId !in rows
      ensures t.rows == rows[nextId := v] && t.nextId == nextId + 1
    {
      Table(rows[nextId := v], nextId + 1)
    }

    /** Assignment to the fields of an existing row. */
    function Put(k: Id, v: T): (t: Table<T>)
      requires Valid() && k in rows
      ensures t.Valid() && t.rows.Keys == rows.Keys && t.nextId == nextId
      ensures t.rows == rows[k := v]
    {
      Table(rows[k := v], nextId)
    }

    /** `session.delete` of one row; its key is not handed out again. */
    function Delete(k: Id): (t: Table<T>)
      requires Valid()
      ensures t.Valid() && t.rows.Keys == rows.Keys - {k} && t.nextId == nextId
      ensures forall j :: j in t.rows ==> t.rows[j] == rows[j]
    {
      Table(rows - {k}, nextId)
    }
  }

  /** An empty table whose autoincrement starts at 1, as a fresh database. */
  function EmptyTable<T>(): (t: Table<T>)
    ensures t.Valid() && t.rows == map[]
  {
    Table(map[], 1)
  }

  lemma {:induction false} FilterIncreasing(xs: seq<Id>, p: Id -> bool)
    requires Increasing(xs)
    ensures Increasing(Filter(xs, p))
  {
    if xs != [] {
      FilterIncreasing(xs[1..], p);
      var rest := Filter(xs[1..], p);
      forall i | 0 <= i < |rest| ensures xs[0] < rest[i] {
        assert rest[i] in xs[1..];
      }
    }
  }

  /** `query.filter(p).all()`: the ids of exactly the rows satisfying `p`,
      in primary-key order. */
  function Where<T>(t: Table<T>, p: T -> bool): (r: seq<Id>)
    requires t.Valid()
    ensures forall k :: k in r <==> k in t.rows && p(t.rows[k])
    ensures Increasing(r)
  {
    FilterIncreasing(t.Ids(), RowIs(t.rows, p));
    Filter(t.Ids(), RowIs(t.rows, p))
  }

  /** `query.filter(p).count()`. */
  function CountWhere<T>(t: Table<T>, p: T -> bool): nat
    requires t.Valid()
  {
    |Where(t, p)|
  }

  /** `query.count()`: the number of rows. */
  function Size<T>(t: Table<T>): nat
    requires t.Valid()
  {
    |t.Ids()|
  }

  /** The count of a table is the number of its rows. */
  lemma SizeIsRowCount<T>(t: Table<T>)
    requires t.Valid()
    ensures Size(t) == |t.rows|
  {
    var ids := t.Ids();
    IncreasingCount(ids);
    assert Elems(ids) == t.rows.Keys;
  }

  /** The ids a list names. */
  function Elems(s: seq<Id>): (r: set<Id>)
    ensures forall k :: k in r <==> k in s
  {
    if s == [] then {} else Elems(s[..|s| - 1]) + {s[|s| - 1]}
  }

  /** An ascending list names as many ids as it has entries. */
  lemma {:induction false} IncreasingCount(s: seq<Id>)
    requires Increasing(s)
    ensures |s| == |Elems(s)|
  {
    if s != [] {
      var init, last := s[..|s| - 1], s[|s| - 1];
      IncreasingCount(init);
      assert last !in Elems(init) by {
        forall i | 0 <= i < |init| ensures init[i] != last {
          assert s[i] < s[|s| - 1];
        }
      }
    }
  }

  /** A count never exceeds the number of rows, and a weaker condition
      counts at least as many rows. */
  lemma CountWhereMonotone<T>(t: Table<T>, p: T -> bool, q: T -> bool)
    requires t.Valid()
    requires forall k :: k in t.rows && p(t.rows[k]) ==> q(t.rows[k])
    ensures CountWhere(t, p) <= CountWhere(t, q) <= Size(t)
  {
    FilterCountMonotone(t.Ids(), RowIs(t.rows, p), RowIs(t.rows, q));
  }

  /** Counting over a table whose rows changed but whose keys did not:
      the rows satisfying `p'` afterwards are those that satisfied one of
      two exclusive conditions `p`, `q` before. */
  lemma CountWhereSplit<T>(t: Table<T>, t': Table<T>, p': T -> bool, p: T -> bool, q: T -> bool)
    requires t.Valid() && t'.rows.Keys == t.rows.Keys && t'.nextId == t.nextId
    requires forall k :: k in t.rows ==> (p'(t'.rows[k]) <==> p(t.rows[k]) || q(t.rows[k]))
    requires forall k :: k in t.rows ==> !(p(t.rows[k]) && q(t.rows[k]))
    ensures t'.Valid()
    ensures CountWhere(t', p') == CountWhere(t, p) + CountWhere(t, q)
  {
    IdsBelowKeys(t.rows, t'.rows, t.nextId);
    FilterCountSplit(t.Ids(), RowIs(t.rows, p), RowIs(t.rows, q), RowIs(t'.rows, p'));
  }

  /** A non-empty list holds its first element. */
  lemma FirstIn(s: seq<Id>)
    ensures |s| == 0 || s[0] in s
  {
  }

  /** An ascending list is determined by its elements. */
  lemma {:induction false} IncreasingUnique(a: seq<Id>, b: seq<Id>)
    requires Increasing(a) && Increasing(b)
    requires forall k :: k in a <==> k in b
    ensures a == b
  {
    if a == [] {
      FirstIn(b);
    } else {
      assert a[0] == b[0] by {
        assert a[0] in b;
        assert b[0] in a;
      }
      forall k
        ensures k in a[1..] <==> k in b[1..]
      {
        if k in a[1..] {
          var i :| 1 <= i < |a| && a[i] == k;
          assert k != a[0];
        }
        if k in b[1..] {
          var i :| 1 <= i < |b| && b[i] == k;
          assert k != b[0];
        }
        assert k in a <==> k in b;
        assert a == [a[0]] + a[1..];
        assert b == [b[0]] + b[1..];
      }
      IncreasingUnique(a[1..], b[1..]);
      assert a == [a[0]] + a[1..];
      assert b == [b[0]] + b[1..];
    }
  }

  /** Conditions that agree on every row select the same rows. */
  lemma WhereCongruent<T>(t: Table<T>, p: T -> bool, q: T -> bool)
    requires t.Valid()
    requires forall k :: k in t.rows ==> (p(t.rows[k]) <==> q(t.rows[k]))
    ensures Where(t, p) == Where(t, q)
  {
    IncreasingUnique(Where(t, p), Where(t, q));
  }

  /** A condition every row meets counts every row. */
  lemma CountWhereAll<T>(t: Table<T>, p: T -> bool)
    requires t.Valid()
    requires forall k :: k in t.rows ==> p(t.rows[k])
    ensures CountWhere(t, p) == Size(t)
  {
    IncreasingUnique(Where(t, p), t.Ids());
  }

  /** The condition no row meets. */
  function Nenhuma<T>(): T -> bool {
    (x: T) => false
  }

  /** No row meets the condition no row meets. */
  lemma CountNenhuma<T>(t: Table<T>)
    requires t.Valid()
    ensures CountWhere(t, Nenhuma()) == 0
  {
    FilterNone(t.Ids(), RowIs(t.rows, Nenhuma()));
  }
}
