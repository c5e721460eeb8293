/** In-memory tables standing in for the ORM: rows by autoIncrement primary
    key, lookups in key order, bulk deletes and limit/offset pages. */
module Tables {
  import opened Errors

  /** One table: its rows by primary key, and the key the next insert gets. */
  datatype Table<R> = Table(rows: map<int, R>, next: int) {

    /** Every key was handed out by autoIncrement, which starts at 1. */
    ghost predicate WellKeyed()
    {
      next >= 1 && forall k :: k in rows ==> 1 <= k < next
    }

    /** `Model.create(row)`: the row gets the next key. */
    function Insert(row: R): Table<R>
    {
      Table(rows[next := row], next + 1)
    }
  }

  function Empty<R>(): (t: Table<R>)
    ensures t.WellKeyed() && t.rows == map[] && t.next == 1
  {
    Table(map[], 1)
  }

  /** An insert keeps the keys well formed and gives the row a key no other
      row has. */
  lemma InsertIsFresh<R>(t: Table<R>, row: R)
    requires t.WellKeyed()
    ensures t.Insert(row).WellKeyed()
    ensures t.next !in t.rows && t.Insert(row).rows[t.next] == row
    ensures forall k :: k in t.rows ==> k in t.Insert(row).rows && t.Insert(row).rows[k] == t.rows[k]
  {
  }

  /** The first key in [lo, hi) whose row satisfies p: the row `findOne`
      returns when keys [lo, hi) hold the whole table. */
  function FirstKey<R>(m: map<int, R>, p: R -> bool, lo: int, hi: int): (r: Option<int>)
    ensures r.Some? ==> lo <= r.value < hi && r.value in m && p(m[r.value])
    ensures r.Some? ==> forall k :: lo <= k < r.value && k in m ==> !p(m[k])
    ensures r.None? ==> forall k :: lo <= k < hi && k in m ==> !p(m[k])
    decreases hi - lo
  {
    if lo >= hi then None
    else if lo in m && p(m[lo]) then Some(lo)
    else FirstKey(m, p, lo + 1, hi)
  }

  /** The keys in [lo, hi) whose rows satisfy p, in increasing order. */
  function KeysAsc<R>(m: map<int, R>, p: R -> bool, lo: int, hi: int): (ks: seq<int>)
    ensures forall k :: k in ks <==> lo <= k < hi && k in m && p(m[k])
    ensures forall i :: 0 <= i < |ks| ==> lo <= ks[i] < hi && ks[i] in m && p(m[ks[i]])
    ensures forall i, j :: 0 <= i < j < |ks| ==> ks[i] < ks[j]
    decreases hi - lo
  {
    if lo >= hi then []
    else (if lo in m && p(m[lo]) then [lo] else []) + KeysAsc(m, p, lo + 1, hi)
  }

  /** The keys in [1, hi) whose rows satisfy p, in decreasing order: with
      autoIncrement keys, newest row first. */
  function KeysDesc<R>(m: map<int, R>, p: R -> bool, hi: int): (ks: seq<int>)
    ensures forall k :: k in ks <==> 1 <= k < hi && k in m && p(m[k])
    ensures forall i :: 0 <= i < |ks| ==> 1 <= ks[i] < hi && ks[i] in m && p(m[ks[i]])
    ensures forall i, j :: 0 <= i < j < |ks| ==> ks[i] > ks[j]
    decreases hi
  {
    if hi <= 1 then []
    else (if hi - 1 in m && p(m[hi - 1]) then [hi - 1] else []) + KeysDesc(m, p, hi - 1)
  }

  /** A table has no row satisfying p exactly when the key list for p is empty. */
  lemma NoKeysIff<R>(m: map<int, R>, p: R -> bool, lo: int, hi: int)
    requires forall k :: k in m ==> lo <= k < hi
    ensures KeysAsc(m, p, lo, hi) == [] <==> forall k :: k in m ==> !p(m[k])
  {
    var ks := KeysAsc(m, p, lo, hi);
    if ks != [] {
      assert ks[0] in ks;
    }
  }

  /** `Model.destroy({ where: p })`: every row satisfying p is gone, every
      other row is kept as it was. */
  function Without<R>(m: map<int, R>, p: R -> bool): (r: map<int, R>)
    ensures forall k :: k in r <==> k in m && !p(m[k])
    ensures forall k :: k in r ==> r[k] == m[k]
  {
    map k | k in m && !p(m[k]) :: m[k]
  }

  /** The rows `findAll({ limit, offset })` returns out of the matching rows
      `xs`: at most `limit` of them, the ones at positions offset, offset + 1, ...,
      and exactly `limit` when there are enough. */
  function Page<T>(xs: seq<T>, offset: nat, limit: nat): (r: seq<T>)
    ensures |r| <= limit
    ensures forall i :: 0 <= i < |r| ==> offset + i < |xs| && r[i] == xs[offset + i]
    ensures offset + limit <= |xs| ==> |r| == limit
    ensures offset < |xs| && limit > 0 ==> |r| > 0
    ensures offset <= |xs| ==> |r| == (if offset + limit <= |xs| then limit else |xs| - offset)
    ensures offset >= |xs| ==> r == []
  {
    if offset >= |xs| then [] else xs[offset..if offset + limit <= |xs| then offset + limit else |xs|]
  }

  /** Where page `page` of `limit` rows starts, pages counted from 1:
      `(page - 1) * limit`. */
  function PageOffset(page: nat, limit: nat): nat
    requires page >= 1
  {
    (page - 1) * limit
  }

  /** Page `page` of `limit` rows starts at (page - 1) * limit, so every row
      is on exactly the page its position says, at the place its position says. */
  lemma RowOnItsPage<T>(xs: seq<T>, i: nat, limit: nat)
    requires i < |xs| && limit > 0
    ensures var p := Page(xs, PageOffset(i / limit + 1, limit), limit);
            i % limit < |p| && p[i % limit] == xs[i]
  {
    assert PageOffset(i / limit + 1, limit) + i % limit == i;
  }

  /** Two consecutive pages of `limit` rows make one page of `2 * limit` rows. */
  lemma ConsecutivePages<T>(xs: seq<T>, offset: nat, limit: nat)
    ensures Page(xs, offset, limit) + Page(xs, offset + limit, limit) == Page(xs, offset, 2 * limit)
  {
  }
}
