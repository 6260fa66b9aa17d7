/**
 * `df.groupby(keyCol)[valCol].sum()`, `.mean()` and `.idxmax()`. pandas sorts the group
 * keys, so a group-by is a list of groups in strictly increasing key order, one
 * per distinct key, each holding the exact sum and row count of its group.
 */
module Groups {
  import opened Table
  import opened Frames

  datatype Group = Group(key: int, sum: int, count: nat)

  predicate StrictlySorted(gs: seq<Group>)
  {
    forall i, j :: 0 <= i < j < |gs| ==> gs[i].key < gs[j].key
  }

  /** Every group holds at least one row. */
  predicate Populated(gs: seq<Group>)
  {
    forall i :: 0 <= i < |gs| ==> gs[i].count > 0
  }

  function Keys(gs: seq<Group>): set<int>
  {
    set g | g in gs :: g.key
  }

  /** The total of the groups with key `k`. */
  function SumAt(gs: seq<Group>, k: int): int
  {
    if gs == [] then 0 else (if gs[0].key == k then gs[0].sum else 0) + SumAt(gs[1..], k)
  }

  /** The row count of the groups with key `k`. */
  function CountAt(gs: seq<Group>, k: int): int
  {
    if gs == [] then 0 else (if gs[0].key == k then gs[0].count else 0) + CountAt(gs[1..], k)
  }

  /** The sum of the `sum` column of a group table. */
  function TotalSum(gs: seq<Group>): int
  {
    if gs == [] then 0 else gs[0].sum + TotalSum(gs[1..])
  }

  /** The sum of the `count` column of a group table. */
  function TotalCount(gs: seq<Group>): int
  {
    if gs == [] then 0 else gs[0].count + TotalCount(gs[1..])
  }

  /** Adds a row with key `k` and value `v` to a group table kept in key order. */
  function Insert(gs: seq<Group>, k: int, v: int): (r: seq<Group>)
    ensures 0 < |r| <= |gs| + 1
  {
    if gs == [] then [Group(k, v, 1)]
    else if k == gs[0].key then [Group(k, gs[0].sum + v, gs[0].count + 1)] + gs[1..]
    else if k < gs[0].key then [Group(k, v, 1)] + gs
    else [gs[0]] + Insert(gs[1..], k, v)
  }

  /** `t.groupby(keyCol)[valCol]` aggregated to sums and counts. */
  function GroupBy(t: seq<Record>, keyCol: Column, valCol: Column): (gs: seq<Group>)
    ensures |gs| <= |t|
    ensures t != [] <==> gs != []
  {
    if t == [] then [] else Insert(GroupBy(t[1..], keyCol, valCol), Get(t[0], keyCol), Get(t[0], valCol))
  }

  lemma KeysCons(gs: seq<Group>)
    requires gs != []
    ensures Keys(gs) == {gs[0].key} + Keys(gs[1..])
  {
  }

  lemma {:induction false} KeysIndex(gs: seq<Group>, k: int)
    ensures k in Keys(gs) <==> exists i :: 0 <= i < |gs| && gs[i].key == k
  {
    if k in Keys(gs) {
      var g :| g in gs && g.key == k;
      var i :| 0 <= i < |gs| && gs[i] == g;
    }
  }

  /** Inserting adds `k` to the keys of the table. */
  lemma {:induction false} InsertKeys(gs: seq<Group>, k: int, v: int)
    ensures Keys(Insert(gs, k, v)) == Keys(gs) + {k}
  {
    var r := Insert(gs, k, v);
    if gs == [] {
      assert r == [Group(k, v, 1)];
      assert r[0] in r;
    } else {
      KeysCons(gs);
      KeysCons(r);
      if k == gs[0].key {
        assert r[1..] == gs[1..];
      } else if k < gs[0].key {
        assert r[1..] == gs;
      } else {
        assert r[1..] == Insert(gs[1..], k, v);
        InsertKeys(gs[1..], k, v);
      }
    }
  }

  /** Inserting keeps every group non-empty. */
  lemma {:induction false} InsertPopulated(gs: seq<Group>, k: int, v: int)
    requires Populated(gs)
    ensures Populated(Insert(gs, k, v))
  {
    var r := Insert(gs, k, v);
    if gs != [] && k > gs[0].key {
      assert Populated(gs[1..]);
      InsertPopulated(gs[1..], k, v);
      assert r == [gs[0]] + Insert(gs[1..], k, v);
    }
  }

  /** Inserting keeps the table in strictly increasing key order. */
  lemma {:induction false} InsertSorted(gs: seq<Group>, k: int, v: int)
    requires StrictlySorted(gs)
    ensures StrictlySorted(Insert(gs, k, v))
  {
    var r := Insert(gs, k, v);
    if gs != [] && k > gs[0].key {
      var rest := Insert(gs[1..], k, v);
      assert StrictlySorted(gs[1..]);
      InsertSorted(gs[1..], k, v);
      InsertKeys(gs[1..], k, v);
      assert r == [gs[0]] + rest;
      forall j | 0 <= j < |rest| ensures gs[0].key < rest[j].key {
        assert rest[j] in rest;
        assert rest[j].key in Keys(gs[1..]) + {k};
        KeysIndex(gs[1..], rest[j].key);
      }
    }
  }

  /** Inserting adds `v` to the sum and one row to the count of key `k` only. */
  lemma {:induction false} InsertTotals(gs: seq<Group>, k: int, v: int, j: int)
    ensures SumAt(Insert(gs, k, v), j) == SumAt(gs, j) + (if j == k then v else 0)
    ensures CountAt(Insert(gs, k, v), j) == CountAt(gs, j) + (if j == k then 1 else 0)
    ensures TotalSum(Insert(gs, k, v)) == TotalSum(gs) + v
    ensures TotalCount(Insert(gs, k, v)) == TotalCount(gs) + 1
  {
    var r := Insert(gs, k, v);
    if gs == [] {
    } else if k == gs[0].key {
      assert r[1..] == gs[1..];
    } else if k < gs[0].key {
      assert r[1..] == gs;
    } else {
      assert r[1..] == Insert(gs[1..], k, v);
      InsertTotals(gs[1..], k, v, j);
    }
  }

  /** A key absent from the table has no sum and no rows. */
  lemma {:induction false} AbsentKey(gs: seq<Group>, k: int)
    requires k !in Keys(gs)
    ensures SumAt(gs, k) == 0 && CountAt(gs, k) == 0
  {
    if gs != [] {
      KeysCons(gs);
      AbsentKey(gs[1..], k);
    }
  }

  /** In a sorted table the group at position `i` is the only one with its key. */
  lemma {:induction false} SortedLookup(gs: seq<Group>, i: int)
    requires StrictlySorted(gs) && 0 <= i < |gs|
    ensures SumAt(gs, gs[i].key) == gs[i].sum && CountAt(gs, gs[i].key) == gs[i].count
  {
    assert StrictlySorted(gs[1..]);
    if i == 0 {
      forall g | g in gs[1..] ensures g.key != gs[0].key {
        var j :| 0 <= j < |gs[1..]| && gs[1..][j] == g;
        assert gs[j + 1] == g;
      }
      AbsentKey(gs[1..], gs[0].key);
    } else {
      assert gs[1..][i - 1] == gs[i];
      SortedLookup(gs[1..], i - 1);
    }
  }

  /** One group per distinct value of `by`, in increasing key order, none of them empty. */
  lemma {:induction false} GroupByShape(t: seq<Record>, keyCol: Column, valCol: Column)
    ensures StrictlySorted(GroupBy(t, keyCol, valCol)) && Populated(GroupBy(t, keyCol, valCol))
    ensures Keys(GroupBy(t, keyCol, valCol)) == Values(t, keyCol)
  {
    if t != [] {
      GroupByShape(t[1..], keyCol, valCol);
      InsertSorted(GroupBy(t[1..], keyCol, valCol), Get(t[0], keyCol), Get(t[0], valCol));
      InsertPopulated(GroupBy(t[1..], keyCol, valCol), Get(t[0], keyCol), Get(t[0], valCol));
      InsertKeys(GroupBy(t[1..], keyCol, valCol), Get(t[0], keyCol), Get(t[0], valCol));
      ValuesCons(t, keyCol);
    }
  }

  /** The sum and count recorded for key `k` are those of the rows whose `by` equals `k`. */
  lemma {:induction false} GroupByAt(t: seq<Record>, keyCol: Column, valCol: Column, k: int)
    ensures SumAt(GroupBy(t, keyCol, valCol), k) == Sum(Filter(t, Equals(keyCol, k)), valCol)
    ensures CountAt(GroupBy(t, keyCol, valCol), k) == |Filter(t, Equals(keyCol, k))|
  {
    if t != [] {
      GroupByAt(t[1..], keyCol, valCol, k);
      InsertTotals(GroupBy(t[1..], keyCol, valCol), Get(t[0], keyCol), Get(t[0], valCol), k);
      FilterSizeSum(t, Equals(keyCol, k), valCol);
    }
  }

  /** The group sums add up to the column total, and the counts to the number of rows. */
  lemma {:induction false} GroupByTotals(t: seq<Record>, keyCol: Column, valCol: Column)
    ensures TotalSum(GroupBy(t, keyCol, valCol)) == Sum(t, valCol)
    ensures TotalCount(GroupBy(t, keyCol, valCol)) == |t|
  {
    if t != [] {
      GroupByTotals(t[1..], keyCol, valCol);
      InsertTotals(GroupBy(t[1..], keyCol, valCol), Get(t[0], keyCol), Get(t[0], valCol), 0);
    }
  }

  /** Row `i` of a group-by is exactly the sum and the count of its key's rows. */
  lemma GroupByRow(t: seq<Record>, keyCol: Column, valCol: Column, i: int)
    requires 0 <= i < |GroupBy(t, keyCol, valCol)|
    ensures GroupBy(t, keyCol, valCol)[i].key in Values(t, keyCol)
    ensures GroupBy(t, keyCol, valCol)[i].sum == Sum(Filter(t, Equals(keyCol, GroupBy(t, keyCol, valCol)[i].key)), valCol)
    ensures GroupBy(t, keyCol, valCol)[i].count == |Filter(t, Equals(keyCol, GroupBy(t, keyCol, valCol)[i].key))| > 0
  {
    var gs := GroupBy(t, keyCol, valCol);
    GroupByShape(t, keyCol, valCol);
    assert gs[i] in gs;
    SortedLookup(gs, i);
    GroupByAt(t, keyCol, valCol, gs[i].key);
  }

  /** `mean()` of a group, as an exact rational. */
  function Mean(g: Group): real
    requires g.count > 0
  {
    g.sum as real / g.count as real
  }

  /** The `mean()` column of a group table. */
  function Means(gs: seq<Group>): (ms: seq<real>)
    requires Populated(gs)
    ensures |ms| == |gs|
    ensures forall i :: 0 <= i < |gs| ==> ms[i] == Mean(gs[i])
  {
    seq(|gs|, i requires 0 <= i < |gs| => Mean(gs[i]))
  }

  /** The mean of `of` over the rows of `t` whose `by` column equals `k`. */
  function GroupMean(t: seq<Record>, keyCol: Column, valCol: Column, k: int): real
    requires k in Values(t, keyCol)
  {
    var r :| r in t && Get(r, keyCol) == k;
    assert r in Filter(t, Equals(keyCol, k));
    Sum(Filter(t, Equals(keyCol, k)), valCol) as real / |Filter(t, Equals(keyCol, k))| as real
  }

  /** The `mean()` column of a group-by is the mean of each key's rows. */
  lemma GroupByMeans(t: seq<Record>, keyCol: Column, valCol: Column)
    ensures Populated(GroupBy(t, keyCol, valCol))
    ensures forall i :: 0 <= i < |GroupBy(t, keyCol, valCol)| ==>
      GroupBy(t, keyCol, valCol)[i].key in Values(t, keyCol) &&
      Means(GroupBy(t, keyCol, valCol))[i] == GroupMean(t, keyCol, valCol, GroupBy(t, keyCol, valCol)[i].key)
  {
    GroupByShape(t, keyCol, valCol);
    forall i | 0 <= i < |GroupBy(t, keyCol, valCol)|
      ensures GroupBy(t, keyCol, valCol)[i].key in Values(t, keyCol)
      ensures Means(GroupBy(t, keyCol, valCol))[i] == GroupMean(t, keyCol, valCol, GroupBy(t, keyCol, valCol)[i].key)
    {
      GroupByRow(t, keyCol, valCol, i);
    }
  }

  /** `idxmax()`: the position of the first largest value. */
  function FirstArgMax(s: seq<real>): (i: nat)
    requires s != []
    ensures i < |s|
    ensures forall j :: 0 <= j < |s| ==> s[j] <= s[i]
    ensures forall j :: 0 <= j < i ==> s[j] < s[i]
  {
    if |s| == 1 then 0
    else
      var k := FirstArgMax(s[..|s| - 1]);
      if s[k] < s[|s| - 1] then |s| - 1 else k
  }

  /** `Series.max()` of the `sum` column of a non-empty group table. */
  function MaxSum(gs: seq<Group>): (m: int)
    requires gs != []
    ensures forall i :: 0 <= i < |gs| ==> gs[i].sum <= m
    ensures exists i :: 0 <= i < |gs| && gs[i].sum == m
  {
    if |gs| == 1 then gs[0].sum
    else
      var m := MaxSum(gs[1..]);
      assert forall i :: 1 <= i < |gs| ==> gs[i] == gs[1..][i - 1];
      if gs[0].sum < m then m else gs[0].sum
  }
}
