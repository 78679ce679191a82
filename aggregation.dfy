/**
 Column sums and the group-by-sum that every page applies to its working table
 (`groupby(keys)[measures].sum()`). A working table is given as a sequence of
 (group key, measures) rows; the grouped result is a map from each observed key
 to the column-wise sum of its rows. The row order pandas gives the grouped
 result is not part of the model: a map has none.
 */
module Aggregation {
  import opened Tables

  /** Column-wise sum of a sequence of rows (pandas `sum()` on a frame). */
  function Total(ms: seq<Measures>): Measures
  {
    if |ms| == 0 then Measures(0, 0, 0, 0, 0) else Add(Total(ms[..|ms| - 1]), ms[|ms| - 1])
  }

  /** Summing is compatible with concatenation, so row order never matters for a sum. */
  lemma {:induction false} TotalAppend(a: seq<Measures>, b: seq<Measures>)
    ensures Total(a + b) == Add(Total(a), Total(b))
  {
    if |b| == 0 {
      assert a + b == a;
    } else {
      var b', x := b[..|b| - 1], b[|b| - 1];
      assert (a + b)[..|a + b| - 1] == a + b';
      TotalAppend(a, b');
    }
  }

  /** The keys that occur in a working table. */
  function KeysOf<K>(rows: seq<(K, Measures)>): set<K>
  {
    set i | 0 <= i < |rows| :: rows[i].0
  }

  /** The measures column of a working table. */
  function Values<K>(rows: seq<(K, Measures)>): (ms: seq<Measures>)
    ensures |ms| == |rows|
    ensures forall i :: 0 <= i < |rows| ==> ms[i] == rows[i].1
  {
    seq(|rows|, i requires 0 <= i < |rows| => rows[i].1)
  }

  /** The measures of the rows whose key lies in `ks`, in row order. */
  function RowsIn<K>(rows: seq<(K, Measures)>, ks: set<K>): seq<Measures>
  {
    if |rows| == 0 then []
    else RowsIn(rows[..|rows| - 1], ks) + (if rows[|rows| - 1].0 in ks then [rows[|rows| - 1].1] else [])
  }

  lemma KeysOfSnoc<K>(rows: seq<(K, Measures)>)
    requires |rows| > 0
    ensures KeysOf(rows) == KeysOf(rows[..|rows| - 1]) + {rows[|rows| - 1].0}
  {
    var prefix := rows[..|rows| - 1];
    forall k | k in KeysOf(rows) ensures k in KeysOf(prefix) + {rows[|rows| - 1].0} {
      var i :| 0 <= i < |rows| && rows[i].0 == k;
      if i < |rows| - 1 { assert prefix[i] == rows[i]; }
    }
    forall k | k in KeysOf(prefix) ensures k in KeysOf(rows) {
      var i :| 0 <= i < |prefix| && prefix[i].0 == k;
      assert rows[i] == prefix[i];
    }
  }

  /** A set of keys that occurs nowhere in the table selects no row. */
  lemma {:induction false} RowsInAbsent<K>(rows: seq<(K, Measures)>, ks: set<K>)
    requires ks !! KeysOf(rows)
    ensures RowsIn(rows, ks) == []
  {
    if |rows| > 0 {
      KeysOfSnoc(rows);
      RowsInAbsent(rows[..|rows| - 1], ks);
    }
  }

  /** A set of keys covering every key of the table selects every row. */
  lemma {:induction false} RowsInAll<K>(rows: seq<(K, Measures)>, ks: set<K>)
    requires KeysOf(rows) <= ks
    ensures RowsIn(rows, ks) == Values(rows)
  {
    if |rows| > 0 {
      var prefix := rows[..|rows| - 1];
      KeysOfSnoc(rows);
      RowsInAll(prefix, ks);
      assert Values(rows) == Values(prefix) + [rows[|rows| - 1].1];
    }
  }

  /** `g` is a correct grouped result for `rows`. */
  ghost predicate IsGrouping<K>(rows: seq<(K, Measures)>, g: map<K, Measures>)
  {
    && g.Keys == KeysOf(rows)
    && forall k :: k in g ==> g[k] == Total(RowsIn(rows, {k}))
  }

  /** Adding one row to a correct grouped result adds its measures to the entry of its key. */
  lemma GroupingSnoc<K>(rows: seq<(K, Measures)>, g: map<K, Measures>)
    requires |rows| > 0 && IsGrouping(rows[..|rows| - 1], g)
    ensures var k, v := rows[|rows| - 1].0, rows[|rows| - 1].1;
            IsGrouping(rows, g[k := if k in g then Add(g[k], v) else v])
  {
    var prefix := rows[..|rows| - 1];
    var k, v := rows[|rows| - 1].0, rows[|rows| - 1].1;
    var g' := g[k := if k in g then Add(g[k], v) else v];
    KeysOfSnoc(rows);
    forall k' | k' in g' ensures g'[k'] == Total(RowsIn(rows, {k'})) {
      assert RowsIn(rows, {k'}) == RowsIn(prefix, {k'}) + (if k == k' then [v] else []);
      if k' == k {
        TotalAppend(RowsIn(prefix, {k}), [v]);
        assert Total([v]) == Add(Measures(0, 0, 0, 0, 0), v);
        if k !in g {
          RowsInAbsent(prefix, {k});
        }
      } else {
        assert RowsIn(prefix, {k'}) + [] == RowsIn(prefix, {k'});
      }
    }
  }

  /** Group-by-sum: one entry per distinct key present, holding the column sums of
      exactly the rows that carry that key. */
  function GroupSum<K>(rows: seq<(K, Measures)>): (g: map<K, Measures>)
    ensures g.Keys == KeysOf(rows)
    ensures forall k :: k in g ==> g[k] == Total(RowsIn(rows, {k}))
  {
    if |rows| == 0 then map[]
    else
      var k, v := rows[|rows| - 1].0, rows[|rows| - 1].1;
      var g := GroupSum(rows[..|rows| - 1]);
      GroupingSnoc(rows, g);
      g[k := if k in g then Add(g[k], v) else v]
  }

  /** Column sums of the entries of a grouped result taken in the order `ks`
      (pandas `sum()` on a grouped frame adds its rows in index order). */
  function SumOver<K>(g: map<K, Measures>, ks: seq<K>): Measures
    requires forall i :: 0 <= i < |ks| ==> ks[i] in g
  {
    if |ks| == 0 then Measures(0, 0, 0, 0, 0)
    else Add(SumOver(g, ks[..|ks| - 1]), g[ks[|ks| - 1]])
  }

  /** `ks` lists every key of `s` exactly once: a possible index order of a grouped result. */
  predicate Enumerates<K>(ks: seq<K>, s: set<K>)
  {
    && (forall i, j :: 0 <= i < j < |ks| ==> ks[i] != ks[j])
    && (forall i :: 0 <= i < |ks| ==> ks[i] in s)
    && Elements(ks) == s
  }

  lemma TotalSnoc(s: seq<Measures>, x: Measures)
    ensures Total(s + [x]) == Add(Total(s), x)
  {
    assert (s + [x])[..|s|] == s;
  }

  /** Selecting the rows of two disjoint key sets together sums to the two selections added. */
  lemma {:induction false} RowsInUnion<K>(rows: seq<(K, Measures)>, a: set<K>, b: set<K>)
    requires a !! b
    ensures Total(RowsIn(rows, a + b)) == Add(Total(RowsIn(rows, a)), Total(RowsIn(rows, b)))
  {
    if |rows| > 0 {
      var prefix := rows[..|rows| - 1];
      var k, v := rows[|rows| - 1].0, rows[|rows| - 1].1;
      RowsInUnion(prefix, a, b);
      var sa, sb, sab := RowsIn(prefix, a), RowsIn(prefix, b), RowsIn(prefix, a + b);
      if k in a {
        assert RowsIn(rows, a + b) == sab + [v];
        assert RowsIn(rows, a) == sa + [v];
        assert RowsIn(rows, b) == sb + [];
        assert sb + [] == sb;
        TotalSnoc(sab, v);
        TotalSnoc(sa, v);
        AddRotate(Total(sa), Total(sb), v);
      } else if k in b {
        assert RowsIn(rows, a + b) == sab + [v];
        assert RowsIn(rows, b) == sb + [v];
        assert RowsIn(rows, a) == sa + [];
        assert sa + [] == sa;
        TotalSnoc(sab, v);
        TotalSnoc(sb, v);
        AddAssoc(Total(sa), Total(sb), v);
      } else {
        assert RowsIn(rows, a + b) == sab + [];
        assert RowsIn(rows, a) == sa + [];
        assert RowsIn(rows, b) == sb + [];
        assert sab + [] == sab && sa + [] == sa && sb + [] == sb;
      }
    }
  }

  /** The keys listed in `ks`, as a set. */
  function Elements<K>(ks: seq<K>): set<K>
  {
    if |ks| == 0 then {} else Elements(ks[..|ks| - 1]) + {ks[|ks| - 1]}
  }

  lemma {:induction false} ElementsMember<K>(ks: seq<K>, k: K)
    ensures k in Elements(ks) <==> k in ks
  {
    if |ks| > 0 {
      ElementsMember(ks[..|ks| - 1], k);
      assert ks == ks[..|ks| - 1] + [ks[|ks| - 1]];
    }
  }

  /** Summing the entries of a grouped result listed by `ks` gives the column sums of
      the table rows whose key is listed. */
  lemma {:induction false} GroupSumOver<K>(rows: seq<(K, Measures)>, ks: seq<K>)
    requires forall i :: 0 <= i < |ks| ==> ks[i] in KeysOf(rows)
    requires forall i, j :: 0 <= i < j < |ks| ==> ks[i] != ks[j]
    ensures SumOver(GroupSum(rows), ks) == Total(RowsIn(rows, Elements(ks)))
  {
    if |ks| == 0 {
      RowsInAbsent(rows, {});
    } else {
      var ks', k := ks[..|ks| - 1], ks[|ks| - 1];
      GroupSumOver(rows, ks');
      assert k !in Elements(ks') by {
        ElementsMember(ks', k);
      }
      RowsInUnion(rows, Elements(ks'), {k});
    }
  }

  /** Group totals add up to the table total, whatever order the groups are listed in:
      grouping partitions the rows. */
  lemma GroupTotalsAddUp<K>(rows: seq<(K, Measures)>, ks: seq<K>)
    requires Enumerates(ks, GroupSum(rows).Keys)
    ensures SumOver(GroupSum(rows), ks) == Total(Values(rows))
  {
    var keys := KeysOf(rows);
    assert Elements(ks) == keys;
    assert SumOver(GroupSum(rows), ks) == Total(RowsIn(rows, keys)) by {
      GroupSumOver(rows, ks);
    }
    RowsInAll(rows, keys);
  }

  /** Reference definition of a group's column sums, independent of any grouping:
      the sum of the rows at the positions `inGroup` selects. */
  function TotalWhere(ms: seq<Measures>, inGroup: int -> bool): Measures
  {
    if |ms| == 0 then Measures(0, 0, 0, 0, 0)
    else if inGroup(|ms| - 1) then Add(TotalWhere(ms[..|ms| - 1], inGroup), ms[|ms| - 1])
    else TotalWhere(ms[..|ms| - 1], inGroup)
  }

  /** Two rows that are both selected are both added. */
  lemma TotalWhereBoth(ms: seq<Measures>, inGroup: int -> bool)
    requires |ms| == 2 && inGroup(0) && inGroup(1)
    ensures TotalWhere(ms, inGroup) == Add(ms[0], ms[1])
  {
    assert ms[..1][..0] == [];
    assert TotalWhere(ms[..1], inGroup) == Add(Measures(0, 0, 0, 0, 0), ms[0]);
  }

  /** Selecting rows by key set is selecting them by any position predicate that agrees
      with key membership on every row. */
  lemma {:induction false} RowsInTotalWhere<K>(rows: seq<(K, Measures)>, ks: set<K>, inGroup: int -> bool)
    requires forall i :: 0 <= i < |rows| ==> (inGroup(i) <==> rows[i].0 in ks)
    ensures Total(RowsIn(rows, ks)) == TotalWhere(Values(rows), inGroup)
  {
    if |rows| > 0 {
      var prefix := rows[..|rows| - 1];
      var s := RowsIn(prefix, ks);
      RowsInTotalWhere(prefix, ks, inGroup);
      assert Values(rows)[..|rows| - 1] == Values(prefix);
      if rows[|rows| - 1].0 in ks {
        TotalSnoc(s, rows[|rows| - 1].1);
      } else {
        assert RowsIn(rows, ks) == s + [];
        assert s + [] == s;
      }
    }
  }

  /** A group's entry is the reference sum over any position predicate that picks out
      exactly the rows carrying its key. */
  lemma GroupEntryWhere<K>(rows: seq<(K, Measures)>, k: K, inGroup: int -> bool)
    requires k in GroupSum(rows)
    requires forall i :: 0 <= i < |rows| ==> (inGroup(i) <==> rows[i].0 == k)
    ensures GroupSum(rows)[k] == TotalWhere(Values(rows), inGroup)
  {
    RowsInTotalWhere(rows, {k}, inGroup);
  }

  lemma AddAssoc(a: Measures, b: Measures, c: Measures)
    ensures Add(Add(a, b), c) == Add(a, Add(b, c))
  {
  }

  lemma AddRotate(a: Measures, b: Measures, c: Measures)
    ensures Add(Add(a, b), c) == Add(Add(a, c), b)
  {
  }
}
