/**
 Headline metrics: the CPO-D index as an exact ratio, the column sums of the fact
 table, and distinct counts of a label column.
 */
module Metrics {
  import opened Tables
  import opened Aggregation

  /** CPO-D as the exact pair (summed soma_cpo, summed population); the dashboard shows
      `num / den` rounded to two places, which is a float and is not modelled. */
  datatype Ratio = Ratio(num: nat, den: nat)

  /** The value the division produces, where the population is positive: the number
      that, multiplied by the population, gives the CPO sum. */
  function Value(r: Ratio): (v: real)
    requires r.den > 0
    ensures v * r.den as real == r.num as real
    ensures v >= 0.0
  {
    r.num as real / r.den as real
  }

  /** The cpo-d of a group: its summed soma_cpo over its summed population. */
  function CpoD(m: Measures): (r: Ratio)
    ensures r.num == m.somaCpo && r.den == m.quantidadePopulacao
  {
    Ratio(m.somaCpo, m.quantidadePopulacao)
  }

  /** `fato["soma_cpo"].sum()`. */
  function SumSomaCpo(fato: seq<FactRow>): nat
  {
    if |fato| == 0 then 0 else SumSomaCpo(fato[..|fato| - 1]) + fato[|fato| - 1].m.somaCpo
  }

  /** `fato["quantidade_populacao"].sum()`. */
  function SumPopulacao(fato: seq<FactRow>): nat
  {
    if |fato| == 0 then 0 else SumPopulacao(fato[..|fato| - 1]) + fato[|fato| - 1].m.quantidadePopulacao
  }

  /** The single-column sums are columns of the five-column sum of the whole table. */
  lemma {:induction false} ColumnSums(fato: seq<FactRow>)
    ensures Total(MeasuresOf(fato)).somaCpo == SumSomaCpo(fato)
    ensures Total(MeasuresOf(fato)).quantidadePopulacao == SumPopulacao(fato)
  {
    if |fato| > 0 {
      var prefix := fato[..|fato| - 1];
      ColumnSums(prefix);
      assert MeasuresOf(fato)[..|fato| - 1] == MeasuresOf(prefix);
    }
  }

  /** The overall CPO-D: total soma_cpo over total population of the fact table. */
  function OverallCpoD(fato: seq<FactRow>): (r: Ratio)
    ensures r == CpoD(Total(MeasuresOf(fato)))
  {
    ColumnSums(fato);
    Ratio(SumSomaCpo(fato), SumPopulacao(fato))
  }

  /** The overall CPO-D is a ratio of sums, not the mean of the per-row ratios: two rows
      with 4 over 10 and 2 over 8 give 6/18 = 1/3, while their ratios average 13/40. */
  lemma RatioOfSumsNotMeanOfRatios()
    ensures var fato := [FactRow(0, 0, 0, Measures(2, 1, 1, 4, 10)), FactRow(0, 1, 0, Measures(1, 1, 0, 2, 8))];
            && OverallCpoD(fato) == Ratio(6, 18)
            && Value(OverallCpoD(fato)) == 1.0 / 3.0
            && (Value(CpoD(fato[0].m)) + Value(CpoD(fato[1].m))) / 2.0 == 13.0 / 40.0
            && Value(OverallCpoD(fato)) != 13.0 / 40.0
  {
    var fato := [FactRow(0, 0, 0, Measures(2, 1, 1, 4, 10)), FactRow(0, 1, 0, Measures(1, 1, 0, 2, 8))];
    assert fato[..1] == [fato[0]];
    assert fato[..1][..0] == [];
    assert SumSomaCpo(fato[..1]) == 4 && SumPopulacao(fato[..1]) == 10;
    assert SumSomaCpo(fato) == 6 && SumPopulacao(fato) == 18;
    assert Value(CpoD(fato[0].m)) == 4.0 / 10.0;
    assert Value(CpoD(fato[1].m)) == 2.0 / 8.0;
  }

  /** The distinct values of a label column, in order of first appearance (`unique()`). */
  function Unique(labels: seq<string>): (u: seq<string>)
    ensures forall i, j :: 0 <= i < j < |u| ==> u[i] != u[j]
    ensures forall i :: 0 <= i < |u| ==> u[i] in labels
    ensures forall i :: 0 <= i < |labels| ==> labels[i] in u
  {
    if |labels| == 0 then []
    else
      var prefix := labels[..|labels| - 1];
      var u := Unique(prefix);
      var last := labels[|labels| - 1];
      assert forall i :: 0 <= i < |prefix| ==> labels[i] == prefix[i];
      if last in u then u else u + [last]
  }

  /** Number of distinct values of a label column (`nunique()`). */
  function NUnique(labels: seq<string>): (n: nat)
    ensures n <= |labels|
    ensures |labels| > 0 ==> n >= 1
  {
    ElementsBound(labels);
    |Elements(labels)|
  }

  lemma {:induction false} ElementsBound<K>(ks: seq<K>)
    ensures |Elements(ks)| <= |ks|
    ensures |ks| > 0 ==> |Elements(ks)| >= 1
  {
    if |ks| > 0 {
      ElementsBound(ks[..|ks| - 1]);
    }
  }

  /** A sequence without repetitions has as many elements as its set. */
  lemma {:induction false} DistinctElements<K>(ks: seq<K>)
    requires forall i, j :: 0 <= i < j < |ks| ==> ks[i] != ks[j]
    ensures |Elements(ks)| == |ks|
  {
    if |ks| > 0 {
      var prefix := ks[..|ks| - 1];
      DistinctElements(prefix);
      ElementsMember(prefix, ks[|ks| - 1]);
    }
  }

  /** `unique().shape[0]` and `nunique()` agree on a column without missing values. */
  lemma UniqueCount(labels: seq<string>)
    ensures |Unique(labels)| == NUnique(labels)
  {
    var u := Unique(labels);
    DistinctElements(u);
    forall x | x in Elements(u) ensures x in Elements(labels) {
      ElementsMember(u, x);
      ElementsMember(labels, x);
    }
    forall x | x in Elements(labels) ensures x in Elements(u) {
      ElementsMember(u, x);
      ElementsMember(labels, x);
    }
    assert Elements(u) == Elements(labels);
  }
}
