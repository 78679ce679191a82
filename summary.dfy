/**
 The summary of the home page (Tela_Inicial.py): students per raw region label, the
 total shown in the middle of the pie, the overall CPO-D and the school, territory
 and region counts.
 */
module Summary {
  import opened Tables
  import opened Aggregation
  import opened Join
  import opened Metrics

  /** `fato.join(escolas["escola.região"], on="escola_id")`, keyed by the raw region label. */
  function ByRegion(fato: seq<FactRow>, escolas: seq<School>): (t: seq<(string, Measures)>)
    requires ValidSchoolKeys(fato, escolas)
    ensures |t| == |fato|
    ensures forall i :: 0 <= i < |fato| ==> t[i] == (escolas[fato[i].escolaId].regiao, fato[i].m)
  {
    var regioes := RegionOfRows(fato, escolas);
    seq(|fato|, i requires 0 <= i < |fato| => (regioes[i], fato[i].m))
  }

  /** `....groupby("escola.região")["quantidade_populacao"].sum()`: students per region. */
  function RegionPopulation(fato: seq<FactRow>, escolas: seq<School>): map<string, nat>
    requires ValidSchoolKeys(fato, escolas)
  {
    var g := GroupSum(ByRegion(fato, escolas));
    map r | r in g :: g[r].quantidadePopulacao
  }

  /** The raw region labels of the schools the fact rows reference. */
  function ObservedRegions(fato: seq<FactRow>, escolas: seq<School>): set<string>
    requires ValidSchoolKeys(fato, escolas)
  {
    set i | 0 <= i < |fato| :: escolas[fato[i].escolaId].regiao
  }

  /** Selects the positions of the fact rows whose school carries region label `r`. */
  function InRegion(fato: seq<FactRow>, escolas: seq<School>, r: string): int -> bool
  {
    i => 0 <= i < |fato| && fato[i].escolaId < |escolas| && escolas[fato[i].escolaId].regiao == r
  }

  /** Reference: the population summed over the fact rows whose school carries region `r`. */
  function PopulationOfRegion(fato: seq<FactRow>, escolas: seq<School>, r: string): nat
  {
    TotalWhere(MeasuresOf(fato), InRegion(fato, escolas, r)).quantidadePopulacao
  }

  /** One entry per distinct raw region label among the joined rows (labels are not
      collapsed into zones here), each the population of exactly that region's rows. */
  lemma RegionPopulationEntries(fato: seq<FactRow>, escolas: seq<School>)
    requires ValidSchoolKeys(fato, escolas)
    ensures RegionPopulation(fato, escolas).Keys == ObservedRegions(fato, escolas)
    ensures forall r :: r in RegionPopulation(fato, escolas) ==>
              RegionPopulation(fato, escolas)[r] == PopulationOfRegion(fato, escolas, r)
  {
    RegionKeys(fato, escolas);
    var t := ByRegion(fato, escolas);
    assert Values(t) == MeasuresOf(fato);
    forall r | r in GroupSum(t) ensures GroupSum(t)[r] == TotalWhere(MeasuresOf(fato), InRegion(fato, escolas, r)) {
      GroupEntryWhere(t, r, InRegion(fato, escolas, r));
    }
  }

  /** The region-keyed join carries exactly the region labels of the referenced schools. */
  lemma RegionKeys(fato: seq<FactRow>, escolas: seq<School>)
    requires ValidSchoolKeys(fato, escolas)
    ensures KeysOf(ByRegion(fato, escolas)) == ObservedRegions(fato, escolas)
  {
    var t := ByRegion(fato, escolas);
    forall r | r in KeysOf(t) ensures r in ObservedRegions(fato, escolas) {
      var i :| 0 <= i < |t| && t[i].0 == r;
    }
    forall r | r in ObservedRegions(fato, escolas) ensures r in KeysOf(t) {
      var i :| 0 <= i < |fato| && escolas[fato[i].escolaId].regiao == r;
      assert t[i].0 == r;
    }
  }

  /** `fato_regiao.sum()`: the population entries added in the Series' index order `order`. */
  function SumCounts(counts: map<string, nat>, order: seq<string>): nat
    requires forall i :: 0 <= i < |order| ==> order[i] in counts
  {
    if |order| == 0 then 0 else SumCounts(counts, order[..|order| - 1]) + counts[order[|order| - 1]]
  }

  /** Adding the selected population column is taking the population of the added rows. */
  lemma {:induction false} SumCountsColumn(g: map<string, Measures>, order: seq<string>)
    requires forall i :: 0 <= i < |order| ==> order[i] in g
    ensures var counts := map r | r in g :: g[r].quantidadePopulacao;
            SumCounts(counts, order) == SumOver(g, order).quantidadePopulacao
  {
    if |order| > 0 {
      SumCountsColumn(g, order[..|order| - 1]);
    }
  }

  /** The pie-centre figure equals the total population of the fact table, whichever
      order the regions are listed in. */
  lemma PieTotal(fato: seq<FactRow>, escolas: seq<School>, order: seq<string>)
    requires ValidSchoolKeys(fato, escolas)
    requires Enumerates(order, RegionPopulation(fato, escolas).Keys)
    ensures SumCounts(RegionPopulation(fato, escolas), order) == SumPopulacao(fato)
  {
    var t := ByRegion(fato, escolas);
    var g := GroupSum(t);
    assert Enumerates(order, g.Keys);
    SumCountsColumn(g, order);
    GroupTotalsAddUp(t, order);
    assert Values(t) == MeasuresOf(fato);
    ColumnSums(fato);
  }

  /** Every region entry is a region of the school table, so there are at most as many
      entries as there are distinct regions among the schools. */
  lemma RegionEntriesBounded(fato: seq<FactRow>, escolas: seq<School>)
    requires ValidSchoolKeys(fato, escolas)
    ensures |RegionPopulation(fato, escolas)| <= NUnique(Regions(escolas))
  {
    var keys := RegionPopulation(fato, escolas).Keys;
    var all := Elements(Regions(escolas));
    RegionPopulationEntries(fato, escolas);
    forall r | r in keys ensures r in all {
      var i :| 0 <= i < |fato| && escolas[fato[i].escolaId].regiao == r;
      ElementsMember(Regions(escolas), r);
      assert Regions(escolas)[fato[i].escolaId] == r;
    }
    SubsetCard(keys, all);
  }

  lemma {:induction false} SubsetCard<K>(a: set<K>, b: set<K>)
    requires a <= b
    ensures |a| <= |b|
    decreases |b|
  {
    if a != {} {
      var x :| x in a;
      SubsetCard(a - {x}, b - {x});
    }
  }

  /** The figures beside the pie. */
  datatype Headline = Headline(cpoD: Ratio, escolas: nat, territorios: nat, regioes: nat)

  /** The overall CPO-D, `escolas.shape[0]`, and `nunique()` of the territory and region
      columns. */
  function TelaInicialHeadline(fato: seq<FactRow>, escolas: seq<School>): (h: Headline)
    ensures h.cpoD == CpoD(Total(MeasuresOf(fato)))
    ensures h.escolas == |escolas|
    ensures h.territorios <= h.escolas && h.regioes <= h.escolas
    ensures |escolas| > 0 ==> h.territorios >= 1 && h.regioes >= 1
    ensures h.territorios == |Elements(Territories(escolas))| && h.regioes == |Elements(Regions(escolas))|
  {
    Headline(OverallCpoD(fato), |escolas|, NUnique(Territories(escolas)), NUnique(Regions(escolas)))
  }
}
