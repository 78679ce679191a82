/**
 The summary of observatorio.py: the same figures as the home page, with the territory
 and region counts taken as `unique().shape[0]` instead of `nunique()`.
 */
module Observatorio {
  import opened Tables
  import opened Join
  import opened Metrics
  import opened Summary

  /** The overall CPO-D, `schools.shape[0]`, and the lengths of `unique()` of the territory
      and region columns; on columns without missing values they are the home page's
      figures. */
  function ObservatorioHeadline(fato: seq<FactRow>, schools: seq<School>): (h: Headline)
    ensures h == TelaInicialHeadline(fato, schools)
  {
    UniqueCount(Territories(schools));
    UniqueCount(Regions(schools));
    Headline(Ratio(SumSomaCpo(fato), SumPopulacao(fato)), |schools|,
             |Unique(Territories(schools))|, |Unique(Regions(schools))|)
  }
}
