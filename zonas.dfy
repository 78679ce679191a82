/**
 The zone page (pages/1_Zonas.py): the fact table joined to the school region and the
 age of each row, regions collapsed into the two zones, and the measures summed per
 zone and per (zone, age), each group with its cpo-d ratio.
 */
module Zonas {
  import opened Tables
  import opened Aggregation
  import opened Join
  import opened Zones
  import opened Metrics

  /** A row of `dados` after the two joins: the fact row with its school's region and its age. */
  datatype Joined = Joined(fact: FactRow, regiao: string, idade: nat)

  /** A row of `dados` after the rename and the drop: zone, age and the five measures. */
  datatype ZoneRow = ZoneRow(zona: string, idade: nat, m: Measures)

  /** A row of `alunos_zona`: the renamed sums and the cpo-d column. */
  datatype ZoneSummary = ZoneSummary(cariados: nat, perdidos: nat, obturados: nat,
                                     somaCpo: nat, quantidadePopulacao: nat, cpoD: Ratio)

  /** A row of `alunos_zona_idade`: the two sums it keeps and the cpo-d column. */
  datatype AgeSummary = AgeSummary(somaCpo: nat, quantidadePopulacao: nat, cpoD: Ratio)

  /** `fato.join(escolas["escola.região"], on="escola_id").join(fe, on="faixa_etaria_id")`:
      one row per fact row, in fact order, carrying the region of the school at position
      `escola_id` and the age at position `faixa_etaria_id`. */
  function JoinDados(fato: seq<FactRow>, escolas: seq<School>, fe: seq<AgeBracket>): (dados: seq<Joined>)
    requires ValidSchoolKeys(fato, escolas) && ValidAgeKeys(fato, fe)
    ensures |dados| == |fato|
    ensures forall i :: 0 <= i < |fato| ==>
              dados[i] == Joined(fato[i], escolas[fato[i].escolaId].regiao, fe[fato[i].faixaEtariaId].idade)
  {
    var regioes := RegionOfRows(fato, escolas);
    var idades := AgeOfRows(fato, fe);
    seq(|fato|, i requires 0 <= i < |fato| => Joined(fato[i], regioes[i], idades[i]))
  }

  /** `dados["escola.região"] = dados["escola.região"].map({...})`: every region replaced
      by its zone, every other column untouched. */
  function ClassifyRegions(dados: seq<Joined>): (r: seq<Joined>)
    ensures |r| == |dados|
    ensures forall i :: 0 <= i < |dados| ==>
              r[i].fact == dados[i].fact && r[i].idade == dados[i].idade && r[i].regiao == Zone(dados[i].regiao)
  {
    var zonas := ZoneOfLabels(seq(|dados|, i requires 0 <= i < |dados| => dados[i].regiao));
    seq(|dados|, i requires 0 <= i < |dados| => dados[i].(regiao := zonas[i]))
  }

  /** `rename(columns={"escola.região": "escola.zona"})` and
      `drop(["escola_id", "faixa_etaria_id", "exame_id"])`: the keys go, the measures stay. */
  function RenameAndDrop(dados: seq<Joined>): (rows: seq<ZoneRow>)
    ensures |rows| == |dados|
    ensures forall i :: 0 <= i < |dados| ==>
              rows[i].zona == dados[i].regiao && rows[i].idade == dados[i].idade && rows[i].m == dados[i].fact.m
  {
    seq(|dados|, i requires 0 <= i < |dados| => ZoneRow(dados[i].regiao, dados[i].idade, dados[i].fact.m))
  }

  /** The zone of the school of fact row `f`. */
  function ZoneOfRow(f: FactRow, escolas: seq<School>): string
    requires f.escolaId < |escolas|
  {
    Zone(escolas[f.escolaId].regiao)
  }

  /** `rows` is `dados` as the page prepares it from these tables: one row per fact row,
      in fact order, with the zone of its school, its age and its measures. */
  predicate Prepared(rows: seq<ZoneRow>, fato: seq<FactRow>, escolas: seq<School>, fe: seq<AgeBracket>)
  {
    && ValidSchoolKeys(fato, escolas) && ValidAgeKeys(fato, fe)
    && |rows| == |fato|
    && forall i :: 0 <= i < |fato| ==>
         rows[i] == ZoneRow(ZoneOfRow(fato[i], escolas), fe[fato[i].faixaEtariaId].idade, fato[i].m)
  }

  /** `dados` as the page has it before grouping. */
  function Dados(fato: seq<FactRow>, escolas: seq<School>, fe: seq<AgeBracket>): (rows: seq<ZoneRow>)
    requires ValidSchoolKeys(fato, escolas) && ValidAgeKeys(fato, fe)
    ensures Prepared(rows, fato, escolas, fe)
  {
    RenameAndDrop(ClassifyRegions(JoinDados(fato, escolas, fe)))
  }

  /** The working table keyed by `escola.zona`. */
  function ByZone(rows: seq<ZoneRow>): (t: seq<(string, Measures)>)
    ensures |t| == |rows| && forall i :: 0 <= i < |rows| ==> t[i] == (rows[i].zona, rows[i].m)
  {
    seq(|rows|, i requires 0 <= i < |rows| => (rows[i].zona, rows[i].m))
  }

  /** The working table keyed by (`escola.zona`, `idade`). */
  function ByZoneAge(rows: seq<ZoneRow>): (t: seq<((string, nat), Measures)>)
    ensures |t| == |rows| && forall i :: 0 <= i < |rows| ==> t[i] == ((rows[i].zona, rows[i].idade), rows[i].m)
  {
    seq(|rows|, i requires 0 <= i < |rows| => ((rows[i].zona, rows[i].idade), rows[i].m))
  }

  /** `dados.groupby("escola.zona")[["C", "P", "O", "soma_cpo", "quantidade_populacao"]].sum()`. */
  function ZoneAggregate(rows: seq<ZoneRow>): map<string, Measures>
  {
    GroupSum(ByZone(rows))
  }

  /** `dados.groupby(["escola.zona", "idade"])[...].sum()`; this table is shown with its
      soma_cpo and population only (see SummarizeAge). */
  function ZoneAgeAggregate(rows: seq<ZoneRow>): map<(string, nat), Measures>
  {
    GroupSum(ByZoneAge(rows))
  }

  /** Adding the cpo-d column to a zone's sums and renaming C, P, O to Cariados, Perdidos,
      Obturados: names change, values do not. */
  function Summarize(m: Measures): (s: ZoneSummary)
    ensures s.cariados == m.c && s.perdidos == m.p && s.obturados == m.o
    ensures s.somaCpo == m.somaCpo && s.quantidadePopulacao == m.quantidadePopulacao
    ensures s.cpoD == Ratio(s.somaCpo, s.quantidadePopulacao)
  {
    ZoneSummary(m.c, m.p, m.o, m.somaCpo, m.quantidadePopulacao, CpoD(m))
  }

  /** Adding the cpo-d column to a (zone, age) cell's two sums. */
  function SummarizeAge(m: Measures): (s: AgeSummary)
    ensures s.somaCpo == m.somaCpo && s.quantidadePopulacao == m.quantidadePopulacao
    ensures s.cpoD == Ratio(s.somaCpo, s.quantidadePopulacao)
  {
    AgeSummary(m.somaCpo, m.quantidadePopulacao, CpoD(m))
  }

  /** `alunos_zona` after its cpo-d column is added and C, P, O are renamed: one summary
      per zone entry. */
  function SummaryTable(agg: map<string, Measures>): (t: map<string, ZoneSummary>)
    ensures t.Keys == agg.Keys
    ensures forall z :: z in t ==> t[z] == Summarize(agg[z])
  {
    map z | z in agg :: Summarize(agg[z])
  }

  /** `alunos_zona_idade` after its cpo-d column is added: one summary per (zone, age) entry. */
  function AgeSummaryTable(agg: map<(string, nat), Measures>): (t: map<(string, nat), AgeSummary>)
    ensures t.Keys == agg.Keys
    ensures forall k :: k in t ==> t[k] == SummarizeAge(agg[k])
  {
    map k | k in agg :: SummarizeAge(agg[k])
  }

  /** The zones of the schools the fact rows reference. */
  function ObservedZones(fato: seq<FactRow>, escolas: seq<School>): set<string>
    requires ValidSchoolKeys(fato, escolas)
  {
    set i | 0 <= i < |fato| :: ZoneOfRow(fato[i], escolas)
  }

  /** The (zone, age) pairs the fact rows reference. */
  function ObservedZoneAges(fato: seq<FactRow>, escolas: seq<School>, fe: seq<AgeBracket>): set<(string, nat)>
    requires ValidSchoolKeys(fato, escolas) && ValidAgeKeys(fato, fe)
  {
    set i | 0 <= i < |fato| :: (ZoneOfRow(fato[i], escolas), fe[fato[i].faixaEtariaId].idade)
  }

  /** Selects the positions of the fact rows whose school lies in zone `z`. */
  function InZone(fato: seq<FactRow>, escolas: seq<School>, z: string): int -> bool
  {
    i => 0 <= i < |fato| && fato[i].escolaId < |escolas| && ZoneOfRow(fato[i], escolas) == z
  }

  /** Selects the positions of the fact rows of zone `z` and age `idade`. */
  function InCell(fato: seq<FactRow>, escolas: seq<School>, fe: seq<AgeBracket>, z: string, idade: nat): int -> bool
  {
    i => 0 <= i < |fato| && fato[i].escolaId < |escolas| && fato[i].faixaEtariaId < |fe| &&
         ZoneOfRow(fato[i], escolas) == z && fe[fato[i].faixaEtariaId].idade == idade
  }

  /** Reference: the column sums of the fact rows whose school lies in zone `z`. */
  function ZoneTotal(fato: seq<FactRow>, escolas: seq<School>, z: string): Measures
  {
    TotalWhere(MeasuresOf(fato), InZone(fato, escolas, z))
  }

  /** Reference: the column sums of the fact rows whose school lies in zone `z` and whose
      age bracket is age `idade`. */
  function CellTotal(fato: seq<FactRow>, escolas: seq<School>, fe: seq<AgeBracket>, z: string, idade: nat): Measures
  {
    TotalWhere(MeasuresOf(fato), InCell(fato, escolas, fe, z, idade))
  }

  /** The zone aggregate has one entry per zone present, so at most the two zones. */
  lemma ZoneAggregateKeys(rows: seq<ZoneRow>, fato: seq<FactRow>, escolas: seq<School>, fe: seq<AgeBracket>)
    requires Prepared(rows, fato, escolas, fe)
    ensures var agg := ZoneAggregate(rows);
            && agg.Keys == ObservedZones(fato, escolas)
            && agg.Keys <= {Rural, Urbano}
            && |agg| <= 2
  {
    var t := ByZone(rows);
    forall z | z in KeysOf(t) ensures z in ObservedZones(fato, escolas) {
      var i :| 0 <= i < |t| && t[i].0 == z;
    }
    forall z | z in ObservedZones(fato, escolas) ensures z in KeysOf(t) {
      var i :| 0 <= i < |fato| && ZoneOfRow(fato[i], escolas) == z;
      assert t[i].0 == z;
    }
    SubsetOfPair(KeysOf(t), Rural, Urbano);
  }

  lemma SubsetOfPair(s: set<string>, a: string, b: string)
    requires s <= {a, b}
    ensures |s| <= 2
  {
    if a in s && b in s {
      assert s == {a, b};
    } else if a in s {
      assert s == {a};
    } else if b in s {
      assert s == {b};
    } else {
      assert s == {};
    }
  }

  /** The prepared table carries the fact table's measures, row for row. */
  lemma PreparedValues(rows: seq<ZoneRow>, fato: seq<FactRow>, escolas: seq<School>, fe: seq<AgeBracket>)
    requires Prepared(rows, fato, escolas, fe)
    ensures Values(ByZone(rows)) == MeasuresOf(fato) && Values(ByZoneAge(rows)) == MeasuresOf(fato)
  {
    assert Values(ByZone(rows)) == MeasuresOf(fato);
    assert Values(ByZoneAge(rows)) == MeasuresOf(fato);
  }

  /** Each entry of the zone aggregate holds the sums of exactly the fact rows of that zone. */
  lemma ZoneAggregateEntries(rows: seq<ZoneRow>, fato: seq<FactRow>, escolas: seq<School>, fe: seq<AgeBracket>, z: string)
    requires Prepared(rows, fato, escolas, fe)
    requires z in ZoneAggregate(rows)
    ensures ZoneAggregate(rows)[z] == ZoneTotal(fato, escolas, z)
  {
    var t := ByZone(rows);
    PreparedValues(rows, fato, escolas, fe);
    forall i | 0 <= i < |t| ensures InZone(fato, escolas, z)(i) <==> t[i].0 == z {
    }
    GroupEntryWhere(t, z, InZone(fato, escolas, z));
  }

  /** The (zone, age) aggregate has one entry per observed (zone, age) pair. */
  lemma ZoneAgeAggregateKeys(rows: seq<ZoneRow>, fato: seq<FactRow>, escolas: seq<School>, fe: seq<AgeBracket>)
    requires Prepared(rows, fato, escolas, fe)
    ensures ZoneAgeAggregate(rows).Keys == ObservedZoneAges(fato, escolas, fe)
  {
    var t := ByZoneAge(rows);
    forall k | k in KeysOf(t) ensures k in ObservedZoneAges(fato, escolas, fe) {
      var i :| 0 <= i < |t| && t[i].0 == k;
    }
    forall k | k in ObservedZoneAges(fato, escolas, fe) ensures k in KeysOf(t) {
      var i :| 0 <= i < |fato| && (ZoneOfRow(fato[i], escolas), fe[fato[i].faixaEtariaId].idade) == k;
      assert t[i].0 == k;
    }
  }

  /** Each (zone, age) entry holds the sums of exactly the fact rows of that zone and age. */
  lemma ZoneAgeAggregateEntries(rows: seq<ZoneRow>, fato: seq<FactRow>, escolas: seq<School>, fe: seq<AgeBracket>, k: (string, nat))
    requires Prepared(rows, fato, escolas, fe)
    requires k in ZoneAgeAggregate(rows)
    ensures ZoneAgeAggregate(rows)[k] == CellTotal(fato, escolas, fe, k.0, k.1)
  {
    var t := ByZoneAge(rows);
    PreparedValues(rows, fato, escolas, fe);
    forall i | 0 <= i < |t| ensures InCell(fato, escolas, fe, k.0, k.1)(i) <==> t[i].0 == k {
    }
    GroupEntryWhere(t, k, InCell(fato, escolas, fe, k.0, k.1));
  }

  /** Adding up the zone entries, in whatever order the grouped frame lists them, gives
      the totals of the whole fact table. */
  lemma ZoneTotalsMatchFact(rows: seq<ZoneRow>, fato: seq<FactRow>, escolas: seq<School>, fe: seq<AgeBracket>, order: seq<string>)
    requires Prepared(rows, fato, escolas, fe)
    requires Enumerates(order, ZoneAggregate(rows).Keys)
    ensures SumOver(ZoneAggregate(rows), order) == Total(MeasuresOf(fato))
  {
    GroupTotalsAddUp(ByZone(rows), order);
    PreparedValues(rows, fato, escolas, fe);
  }

  /** The home page's overall CPO-D is the cpo-d of the zone entries added up: pooling the
      zones gives the ratio of the table's sums, not an average of the zones' ratios. */
  lemma OverallCpoDFromZones(rows: seq<ZoneRow>, fato: seq<FactRow>, escolas: seq<School>, fe: seq<AgeBracket>, order: seq<string>)
    requires Prepared(rows, fato, escolas, fe)
    requires Enumerates(order, ZoneAggregate(rows).Keys)
    ensures CpoD(SumOver(ZoneAggregate(rows), order)) == OverallCpoD(fato)
  {
    ZoneTotalsMatchFact(rows, fato, escolas, fe, order);
  }

  /** Selects the positions of the working table whose zone is `z`. */
  function RowInZone(rows: seq<ZoneRow>, z: string): int -> bool
  {
    i => 0 <= i < |rows| && rows[i].zona == z
  }

  /** The (zone, age) keys of the second aggregate that lie in zone `z`. */
  function CellsOfZone(rows: seq<ZoneRow>, z: string): set<(string, nat)>
  {
    set k | k in ZoneAgeAggregate(rows).Keys && k.0 == z
  }

  /** Within one zone, the (zone, age) entries add up to that zone's entry: the second
      aggregate refines the first. */
  lemma ZoneAgeRefinesZone(rows: seq<ZoneRow>, z: string, order: seq<(string, nat)>)
    requires z in ZoneAggregate(rows)
    requires Enumerates(order, CellsOfZone(rows, z))
    ensures SumOver(ZoneAgeAggregate(rows), order) == ZoneAggregate(rows)[z]
  {
    GroupSumOver(ByZoneAge(rows), order);
    CellsSelectZone(rows, z);
    ZoneEntrySelect(rows, z);
  }

  /** The rows of the (zone, age) cells of zone `z` are the rows of zone `z`. */
  lemma CellsSelectZone(rows: seq<ZoneRow>, z: string)
    ensures Total(RowsIn(ByZoneAge(rows), CellsOfZone(rows, z))) == TotalWhere(Values(ByZone(rows)), RowInZone(rows, z))
  {
    var t2 := ByZoneAge(rows);
    var cell := CellsOfZone(rows, z);
    forall i | 0 <= i < |t2| ensures RowInZone(rows, z)(i) <==> t2[i].0 in cell {
      assert t2[i].0 in KeysOf(t2);
    }
    RowsInTotalWhere(t2, cell, RowInZone(rows, z));
    assert Values(t2) == Values(ByZone(rows));
  }

  /** The entry of zone `z` is the sum of the rows of zone `z`. */
  lemma ZoneEntrySelect(rows: seq<ZoneRow>, z: string)
    requires z in ZoneAggregate(rows)
    ensures ZoneAggregate(rows)[z] == TotalWhere(Values(ByZone(rows)), RowInZone(rows, z))
  {
    var t := ByZone(rows);
    forall i | 0 <= i < |t| ensures RowInZone(rows, z)(i) <==> t[i].0 in {z} {
    }
    RowsInTotalWhere(t, {z}, RowInZone(rows, z));
  }

  /** One rural school examined at ages 12 and 15, with populations 10 and 8 and CPO sums
      4 and 2: the page's single zone entry holds population 18 and CPO sum 6, so its
      cpo-d is 6/18. */
  lemma RuralScenario(rows: seq<ZoneRow>, fato: seq<FactRow>, escolas: seq<School>, fe: seq<AgeBracket>)
    requires fato == [FactRow(0, 0, 0, Measures(2, 1, 1, 4, 10)), FactRow(0, 1, 0, Measures(1, 1, 0, 2, 8))]
    requires escolas == [School("A", "T", Rural)] && fe == [AgeBracket(12), AgeBracket(15)]
    requires Prepared(rows, fato, escolas, fe)
    ensures ZoneAggregate(rows) == map[Rural := Measures(3, 2, 1, 6, 18)]
    ensures Summarize(ZoneAggregate(rows)[Rural]).cpoD == Ratio(6, 18)
  {
    assert ZoneOfRow(fato[0], escolas) == Rural && ZoneOfRow(fato[1], escolas) == Rural;
    assert ObservedZones(fato, escolas) == {Rural};
    var agg := ZoneAggregate(rows);
    ZoneAggregateKeys(rows, fato, escolas, fe);
    ZoneAggregateEntries(rows, fato, escolas, fe, Rural);
    TotalWhereBoth(MeasuresOf(fato), InZone(fato, escolas, Rural));
    SingletonMap(agg, Rural, Measures(3, 2, 1, 6, 18));
  }

  /** A map with the single key `k` bound to `v` is the one-entry display. */
  lemma SingletonMap<K, V>(m: map<K, V>, k: K, v: V)
    requires m.Keys == {k} && m[k] == v
    ensures m == map[k := v]
  {
  }

  /** Both aggregates of a prepared table: their keys are the observed zones and
      (zone, age) pairs, and their entries the reference sums of the fact rows. */
  lemma Aggregates(rows: seq<ZoneRow>, fato: seq<FactRow>, escolas: seq<School>, fe: seq<AgeBracket>)
    requires Prepared(rows, fato, escolas, fe)
    ensures ZoneAggregate(rows).Keys == ObservedZones(fato, escolas) && ZoneAggregate(rows).Keys <= {Rural, Urbano}
    ensures forall z :: z in ZoneAggregate(rows) ==> ZoneAggregate(rows)[z] == ZoneTotal(fato, escolas, z)
    ensures ZoneAgeAggregate(rows).Keys == ObservedZoneAges(fato, escolas, fe)
    ensures forall k :: k in ZoneAgeAggregate(rows) ==>
              ZoneAgeAggregate(rows)[k] == CellTotal(fato, escolas, fe, k.0, k.1)
  {
    ZoneAggregateKeys(rows, fato, escolas, fe);
    ZoneAgeAggregateKeys(rows, fato, escolas, fe);
    forall z | z in ZoneAggregate(rows) ensures ZoneAggregate(rows)[z] == ZoneTotal(fato, escolas, z) {
      ZoneAggregateEntries(rows, fato, escolas, fe, z);
    }
    forall k | k in ZoneAgeAggregate(rows) ensures ZoneAgeAggregate(rows)[k] == CellTotal(fato, escolas, fe, k.0, k.1) {
      ZoneAgeAggregateEntries(rows, fato, escolas, fe, k);
    }
  }

  /** The data preparation and both aggregates of the page, step by step as the page
      reassigns its working tables. */
  method Page(fato: seq<FactRow>, escolas: seq<School>, fe: seq<AgeBracket>)
    returns (alunosZona: map<string, ZoneSummary>, alunosZonaIdade: map<(string, nat), AgeSummary>)
    requires ValidSchoolKeys(fato, escolas) && ValidAgeKeys(fato, fe)
    ensures alunosZona.Keys == ObservedZones(fato, escolas) && alunosZona.Keys <= {Rural, Urbano}
    ensures forall z :: z in alunosZona ==> alunosZona[z] == Summarize(ZoneTotal(fato, escolas, z))
    ensures alunosZonaIdade.Keys == ObservedZoneAges(fato, escolas, fe)
    ensures forall k :: k in alunosZonaIdade ==>
              alunosZonaIdade[k] == SummarizeAge(CellTotal(fato, escolas, fe, k.0, k.1))
  {
    var dados := JoinDados(fato, escolas, fe);
    dados := ClassifyRegions(dados);
    var rows := RenameAndDrop(dados);
    var porZona := ZoneAggregate(rows);
    var porZonaIdade := ZoneAgeAggregate(rows);
    assert porZona.Keys == ObservedZones(fato, escolas) && porZona.Keys <= {Rural, Urbano}
        && (forall z :: z in porZona ==> porZona[z] == ZoneTotal(fato, escolas, z))
        && porZonaIdade.Keys == ObservedZoneAges(fato, escolas, fe)
        && (forall k :: k in porZonaIdade ==> porZonaIdade[k] == CellTotal(fato, escolas, fe, k.0, k.1)) by {
      assert Prepared(rows, fato, escolas, fe);
      Aggregates(rows, fato, escolas, fe);
    }
    alunosZona := SummaryTable(porZona);
    alunosZonaIdade := AgeSummaryTable(porZonaIdade);
  }
}
