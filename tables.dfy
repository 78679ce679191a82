/**
 The four tables the dashboard reads (the exam table only as a foreign key),
 as plain values. Every table is a sequence of records; a record's position in
 the sequence is its row label: each frame is built from the fetched rows and
 never re-indexed (the stored `index` column is only dropped as a column), so it
 keeps its default 0, 1, 2, ... row index.
 */
module Tables {

  datatype Option<T> = None | Some(value: T)

  /** The five numeric columns that every aggregation sums:
      decayed (C), missing (P), filled (O), the CPO sum and the examined population. */
  datatype Measures = Measures(c: nat, p: nat, o: nat, somaCpo: nat, quantidadePopulacao: nat)

  /** Column-wise sum of two rows of measures. */
  function Add(a: Measures, b: Measures): Measures
  {
    Measures(a.c + b.c, a.p + b.p, a.o + b.o, a.somaCpo + b.somaCpo,
             a.quantidadePopulacao + b.quantidadePopulacao)
  }

  /** One row of the fact table CPO_D: three foreign keys and the measures of that cell. */
  datatype FactRow = FactRow(escolaId: nat, faixaEtariaId: nat, exameId: nat, m: Measures)

  /** One row of the dimension table Escola. */
  datatype School = School(nome: string, territorio: string, regiao: string)

  /** One row of the dimension table Faixa_etaria: a single year of age. */
  datatype AgeBracket = AgeBracket(idade: nat)

  /** The measures column block of the fact table, row by row. */
  function MeasuresOf(fato: seq<FactRow>): (ms: seq<Measures>)
    ensures |ms| == |fato|
    ensures forall i :: 0 <= i < |fato| ==> ms[i] == fato[i].m
  {
    seq(|fato|, i requires 0 <= i < |fato| => fato[i].m)
  }

  /** Every school key of the fact table names a row of the school table. */
  predicate ValidSchoolKeys(fato: seq<FactRow>, escolas: seq<School>)
  {
    forall i :: 0 <= i < |fato| ==> fato[i].escolaId < |escolas|
  }

  /** Every age key of the fact table names a row of the age table. */
  predicate ValidAgeKeys(fato: seq<FactRow>, fe: seq<AgeBracket>)
  {
    forall i :: 0 <= i < |fato| ==> fato[i].faixaEtariaId < |fe|
  }
}
