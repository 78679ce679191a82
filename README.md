# Observatório do Sorriso: the aggregation pipeline

The dashboard reads a fact table `CPO_D` (one row per school, age bracket and exam, with
the decayed, missing and filled teeth counts C, P, O, the CPO sum `soma_cpo` and the
examined population `quantidade_populacao`) and the dimension tables `Escola` and
`Faixa_etaria`. On those tables it runs a small relational pipeline:

- the fact rows are joined to the dimensions by position: each frame is built from the
  fetched rows and the stored `index` column is never made its row index (it is only
  dropped as a column), so each frame keeps its default 0, 1, 2, ... index;
- the zone page (`pages/1_Zonas.py`) maps each school region to the zone `RURAL` or
  `URBANO`, drops the keys, and sums the measures per zone and per (zone, age), adding a
  cpo-d column (summed `soma_cpo` over summed population) to each group;
- the home page (`Tela_Inicial.py`) and `observatorio.py` sum the population per raw
  region label for a pie chart, show its total, the overall CPO-D, the number of schools
  and the numbers of distinct territories and regions.

This project models that pipeline on values and proves its laws: the joins keep one row
per fact row, the zone map is two-valued and idempotent, grouping has one entry per
observed key holding the sums of exactly that key's rows, group entries add up to the
table totals in any order, the (zone, age) aggregate refines the zone aggregate, cpo-d is
a ratio of sums (not a mean of ratios), and the headline counts are bounded by the
number of schools.

Files, one module each:

- `tables.dfy` (`Tables`): the records and the five-measure block.
- `join.dfy` (`Join`): the default row index, the left join as a lookup in it, the columns.
- `zones.dfy` (`Zones`): the region-to-zone map.
- `aggregation.dfy` (`Aggregation`): column sums, the generic group-by-sum, sums over a
  grouped result in a given key order, and a reference sum over selected positions.
- `metrics.dfy` (`Metrics`): the cpo-d ratio, the column sums, `unique()` and `nunique()`.
- `decimal.dfy` (`Decimal`): the decimal numeral of an age and the `" anos"` axis label.
- `zonas.dfy` (`Zonas`): the zone page, as functions and as the step-by-step method `Page`.
- `summary.dfy` (`Summary`): the home page's region totals and headline figures.
- `observatorio.dfy` (`Observatorio`): the same figures as `observatorio.py` computes them.

## Model

| member | source | states |
|---|---|---|
| Join.RangeIndex | pages/1_Zonas.py:22-24 | a frame built from n fetched rows and never re-indexed carries the row index 0, 1, ..., n-1 |
| Join.Lookup | pages/1_Zonas.py:47 | a key found in the index yields a position labelled with it (on the distinct labels of the default index, the only one); a missing key yields no row |
| Join.RangeIndexLookup | pages/1_Zonas.py:28-30 | looking a key up in the default index yields that key as the position when it is below the row count, and no row otherwise |
| Join.LeftJoin | pages/1_Zonas.py:47 | the join keeps one row per fact row, in fact order, and attaches the dimension row at position key, or no row for an out-of-range key |
| Join.RegionOfRows | Tela_Inicial.py:51 | with valid keys every fact row receives the region label of the school at position `escola_id` |
| Join.AgeOfRows | pages/1_Zonas.py:47 | with valid keys every fact row receives the age at position `faixa_etaria_id` |
| Zonas.JoinDados | pages/1_Zonas.py:47 | `dados` has one row per fact row, in fact order, each the fact row with its school's region and its age |
| Zones.Zone | pages/1_Zonas.py:49 | a region becomes `RURAL` exactly when it is `RURAL`, and `URBANO` otherwise; the result is always one of the two |
| Zones.ZoneIdempotent | pages/1_Zonas.py:49 | classifying a zone again leaves it unchanged |
| Zones.ZoneMap | pages/1_Zonas.py:49-50 | the dictionary is built over the distinct labels of the column and maps each to its zone |
| Zones.MapColumn | pages/1_Zonas.py:49 | `Series.map` with a dictionary keeps the column's length and looks each label up, a missing label yielding no value |
| Zones.ZoneColumn | pages/1_Zonas.py:49-50 | mapping the column with the dictionary built from its own distinct labels never misses a label and gives each row its zone |
| Zones.ZoneOfLabels | pages/1_Zonas.py:49-50 | the reassigned column has the same length and holds the zone of each row's region |
| Zonas.ClassifyRegions | pages/1_Zonas.py:49-50 | the region column is replaced by the zone of each row and every other column is unchanged |
| Zonas.RenameAndDrop | pages/1_Zonas.py:52-53 | renaming the region column and dropping the three keys keeps zone, age and all five measures of every row |
| Zonas.Dados | pages/1_Zonas.py:47-53 | the prepared table has one row per fact row, in fact order, holding the zone of its school, its age and its measures |
| Aggregation.TotalAppend | pages/1_Zonas.py:56 | the column sums of two row blocks appended are the sums of the blocks added |
| Aggregation.GroupSum | pages/1_Zonas.py:56 | the grouped result has exactly the keys present in the rows, and each entry is the sum of the rows carrying that key |
| Aggregation.GroupSumOver | pages/1_Zonas.py:56 | adding the entries of distinct present keys gives the sum of the rows whose key is one of them |
| Aggregation.GroupTotalsAddUp | pages/1_Zonas.py:56 | adding all group entries, in any order that lists each key once, gives the sums of the whole table |
| Aggregation.RowsInTotalWhere | pages/1_Zonas.py:56 | selecting rows by key and selecting them by any position predicate that agrees with the key give the same sums |
| Aggregation.GroupEntryWhere | pages/1_Zonas.py:56 | a group's entry equals the reference sum over the positions that carry its key |
| Zonas.ZoneAggregate | pages/1_Zonas.py:56 | `alunos_zona` before its cpo-d column: the group-by-sum of the prepared table by zone, whose keys and entries `Zonas.ZoneAggregateKeys` and `Zonas.ZoneAggregateEntries` state |
| Zonas.ZoneAggregateKeys | pages/1_Zonas.py:56 | the zone aggregate has one entry per zone present among the fact rows' schools, so at most the two zones |
| Zonas.ZoneAggregateEntries | pages/1_Zonas.py:56 | each zone entry holds the sums of exactly the fact rows whose school lies in that zone |
| Zonas.ZoneTotalsMatchFact | pages/1_Zonas.py:56 | the zone entries added up give the column sums of the whole fact table |
| Zonas.Summarize | pages/1_Zonas.py:58-61 | the renamed columns Cariados, Perdidos, Obturados hold the sums of C, P, O, and cpo-d is the zone's summed `soma_cpo` over its summed population |
| Zonas.ZoneAgeAggregate | pages/1_Zonas.py:63 | `alunos_zona_idade` before its cpo-d column: the group-by-sum by (zone, age), whose keys and entries `Zonas.ZoneAgeAggregateKeys` and `Zonas.ZoneAgeAggregateEntries` state |
| Zonas.ZoneAgeAggregateKeys | pages/1_Zonas.py:63 | the (zone, age) aggregate has one entry per (zone, age) pair observed among the fact rows |
| Zonas.ZoneAgeAggregateEntries | pages/1_Zonas.py:63 | each (zone, age) entry holds the sums of exactly the fact rows of that zone and that age |
| Zonas.ZoneAgeRefinesZone | pages/1_Zonas.py:63 | within one zone the (zone, age) entries add up to that zone's entry |
| Zonas.SummaryTable | pages/1_Zonas.py:58-61 | `alunos_zona` keeps exactly the zone keys and holds the summary of each zone's sums |
| Zonas.SummarizeAge | pages/1_Zonas.py:65 | each (zone, age) row keeps its `soma_cpo` and population sums and its cpo-d is their ratio |
| Zonas.AgeSummaryTable | pages/1_Zonas.py:65 | `alunos_zona_idade` keeps exactly the (zone, age) keys and holds the summary of each cell's sums |
| Zonas.Aggregates | pages/1_Zonas.py:56-63 | on the prepared table both aggregates have exactly the observed keys, and each entry is the reference sum of its fact rows |
| Zonas.RuralScenario | pages/1_Zonas.py:56-58 | one rural school with two age rows of populations 10 and 8 and CPO sums 4 and 2 gives the single entry `RURAL` with population 18, CPO sum 6 and cpo-d 6/18 |
| Zonas.Page | pages/1_Zonas.py:47-66 | after the page's successive updates, `alunos_zona` has one entry per observed zone, each the summary of that zone's fact rows, and `alunos_zona_idade` one entry per observed (zone, age), each the summary of that cell's fact rows |
| Zonas.OverallCpoDFromZones | pages/1_Zonas.py:58 | pooling the zone entries gives the overall CPO-D of the fact table |
| Metrics.CpoD | pages/1_Zonas.py:58 | cpo-d is the pair summed `soma_cpo` over summed population |
| Metrics.Value | pages/1_Zonas.py:58 | for a positive population the quotient is the non-negative number that multiplied by the population gives the CPO sum |
| Metrics.SumSomaCpo | Tela_Inicial.py:69 | `fato['soma_cpo'].sum()`; `Metrics.ColumnSums` proves it is the CPO-sum field of the table's total |
| Metrics.SumPopulacao | Tela_Inicial.py:69 | `fato['quantidade_populacao'].sum()`; `Metrics.ColumnSums` proves it is the population field of the table's total |
| Metrics.ColumnSums | Tela_Inicial.py:69 | the sum of the `soma_cpo` column and of the population column are those fields of the table's total |
| Metrics.OverallCpoD | Tela_Inicial.py:69 | the overall CPO-D is the total `soma_cpo` over the total population of the whole fact table |
| Metrics.RatioOfSumsNotMeanOfRatios | pages/1_Zonas.py:58 | for rows 4/10 and 2/8 the pooled ratio is 1/3 while the mean of the row ratios is 13/40 |
| Metrics.NUnique | Tela_Inicial.py:72-73 | the number of distinct labels is at most the row count and at least 1 for a nonempty column |
| Metrics.Unique | observatorio.py:69 | `unique()` lists each label of the column exactly once and nothing else |
| Metrics.UniqueCount | observatorio.py:69-74 | the length of `unique()` equals the number of distinct labels |
| Decimal.DecimalString | pages/1_Zonas.py:97 | `str` of an age is a nonempty run of decimal digits, a single digit exactly for ages below 10, with no leading zero when longer |
| Decimal.ParseDecimalString | pages/1_Zonas.py:97 | reading the decimal numeral of an age back gives the age |
| Decimal.AgeLabel | pages/1_Zonas.py:97 | each axis label is the decimal numeral of the age (digits only, one digit exactly below 10, no leading zero when longer, reading back as the age) followed by `" anos"` |
| Decimal.AgeLabelInjective | pages/1_Zonas.py:97 | different ages get different axis labels |
| Summary.ByRegion | Tela_Inicial.py:51 | the region join keeps one row per fact row carrying the raw region label of its school and its measures |
| Summary.RegionPopulation | Tela_Inicial.py:52 | the population per raw region label, also `student_counts` of observatorio.py:46; `Summary.RegionPopulationEntries` states its keys and entries |
| Summary.RegionPopulationEntries | Tela_Inicial.py:51-52 | the per-region totals have one entry per raw region label present among the joined rows, each the population of exactly that region's fact rows |
| Summary.SumCountsColumn | Tela_Inicial.py:64 | adding the population entries of a grouped result is taking the population field of its summed entries |
| Summary.SumCounts | Tela_Inicial.py:64 | `fato_regiao.sum()`, also `student_counts.sum()` of observatorio.py:51, in the Series' index order; `Summary.PieTotal` proves it is the fact table's population |
| Summary.PieTotal | Tela_Inicial.py:64 | the figure in the centre of the pie, the sum of the region totals, equals the total population of the fact table |
| Summary.RegionEntriesBounded | Tela_Inicial.py:52-73 | there are at most as many region entries as distinct regions in the school table |
| Summary.TelaInicialHeadline | Tela_Inicial.py:69-73 | the headline is the overall CPO-D, the school row count and the distinct territory and region counts, each at most the school count and at least 1 when there is a school |
| Observatorio.ObservatorioHeadline | observatorio.py:59-74 | the figures `observatorio.py` computes with `unique().shape[0]` are those of the home page |

`observatorio.py:46-51` runs the same join, region grouping and pie total as
`Tela_Inicial.py:51-64`, so `Summary.RegionPopulationEntries` and `Summary.PieTotal`
model both.

## Left out

- Loading: the SQLite queries and the `@st.cache` memoisation of `carregar_dados` and `load_data` are I/O; the tables are parameters.
- Session state: `st.session_state` on the home page is ambient global state; the tables are passed as parameters instead.
- Rendering: all Streamlit and Plotly calls, the HTML strings, the `labels` dictionary and the `multi_indice` helper are presentation only.
- Metrics.CpoD: the ratio is kept exact as the pair (CPO sum, population); the rounding to two decimals of a floating-point quotient is not modelled.
- Metrics.Value: the real value of a ratio is defined only for a positive population; the code has no guard and pandas would give inf or NaN, which the model does not reproduce.
- Zonas.Dados: the pipeline functions require every school and age key to name a dimension row, so dangling keys are not modelled. Under pandas a dangling `escola_id` gives a NaN region; `unique()` includes NaN, the dictionary of pages/1_Zonas.py:49-50 maps it to `URBANO` (NaN is not equal to `"RURAL"`), and `Series.map` finds that key, so such a row would be counted under `URBANO` in `alunos_zona`. A dangling `faixa_etaria_id` gives a NaN `idade`, and such a row would be left out of `alunos_zona_idade` only. `Join.LeftJoin` and `Zones.MapColumn` yield no value for a missing key, which is not this behaviour.
- Metrics.NUnique: `nunique()` and `unique().shape[0]` differ on missing labels; labels are never missing in the model, so the two coincide.
- Aggregation.GroupSum: a grouped result is a map, so the sorted order pandas gives it is not modelled; every sum over it is proved for any order listing each key once.
- The exam table is loaded but never used beyond dropping `exame_id`, so it is only that key of a fact row.
- No age-range filtering, bracket selection or composite age band is modelled: none is done by these three scripts.
- Integers are unbounded; the 64-bit integer columns of the frames are not modelled as overflowing.
