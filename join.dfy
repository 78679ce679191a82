/**
 The dimension lookup. `fact.join(dim[col], on="<fk>_id")` matches each foreign key
 against the ROW INDEX of the dimension frame. The frame is built from the fetched
 rows and the stored `index` column is never made its row index (it is only dropped
 as a column), so that row index is the default one, 0, 1, ..., n - 1, and a key
 picks the dimension row at that position. A key with no matching label yields NaN, written
 here as None.
 */
module Join {
  import opened Tables

  /** The default row index of a frame of `n` rows. */
  function RangeIndex(n: nat): (ix: seq<nat>)
    ensures |ix| == n
    ensures forall i :: 0 <= i < n ==> ix[i] == i
  {
    seq(n, i => i)
  }

  /** Position of the row of index `ix` labelled `key`, if any. It is applied only to
      the default index, whose labels are distinct, so the row found is the only match
      (a duplicated index, where a join yields one row per match, does not arise). */
  function Lookup(ix: seq<nat>, key: nat): (p: Option<nat>)
    ensures p.Some? ==> p.value < |ix| && ix[p.value] == key
    ensures p.Some? ==> forall j :: 0 <= j < p.value ==> ix[j] != key
    ensures p.None? ==> forall j :: 0 <= j < |ix| ==> ix[j] != key
  {
    if |ix| == 0 then None
    else if ix[0] == key then Some(0)
    else
      match Lookup(ix[1..], key)
      case None => None
      case Some(p) => Some(p + 1)
  }

  /** On a default index, looking up a label finds the row at that position, and only
      labels below the row count are found. */
  lemma RangeIndexLookup(n: nat)
    ensures forall key: nat :: Lookup(RangeIndex(n), key) == if key < n then Some(key) else None
  {
    forall key: nat ensures Lookup(RangeIndex(n), key) == if key < n then Some(key) else None {
      var ix := RangeIndex(n);
      if key < n {
        assert ix[key] == key;
      }
    }
  }

  /** Left join of a key column against one column of a dimension frame that carries
      the default row index: the result has one entry per key, in key order; a key
      selects the dimension value at that position, and an out-of-range key gives None. */
  function LeftJoin<D>(keys: seq<nat>, dim: seq<D>): (r: seq<Option<D>>)
    ensures |r| == |keys|
    ensures forall i :: 0 <= i < |keys| ==>
              r[i] == if keys[i] < |dim| then Some(dim[keys[i]]) else None
  {
    var ix := RangeIndex(|dim|);
    RangeIndexLookup(|dim|);
    seq(|keys|, i requires 0 <= i < |keys| =>
      match Lookup(ix, keys[i])
      case None => None
      case Some(p) => Some(dim[p]))
  }

  /** The `escola_id` column of the fact table. */
  function SchoolKeys(fato: seq<FactRow>): (ks: seq<nat>)
    ensures |ks| == |fato| && forall i :: 0 <= i < |fato| ==> ks[i] == fato[i].escolaId
  {
    seq(|fato|, i requires 0 <= i < |fato| => fato[i].escolaId)
  }

  /** The `faixa_etaria_id` column of the fact table. */
  function AgeKeys(fato: seq<FactRow>): (ks: seq<nat>)
    ensures |ks| == |fato| && forall i :: 0 <= i < |fato| ==> ks[i] == fato[i].faixaEtariaId
  {
    seq(|fato|, i requires 0 <= i < |fato| => fato[i].faixaEtariaId)
  }

  /** The `escola.região` column of the school table. */
  function Regions(escolas: seq<School>): (rs: seq<string>)
    ensures |rs| == |escolas| && forall i :: 0 <= i < |escolas| ==> rs[i] == escolas[i].regiao
  {
    seq(|escolas|, i requires 0 <= i < |escolas| => escolas[i].regiao)
  }

  /** The `escola.território` column of the school table. */
  function Territories(escolas: seq<School>): (ts: seq<string>)
    ensures |ts| == |escolas| && forall i :: 0 <= i < |escolas| ==> ts[i] == escolas[i].territorio
  {
    seq(|escolas|, i requires 0 <= i < |escolas| => escolas[i].territorio)
  }

  /** The `idade` column of the age table. */
  function Ages(fe: seq<AgeBracket>): (as_: seq<nat>)
    ensures |as_| == |fe| && forall i :: 0 <= i < |fe| ==> as_[i] == fe[i].idade
  {
    seq(|fe|, i requires 0 <= i < |fe| => fe[i].idade)
  }

  /** `fato.join(escolas["escola.região"], on="escola_id")`: the region of each fact row's school. */
  function RegionOfRows(fato: seq<FactRow>, escolas: seq<School>): (r: seq<string>)
    requires ValidSchoolKeys(fato, escolas)
    ensures |r| == |fato|
    ensures forall i :: 0 <= i < |fato| ==> r[i] == escolas[fato[i].escolaId].regiao
  {
    var joined := LeftJoin(SchoolKeys(fato), Regions(escolas));
    seq(|fato|, i requires 0 <= i < |fato| => joined[i].value)
  }

  /** `.join(fe, on="faixa_etaria_id")`: the age of each fact row's age bracket. */
  function AgeOfRows(fato: seq<FactRow>, fe: seq<AgeBracket>): (r: seq<nat>)
    requires ValidAgeKeys(fato, fe)
    ensures |r| == |fato|
    ensures forall i :: 0 <= i < |fato| ==> r[i] == fe[fato[i].faixaEtariaId].idade
  {
    var joined := LeftJoin(AgeKeys(fato), Ages(fe));
    seq(|fato|, i requires 0 <= i < |fato| => joined[i].value)
  }
}
