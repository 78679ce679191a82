/**
 Zone classification of a school's region label: the designated rural label stays
 "RURAL", every other label becomes "URBANO". The page builds this as a dictionary
 over the distinct labels of the region column and then maps the column through it.
 */
module Zones {
  import opened Tables

  const Rural: string := "RURAL"
  const Urbano: string := "URBANO"

  /** The zone of one region label. */
  function Zone(regiao: string): (z: string)
    ensures z == Rural || z == Urbano
    ensures z == Rural <==> regiao == Rural
  {
    if regiao == Rural then Rural else Urbano
  }

  /** Classifying an already classified label changes nothing. */
  lemma ZoneIdempotent(regiao: string)
    ensures Zone(Zone(regiao)) == Zone(regiao)
  {
  }

  /** `{regiao: ... for regiao in column.unique()}`: one entry per distinct label of the column. */
  function ZoneMap(labels: seq<string>): (m: map<string, string>)
    ensures forall i :: 0 <= i < |labels| ==> labels[i] in m
    ensures forall r :: r in m ==> r in labels && m[r] == Zone(r)
  {
    map r | r in labels :: Zone(r)
  }

  /** `Series.map(dict)`: each value is replaced by its entry; a value without one becomes NaN (None). */
  function MapColumn(m: map<string, string>, labels: seq<string>): (r: seq<Option<string>>)
    ensures |r| == |labels|
    ensures forall i :: 0 <= i < |labels| ==>
              r[i] == if labels[i] in m then Some(m[labels[i]]) else None
  {
    seq(|labels|, i requires 0 <= i < |labels| =>
      if labels[i] in m then Some(m[labels[i]]) else None)
  }

  /** Mapping a column through the dictionary built from its own distinct values never
      produces NaN, and classifies every label on its own. */
  lemma ZoneColumn(labels: seq<string>)
    ensures var r := MapColumn(ZoneMap(labels), labels);
            forall i :: 0 <= i < |labels| ==> r[i] == Some(Zone(labels[i]))
  {
    var m := ZoneMap(labels);
    forall i | 0 <= i < |labels| ensures MapColumn(m, labels)[i] == Some(Zone(labels[i])) {
      assert labels[i] in m;
    }
  }

  /** `dados["escola.região"].map(...)` on a whole column: the zone of every label. */
  function ZoneOfLabels(labels: seq<string>): (z: seq<string>)
    ensures |z| == |labels|
    ensures forall i :: 0 <= i < |labels| ==> z[i] == Zone(labels[i])
  {
    var mapped := MapColumn(ZoneMap(labels), labels);
    ZoneColumn(labels);
    seq(|labels|, i requires 0 <= i < |labels| => mapped[i].value)
  }
}
