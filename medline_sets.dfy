/**
 * MEDLINE records of `src/medline.rs`: the same record as
 * `src/asn/medline.rs` with its collections held as sets. The enumerations
 * and the records that stay list-valued are those of module Medline; only
 * the entry and its MeSH terms differ.
 */
module MedlineSets {
  import opened Wrappers
  import opened General
  import opened Collections
  import M = Medline
  import Biblio

  /** `MedlineMesh` with a set of qualifiers. */
  datatype MedlineMesh = MedlineMesh(mp: bool, term: string, qual: Option<set<M.MedlineQual>>)

  /** `MedlineEntry` with set-valued collections. */
  datatype MedlineEntry = MedlineEntry(
    uid: Option<nat>,
    em: Date,
    cit: Biblio.CitArt,
    abstractText: Option<string>,
    mesh: Option<set<MedlineMesh>>,
    substance: Option<set<M.MedlineRn>>,
    xref: Option<set<M.MedlineSi>>,
    idnum: Option<set<string>>,
    gene: Option<set<string>>,
    pmid: Option<nat>,
    pubType: Option<set<string>>,
    mlfield: Option<set<M.MedlineField>>,
    status: M.MedlineEntryStatus)

  /** An optional list collected into an optional set. */
  function OptSetOf<T(==,!new)>(o: Option<seq<T>>): (r: Option<set<T>>)
    ensures r.Some? <==> o.Some?
    ensures r.Some? ==> forall x :: x in r.value <==> x in o.value
  {
    if o.Some? then Some(SetOf(o.value)) else None
  }

  /** A MeSH term whose qualifier list is collected into a set. */
  function MeshOfList(m: M.MedlineMesh): (r: MedlineMesh)
    ensures r.mp == m.mp && r.term == m.term
    ensures r.qual.Some? <==> m.qual.Some?
    ensures r.qual.Some? ==> forall q :: q in r.qual.value <==> q in m.qual.value
  {
    MedlineMesh(m.mp, m.term, OptSetOf(m.qual))
  }

  /**
   * The set-valued form of a list-valued entry: the scalar fields are
   * unchanged and each collection keeps exactly the members of its list.
   */
  function EntryOfList(e: M.MedlineEntry): (r: MedlineEntry)
    ensures r.uid == e.uid && r.em == e.em && r.cit == e.cit && r.abstractText == e.abstractText
    ensures r.pmid == e.pmid && r.status == e.status
    ensures r.mesh.Some? <==> e.mesh.Some?
    ensures r.mesh.Some? ==> forall x :: x in r.mesh.value <==> exists i :: 0 <= i < |e.mesh.value| && x == MeshOfList(e.mesh.value[i])
    ensures r.substance == OptSetOf(e.substance) && r.xref == OptSetOf(e.xref)
    ensures r.idnum == OptSetOf(e.idnum) && r.gene == OptSetOf(e.gene)
    ensures r.pubType == OptSetOf(e.pubType) && r.mlfield == OptSetOf(e.mlfield)
  {
    var mesh := if e.mesh.Some? then Some(set i | 0 <= i < |e.mesh.value| :: MeshOfList(e.mesh.value[i])) else None;
    MedlineEntry(e.uid, e.em, e.cit, e.abstractText, mesh, OptSetOf(e.substance), OptSetOf(e.xref),
      OptSetOf(e.idnum), OptSetOf(e.gene), e.pmid, OptSetOf(e.pubType), OptSetOf(e.mlfield), e.status)
  }

  /**
   * A set-valued collection counts each member once: it is no larger than
   * the list it was collected from, and as large exactly when that list
   * has no repeats.
   */
  lemma EntryCollectionSizes(e: M.MedlineEntry)
    ensures var r := EntryOfList(e);
      && (e.idnum.Some? ==> |r.idnum.value| <= |e.idnum.value| && (|r.idnum.value| == |e.idnum.value| <==> NoDuplicates(e.idnum.value)))
      && (e.gene.Some? ==> |r.gene.value| <= |e.gene.value| && (|r.gene.value| == |e.gene.value| <==> NoDuplicates(e.gene.value)))
      && (e.pubType.Some? ==> |r.pubType.value| <= |e.pubType.value| && (|r.pubType.value| == |e.pubType.value| <==> NoDuplicates(e.pubType.value)))
      && (e.substance.Some? ==> |r.substance.value| <= |e.substance.value| && (|r.substance.value| == |e.substance.value| <==> NoDuplicates(e.substance.value)))
      && (e.xref.Some? ==> |r.xref.value| <= |e.xref.value| && (|r.xref.value| == |e.xref.value| <==> NoDuplicates(e.xref.value)))
      && (e.mlfield.Some? ==> |r.mlfield.value| <= |e.mlfield.value| && (|r.mlfield.value| == |e.mlfield.value| <==> NoDuplicates(e.mlfield.value)))
  {
    if e.idnum.Some? { CardSetOf(e.idnum.value); }
    if e.gene.Some? { CardSetOf(e.gene.value); }
    if e.pubType.Some? { CardSetOf(e.pubType.value); }
    if e.substance.Some? { CardSetOf(e.substance.value); }
    if e.xref.Some? { CardSetOf(e.xref.value); }
    if e.mlfield.Some? { CardSetOf(e.mlfield.value); }
  }

  /** Two identical gene symbols in the list-valued entry become one in the set-valued entry. */
  lemma RepeatedGeneCollapses(e: M.MedlineEntry, g: string)
    requires e.gene == Some([g, g])
    ensures EntryOfList(e).gene == Some({g})
  {
    assert SetOf([g, g]) == {g} by {
      forall x ensures x in SetOf([g, g]) <==> x in {g} {
        assert x in [g, g] <==> x == g;
      }
    }
  }
}
