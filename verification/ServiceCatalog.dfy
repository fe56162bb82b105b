/**
 Service family ids as text, and their trip through the traceability entries of a spec
 (apps/web/src/service-catalog.ts). The texts themselves do not matter, only that no two
 families share one: `idOf` names the families.
 */
module ServiceCatalog {
  import opened Wrappers
  import opened Catalog

  const SERVICE_CATALOG_TRACE_PREFIX := "serviceCatalog:"

  datatype TraceEntry = TraceEntry(nwsPath: string, sourceRef: string)

  ghost predicate DistinctIds(idOf: Family -> string) {
    forall f: Family, g: Family :: idOf(f) == idOf(g) ==> f == g
  }

  function IdsOf(families: seq<Family>, idOf: Family -> string): (ids: seq<string>)
    ensures |ids| == |families|
    ensures forall i :: 0 <= i < |ids| ==> ids[i] == idOf(families[i])
  {
    seq(|families|, i requires 0 <= i < |families| => idOf(families[i]))
  }

  /** `serviceFamilyIdSet.has(id)` */
  predicate IsCatalogId(id: string, idOf: Family -> string) {
    exists f: Family :: idOf(f) == id
  }

  /** The families a list of ids names; ids outside the catalogue name nothing. */
  function Named(ids: seq<string>, idOf: Family -> string): set<Family> {
    set f: Family | idOf(f) in ids
  }

  function OrderedServiceFamilyIds(ids: seq<string>, idOf: Family -> string): seq<string> {
    IdsOf(Ordered(Named(ids, idOf)), idOf)
  }

  function TraceOf(id: string): TraceEntry {
    TraceEntry("metadata.serviceCatalog", SERVICE_CATALOG_TRACE_PREFIX + id)
  }

  function ServiceCatalogTraceability(ids: seq<string>, idOf: Family -> string): seq<TraceEntry> {
    var ordered := OrderedServiceFamilyIds(ids, idOf);
    seq(|ordered|, i requires 0 <= i < |ordered| => TraceOf(ordered[i]))
  }

  /** The id an entry carries, or the empty text. */
  function TracedId(entry: TraceEntry): string {
    if SERVICE_CATALOG_TRACE_PREFIX <= entry.sourceRef
    then entry.sourceRef[|SERVICE_CATALOG_TRACE_PREFIX|..]
    else ""
  }

  function TracedIds(traceability: seq<TraceEntry>, idOf: Family -> string): seq<string> {
    if traceability == [] then []
    else
      var id := TracedId(traceability[0]);
      (if IsCatalogId(id, idOf) then [id] else []) + TracedIds(traceability[1..], idOf)
  }

  function ServiceFamilyIdsFromTraceability(traceability: Option<seq<TraceEntry>>, idOf: Family -> string): seq<string>
  {
    var ids := if traceability.Some? then TracedIds(traceability.value, idOf) else [];
    if |ids| > 0 then OrderedServiceFamilyIds(ids, idOf) else IdsOf(DEFAULT_SELECTED_FAMILIES, idOf)
  }

  // ---- Ordering -----------------------------------------------------------------------

  lemma OrderedIds(ids: seq<string>, idOf: Family -> string, id: string)
    ensures id in OrderedServiceFamilyIds(ids, idOf) <==> id in ids && IsCatalogId(id, idOf)
  {
    var ordered := Ordered(Named(ids, idOf));
    if id in ids && IsCatalogId(id, idOf) {
      var f: Family :| idOf(f) == id;
      OrderedHas(Named(ids, idOf), f);
      var i :| 0 <= i < |ordered| && ordered[i] == f;
      assert OrderedServiceFamilyIds(ids, idOf)[i] == id;
    }
    if id in OrderedServiceFamilyIds(ids, idOf) {
      var i :| 0 <= i < |ordered| && idOf(ordered[i]) == id;
      assert ordered[i] in ordered;
      OrderedHas(Named(ids, idOf), ordered[i]);
    }
  }

  /** Ordering keeps exactly the catalogue ids of the list, each once, in catalogue order. */
  lemma OrderedIdsAreDistinct(ids: seq<string>, idOf: Family -> string, i: nat, j: nat)
    requires DistinctIds(idOf)
    requires i < j < |OrderedServiceFamilyIds(ids, idOf)|
    ensures OrderedServiceFamilyIds(ids, idOf)[i] != OrderedServiceFamilyIds(ids, idOf)[j]
  {
    OrderedIncreases(Named(ids, idOf), i, j);
  }

  /** Only which catalogue ids occur matters, not how often, in which order or among which strangers. */
  lemma OrderedIdsDependOnSet(ids: seq<string>, others: seq<string>, idOf: Family -> string)
    requires forall id :: IsCatalogId(id, idOf) ==> (id in ids <==> id in others)
    ensures OrderedServiceFamilyIds(ids, idOf) == OrderedServiceFamilyIds(others, idOf)
  {
    forall f: Family ensures f in Named(ids, idOf) <==> f in Named(others, idOf) {
      assert IsCatalogId(idOf(f), idOf);
    }
    assert Named(ids, idOf) == Named(others, idOf);
  }

  lemma OrderedIdsIdempotent(ids: seq<string>, idOf: Family -> string)
    ensures OrderedServiceFamilyIds(OrderedServiceFamilyIds(ids, idOf), idOf) == OrderedServiceFamilyIds(ids, idOf)
  {
    var ordered := OrderedServiceFamilyIds(ids, idOf);
    forall id | IsCatalogId(id, idOf) ensures id in ordered <==> id in ids {
      OrderedIds(ids, idOf, id);
    }
    OrderedIdsDependOnSet(ordered, ids, idOf);
  }

  // ---- Traceability -------------------------------------------------------------------

  lemma TracedIdOfTrace(id: string)
    ensures TracedId(TraceOf(id)) == id
  {
    var ref := SERVICE_CATALOG_TRACE_PREFIX + id;
    assert ref[..|SERVICE_CATALOG_TRACE_PREFIX|] == SERVICE_CATALOG_TRACE_PREFIX;
  }

  /** `trace` holds the entries of `wanted`, in some order, with any other entries that name no family in between. */
  ghost predicate CarriesTraceOf(trace: seq<TraceEntry>, wanted: seq<TraceEntry>, idOf: Family -> string) {
    && (forall i :: 0 <= i < |wanted| ==> wanted[i] in trace)
    && (forall i :: 0 <= i < |trace| ==> trace[i] in wanted || !IsCatalogId(TracedId(trace[i]), idOf))
  }

  lemma {:induction false} TracedIdsHas(trace: seq<TraceEntry>, idOf: Family -> string, id: string)
    ensures id in TracedIds(trace, idOf) <==>
            IsCatalogId(id, idOf) && exists i :: 0 <= i < |trace| && TracedId(trace[i]) == id
  {
    if trace != [] {
      var rest := trace[1..];
      TracedIdsHas(rest, idOf, id);
      if exists i :: 0 <= i < |trace| && TracedId(trace[i]) == id {
        var i :| 0 <= i < |trace| && TracedId(trace[i]) == id;
        assert i > 0 ==> TracedId(rest[i - 1]) == id;
      }
      if exists i :: 0 <= i < |rest| && TracedId(rest[i]) == id {
        var i :| 0 <= i < |rest| && TracedId(rest[i]) == id;
        assert TracedId(trace[i + 1]) == id;
      }
    }
  }

  lemma TracedIsOrdered(ids: seq<string>, trace: seq<TraceEntry>, idOf: Family -> string, id: string)
    requires CarriesTraceOf(trace, ServiceCatalogTraceability(ids, idOf), idOf)
    ensures id in TracedIds(trace, idOf) <==> id in OrderedServiceFamilyIds(ids, idOf)
  {
    hide OrderedServiceFamilyIds, TracedIds, IsCatalogId, TracedId;
    var ordered := OrderedServiceFamilyIds(ids, idOf);
    var wanted := ServiceCatalogTraceability(ids, idOf);
    TracedIdsHas(trace, idOf, id);
    OrderedIds(ids, idOf, id);
    TracedIdOfTrace(id);
    if id in ordered {
      var i :| 0 <= i < |ordered| && ordered[i] == id;
      assert wanted[i] == TraceOf(id);
      var k :| 0 <= k < |trace| && trace[k] == wanted[i];
    }
    if id in TracedIds(trace, idOf) {
      var k :| 0 <= k < |trace| && TracedId(trace[k]) == id;
      var i :| 0 <= i < |wanted| && wanted[i] == trace[k];
      TracedIdOfTrace(ordered[i]);
    }
  }

  /** Reading the traceability of a list of ids gives its ordered form back, unrelated entries notwithstanding;
      when no id is in the catalogue the default selection comes back instead. */
  lemma TraceabilityRoundTrip(ids: seq<string>, trace: seq<TraceEntry>, idOf: Family -> string)
    requires CarriesTraceOf(trace, ServiceCatalogTraceability(ids, idOf), idOf)
    ensures var ordered := OrderedServiceFamilyIds(ids, idOf);
            ServiceFamilyIdsFromTraceability(Some(trace), idOf)
            == if ordered != [] then ordered else IdsOf(DEFAULT_SELECTED_FAMILIES, idOf)
  {
    hide OrderedServiceFamilyIds, ServiceCatalogTraceability, TracedIds;
    var ordered := OrderedServiceFamilyIds(ids, idOf);
    var traced := TracedIds(trace, idOf);
    forall id ensures id in traced <==> id in ordered {
      TracedIsOrdered(ids, trace, idOf, id);
    }
    OrderedIdsDependOnSet(traced, ordered, idOf);
    OrderedIdsIdempotent(ids, idOf);
    assert ordered == [] <==> traced == [] by {
      assert ordered != [] ==> ordered[0] in traced;
      assert traced != [] ==> traced[0] in ordered;
    }
  }
}
