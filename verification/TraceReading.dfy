/**
 The traceability of a spec as texts (apps/web/src/service-catalog.ts) and as the form's reader takes it
 (apps/web/src/workload.ts): both readings name the same families.
 */
module TraceReading {
  import opened Wrappers
  import opened Catalog
  import opened ServiceCatalog
  import opened Workload

  /** What a text names, under a naming of the families. */
  ghost function IdOfText(text: string, idOf: Family -> string): (id: ServiceId)
    ensures match id
            case Known(family) => idOf(family) == text
            case Foreign(other) => other == text && !IsCatalogId(text, idOf)
  {
    if IsCatalogId(text, idOf) then
      var family: Family :| idOf(family) == text;
      Known(family)
    else Foreign(text)
  }

  ghost function IdsInTrace(trace: seq<TraceEntry>, idOf: Family -> string): (ids: seq<ServiceId>)
    ensures |ids| == |trace|
    ensures forall i :: 0 <= i < |trace| ==> ids[i] == IdOfText(TracedId(trace[i]), idOf)
  {
    seq(|trace|, i requires 0 <= i < |trace| => IdOfText(TracedId(trace[i]), idOf))
  }

  lemma NamedInTrace(trace: seq<TraceEntry>, idOf: Family -> string, family: Family)
    requires DistinctIds(idOf)
    ensures family in Named(TracedIds(trace, idOf), idOf) <==> Known(family) in IdsInTrace(trace, idOf)
  {
    var ids := IdsInTrace(trace, idOf);
    assert IsCatalogId(idOf(family), idOf);
    TracedIdsHas(trace, idOf, idOf(family));
    if idOf(family) in TracedIds(trace, idOf) {
      var i :| 0 <= i < |trace| && TracedId(trace[i]) == idOf(family);
      assert ids[i] == Known(family);
    }
    if Known(family) in ids {
      var i :| 0 <= i < |ids| && ids[i] == Known(family);
      assert TracedId(trace[i]) == idOf(family);
    }
  }

  /** Reading the texts gives the names of the families that the form's reader takes. */
  lemma ReadersAgree(trace: seq<TraceEntry>, idOf: Family -> string)
    requires DistinctIds(idOf)
    ensures ServiceFamilyIdsFromTraceability(Some(trace), idOf) ==
            IdsOf(FamiliesFromTraceability(IdsInTrace(trace, idOf)), idOf)
  {
    var ids, texts := IdsInTrace(trace, idOf), TracedIds(trace, idOf);
    var known := set family: Family | Known(family) in ids;
    forall family: Family ensures family in Named(texts, idOf) <==> family in known {
      NamedInTrace(trace, idOf, family);
    }
    assert Named(texts, idOf) == known;
    if texts != [] {
      assert texts[0] in texts;
      TracedIdsHas(trace, idOf, texts[0]);
      var family: Family :| idOf(family) == texts[0];
      assert family in known;
    }
    if known != {} {
      var family :| family in known;
      assert family in Named(texts, idOf);
      assert idOf(family) in texts;
    }
  }

  /** Writing a list of families into a spec as texts and reading it back gives the form the families in catalogue
      order, unrelated entries notwithstanding, or the default selection for an empty list. */
  lemma TraceReachesTheForm(wanted: set<Family>, trace: seq<TraceEntry>, idOf: Family -> string)
    requires DistinctIds(idOf)
    requires CarriesTraceOf(trace, ServiceCatalogTraceability(IdsOf(Ordered(wanted), idOf), idOf), idOf)
    ensures FamiliesFromTraceability(IdsInTrace(trace, idOf)) ==
            if wanted == {} then DEFAULT_SELECTED_FAMILIES else Ordered(wanted)
  {
    var texts := IdsOf(Ordered(wanted), idOf);
    var families := FamiliesFromTraceability(IdsInTrace(trace, idOf));
    var expected := if wanted == {} then DEFAULT_SELECTED_FAMILIES else Ordered(wanted);
    OrderedMembers(wanted);
    forall family: Family ensures family in Named(texts, idOf) <==> family in wanted {
      OrderedHas(wanted, family);
      if family in wanted {
        var i :| 0 <= i < |Ordered(wanted)| && Ordered(wanted)[i] == family;
        assert texts[i] == idOf(family);
      }
      if idOf(family) in texts {
        var i :| 0 <= i < |texts| && texts[i] == idOf(family);
        assert Ordered(wanted)[i] in Ordered(wanted);
        OrderedHas(wanted, Ordered(wanted)[i]);
      }
    }
    assert Named(texts, idOf) == wanted;
    TraceabilityRoundTrip(texts, trace, idOf);
    ReadersAgree(trace, idOf);
    assert IdsOf(families, idOf) == IdsOf(expected, idOf);
    forall i | 0 <= i < |families| ensures families[i] == expected[i] {
      assert IdsOf(families, idOf)[i] == IdsOf(expected, idOf)[i];
    }
  }
}
