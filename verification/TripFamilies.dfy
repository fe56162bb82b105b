/**
 What one trip through the spec does to the service families a form requires (apps/web/src/workload.ts).
 */
module TripFamilies {
  import opened Wrappers
  import opened Catalog
  import opened Fields
  import opened Workload
  import opened Validity
  import opened Regions
  import opened TextLists
  import opened TripNumbers

  // ---- Families survive ------------------------------------------------------------------

  lemma {:induction false} RequirementsName(form: Form, families: seq<Family>, family: Family)
    ensures family in families <==> family in RequirementFamilies(RequirementsFor(form, families))
  {
    var requirements := RequirementsFor(form, families);
    if family in families {
      var i :| 0 <= i < |families| && families[i] == family;
      assert requirements[i].serviceType == Known(family);
    }
  }

  lemma FirstRequirement(form: Form, families: seq<Family>)
    ensures |RequirementsFor(form, families)| > 0 <==> families != []
    ensures FirstKnown(RequirementsFor(form, families))
            == if families == [] then None else Some(RequirementFor(form, families[0]))
  {
  }

  /** The requirements of the spec are those of the required families. */
  lemma RequirementsOf(form: Form)
    ensures RequirementFamilies(ServiceRequirementsFromForm(form)) == RequiredFamilies(form)
    ensures |ServiceRequirementsFromForm(form)| > 0 <==> RequiredFamilies(form) != {}
    ensures FirstKnown(ServiceRequirementsFromForm(form))
            == if RequiredFamilies(form) == {} then None else Some(RequirementFor(form, OrderedRequirementIds(form)[0]))
  {
    hide RequirementFor, RequirementsFor, Requires, Ordered, RequirementFamilies, RequiredFamilies, FirstKnown;
    var required := RequiredFamilies(form);
    OrderedMembers(required);
    FirstRequirement(form, Ordered(required));
    forall f: Family ensures f in RequirementFamilies(ServiceRequirementsFromForm(form)) <==> f in required {
      RequirementsName(form, Ordered(required), f);
      OrderedHas(required, f);
    }
  }

  lemma NothingTraced(form: Form)
    requires RequiredFamilies(form) == {}
    ensures FamiliesFromTraceability(AsIds(Ordered(TraceableFamilies(form)))) == DEFAULT_SELECTED_FAMILIES
  {
    hide IsDriven, StorageServiceFamily, DatabaseServiceFamily;
    forall f: Family ensures f !in TraceableFamilies(form) {
      assert f !in RequiredFamilies(form);
    }
    OrderedMembers(TraceableFamilies(form));
  }

  /** The families the form has selected after one trip. */
  lemma SelectionAfterTrip(form: Form)
    ensures var trip := RoundTrip(form);
            if RequiredFamilies(form) != {} then
              && trip.selectedServiceFamilyIds == AsIds(OrderedRequirementIds(form))
              && OrderedRequirementIds(form) != []
              && trip.selectedServiceFamilyId == Known(OrderedRequirementIds(form)[0])
            else
              && trip.selectedServiceFamilyIds == AsIds(DEFAULT_SELECTED_FAMILIES)
              && trip.selectedServiceFamilyId == Known(VM_COMPUTE)
    ensures RoundTrip(form).bulkServiceRows == []
  {
    hide NormalizedRegionPreference, ParseTags, ParseList, ServiceRequirementsFromForm, TraceableFamilies, Ordered;
    hide AsIds, NonBlankText, OrElse, PrimaryComputeFamily, UsersNumbers, ComputeNumbers, StorageNumbers;
    hide DatabaseNumbers, NetworkNumbers, ProfileNumbers, PrintTags, PrintList, ReadInstanceTier, RegionText;
    hide RequiredFamilies, RequirementFamilies, FirstKnown, FamiliesFromTraceability, ReadNumber;
    RequirementsOf(form);
    OrderedMembers(RequiredFamilies(form));
    if RequiredFamilies(form) == {} {
      NothingTraced(form);
    }
  }

  lemma InAsIds(families: seq<Family>, family: Family)
    ensures Known(family) in AsIds(families) <==> family in families
  {
    if family in families {
      var i :| 0 <= i < |families| && families[i] == family;
      assert AsIds(families)[i] == Known(family);
    }
  }

  lemma DriverRow(family: Family, i: nat)
    requires i < |DriversOf(family)|
    ensures var row := RowOf(DriversOf(family)[i]);
            && row.written.None?
            && (row.scaled == Some(ParsedOr(0.0)) || row.scaled == Some(NonNegativeIntegerOr(0.0)))
            && row.readBack == Default(0.0)
  {
  }

  lemma RoundedPositive(text: Input)
    ensures HasPositive(NumberToInput(Write(ParsedOr(0.0), text))) ==> HasPositive(text)
    ensures HasPositive(NumberToInput(Write(NonNegativeIntegerOr(0.0), text))) ==> HasPositive(text)
  {
    RoundOfWhole(0);
  }

  /** No driver is positive after the trip that was not positive before: no default adds a family. */
  lemma DrivenAfterTrip(form: Form, family: Family)
    ensures IsDriven(RoundTrip(form), family) ==> IsDriven(form, family)
  {
    hide RoundTrip, RowOf, Write, DriversOf, IsRecorded, SectionOn, HasPositive;
    if IsDriven(RoundTrip(form), family) {
      var i :| 0 <= i < |DriversOf(family)| && HasPositive(RoundTrip(form).numbers(DriversOf(family)[i]));
      var driver := DriversOf(family)[i];
      DriverRow(family, i);
      NumberAfterTrip(form, driver);
      RoundedPositive(form.numbers(driver));
      NoPositiveDefault();
      assert HasPositive(form.numbers(driver));
    }
  }

  /** The requirements that a driver calls for record it. */
  lemma DriverIsRecorded(family: Family, i: nat)
    requires i < |DriversOf(family)|
    ensures family in ReadFamilies(DriversOf(family)[i])
  {
  }

  lemma DriverIsChecked(family: Family, i: nat)
    requires i < |DriversOf(family)|
    ensures RowOf(DriversOf(family)[i]).checked == Always
  {
  }

  /** In a valid form, every positive driver comes back from the `scaleParams` as the number typed. */
  lemma DriversComeBack(form: Form, family: Family, i: nat)
    requires IsValid(form) && i < |DriversOf(family)| && HasPositive(form.numbers(DriversOf(family)[i]))
    ensures Parse(RoundTrip(form).numbers(DriversOf(family)[i])) == Parse(form.numbers(DriversOf(family)[i]))
  {
    hide RoundTrip, RowOf, Write, DriversOf, SectionOn, InBulk, StorageServiceFamily, DatabaseServiceFamily;
    hide Passes, SuitsScaled;
    var driver := DriversOf(family)[i];
    DriverRow(family, i);
    DriverIsRecorded(family, i);
    DriverIsChecked(family, i);
    assert IsDriven(form, family);
    assert family in ReadFamilies(driver) * RequiredFamilies(form);
    assert NumberIsValid(form, driver);
    NumberAfterTrip(form, driver);
    ScaledRowsFit(driver);
    ScaledIsFaithful(RowOf(driver).rule, RowOf(driver).scaled.value, form.numbers(driver));
  }

  /** So in a valid form the same families are driven after a trip as before. */
  lemma DrivenIsStable(form: Form, family: Family)
    requires IsValid(form)
    ensures IsDriven(RoundTrip(form), family) <==> IsDriven(form, family)
  {
    hide RoundTrip, IsValid, DriversOf;
    if IsDriven(form, family) {
      var i :| 0 <= i < |DriversOf(family)| && HasPositive(form.numbers(DriversOf(family)[i]));
      DriversComeBack(form, family, i);
    }
    DrivenAfterTrip(form, family);
  }

  lemma NoPositiveDefault()
    ensures !HasPositive(ReadBackText(Default(0.0)))
  {
  }

  lemma SearchRow(field: Field)
    requires field in {Database(SearchNodeCount), Database(SearchStorageGb), Database(SearchQueriesMillion)}
    ensures RowOf(field).written == Some(Writing(PositiveNumber, Open)) ||
            RowOf(field).written == Some(Writing(PositiveInteger, Open))
  {
  }

  lemma SearchAfterTrip(form: Form)
    requires IsValid(form) && form.databaseEnabled
    ensures WantsSearch(RoundTrip(form)) == WantsSearch(form)
  {
    hide RoundTrip, RowOf, Write, IsValid, HasPositive;
    forall field | field in {Database(SearchNodeCount), Database(SearchStorageGb), Database(SearchQueriesMillion)}
      ensures HasPositive(RoundTrip(form).numbers(field)) == HasPositive(form.numbers(field))
    {
      SearchRow(field);
      ShapeAfterTrip(form, field);
      PositiveByShape(form.numbers(field), RoundTrip(form).numbers(field));
    }
  }

  /** A family is required after the trip exactly when it was required before. */
  lemma RequiredAfterTrip(form: Form, family: Family)
    requires IsValid(form) && RequiredFamilies(form) != {}
    ensures Requires(RoundTrip(form), family) <==> Requires(form, family)
  {
    hide RoundTrip, IsDriven, IsValid, StorageServiceFamily, WantsSearch, Ordered, AsIds;
    var required := RequiredFamilies(form);
    SelectionAfterTrip(form);
    SwitchesAfterTrip(form);
    InAsIds(Ordered(required), family);
    OrderedHas(required, family);
    assert Ordered(required)[0] in Ordered(required);
    OrderedHas(required, Ordered(required)[0]);
    if form.databaseEnabled {
      SearchAfterTrip(form);
    }
    DrivenAfterTrip(form, family);
  }

  /** The required families are a fixed point of the trip exactly when there are any: only a form that
      requires nothing comes back with the default selection instead. */
  lemma FamiliesAreStable(form: Form)
    requires IsValid(form)
    ensures OrderedRequirementIds(RoundTrip(form)) == OrderedRequirementIds(form) <==> OrderedRequirementIds(form) != []
  {
    hide RoundTrip, IsValid, Requires, Ordered, AsIds;
    OrderedMembers(RequiredFamilies(form));
    OrderedMembers(RequiredFamilies(RoundTrip(form)));
    if RequiredFamilies(form) != {} {
      forall f: Family ensures f in RequiredFamilies(RoundTrip(form)) <==> f in RequiredFamilies(form) {
        RequiredAfterTrip(form, f);
      }
      assert RequiredFamilies(RoundTrip(form)) == RequiredFamilies(form);
    } else {
      DefaultIsRequired(form);
    }
  }

  lemma DefaultIsRequired(form: Form)
    requires RequiredFamilies(form) == {}
    ensures VM_COMPUTE in RequiredFamilies(RoundTrip(form))
  {
    hide RoundTrip, IsDriven, StorageServiceFamily, DatabaseServiceFamily, AsIds;
    SelectionAfterTrip(form);
  }
}
