/**
 The spec as a normal form of the form: building, reading back and building again (apps/web/src/workload.ts).
 */
module NormalForm {
  import opened Wrappers
  import opened Text
  import opened TextLists
  import opened Regions
  import opened Catalog
  import opened Fields
  import opened Workload
  import opened Validity
  import opened TripNumbers
  import opened TripFamilies

  // ---- Texts survive ---------------------------------------------------------------------

  lemma OrElseIsStable(text: string, fallback: string)
    requires Trim(fallback) == fallback && fallback != ""
    ensures OrElse(OrElse(text, fallback), fallback) == OrElse(text, fallback)
  {
    TrimIsIdempotent(text);
  }

  lemma NonBlankIsStable(text: string)
    ensures NonBlankText(ValueOr(NonBlankText(text), "")) == NonBlankText(text)
  {
    TrimIsIdempotent(text);
  }

  lemma DefaultTexts()
    ensures Trim("web") == "web" && Trim("storage") == "storage" && Trim("database") == "database"
    ensures Trim("global") == "global" && Trim("Customer portal") == "Customer portal"
    ensures NormalizedResidencyScope("global") == None
    ensures ParseList("SOC 2") != [] && ParseTags("team:platform, project:polycost-demo") != []
  {
    hide ParseList, ParseTags;
    TrimOfTrimmed("web");
    TrimOfTrimmed("storage");
    TrimOfTrimmed("database");
    TrimOfTrimmed("global");
    TrimOfTrimmed("Customer portal");
    GlobalIsNoScope();
    DefaultFrameworks();
    DefaultTags();
  }

  lemma GlobalIsNoScope()
    ensures NormalizedResidencyScope("global") == None
  {
    TrimOfTrimmed("global");
    assert ToLower("global") == "global";
    assert OnlyLetters("global") == "global";
  }

  lemma DefaultFrameworks()
    ensures ParseList("SOC 2") == ["SOC 2"] && PrintList(["SOC 2"]) == "SOC 2"
  {
    ListRoundTrip(["SOC 2"]);
  }

  lemma DefaultTags()
    ensures ParseTags("team:platform, project:polycost-demo") != []
    ensures PrintTags(ParseTags("team:platform, project:polycost-demo")) == "team:platform, project:polycost-demo"
  {
    hide ParseTags, PrintTags, IsWellFormedTag, PrintTag;
    var team, project := Tag("team", "platform"), Tag("project", "polycost-demo");
    DefaultTagsAreWellFormed();
    TagsRoundTrip([team, project]);
    PrintedPair(team, project);
    DefaultTagsPrint();
  }

  lemma DefaultTagsPrint()
    ensures PrintTag(Tag("team", "platform")) + ", " + PrintTag(Tag("project", "polycost-demo")) ==
            "team:platform, project:polycost-demo"
  {
  }

  lemma DefaultTagsAreWellFormed()
    ensures IsWellFormedTag(Tag("team", "platform")) && IsWellFormedTag(Tag("project", "polycost-demo"))
  {
  }

  lemma PrintedPair(first: Tag, second: Tag)
    ensures PrintTags([first, second]) == PrintTag(first) + ", " + PrintTag(second)
  {
    hide PrintTag;
    var printed := [PrintTag(first), PrintTag(second)];
    assert PrintEach([first, second]) == printed;
    assert printed[1..] == [PrintTag(second)];
    assert Join(printed[1..], ", ") == PrintTag(second);
  }

  lemma ScopeOfOrElse(scope: string)
    ensures NormalizedResidencyScope(OrElse(scope, "global")) == NormalizedResidencyScope(scope)
  {
    hide NormalizedResidencyScope;
    ScopeIgnoresTrim(scope);
    DefaultTexts();
    if Trim(scope) == "" {
      BlankIsNoScope(scope);
    }
  }

  lemma BlankIsNoScope(scope: string)
    requires Trim(scope) == ""
    ensures NormalizedResidencyScope(scope) == None
  {
  }

  lemma LockReadsScope(regionPreference: string, scope: string, other: string, locked: bool)
    requires NormalizedResidencyScope(scope) == NormalizedResidencyScope(other)
    ensures NormalizedRegionPreference(regionPreference, scope, locked) ==
            NormalizedRegionPreference(regionPreference, other, locked)
  {
    hide NormalizedResidencyScope, CanonicalRegion;
  }

  // ---- Sections survive ------------------------------------------------------------------

  /** Two specs with the same sections; their requirements and traceability are not compared. */
  ghost predicate SameSections(a: Nws, b: Nws) {
    && a.workload == b.workload && a.compute == b.compute && a.storage == b.storage && a.database == b.database
    && a.network == b.network && a.availability == b.availability && a.workloadProfile == b.workloadProfile
  }

  lemma RegionAfterTrip(form: Form)
    ensures var trip := RoundTrip(form);
            NormalizedRegionPreference(trip.regionPreference, trip.dataResidency, trip.complianceLocked)
            == NormalizedRegionPreference(form.regionPreference, form.dataResidency, form.complianceLocked)
  {
    hide RoundTrip, NormalizedRegionPreference, RegionText, NormalizedResidencyScope, OrElse;
    var trip := RoundTrip(form);
    TextsAfterTrip(form);
    NormalizationIsStable(form.regionPreference, form.dataResidency, form.complianceLocked);
    ScopeOfOrElse(form.dataResidency);
    LockReadsScope(trip.regionPreference, trip.dataResidency, form.dataResidency, form.complianceLocked);
  }

  /** The workload section is stable exactly when the workload has a name. */
  lemma WorkloadIsStable(form: Form)
    requires IsValid(form)
    ensures BuildWorkload(RoundTrip(form)) == BuildWorkload(form) <==> Trim(form.workloadName) != ""
  {
    hide RoundTrip, NormalizedRegionPreference, RegionText, OrElse, UsersNumbers, IsValid, Trim;
    var trip := RoundTrip(form);
    TextsAfterTrip(form);
    RegionAfterTrip(form);
    UsersNumbersAreStable(form);
    DefaultTexts();
    TrimIsIdempotent(form.workloadName);
  }

  lemma StorageIsStable(form: Form)
    requires IsValid(form)
    ensures BuildStorage(RoundTrip(form)) == BuildStorage(form)
  {
    hide RoundTrip, OrElse, StorageNumbers, IsValid;
    var trip := RoundTrip(form);
    if form.storageEnabled {
      TextsAfterTrip(form);
      DefaultTexts();
      OrElseIsStable(form.storageRole, "storage");
      StorageNumbersAreStable(form);
    } else {
      TextsAfterTrip(form);
    }
  }

  lemma DatabaseIsStable(form: Form)
    requires IsValid(form)
    ensures BuildDatabase(RoundTrip(form)) == BuildDatabase(form)
  {
    hide RoundTrip, OrElse, DatabaseNumbers, IsValid;
    var trip := RoundTrip(form);
    if form.databaseEnabled {
      TextsAfterTrip(form);
      DefaultTexts();
      OrElseIsStable(form.databaseRole, "database");
      DatabaseNumbersAreStable(form);
    } else {
      TextsAfterTrip(form);
    }
  }

  lemma NetworkAndAvailabilityAreStable(form: Form)
    requires IsValid(form)
    ensures BuildNetwork(RoundTrip(form)) == BuildNetwork(form)
    ensures BuildAvailability(RoundTrip(form)) == BuildAvailability(form)
  {
    hide RoundTrip, NonBlankText, NetworkNumbers, IsValid;
    var trip := RoundTrip(form);
    TextsAfterTrip(form);
    NonBlankIsStable(form.interRegionDestination);
    NonBlankIsStable(form.slaTarget);
    NetworkNumbersAreStable(form);
  }

  /** The profile is stable exactly when at least one framework and at least one tag can be read in the form. */
  lemma ProfileIsStable(form: Form)
    requires IsValid(form)
    ensures BuildProfile(RoundTrip(form)) == BuildProfile(form) <==>
            ParseList(form.complianceFrameworks) != [] && ParseTags(form.tags) != []
  {
    hide RoundTrip, OrElse, ProfileNumbers, IsValid, ParseList, ParseTags, PrintList, PrintTags;
    var trip := RoundTrip(form);
    TextsAfterTrip(form);
    DefaultTexts();
    OrElseIsStable(form.dataResidency, "global");
    ParseListShape(form.complianceFrameworks);
    ListRoundTrip(ParseList(form.complianceFrameworks));
    ParseTagsShape(form.tags);
    TagsRoundTrip(ParseTags(form.tags));
    ProfileNumbersAreStable(form);
  }

  // ---- The compute section ---------------------------------------------------------------

  /** The tier the first requirement names, if it names one. */
  function PrimaryTier(form: Form): Option<InstanceTier> {
    var families := OrderedRequirementIds(form);
    if families == [] then None else InstanceTierFromLabel(TierForRequirement(form, families[0]))
  }

  /** The tier the form shows after the trip: the one whose instance family was written, or else the one the first
      requirement names, or else the default. */
  lemma TierAfterTrip(form: Form)
    ensures RoundTrip(form).instanceTier ==
            if TierForInstanceFamily(PrimaryComputeFamily(form)).Some?
            then TierForInstanceFamily(PrimaryComputeFamily(form)).value
            else ValueOr(PrimaryTier(form), Balanced)
  {
    hide NormalizedRegionPreference, ParseTags, ParseList, ServiceRequirementsFromForm, TraceableFamilies, Ordered;
    hide AsIds, NonBlankText, OrElse, PrimaryComputeFamily, UsersNumbers, ComputeNumbers, StorageNumbers;
    hide DatabaseNumbers, NetworkNumbers, ProfileNumbers, PrintTags, PrintList, ScaleParams;
    hide ReadSelectedFamilies, ReadSelectedFamily, RegionText, ReadNumber, TierForInstanceFamily, FirstKnown;
    hide TierForRequirement, RequiredFamilies;
    RequirementsOf(form);
    OrderedMembers(RequiredFamilies(form));
  }

  /** What the compute section's family and architecture need in order to survive: a burstable family that is
      required without being selected must already be the tier chosen, and a custom tier, which writes no
      instance family, must be named by the first requirement. */
  predicate ComputeChoiceHolds(form: Form) {
    if SelectsBurstable(form) then true
    else if BURSTABLE_COMPUTE in OrderedRequirementIds(form) then form.instanceTier == Small
    else form.instanceTier == Custom ==> PrimaryTier(form) == Some(Custom)
  }

  lemma BurstableAfterTrip(form: Form)
    ensures SelectsBurstable(RoundTrip(form)) <==> BURSTABLE_COMPUTE in OrderedRequirementIds(form)
    ensures SelectsBurstable(form) ==> BURSTABLE_COMPUTE in OrderedRequirementIds(form)
  {
    hide RoundTrip, Ordered, AsIds, IsDriven, StorageServiceFamily, DatabaseServiceFamily;
    var required := RequiredFamilies(form);
    SelectionAfterTrip(form);
    OrderedHas(required, BURSTABLE_COMPUTE);
    InAsIds(Ordered(required), BURSTABLE_COMPUTE);
    InAsIds(DEFAULT_SELECTED_FAMILIES, BURSTABLE_COMPUTE);
  }

  lemma TierFamilies(tier: InstanceTier)
    ensures TierForInstanceFamily(InstanceFamilyForTier(tier)) == if tier == Custom then None else Some(tier)
    ensures InstanceFamilyForTier(tier) == Some(Burstable) <==> tier == Small
  {
  }

  /** The compute section is stable exactly when the choice holds. */
  lemma ComputeIsStable(form: Form)
    requires IsValid(form)
    ensures BuildCompute(RoundTrip(form)) == BuildCompute(form) <==> ComputeChoiceHolds(form)
  {
    hide RoundTrip, OrElse, ComputeNumbers, IsValid, OrderedRequirementIds, SelectsBurstable, PrimaryTier;
    hide NonBlankText, NormalizedRegionPreference, RegionText, ParseList, ParseTags;
    var trip := RoundTrip(form);
    TextsAfterTrip(form);
    TierAfterTrip(form);
    BurstableAfterTrip(form);
    TierFamilies(form.instanceTier);
    TierFamilies(trip.instanceTier);
    DefaultTexts();
    OrElseIsStable(form.computeRole, "web");
    ComputeNumbersAreStable(form);
  }

  // ---- The normal form -------------------------------------------------------------------

  /** Building, reading back and building again gives the same sections exactly when no blank revives a default
      and the compute choice holds. */
  lemma SpecIsNormalForm(form: Form)
    requires IsValid(form)
    ensures SameSections(BuildNwsFromForm(RoundTrip(form)), BuildNwsFromForm(form)) <==>
            && Trim(form.workloadName) != ""
            && ParseList(form.complianceFrameworks) != []
            && ParseTags(form.tags) != []
            && ComputeChoiceHolds(form)
  {
    hide RoundTrip, IsValid, BuildWorkload, BuildCompute, BuildStorage, BuildDatabase, BuildNetwork, BuildAvailability;
    hide BuildProfile, ServiceRequirementsFromForm, TraceableFamilies, Ordered, AsIds, ParseList, ParseTags, Trim;
    hide ComputeChoiceHolds;
    WorkloadIsStable(form);
    ComputeIsStable(form);
    StorageIsStable(form);
    DatabaseIsStable(form);
    NetworkAndAvailabilityAreStable(form);
    ProfileIsStable(form);
  }

  // ---- Without bulk rows, and after two trips --------------------------------------------

  lemma OnlySelectedIsBurstable(form: Form)
    requires form.bulkServiceRows == []
    ensures BURSTABLE_COMPUTE in OrderedRequirementIds(form) <==> SelectsBurstable(form)
  {
    hide IsDriven, Ordered, StorageServiceFamily, DatabaseServiceFamily;
    OrderedHas(RequiredFamilies(form), BURSTABLE_COMPUTE);
    BurstableIsNotDerived(form);
  }

  lemma BurstableIsNotDerived(form: Form)
    ensures !IsDriven(form, BURSTABLE_COMPUTE)
    ensures StorageServiceFamily(form) != BURSTABLE_COMPUTE && DatabaseServiceFamily(form) != BURSTABLE_COMPUTE
  {
    hide WantsSearch, HasPositive;
  }

  /** Without bulk rows the compute choice is easy to see: burstable is selected, or the tier is not custom, or the
      first required family is a virtual machine or an autoscaling fleet. */
  lemma ChoiceWithoutBulkRows(form: Form)
    requires form.bulkServiceRows == []
    ensures var families := OrderedRequirementIds(form);
            ComputeChoiceHolds(form) <==>
            || SelectsBurstable(form)
            || form.instanceTier != Custom
            || (families != [] && (families[0] == VM_COMPUTE || families[0] == AUTOSCALING_COMPUTE))
  {
    hide OrderedRequirementIds, SelectsBurstable;
    OnlySelectedIsBurstable(form);
  }

  /** A custom tier comes back only to a form that keeps it. */
  lemma CustomIsKept(form: Form)
    requires IsValid(form) && form.bulkServiceRows == []
    ensures RoundTrip(form).instanceTier == Custom ==> ComputeChoiceHolds(RoundTrip(form))
  {
    hide RoundTrip, IsValid, OrderedRequirementIds, SelectsBurstable, PrimaryComputeFamily;
    TierAfterTrip(form);
    SwitchesAfterTrip(form);
    FamiliesAreStable(form);
    ChoiceWithoutBulkRows(RoundTrip(form));
    TierFamilies(form.instanceTier);
    PrimaryFamilyNames(form);
  }

  lemma PrimaryFamilyNames(form: Form)
    ensures TierForInstanceFamily(PrimaryComputeFamily(form)) != Some(Custom)
    ensures form.bulkServiceRows == [] && PrimaryTier(form) == Some(Custom) ==>
              var families := OrderedRequirementIds(form);
              families != [] && (families[0] == VM_COMPUTE || families[0] == AUTOSCALING_COMPUTE)
  {
    hide OrderedRequirementIds;
  }

  lemma TextsRevive(form: Form)
    ensures var trip := RoundTrip(form);
            Trim(trip.workloadName) != "" && ParseList(trip.complianceFrameworks) != [] && ParseTags(trip.tags) != []
  {
    hide RoundTrip, ParseList, ParseTags, PrintList, PrintTags, Trim;
    TextsAfterTrip(form);
    DefaultTexts();
    TrimIsIdempotent(form.workloadName);
    ParseListShape(form.complianceFrameworks);
    ListRoundTrip(ParseList(form.complianceFrameworks));
    ParseTagsShape(form.tags);
    TagsRoundTrip(ParseTags(form.tags));
  }

  /** Whatever valid form one starts from, after two trips the sections no longer change. */
  lemma TwoTripsSettle(form: Form)
    requires IsValid(form)
    ensures var settled := RoundTrip(RoundTrip(form));
            SameSections(BuildNwsFromForm(RoundTrip(settled)), BuildNwsFromForm(settled))
  {
    hide RoundTrip, IsValid, BuildNwsFromForm, SameSections, ComputeChoiceHolds, ParseList, ParseTags, Trim;
    var once := RoundTrip(form);
    var settled := RoundTrip(once);
    ValidityIsKept(form);
    ValidityIsKept(once);
    TextsRevive(once);
    SwitchesAfterTrip(form);
    SwitchesAfterTrip(once);
    if settled.instanceTier == Custom {
      CustomIsKept(once);
    } else {
      ChoiceWithoutBulkRows(settled);
    }
    SpecIsNormalForm(settled);
  }

  // ---- A form that changes ---------------------------------------------------------------

  /** The smallest number each rule accepts, or nothing. */
  function LeastText(rule: Rule): Input {
    match rule
    case RequirePositive | RequirePositiveInteger => Number(1.0)
    case OptionalPositive | OptionalNonNegative | OptionalNonNegativeInteger => Blank
    case RequireBounded(min, _) => Number(min)
    case RequireBoundedInteger(min, _) => Number(min)
  }

  /** A valid form with every text blank and nothing selected. */
  function BareForm(): Form {
    Form("", OtherWorkload, "", Test, "", false, "", Linux, NoSupport, AlwaysOn, "", "", Fixed, X86, Shared,
         false, "", ObjectStore, Frequent, StandardClass, NoReplication, false,
         false, "", Postgres, false, "", false, false, Foreign(""), Balanced, [], [], false, false, "", SingleZone,
         (field: Field) => LeastText(RowOf(field).rule))
  }

  lemma LeastTextPasses(field: Field)
    ensures Passes(RowOf(field).rule, LeastText(RowOf(field).rule))
    ensures HasPositive(LeastText(RowOf(field).rule)) ==> RowOf(field).scaled != Some(ParsedOr(0.0))
    ensures HasPositive(LeastText(RowOf(field).rule)) ==> RowOf(field).scaled != Some(NonNegativeIntegerOr(0.0))
  {
    RoundOfWhole(0);
    RoundOfWhole(1);
  }

  lemma BareFormIsValid()
    ensures IsValid(BareForm())
  {
    hide RowOf, LeastText, Passes;
    forall field: Field ensures NumberIsValid(BareForm(), field) {
      LeastTextPasses(field);
    }
  }

  lemma BareFormDrivesNothing(family: Family)
    ensures !IsDriven(BareForm(), family)
  {
    hide RowOf, LeastText, DriversOf, HasPositive;
    forall i | 0 <= i < |DriversOf(family)| ensures !HasPositive(BareForm().numbers(DriversOf(family)[i])) {
      DriverRow(family, i);
      LeastTextPasses(DriversOf(family)[i]);
    }
  }

  /** The conditions are needed: this valid form comes back with families it did not ask for and with other sections. */
  lemma BareFormChanges()
    ensures IsValid(BareForm())
    ensures OrderedRequirementIds(RoundTrip(BareForm())) != OrderedRequirementIds(BareForm())
    ensures !SameSections(BuildNwsFromForm(RoundTrip(BareForm())), BuildNwsFromForm(BareForm()))
  {
    hide RoundTrip, BuildNwsFromForm, SameSections, RowOf, LeastText, Passes, Ordered, DriversOf, HasPositive;
    var form := BareForm();
    BareFormIsValid();
    forall family: Family ensures !Requires(form, family) {
      BareFormDrivesNothing(family);
    }
    assert RequiredFamilies(form) == {};
    OrderedMembers(RequiredFamilies(form));
    FamiliesAreStable(form);
    SpecIsNormalForm(form);
  }
}
