/**
 Reading any spec into the form, a parsed one as well as a built one, and building again (apps/web/src/workload.ts).
 */
module SpecReading {
  import opened Wrappers
  import opened Text
  import opened TextLists
  import opened Regions
  import opened Catalog
  import opened Fields
  import opened Workload
  import opened Validity
  import opened TripNumbers
  import opened TripFamilies
  import opened NormalForm
  import opened SettledForm
  import opened BuiltSpec
  import opened ApiSchema

  // ---- Fault tolerance ---------------------------------------------------------------------

  /** The workload outlives the loss of a zone. */
  predicate SurvivesZone(tolerance: FaultTolerance) {
    tolerance != SingleZone
  }

  /** The workload outlives the loss of a region. */
  predicate SurvivesRegion(tolerance: FaultTolerance) {
    tolerance == MultiRegionTolerance || tolerance == ActiveActive
  }

  /** A fault tolerance that a spec leaves out is shown as what its flags promise, no more and no less; one that is
      there is shown as it is. */
  lemma ToleranceIsPromised(nws: Nws)
    ensures var shown := FormFromNws(nws).faultTolerance;
            match nws.availability.faultTolerance
            case Some(tolerance) => shown == tolerance
            case None =>
              && (SurvivesZone(shown) <==> nws.availability.multiAz || nws.availability.multiRegion)
              && (SurvivesRegion(shown) <==> nws.availability.multiRegion)
              && shown != ActiveActive
  {
    hide PrintTags, PrintList, ReadInstanceTier, ReadSelectedFamilies, ReadSelectedFamily, AsIds, RegionText;
    hide ReadNumber;
  }

  // ---- What a spec leaves out --------------------------------------------------------------

  /** `defaultWorkloadForm`, whose numbers are the defaults of the fields but for those that are never filled in. */
  function DefaultNumber(field: Field): Input {
    match field
    case Users(DailyActiveUsers) => Number(5000.0)
    case Users(PeakConcurrentUsers) => Number(600.0)
    case Compute(Vcpu) => Number(2.0)
    case Compute(MemoryGb) => Number(4.0)
    case Compute(InstanceCount) => Number(2.0)
    case Compute(AutoscaleMin) => Number(2.0)
    case Compute(AutoscaleMax) => Number(6.0)
    case Storage(StorageSizeGb) => Number(250.0)
    case Database(DatabaseSizeGb) => Number(100.0)
    case Network(MonthlyEgressGb) => Number(750.0)
    case _ => ReadBackText(RowOf(field).readBack)
  }

  function DefaultForm(): Form {
    Form(
      workloadName := "Customer portal",
      workloadType := WebApp,
      regionPreference := "us-east",
      environment := Production,
      dataResidency := "global",
      complianceLocked := false,
      complianceFrameworks := "SOC 2",
      operatingSystem := Linux,
      supportTier := BusinessSupport,
      usagePattern := AlwaysOn,
      tags := "team:platform, project:polycost-demo",
      computeRole := "web",
      scalingType := Fixed,
      processorArchitecture := X86,
      computeTenancy := Shared,
      storageEnabled := true,
      storageRole := "uploads",
      storageType := ObjectStore,
      storageAccessPattern := Frequent,
      storageClass := StandardClass,
      storageReplication := NoReplication,
      multiAttachEnabled := false,
      databaseEnabled := true,
      databaseRole := "primary",
      databaseEngine := Postgres,
      databaseHighAvailability := true,
      interRegionDestination := "",
      cdn := true,
      loadBalancer := true,
      selectedServiceFamilyId := Known(VM_COMPUTE),
      instanceTier := Balanced,
      bulkServiceRows := [],
      selectedServiceFamilyIds := AsIds(DEFAULT_SELECTED_FAMILIES),
      multiAz := true,
      multiRegion := false,
      slaTarget := "99.9%",
      faultTolerance := MultiAzTolerance,
      numbers := (field: Field) => DefaultNumber(field))
  }

  /** What a spec leaves out is shown as in the default form, each part by itself. */
  lemma LeftOutIsDefault(nws: Nws)
    ensures var form, default, profile := FormFromNws(nws), DefaultForm(), nws.workloadProfile;
            && (nws.workload.name.None? ==> form.workloadName == default.workloadName)
            && (profile.None? || profile.value.environment.None? ==> form.environment == default.environment)
            && (profile.None? || profile.value.operatingSystem.None? ==>
                  form.operatingSystem == default.operatingSystem)
            && (profile.None? || profile.value.supportTier.None? ==> form.supportTier == default.supportTier)
            && (profile.None? || profile.value.usagePattern.None? ==> form.usagePattern == default.usagePattern)
            && (profile.None? || profile.value.tags.None? ==> form.tags == default.tags)
            && (profile.None? || profile.value.dataResidency.None? ==>
                  && form.dataResidency == default.dataResidency
                  && form.complianceLocked == default.complianceLocked)
            && (profile.None? || profile.value.dataResidency.None?
                || profile.value.dataResidency.value.frameworks.None? ==>
                  form.complianceFrameworks == default.complianceFrameworks)
    ensures var form, default := FormFromNws(nws), DefaultForm();
            && (nws.compute == [] ==>
                  form.computeRole == default.computeRole && form.scalingType == default.scalingType)
            && (nws.compute == [] || nws.compute[0].processorArchitecture.None? ==>
                  form.processorArchitecture == default.processorArchitecture)
            && (nws.compute == [] || nws.compute[0].tenancy.None? ==> form.computeTenancy == default.computeTenancy)
            && (nws.storage == [] || nws.storage[0].accessPattern.None? ==>
                  form.storageAccessPattern == default.storageAccessPattern)
            && (nws.storage == [] || nws.storage[0].storageClass.None? ==> form.storageClass == default.storageClass)
            && (nws.storage == [] || nws.storage[0].replication.None? ==>
                  form.storageReplication == default.storageReplication)
            && (nws.storage == [] || nws.storage[0].multiAttachEnabled.None? ==>
                  form.multiAttachEnabled == default.multiAttachEnabled)
            && (nws.storage == [] ==>
                  form.storageRole == default.storageRole && form.storageType == default.storageType)
            && (nws.database == [] ==>
                  && form.databaseRole == default.databaseRole && form.databaseEngine == default.databaseEngine
                  && form.databaseHighAvailability == default.databaseHighAvailability)
  {
    hide PrintTags, PrintList, ReadInstanceTier, ReadSelectedFamilies, ReadSelectedFamily, AsIds, RegionText;
    hide ReadNumber;
  }

  /** A number that neither a section nor a requirement gives is shown as in the default form, or not at all. */
  lemma MissingNumberIsDefault(nws: Nws, field: Field)
    requires SectionNumber(nws, field) == None
    requires FirstScaled(nws.serviceRequirements, ReadFamilies(field), field) == None
    ensures var shown := FormFromNws(nws).numbers(field);
            shown == DefaultForm().numbers(field) || (shown == Blank && RowOf(field).readBack == LeaveBlank)
  {
    hide SectionNumber, FirstScaled, PrintTags, PrintList, ReadInstanceTier, ReadSelectedFamilies, ReadSelectedFamily;
    hide AsIds, RegionText, ReadFamilies;
  }

  // ---- The default form --------------------------------------------------------------------

  lemma StorageDefaultPasses(f: StorageField)
    ensures Passes(StorageRow(f).rule, DefaultNumber(Storage(f)))
  {
    RoundOfWhole(0);
  }

  lemma DatabaseDefaultPasses(f: DatabaseField)
    ensures Passes(DatabaseRow(f).rule, DefaultNumber(Database(f)))
  {
    RoundOfWhole(0);
  }

  lemma NetworkDefaultPasses(f: NetworkField)
    ensures Passes(NetworkRow(f).rule, DefaultNumber(Network(f)))
  {
    RoundOfWhole(0);
  }

  lemma RuntimeDefaultPasses(f: RuntimeField)
    ensures Passes(RuntimeRow(f).rule, DefaultNumber(Runtime(f)))
  {
  }

  lemma DefaultPasses(field: Field)
    ensures Passes(RowOf(field).rule, DefaultNumber(field))
  {
    hide DefaultForm, StorageRow, DatabaseRow, NetworkRow, RuntimeRow;
    match field {
      case Storage(f) => StorageDefaultPasses(f);
      case Database(f) => DatabaseDefaultPasses(f);
      case Network(f) => NetworkDefaultPasses(f);
      case Runtime(f) => RuntimeDefaultPasses(f);
      case Users(_) =>
      case Compute(_) =>
      case Profile(_) =>
      case Supporting(_) =>
      case Analytics(_) =>
      case Ai(_) =>
      case Integration(_) =>
    }
  }

  lemma DefaultFormIsValid()
    ensures IsValid(DefaultForm())
  {
    hide RowOf, Passes, AsIds, DefaultNumber;
    forall field: Field ensures NumberIsValid(DefaultForm(), field) {
      DefaultPasses(field);
    }
  }

  lemma DefaultIsNoUse(family: Family)
    ensures !IsDriven(DefaultForm(), family)
  {
    hide RowOf, DriversOf, AsIds;
    forall i | 0 <= i < |DriversOf(family)| ensures !HasPositive(DefaultForm().numbers(DriversOf(family)[i])) {
      DriverRow(family, i);
      UsageDefault(DriversOf(family)[i]);
    }
  }

  lemma UsageDefault(field: Field)
    requires IsUsage(field)
    ensures DefaultNumber(field) == Number(0.0)
  {
  }

  /** The default form asks for exactly the default families. */
  lemma DefaultFormRequires()
    ensures OrderedRequirementIds(DefaultForm()) == DEFAULT_SELECTED_FAMILIES
  {
    hide IsDriven, AsIds, PickFrom, DefaultNumber;
    var form := DefaultForm();
    forall family: Family ensures Requires(form, family) <==> family in DEFAULT_SELECTED_FAMILIES {
      DefaultIsNoUse(family);
      InAsIds(DEFAULT_SELECTED_FAMILIES, family);
      NoSearchByDefault();
    }
    OrderedOfMembers(RequiredFamilies(form), DEFAULT_SELECTED_FAMILIES, 0);
  }

  lemma NoSearchByDefault()
    ensures !WantsSearch(DefaultForm())
  {
    hide AsIds;
  }

  /** The default form is valid, the API accepts its spec, its spec is a normal form, and its fault tolerance is what
      its flags promise. */
  lemma DefaultFormIsSound()
    ensures IsValid(DefaultForm()) && Accepts(BuildNwsFromForm(DefaultForm()))
    ensures SameSections(BuildNwsFromForm(RoundTrip(DefaultForm())), BuildNwsFromForm(DefaultForm()))
    ensures SurvivesZone(DefaultForm().faultTolerance) <==> DefaultForm().multiAz || DefaultForm().multiRegion
    ensures SurvivesRegion(DefaultForm().faultTolerance) <==> DefaultForm().multiRegion
  {
    hide BuildNwsFromForm, RoundTrip, IsValid, Accepts, ParseList, ParseTags, AsIds, SameSections;
    hide OrderedRequirementIds, ListsFit, SectionsAreSafe, QuantitiesAreSafe;
    DefaultFormIsValid();
    DefaultTexts();
    DefaultListsFit();
    DefaultIsSafe();
    ValidFormIsAccepted(DefaultForm());
    DefaultFormRequires();
    ChoiceWithoutBulkRows(DefaultForm());
    SpecIsNormalForm(DefaultForm());
  }

  lemma DefaultIsSmall(field: Field)
    ensures Parse(DefaultNumber(field)).Some? ==> Parse(DefaultNumber(field)).value <= 5000.0
  {
  }

  lemma DefaultIsSafe()
    ensures SectionsAreSafe(DefaultForm()) && QuantitiesAreSafe(DefaultForm())
  {
    hide IsValid, Written, SectionOn, IsWhole, AsIds, QuantityFor, DefaultNumber, RowOf;
    var form := DefaultForm();
    DefaultFormIsValid();
    forall field: Field | IsWhole(field) && SectionOn(form, field) && Written(form, field).Some?
      ensures Written(form, field).value <= LARGEST_INTEGER
    {
      WrittenIsTyped(form, field);
      DefaultIsSmall(field);
    }
    forall family: Family ensures !InBulk(form.bulkServiceRows, family) {
      NoRows(family);
    }
  }

  lemma WrittenIsTyped(form: Form, field: Field)
    requires IsValid(form) && SectionOn(form, field) && Written(form, field).Some?
    ensures Parse(form.numbers(field)) == Written(form, field)
  {
    hide RowOf, Write, GateOpen, IsValid;
    ValidNumbersAreFaithful(form, field);
  }

  lemma DefaultListsFit()
    ensures ListsFit(DefaultForm())
  {
    hide ParseList, ParseTags, PrintTags, IsWellFormedTag, PrintTag, AsIds;
    var team, project := Tag("team", "platform"), Tag("project", "polycost-demo");
    DefaultFrameworks();
    DefaultTagsAreWellFormed();
    TagsRoundTrip([team, project]);
    PrintedPair(team, project);
    DefaultTagsPrint();
  }

  // ---- What a spec says is kept ------------------------------------------------------------

  /** The spec of the form that another spec was read into. */
  function Rebuilt(nws: Nws): Nws {
    BuildNwsFromForm(FormFromNws(nws))
  }

  /** Kept as it is, if it is there. */
  predicate Kept<T(==)>(said: Option<T>, rebuilt: Option<T>) {
    said.Some? ==> rebuilt == said
  }

  /** Kept without the white space around it, if anything else is there. */
  predicate KeptText(said: Option<string>, rebuilt: Option<string>) {
    said.Some? && Trim(said.value) != "" ==> rebuilt == Some(Trim(said.value))
  }

  lemma WorkloadIsKept(nws: Nws)
    ensures var rebuilt := Rebuilt(nws);
            && rebuilt.workload.kind == nws.workload.kind
            && KeptText(nws.workload.name, rebuilt.workload.name)
            && rebuilt.network.cdn == nws.network.cdn && rebuilt.network.loadBalancer == nws.network.loadBalancer
            && KeptText(nws.network.interRegionDestination, rebuilt.network.interRegionDestination)
            && rebuilt.availability.multiAz == nws.availability.multiAz
            && rebuilt.availability.multiRegion == nws.availability.multiRegion
            && KeptText(nws.availability.slaTarget, rebuilt.availability.slaTarget)
            && Kept(nws.availability.faultTolerance, rebuilt.availability.faultTolerance)
  {
    hide PrintTags, PrintList, ReadInstanceTier, ReadSelectedFamilies, ReadSelectedFamily, AsIds, RegionText;
    hide ReadNumber;
    hide NormalizedRegionPreference, ParseTags, ParseList, ServiceRequirementsFromForm, TraceableFamilies, Ordered;
    hide OrElse, PrimaryComputeFamily, UsersNumbers, ComputeNumbers, StorageNumbers, Trim;
    hide DatabaseNumbers, NetworkNumbers, ProfileNumbers, ProcessorArchitecture;
  }

  /** Every part of a profile is kept; frameworks and tags are when they have the shape that a text can carry. */
  lemma ProfileIsKept(nws: Nws)
    requires nws.workloadProfile.Some?
    ensures var said, rebuilt := nws.workloadProfile.value, Rebuilt(nws).workloadProfile.value;
            && Rebuilt(nws).workloadProfile.Some?
            && Kept(said.environment, rebuilt.environment)
            && Kept(said.operatingSystem, rebuilt.operatingSystem)
            && Kept(said.supportTier, rebuilt.supportTier)
            && Kept(said.usagePattern, rebuilt.usagePattern)
            && (said.tags.Some? && said.tags.value != [] && AllWellFormed(said.tags.value) ==>
                  rebuilt.tags == said.tags)
            && (said.dataResidency.Some? ==>
                  && rebuilt.dataResidency.Some?
                  && rebuilt.dataResidency.value.complianceLocked == said.dataResidency.value.complianceLocked
                  && KeptText(Some(said.dataResidency.value.scope), Some(rebuilt.dataResidency.value.scope))
                  && var frameworks := said.dataResidency.value.frameworks;
                     (frameworks.Some? && frameworks.value != [] && AllListItems(frameworks.value) ==>
                        rebuilt.dataResidency.value.frameworks == frameworks))
  {
    hide PrintTags, PrintList, ReadInstanceTier, ReadSelectedFamilies, ReadSelectedFamily, AsIds, RegionText;
    hide ReadNumber;
    hide NormalizedRegionPreference, ParseTags, ParseList, ServiceRequirementsFromForm, TraceableFamilies, Ordered;
    hide BuildWorkload, BuildCompute, BuildStorage, BuildDatabase, BuildNetwork, Trim;
    hide ProfileNumbers, AllListItems, AllWellFormed;
    var said := nws.workloadProfile.value;
    if said.tags.Some? {
      TagsRoundTrip(said.tags.value);
    }
    if said.dataResidency.Some? && said.dataResidency.value.frameworks.Some? {
      ListRoundTrip(said.dataResidency.value.frameworks.value);
    }
  }

  /** The first entry of each list is kept, and its role without the white space around it; the form has room for no
      other. */
  lemma FirstEntriesAreKept(nws: Nws)
    ensures var rebuilt := Rebuilt(nws);
            && (nws.compute != [] ==>
                  && KeptText(Some(nws.compute[0].role), Some(rebuilt.compute[0].role))
                  && rebuilt.compute[0].scalingType == nws.compute[0].scalingType
                  && Kept(nws.compute[0].tenancy, rebuilt.compute[0].tenancy)
                  && (FormFromNws(nws).instanceTier != Accelerated ==>
                        Kept(nws.compute[0].processorArchitecture, rebuilt.compute[0].processorArchitecture)))
            && |rebuilt.storage| == (if nws.storage == [] then 0 else 1)
            && (nws.storage != [] ==>
                  && KeptText(Some(nws.storage[0].role), Some(rebuilt.storage[0].role))
                  && rebuilt.storage[0].kind == nws.storage[0].kind
                  && Kept(nws.storage[0].accessPattern, rebuilt.storage[0].accessPattern)
                  && (nws.storage[0].storageClass != Some(StandardClass) ==>
                        Kept(nws.storage[0].storageClass, rebuilt.storage[0].storageClass))
                  && (nws.storage[0].replication != Some(NoReplication) ==>
                        Kept(nws.storage[0].replication, rebuilt.storage[0].replication)))
            && |rebuilt.database| == (if nws.database == [] then 0 else 1)
            && (nws.database != [] ==>
                  && KeptText(Some(nws.database[0].role), Some(rebuilt.database[0].role))
                  && rebuilt.database[0].engine == nws.database[0].engine
                  && rebuilt.database[0].highAvailability == nws.database[0].highAvailability)
  {
    hide PrintTags, PrintList, ReadInstanceTier, ReadSelectedFamilies, ReadSelectedFamily, AsIds, RegionText;
    hide ReadNumber;
    hide NormalizedRegionPreference, ParseTags, ParseList, ServiceRequirementsFromForm, TraceableFamilies, Ordered;
    hide PrimaryComputeFamily, UsersNumbers, ComputeNumbers, StorageNumbers, Trim;
    hide DatabaseNumbers, NetworkNumbers, ProfileNumbers, BuildWorkload, BuildNetwork, BuildProfile;
  }

  // ---- Numbers -----------------------------------------------------------------------------

  /** Either the number itself, or nothing for zero. */
  predicate WritesOrDrops(shape: Shape, x: real) {
    Write(shape, Number(x)) == Some(x) || (x == 0.0 && Write(shape, Number(x)) == None)
  }

  lemma StorageIsWritten(f: StorageField, x: real)
    requires Allows(Storage(f), x)
    ensures WritesOrDrops(StorageRow(f).written.value.shape, x)
  {
    hide Rounded;
    RoundsToItself(x);
  }

  lemma DatabaseIsWritten(f: DatabaseField, x: real)
    requires Allows(Database(f), x)
    ensures WritesOrDrops(DatabaseRow(f).written.value.shape, x)
  {
    hide Rounded;
    RoundsToItself(x);
  }

  lemma NetworkIsWritten(f: NetworkField, x: real)
    requires Allows(Network(f), x)
    ensures WritesOrDrops(NetworkRow(f).written.value.shape, x)
  {
    hide Rounded;
    RoundsToItself(x);
  }

  /** What the API's schema allows the form writes as it is, but for zeros that it leaves out. */
  lemma AllowedIsWritten(field: Field, x: real)
    requires Allows(field, x) && RowOf(field).written.Some?
    ensures WritesOrDrops(RowOf(field).written.value.shape, x)
  {
    hide Rounded, StorageRow, DatabaseRow, NetworkRow;
    RoundsToItself(x);
    match field {
      case Storage(f) => StorageIsWritten(f, x);
      case Database(f) => DatabaseIsWritten(f, x);
      case Network(f) => NetworkIsWritten(f, x);
      case Users(_) =>
      case Compute(_) =>
      case Profile(_) =>
      case _ =>
    }
  }

  /** Some section has a place for the field, and the choices of the form leave it open. */
  predicate HasUse(form: Form, field: Field) {
    RowOf(field).written.Some? && GateOpen(form, RowOf(field).written.value.gate)
  }

  /** Every number of a spec that the API accepts is kept, unless it is zero or the form has its gate closed: no
      rounding, no fallback. */
  lemma NumberIsKept(nws: Nws, field: Field)
    requires NumbersFit(nws) && SectionNumber(nws, field).Some?
    ensures var said, rebuilt := SectionNumber(nws, field), SectionNumber(Rebuilt(nws), field);
            rebuilt == said || (rebuilt == None && (said == Some(0.0) || !HasUse(FormFromNws(nws), field)))
  {
    hide BuildNwsFromForm, SectionNumber, FirstScaled, RowOf, NumbersFit, Allows, GateOpen, Write, ReadBackText;
    hide PrintTags, PrintList, ReadInstanceTier, ReadSelectedFamilies, ReadSelectedFamily, AsIds, RegionText;
    var form := FormFromNws(nws);
    SectionNumberIsAllowed(nws, field);
    AllowedIsWritten(field, SectionNumber(nws, field).value);
    BuiltNumber(form, field);
  }

  // ---- Services ----------------------------------------------------------------------------

  /** No service is lost: every catalogue family that a spec requires is required again; and a spec that requires
      nothing comes to the services of its trace, or to the default ones. */
  lemma ServicesAreKept(nws: Nws, family: Family)
    ensures family in RequirementFamilies(nws.serviceRequirements) ==> Demands(Rebuilt(nws), family)
    ensures nws.serviceRequirements == [] && Known(family) in nws.sourceTraceability ==> Demands(Rebuilt(nws), family)
    ensures nws.serviceRequirements == [] && (forall f: Family :: Known(f) !in nws.sourceTraceability) ==>
              family in DEFAULT_SELECTED_FAMILIES ==> Demands(Rebuilt(nws), family)
  {
    hide BuildNwsFromForm, Demands, Ordered, PrintTags, PrintList, ReadInstanceTier, AsIds;
    hide RegionText, ReadNumber, ReadSelectedFamily, IsDriven, InBulk, StorageServiceFamily, DatabaseServiceFamily;
    var form := FormFromNws(nws);
    DemandIsRequired(form, family);
    InAsIds(ReadSelectedFamilies(nws), family);
    OrderedHas(RequirementFamilies(nws.serviceRequirements), family);
    var traced := set f: Family | Known(f) in nws.sourceTraceability;
    OrderedHas(traced, family);
  }

  /** The primary service is one of those selected: the first that the spec requires, or else the first of all. */
  lemma PrimaryIsSelected(nws: Nws)
    ensures var form := FormFromNws(nws);
            && (nws.serviceRequirements == [] ==>
                  && |form.selectedServiceFamilyIds| > 0
                  && form.selectedServiceFamilyId == form.selectedServiceFamilyIds[0])
            && (forall k :: IsFirstKnown(nws, k) ==>
                  && form.selectedServiceFamilyId == nws.serviceRequirements[k].serviceType
                  && form.selectedServiceFamilyId in form.selectedServiceFamilyIds)
  {
    hide Ordered, PrintTags, PrintList, ReadInstanceTier, RegionText, ReadNumber, RequirementFamilies;
    var traced := set f: Family | Known(f) in nws.sourceTraceability;
    OrderedMembers(traced);
    forall k | IsFirstKnown(nws, k)
      ensures FirstKnown(nws.serviceRequirements) == Some(nws.serviceRequirements[k])
      ensures nws.serviceRequirements[k].serviceType in FormFromNws(nws).selectedServiceFamilyIds
    {
      var family := nws.serviceRequirements[k].serviceType.family;
      FirstKnownIsThere(nws.serviceRequirements, k);
      OrderedHas(RequirementFamilies(nws.serviceRequirements), family);
      InAsIds(Ordered(RequirementFamilies(nws.serviceRequirements)), family);
      RequirementFamilyIsThere(nws.serviceRequirements, k);
    }
  }

  ghost predicate IsFirstKnown(nws: Nws, k: int) {
    && 0 <= k < |nws.serviceRequirements| && nws.serviceRequirements[k].serviceType.Known?
    && forall j :: 0 <= j < k ==> !nws.serviceRequirements[j].serviceType.Known?
  }

  lemma RequirementFamilyIsThere(requirements: seq<ServiceRequirement>, k: nat)
    requires k < |requirements| && requirements[k].serviceType.Known?
    ensures requirements[k].serviceType.family in RequirementFamilies(requirements)
  {
  }

  lemma {:induction false} FirstKnownIsThere(requirements: seq<ServiceRequirement>, k: nat)
    requires k < |requirements| && requirements[k].serviceType.Known?
    requires forall j :: 0 <= j < k ==> !requirements[j].serviceType.Known?
    ensures FirstKnown(requirements) == Some(requirements[k])
    decreases k
  {
    if k > 0 {
      FirstKnownIsThere(requirements[1..], k - 1);
    }
  }

  /** Its quantity may be: except for machines, whatever a spec asks for comes to one of each. */
  lemma QuantitiesAreForgotten(nws: Nws, k: nat, family: Family)
    requires IsFor(Rebuilt(nws), k, family) && family !in COMPUTE_FAMILIES
    ensures Rebuilt(nws).serviceRequirements[k].quantity == 1.0
  {
    hide Ordered, PrintTags, PrintList, ReadInstanceTier, AsIds, RegionText, ReadNumber, ReadSelectedFamily, Requires;
    hide ReadSelectedFamilies, BuildWorkload, BuildCompute, BuildStorage, BuildDatabase, BuildNetwork, BuildProfile;
    hide TierForRequirement, ScaleParams, RequiredFamilies, TraceableFamilies;
    var form := FormFromNws(nws);
    assert form.bulkServiceRows == [];
    assert Rebuilt(nws).serviceRequirements[k] == RequirementFor(form, OrderedRequirementIds(form)[k]);
  }
}
