/**
 What the API accepts as a spec (apps/api/src/nws/nws.types.ts), and that it accepts what the form builds.
 */
module ApiSchema {
  import opened Wrappers
  import opened Text
  import opened TextLists
  import opened Regions
  import opened Catalog
  import opened Fields
  import opened Workload
  import opened Validity
  import opened TripNumbers
  import opened TripFamilies
  import opened BuiltSpec
  import Money

  // ---- The schema --------------------------------------------------------------------------

  /** The largest whole number the schema takes: `int()` refuses whole numbers that a double cannot tell apart. */
  const LARGEST_INTEGER := Money.MAX_SAFE_INTEGER as real

  /** The fields the schema wants whole. */
  predicate IsWhole(field: Field) {
    match field
    case Users(_) => true
    case Compute(InstanceCount) | Compute(AutoscaleMin) | Compute(AutoscaleMax) => true
    case Storage(ObjectRetentionDays) | Storage(SnapshotRetentionDays) | Storage(ProvisionedIops) => true
    case Database(BackupRetentionDays) | Database(DatabaseIops) | Database(ReadReplicaCount) | Database(RuPerSecond)
      | Database(CacheReplicaCount) | Database(SearchNodeCount) => true
    case Network(DnsHostedZones) | Network(LoadBalancerActiveConnections) | Network(VpnConnectionCount)
      | Network(PrivateCircuitCount) => true
    case Profile(UsageDaysPerWeek) => true
    case _ => false
  }

  /** The bounds the schema sets for a field. */
  predicate InBounds(field: Field, x: real) {
    match field
    case Compute(Vcpu) | Compute(MemoryGb) | Compute(InstanceCount) => x > 0.0
    case Storage(StorageSizeGb) => x > 0.0
    case Database(DatabaseSizeGb) => x > 0.0
    case Database(SearchNodeHours) => 0.0 <= x <= 730.0
    case Network(CdnCacheHitRatioPercent) => 0.0 <= x <= 100.0
    case Network(NatGatewayHours) | Network(LoadBalancerHours) | Network(VpnConnectionHours)
      | Network(PrivateCircuitPortHours) => 0.0 <= x <= 730.0
    case Profile(CommitmentPreferencePercent) => 0.0 <= x <= 100.0
    case Profile(UsageHoursPerDay) => 1.0 <= x <= 24.0
    case Profile(UsageDaysPerWeek) => 1.0 <= x <= 7.0
    case Profile(AverageUtilizationPercent) => 1.0 <= x <= 100.0
    case _ => x >= 0.0
  }

  /** The numbers a section may hold for a field. */
  predicate Allows(field: Field, x: real) {
    InBounds(field, x) && (IsWhole(field) ==> IsInteger(x) && x <= LARGEST_INTEGER)
  }

  predicate IsPresent(text: Option<string>) {
    text.Some? ==> text.value != ""
  }

  /** `autoscalingRange`: both limits or none, and in order. */
  predicate RangeIsInOrder(compute: ComputeSection) {
    && (AutoscaleMin in compute.numbers <==> AutoscaleMax in compute.numbers)
    && (AutoscaleMin in compute.numbers ==> compute.numbers[AutoscaleMax] >= compute.numbers[AutoscaleMin])
  }

  predicate FrameworksFit(frameworks: seq<string>) {
    |frameworks| <= 50 && forall i :: 0 <= i < |frameworks| ==> 1 <= |frameworks[i]| <= 200
  }

  predicate TagsFit(tags: seq<Tag>) {
    |tags| <= 100 && forall i :: 0 <= i < |tags| ==> 1 <= |tags[i].key| <= 200 && 1 <= |tags[i].value| <= 500
  }

  predicate ProfileFits(profile: ProfileSection) {
    && (profile.dataResidency.Some? ==>
          && profile.dataResidency.value.scope != ""
          && (profile.dataResidency.value.frameworks.Some? ==>
                FrameworksFit(profile.dataResidency.value.frameworks.value)))
    && (profile.tags.Some? ==> TagsFit(profile.tags.value))
  }

  predicate RequirementFits(requirement: ServiceRequirement) {
    && IsInteger(requirement.quantity) && 0.0 < requirement.quantity <= LARGEST_INTEGER
    && requirement.tier != Some(BulkLabel(""))
  }

  /** Everything about the spec but its numbers. */
  predicate PartsFit(nws: Nws) {
    && IsPresent(nws.workload.name) && IsPresent(nws.workload.region.preference)
    && |nws.compute| <= 250 && |nws.storage| <= 250 && |nws.database| <= 250
    && (nws.compute != [] || nws.storage != [] || nws.database != [])
    && (forall i :: 0 <= i < |nws.compute| ==> nws.compute[i].role != "" && RangeIsInOrder(nws.compute[i]))
    && (forall i :: 0 <= i < |nws.storage| ==>
          nws.storage[i].role != "" && StorageSizeGb in nws.storage[i].numbers)
    && (forall i :: 0 <= i < |nws.database| ==> nws.database[i].role != "")
    && IsPresent(nws.network.interRegionDestination) && IsPresent(nws.availability.slaTarget)
    && (nws.workloadProfile.Some? ==> ProfileFits(nws.workloadProfile.value))
    && |nws.serviceRequirements| <= 200
    && (forall i :: 0 <= i < |nws.serviceRequirements| ==> RequirementFits(nws.serviceRequirements[i]))
    && |nws.sourceTraceability| <= 1000
  }

  ghost predicate AllAllowed<K(!new)>(numbers: map<K, real>, fieldOf: K -> Field) {
    forall key: K :: key in numbers ==> Allows(fieldOf(key), numbers[key])
  }

  ghost predicate NumbersFit(nws: Nws) {
    && AllAllowed(nws.workload.expectedUsers, (f: UsersField) => Users(f))
    && (forall i :: 0 <= i < |nws.compute| ==> AllAllowed(nws.compute[i].numbers, (f: ComputeField) => Compute(f)))
    && (forall i :: 0 <= i < |nws.storage| ==> AllAllowed(nws.storage[i].numbers, (f: StorageField) => Storage(f)))
    && (forall i :: 0 <= i < |nws.database| ==> AllAllowed(nws.database[i].numbers, (f: DatabaseField) => Database(f)))
    && AllAllowed(nws.network.numbers, (f: NetworkField) => Network(f))
    && (nws.workloadProfile.Some? ==>
          AllAllowed(nws.workloadProfile.value.numbers, (f: ProfileField) => Profile(f)))
  }

  /** The API's schema accepts the spec. */
  ghost predicate Accepts(nws: Nws) {
    PartsFit(nws) && NumbersFit(nws)
  }

  // ---- The numbers of a valid form ---------------------------------------------------------

  /** Where the form asks for more than the API: retention of ten years at most, and scale limits above zero. */
  predicate FormAllows(field: Field, x: real) {
    match field
    case Storage(ObjectRetentionDays) | Storage(SnapshotRetentionDays) | Database(BackupRetentionDays) => x <= 3650.0
    case Compute(AutoscaleMin) | Compute(AutoscaleMax) => x > 0.0
    case _ => true
  }

  /** What the form's validator asks of a number, in the schema's terms. */
  predicate FormAccepts(field: Field, x: real) {
    InBounds(field, x) && (IsWhole(field) ==> IsInteger(x)) && FormAllows(field, x)
  }

  lemma NetworkRulesAgree(field: NetworkField, x: real)
    ensures Passes(NetworkRow(field).rule, Number(x)) <==> FormAccepts(Network(field), x)
  {
  }

  lemma DatabaseRulesAgree(field: DatabaseField, x: real)
    ensures Passes(DatabaseRow(field).rule, Number(x)) <==> FormAccepts(Database(field), x)
  {
  }

  lemma StorageRulesAgree(field: StorageField, x: real)
    ensures Passes(StorageRow(field).rule, Number(x)) <==> FormAccepts(Storage(field), x)
  {
  }

  /** The form's validator and the API's schema agree on every number of every section, three cases apart: the form asks
      for more in two, and the API refuses whole numbers beyond its largest. */
  lemma RulesAgree(field: Field, x: real)
    requires RowOf(field).written.Some?
    ensures Passes(RowOf(field).rule, Number(x)) && (IsWhole(field) ==> x <= LARGEST_INTEGER) <==>
            Allows(field, x) && FormAllows(field, x)
  {
    match field {
      case Network(f) => NetworkRulesAgree(f, x);
      case Database(f) => DatabaseRulesAgree(f, x);
      case Storage(f) => StorageRulesAgree(f, x);
      case _ =>
    }
  }

  /** No whole number of the sections is beyond the largest. */
  ghost predicate SectionsAreSafe(form: Form) {
    forall field: Field :: IsWhole(field) && SectionOn(form, field) && Written(form, field).Some? ==>
      Written(form, field).value <= LARGEST_INTEGER
  }

  lemma NumberIsAllowed(form: Form, field: Field)
    requires IsValid(form) && SectionNumber(BuildNwsFromForm(form), field).Some?
    ensures var x := SectionNumber(BuildNwsFromForm(form), field).value;
            Allows(field, x) <==> (IsWhole(field) ==> x <= LARGEST_INTEGER)
  {
    hide BuildNwsFromForm, SectionNumber, RowOf, Write, GateOpen, SectionOn, Passes, InBounds, IsWhole;
    BuiltNumber(form, field);
    ValidSpecIsFaithful(form, field);
    WrittenIsChecked(form, field);
    assert NumberIsValid(form, field);
    PassesReadsParse(RowOf(field).rule, form.numbers(field), Written(form, field).value);
    RulesAgree(field, Written(form, field).value);
  }

  lemma SectionNumberIsAllowed(nws: Nws, field: Field)
    requires NumbersFit(nws) && SectionNumber(nws, field).Some?
    ensures Allows(field, SectionNumber(nws, field).value) && RowOf(field).written.Some?
    ensures (field.Storage? ==> nws.storage != []) && (field.Database? ==> nws.database != [])
  {
    hide Allows;
  }

  lemma ValidNumbersFitExactly(form: Form)
    requires IsValid(form)
    ensures NumbersFit(BuildNwsFromForm(form)) <==> SectionsAreSafe(form)
  {
    hide NumbersFit, BuildNwsFromForm, SectionNumber, IsValid, Written, SectionOn, Allows, IsWhole;
    var nws := BuildNwsFromForm(form);
    if NumbersFit(nws) {
      forall field: Field | IsWhole(field) && SectionOn(form, field) && Written(form, field).Some?
        ensures Written(form, field).value <= LARGEST_INTEGER
      {
        BuiltNumber(form, field);
        SectionNumberIsAllowed(nws, field);
        NumberIsAllowed(form, field);
      }
    }
    if SectionsAreSafe(form) {
      ValidNumbersFit(form);
    }
  }

  lemma ValidNumbersFit(form: Form)
    requires IsValid(form) && SectionsAreSafe(form)
    ensures NumbersFit(BuildNwsFromForm(form))
  {
    hide Allows, IsValid, UsersNumbers, ComputeNumbers, StorageNumbers, DatabaseNumbers, NetworkNumbers, ProfileNumbers;
    hide NormalizedRegionPreference, ParseTags, ParseList, ServiceRequirementsFromForm, TraceableFamilies, Ordered;
    hide AsIds, NonBlankText, OrElse, PrimaryComputeFamily, ProcessorArchitecture, IsWhole, Written, SectionOn;
    var nws := BuildNwsFromForm(form);
    forall field: Field | SectionNumber(nws, field).Some? ensures Allows(field, SectionNumber(nws, field).value) {
      NumberIsAllowed(form, field);
      BuiltNumber(form, field);
    }
    forall f: UsersField | f in nws.workload.expectedUsers ensures Allows(Users(f), nws.workload.expectedUsers[f]) {
      assert SectionNumber(nws, Users(f)).Some?;
    }
    forall f: ComputeField | f in nws.compute[0].numbers ensures Allows(Compute(f), nws.compute[0].numbers[f]) {
      assert SectionNumber(nws, Compute(f)).Some?;
    }
    forall f: StorageField | nws.storage != [] && f in nws.storage[0].numbers
      ensures Allows(Storage(f), nws.storage[0].numbers[f])
    {
      assert SectionNumber(nws, Storage(f)).Some?;
    }
    forall f: DatabaseField | nws.database != [] && f in nws.database[0].numbers
      ensures Allows(Database(f), nws.database[0].numbers[f])
    {
      assert SectionNumber(nws, Database(f)).Some?;
    }
    forall f: NetworkField | f in nws.network.numbers ensures Allows(Network(f), nws.network.numbers[f]) {
      assert SectionNumber(nws, Network(f)).Some?;
    }
    forall f: ProfileField | f in nws.workloadProfile.value.numbers
      ensures Allows(Profile(f), nws.workloadProfile.value.numbers[f])
    {
      assert SectionNumber(nws, Profile(f)).Some?;
    }
  }

  // ---- The rest of a valid form's spec -----------------------------------------------------

  lemma {:induction false} CatalogIsSmall(wanted: set<Family>, from: nat)
    requires from <= CATALOG_SIZE
    ensures |PickFrom(wanted, from)| <= CATALOG_SIZE - from
    decreases CATALOG_SIZE - from
  {
    if from < CATALOG_SIZE {
      CatalogIsSmall(wanted, from + 1);
    }
  }

  /** No bulk quantity in use is beyond the largest whole number. */
  predicate QuantitiesAreSafe(form: Form) {
    forall family: Family :: InBulk(form.bulkServiceRows, family) ==> QuantityFor(form, family) <= LARGEST_INTEGER
  }

  lemma QuantityFits(form: Form, family: Family)
    requires IsValid(form) && SectionsAreSafe(form)
    ensures RequirementFits(RequirementFor(form, family)) <==>
            (InBulk(form.bulkServiceRows, family) ==> QuantityFor(form, family) <= LARGEST_INTEGER)
  {
    hide Rounded, ScaleParams, RowOf, Passes, IsWhole, Written, SectionsAreSafe;
    match BulkRowFor(form.bulkServiceRows, family) {
      case Some(row) =>
        RowForIsThere(form.bulkServiceRows, family);
        assert BulkRowIsValid(row);
        BulkRowMeansAsTyped(row);
      case None =>
        RowForAll(form.bulkServiceRows, family);
        var count := if form.scalingType == Autoscaled then AutoscaleMin else InstanceCount;
        assert NumberIsValid(form, Compute(count));
        CountRules();
        WholeMachines(form.numbers(Compute(count)));
        MachinesAreSafe(form, count);
    }
  }

  lemma MachinesAreSafe(form: Form, count: ComputeField)
    requires SectionsAreSafe(form)
    requires count == if form.scalingType == Autoscaled then AutoscaleMin else InstanceCount
    requires Passes(RequirePositiveInteger, form.numbers(Compute(count)))
    ensures Write(NonNegativeIntegerOr(1.0), form.numbers(Compute(count))).value <= LARGEST_INTEGER
  {
    hide Rounded;
    assert Written(form, Compute(count)) == Write(NonNegativeIntegerOr(1.0), form.numbers(Compute(count)));
  }

  lemma {:induction false} RowForAll(rows: seq<BulkServiceRow>, family: Family)
    requires BulkRowFor(rows, family) == None
    ensures !InBulk(rows, family)
  {
    if rows != [] {
      var rest := rows[..|rows| - 1];
      RowForAll(rest, family);
      forall i | 0 <= i < |rows| ensures rows[i].serviceFamilyId != Known(family) {
        if i < |rest| {
          assert rest[i] == rows[i];
        }
      }
    }
  }

  lemma CountRules()
    ensures RowOf(Compute(AutoscaleMin)).rule == RequirePositiveInteger
    ensures RowOf(Compute(AutoscaleMin)).checked == Autoscaling
    ensures RowOf(Compute(InstanceCount)).rule == RequirePositiveInteger
    ensures RowOf(Compute(InstanceCount)).checked == Always
  {
  }

  lemma WholeMachines(text: Input)
    requires Passes(RequirePositiveInteger, text)
    ensures IsInteger(Write(NonNegativeIntegerOr(1.0), text).value)
  {
    hide Rounded;
    RoundsToItself(Parse(text).value);
  }

  lemma {:induction false} RowForIsThere(rows: seq<BulkServiceRow>, family: Family)
    requires BulkRowFor(rows, family).Some?
    ensures exists i :: 0 <= i < |rows| && rows[i] == BulkRowFor(rows, family).value
    ensures BulkRowFor(rows, family).value.serviceFamilyId == Known(family)
  {
    var rest := rows[..|rows| - 1];
    if rows[|rows| - 1].serviceFamilyId != Known(family) {
      RowForIsThere(rest, family);
      var i :| 0 <= i < |rest| && rest[i] == BulkRowFor(rest, family).value;
      assert rows[i] == BulkRowFor(rows, family).value;
    } else {
      assert rows[|rows| - 1] == BulkRowFor(rows, family).value;
    }
  }

  lemma RequirementsFitExactly(form: Form)
    requires IsValid(form) && SectionsAreSafe(form)
    ensures var requirements := BuildNwsFromForm(form).serviceRequirements;
            && |requirements| <= 200
            && ((forall i :: 0 <= i < |requirements| ==> RequirementFits(requirements[i])) <==> QuantitiesAreSafe(form))
    ensures |BuildNwsFromForm(form).sourceTraceability| <= 1000
  {
    hide RequirementFits, RequirementFor, IsValid, BuildWorkload, BuildCompute, BuildStorage, BuildDatabase;
    hide BuildNetwork, BuildProfile, Requires, TraceableFamilies, PickFrom, SectionsAreSafe, QuantityFor, InBulk;
    CatalogIsSmall(RequiredFamilies(form), 0);
    CatalogIsSmall(TraceableFamilies(form), 0);
    var families, requirements := OrderedRequirementIds(form), BuildNwsFromForm(form).serviceRequirements;
    forall family: Family
      ensures RequirementFits(RequirementFor(form, family)) <==>
              (InBulk(form.bulkServiceRows, family) ==> QuantityFor(form, family) <= LARGEST_INTEGER)
    {
      QuantityFits(form, family);
    }
    if forall i :: 0 <= i < |requirements| ==> RequirementFits(requirements[i]) {
      forall family: Family | InBulk(form.bulkServiceRows, family)
        ensures QuantityFor(form, family) <= LARGEST_INTEGER
      {
        BulkIsRequired(form, family);
        var k := RequirementOfFamily(form, family);
      }
    }
  }

  lemma BulkIsRequired(form: Form, family: Family)
    requires InBulk(form.bulkServiceRows, family)
    ensures Requires(form, family)
  {
  }

  lemma RangeFits(form: Form)
    requires IsValid(form)
    ensures RangeIsInOrder(BuildCompute(form))
  {
    hide OrElse, PrimaryComputeFamily, ProcessorArchitecture, Write, IsValid;
    if form.scalingType == Autoscaled {
      ValidRange(form);
    } else {
      RangeIsGated();
    }
  }

  lemma RangeIsGated()
    ensures RowOf(Compute(AutoscaleMin)).written.value.gate == IfAutoscaling
    ensures RowOf(Compute(AutoscaleMax)).written.value.gate == IfAutoscaling
  {
  }

  lemma StorageFits(form: Form)
    requires IsValid(form) && form.storageEnabled
    ensures StorageSizeGb in StorageNumbers(form)
  {
    hide Write, IsValid;
    SizeRow(form.numbers(Storage(StorageSizeGb)));
  }

  lemma SizeRow(text: Input)
    ensures RowOf(Storage(StorageSizeGb)).written == Some(Writing(PositiveNumberOr(1.0), Open))
    ensures Write(PositiveNumberOr(1.0), text).Some?
  {
  }

  lemma RolesFit()
    ensures forall text: string :: OrElse(text, "web") != "" && OrElse(text, "storage") != ""
    ensures forall text: string :: OrElse(text, "database") != "" && OrElse(text, "global") != ""
    ensures forall text: string :: IsPresent(NonBlankText(text))
  {
    hide Trim;
  }

  lemma RegionFits(regionPreference: string, dataResidency: string, locked: bool)
    ensures IsPresent(NormalizedRegionPreference(regionPreference, dataResidency, locked).preference)
  {
    hide CanonicalRegion, RegionPreferenceForResidencyLock, Trim;
  }

  /** The lists typed are within the API's limits, which the form does not check. */
  predicate ListsFit(form: Form) {
    var frameworks, tags := ParseList(form.complianceFrameworks), ParseTags(form.tags);
    && |frameworks| <= 50 && (forall i :: 0 <= i < |frameworks| ==> |frameworks[i]| <= 200)
    && |tags| <= 100 && (forall i :: 0 <= i < |tags| ==> |tags[i].key| <= 200 && |tags[i].value| <= 500)
  }

  lemma ProfileFitsExactly(form: Form)
    ensures ProfileFits(BuildProfile(form)) <==> ListsFit(form)
  {
    hide ParseList, ParseTags, OrElse, ProfileNumbers;
    RolesFit();
    ParseListShape(form.complianceFrameworks);
    ParseTagsShape(form.tags);
  }

  /** The form is within the limits of the API that it does not check itself: the lengths of the lists, and the size of
      whole numbers. */
  ghost predicate IsWithinLimits(form: Form) {
    ListsFit(form) && SectionsAreSafe(form) && QuantitiesAreSafe(form)
  }

  /** The API accepts the spec of a valid form exactly if the form is within these limits: so for lists and numbers of
      ordinary size, what the form lets through the API never refuses. */
  lemma ValidFormIsAccepted(form: Form)
    requires IsValid(form)
    ensures Accepts(BuildNwsFromForm(form)) <==> IsWithinLimits(form)
  {
    hide IsValid, NumbersFit, ProfileFits, ListsFit, RequirementFits, RangeIsInOrder, IsPresent, StorageNumbers;
    hide ServiceRequirementsFromForm, Ordered, AsIds, TraceableFamilies, NormalizedRegionPreference, OrElse;
    hide NonBlankText, BuildProfile, ComputeNumbers, UsersNumbers, DatabaseNumbers, NetworkNumbers;
    hide SectionsAreSafe, QuantitiesAreSafe;
    ValidNumbersFitExactly(form);
    if SectionsAreSafe(form) {
      RequirementsFitExactly(form);
    }
    RangeFits(form);
    if form.storageEnabled {
      StorageFits(form);
    }
    RolesFit();
    RegionFits(form.regionPreference, form.dataResidency, form.complianceLocked);
    ProfileFitsExactly(form);
  }

  /** The limits are real: any valid form with one long framework in its place is still valid, and refused. */
  lemma LongFrameworkIsRefused(form: Form, item: string)
    requires IsValid(form) && IsListItem(item) && |item| > 200
    ensures var long := form.(complianceFrameworks := item);
            IsValid(long) && !Accepts(BuildNwsFromForm(long))
  {
    hide BuildNwsFromForm, Accepts, ParseTags, RowOf, Passes, BulkRowIsValid;
    var long := form.(complianceFrameworks := item);
    forall field: Field ensures NumberIsValid(long, field) {
      assert NumberIsValid(form, field);
    }
    ListRoundTrip([item]);
    ValidFormIsAccepted(long);
  }

  /** The form with as many daily users as a double can no longer tell from one more. */
  function WithHugeUsers(form: Form): Form {
    form.(numbers := (field: Field) =>
            if field == Users(DailyActiveUsers) then Number(9007199254740992.0) else form.numbers(field))
  }

  /** So is the largest whole number: any valid form with 2^53 daily users is still valid, and refused. */
  lemma HugeUsersAreRefused(form: Form)
    requires IsValid(form)
    ensures IsValid(WithHugeUsers(form)) && !Accepts(BuildNwsFromForm(WithHugeUsers(form)))
  {
    hide BuildNwsFromForm, Accepts, RowOf, Passes, BulkRowIsValid, ListsFit, QuantitiesAreSafe, Written;
    var huge := WithHugeUsers(form);
    forall field: Field ensures NumberIsValid(huge, field) {
      assert NumberIsValid(form, field);
      HugeUsersPass();
    }
    HugeUsersAreWritten(huge);
    ValidFormIsAccepted(huge);
  }

  lemma HugeUsersPass()
    ensures Passes(RowOf(Users(DailyActiveUsers)).rule, Number(9007199254740992.0))
  {
  }

  lemma HugeUsersAreWritten(form: Form)
    requires form.numbers(Users(DailyActiveUsers)) == Number(9007199254740992.0)
    ensures Written(form, Users(DailyActiveUsers)) == Some(9007199254740992.0)
  {
    hide Rounded;
    RoundsToItself(9007199254740992.0);
  }
}
