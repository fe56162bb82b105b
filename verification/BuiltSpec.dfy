/**
 What the spec of a form says, and that its requirements agree with its sections (apps/web/src/workload.ts).
 */
module BuiltSpec {
  import opened Wrappers
  import opened Catalog
  import opened Fields
  import opened Workload
  import opened Validity
  import opened TripNumbers
  import opened TripFamilies

  /** Requirement k of the spec is for the family. */
  ghost predicate IsFor(nws: Nws, k: int, family: Family) {
    0 <= k < |nws.serviceRequirements| && nws.serviceRequirements[k].serviceType == Known(family)
  }

  /** The spec has a requirement for the family. */
  ghost predicate Demands(nws: Nws, family: Family) {
    exists k :: IsFor(nws, k, family)
  }

  lemma RequirementOfFamily(form: Form, family: Family) returns (k: nat)
    requires Requires(form, family)
    ensures IsFor(BuildNwsFromForm(form), k, family)
    ensures BuildNwsFromForm(form).serviceRequirements[k] == RequirementFor(form, family)
  {
    hide Requires, Ordered, BuildWorkload, BuildCompute, BuildStorage, BuildDatabase, BuildNetwork, BuildProfile;
    var families := OrderedRequirementIds(form);
    OrderedHas(RequiredFamilies(form), family);
    var i :| 0 <= i < |families| && families[i] == family;
    k := i;
  }

  lemma DemandIsRequired(form: Form, family: Family)
    ensures Demands(BuildNwsFromForm(form), family) <==> Requires(form, family)
  {
    hide Requires, RequirementFor, Ordered, BuildWorkload, BuildCompute, BuildStorage, BuildDatabase, BuildNetwork;
    hide BuildProfile, IsFor;
    if Requires(form, family) {
      var k := RequirementOfFamily(form, family);
    }
    if Demands(BuildNwsFromForm(form), family) {
      var k :| IsFor(BuildNwsFromForm(form), k, family);
      OnlyRequired(form, k, family);
    }
  }

  lemma OnlyRequired(form: Form, k: int, family: Family)
    requires IsFor(BuildNwsFromForm(form), k, family)
    ensures Requires(form, family)
  {
    hide Requires, Ordered, BuildWorkload, BuildCompute, BuildStorage, BuildDatabase, BuildNetwork, BuildProfile;
    var families := OrderedRequirementIds(form);
    assert families[k] == family && families[k] in families;
    OrderedHas(RequiredFamilies(form), family);
  }

  // ---- Sections and requirements -----------------------------------------------------------

  /** The requirement that a storage section calls for. */
  ghost predicate StorageIsDemanded(nws: Nws, storage: StorageSection) {
    match storage.kind
    case BlockStore => Demands(nws, BLOCK_STORAGE)
    case FileStore => Demands(nws, FILE_STORAGE)
    case ObjectStore =>
      if storage.accessPattern == Some(Archive) then Demands(nws, ARCHIVE_STORAGE) else Demands(nws, OBJECT_STORAGE)
  }

  /** The section asks for search: nodes, storage or queries. */
  predicate AsksForSearch(database: DatabaseSection) {
    SearchNodeCount in database.numbers || SearchStorageGb in database.numbers
    || SearchQueriesMillion in database.numbers
  }

  ghost predicate DatabaseIsDemanded(nws: Nws, database: DatabaseSection) {
    if AsksForSearch(database) then Demands(nws, MANAGED_SEARCH)
    else
      match database.engine
      case Redis => Demands(nws, CACHE)
      case MongoDb | GenericNoSql => Demands(nws, NOSQL_DATABASE)
      case Postgres | MySql | SqlServer | GenericRelational => Demands(nws, RELATIONAL_DATABASE)
  }

  /** Every section of the spec has its requirement, and so has every family in the trace. */
  lemma SectionsAreDemanded(form: Form)
    ensures var nws := BuildNwsFromForm(form);
            && (forall i :: 0 <= i < |nws.storage| ==> StorageIsDemanded(nws, nws.storage[i]))
            && (forall i :: 0 <= i < |nws.database| ==> DatabaseIsDemanded(nws, nws.database[i]))
            && (nws.network.cdn ==> Demands(nws, CDN_EDGE))
            && (nws.network.loadBalancer ==> Demands(nws, LOAD_BALANCING))
            && (forall family: Family :: Known(family) in nws.sourceTraceability ==> Demands(nws, family))
  {
    hide Demands, Ordered, ServiceRequirementsFromForm, IsDriven, BuildWorkload, BuildCompute, BuildProfile;
    hide StorageNumbers, DatabaseNumbers, NetworkNumbers, OrElse, NonBlankText, WantsSearch, TraceableFamilies;
    DemandIsRequired(form, StorageServiceFamily(form));
    DemandIsRequired(form, DatabaseServiceFamily(form));
    DemandIsRequired(form, CDN_EDGE);
    DemandIsRequired(form, LOAD_BALANCING);
    SearchIsWritten(form);
    forall family: Family | Known(family) in BuildNwsFromForm(form).sourceTraceability
      ensures Demands(BuildNwsFromForm(form), family)
    {
      DemandIsRequired(form, family);
      TraceIsTraceable(form, family);
    }
  }

  lemma TraceIsTraceable(form: Form, family: Family)
    ensures Known(family) in BuildNwsFromForm(form).sourceTraceability <==>
            Known(family) in form.selectedServiceFamilyIds || InBulk(form.bulkServiceRows, family)
  {
    hide Ordered, AsIds, InBulk, ServiceRequirementsFromForm, BuildWorkload, BuildCompute, BuildStorage, BuildDatabase;
    hide BuildNetwork, BuildProfile;
    InAsIds(Ordered(TraceableFamilies(form)), family);
    OrderedHas(TraceableFamilies(form), family);
  }

  /** A search number is in the section exactly when it is positive. */
  lemma SearchIsWritten(form: Form)
    ensures var numbers := DatabaseNumbers(form);
            WantsSearch(form) <==>
              SearchNodeCount in numbers || SearchStorageGb in numbers || SearchQueriesMillion in numbers
  {
    hide Rounded;
  }

  // ---- Usage -------------------------------------------------------------------------------

  /** A quantity of use that no section holds: its field is zero unless the user says otherwise. */
  predicate IsUsage(field: Field) {
    RowOf(field).written.None? && RowOf(field).readBack == Default(0.0)
  }

  lemma SupportingDrives(f: SupportingField)
    ensures exists family: Family :: Supporting(f) in DriversOf(family)
  {
    match f {
      case ObservabilityMetricsMillion | ObservabilityAlarms | ObservabilityDashboards =>
        assert Supporting(f) in DriversOf(MONITORING);
      case ObservabilityLogsIngestGb | ObservabilityLogRetentionGb =>
        assert Supporting(f) in DriversOf(LOGGING_AUDIT);
      case ObservabilityTracesMillion => assert Supporting(f) in DriversOf(TRACING_APM);
      case SecretsCount | SecretApiCallsTenThousand => assert Supporting(f) in DriversOf(KEYS_SECRETS);
      case SecurityProtectedResources | SecurityFindingsThousand =>
        assert Supporting(f) in DriversOf(SECURITY_POSTURE);
      case WafWebAclCount | WafRuleCount | WafRequestsMillion | DdosProtectedResources =>
        assert Supporting(f) in DriversOf(WAF_DDOS);
    }
  }

  lemma RuntimeDrives(f: RuntimeField)
    requires IsUsage(Runtime(f))
    ensures exists family: Family :: Runtime(f) in DriversOf(family)
  {
    match f {
      case FunctionInvocationsMillion => assert Runtime(f) in DriversOf(SERVERLESS_FUNCTIONS);
      case AppPlatformRequestsMillion => assert Runtime(f) in DriversOf(APP_PLATFORM);
      case KubernetesClusterCount | KubernetesWorkerNodeCount =>
        assert Runtime(f) in DriversOf(CONTAINER_ORCHESTRATION);
      case RegistryStorageGb | RegistryEgressGb => assert Runtime(f) in DriversOf(CONTAINER_REGISTRY);
      case _ =>
    }
  }

  lemma AnalyticsDrives(f: AnalyticsField)
    ensures exists family: Family :: Analytics(f) in DriversOf(family)
  {
    match f {
      case WarehouseStorageGb | WarehouseQueryTb => assert Analytics(f) in DriversOf(DATA_WAREHOUSE);
      case DataLakeStorageGb => assert Analytics(f) in DriversOf(DATA_LAKE);
      case IntegrationJobHours => assert Analytics(f) in DriversOf(DATA_INTEGRATION);
      case StreamingIngestGb => assert Analytics(f) in DriversOf(STREAMING_ANALYTICS);
      case BiUsers => assert Analytics(f) in DriversOf(BUSINESS_INTELLIGENCE);
    }
  }

  lemma AiDrives(f: AiField)
    ensures exists family: Family :: Ai(f) in DriversOf(family)
  {
    match f {
      case TrainingGpuHours | ModelHostingHours => assert Ai(f) in DriversOf(ML_PLATFORM);
      case InferenceRequestsMillion | VectorStorageGb | VectorQueriesMillion => assert Ai(f) in DriversOf(AI_APIS);
      case ApiInputTokensMillion | ApiOutputTokensMillion => assert Ai(f) in DriversOf(GENERATIVE_AI);
    }
  }

  lemma IntegrationDrives(f: IntegrationField)
    ensures exists family: Family :: Integration(f) in DriversOf(family)
  {
    match f {
      case QueueMessagesMillion => assert Integration(f) in DriversOf(QUEUES_MESSAGING);
      case EventsMillion => assert Integration(f) in DriversOf(EVENTING);
      case WorkflowTransitionsThousand => assert Integration(f) in DriversOf(WORKFLOW_ORCHESTRATION);
      case ApiGatewayRequestsMillion => assert Integration(f) in DriversOf(API_GATEWAY);
    }
  }

  /** Every usage field drives some family. */
  lemma UsageDrives(field: Field)
    requires IsUsage(field)
    ensures exists family: Family :: field in DriversOf(family)
  {
    hide DriversOf;
    match field {
      case Supporting(f) => SupportingDrives(f);
      case Runtime(f) => RuntimeDrives(f);
      case Analytics(f) => AnalyticsDrives(f);
      case Ai(f) => AiDrives(f);
      case Integration(f) => IntegrationDrives(f);
      case _ =>
    }
  }

  /** No usage is lost: in a valid form, every positive usage is recorded by some requirement of the spec as it was
      typed, and is shown after a trip as it was typed. */
  lemma EveryUsageIsRecorded(form: Form, field: Field)
    requires IsValid(form) && IsUsage(field) && HasPositive(form.numbers(field))
    ensures exists k :: 0 <= k < |BuildNwsFromForm(form).serviceRequirements| &&
              BuildNwsFromForm(form).serviceRequirements[k].scaleParams(field) == Parse(form.numbers(field))
    ensures Parse(RoundTrip(form).numbers(field)) == Parse(form.numbers(field))
  {
    hide RoundTrip, RowOf, Write, DriversOf, BuildNwsFromForm, InBulk, StorageServiceFamily, DatabaseServiceFamily;
    hide Passes, SuitsScaled, TierForRequirement, QuantityFor;
    UsageDrives(field);
    var family: Family :| field in DriversOf(family);
    var i :| 0 <= i < |DriversOf(family)| && DriversOf(family)[i] == field;
    DriverRow(family, i);
    DriverIsRecorded(family, i);
    DriverIsChecked(family, i);
    DriversComeBack(form, family, i);
    assert IsDriven(form, family);
    var k := RequirementOfFamily(form, family);
    assert NumberIsValid(form, field);
    ScaledRowsFit(field);
    ScaledIsFaithful(RowOf(field).rule, RowOf(field).scaled.value, form.numbers(field));
    assert BuildNwsFromForm(form).serviceRequirements[k].scaleParams(field) == Parse(form.numbers(field)) by {
      ReadIsRecording(field, family);
    }
  }

  lemma ReadIsRecording(field: Field, family: Family)
    requires family in ReadFamilies(field)
    ensures family in RecordingFamilies(field)
  {
  }

  /** No requirement comes from nowhere: it is traced, or the primary selection, or called for by a section, a switch or
      a positive usage that it records. */
  lemma EveryDemandHasAReason(form: Form, family: Family)
    requires Demands(BuildNwsFromForm(form), family)
    ensures var nws := BuildNwsFromForm(form);
            || Known(family) in nws.sourceTraceability
            || form.selectedServiceFamilyId == Known(family)
            || (nws.storage != [] && family in STORAGE_FAMILIES)
            || (nws.database != [] && family in DATABASE_FAMILIES)
            || (nws.network.cdn && family == CDN_EDGE)
            || (nws.network.loadBalancer && family == LOAD_BALANCING)
            || (exists field: Field ::
                  IsUsage(field) && HasPositive(form.numbers(field)) && family in RecordingFamilies(field))
  {
    hide RowOf, DriversOf, Ordered, AsIds, ServiceRequirementsFromForm, BuildWorkload, BuildCompute, BuildProfile;
    hide Demands, StorageNumbers, DatabaseNumbers, NetworkNumbers, OrElse, NonBlankText, InBulk, TraceableFamilies;
    hide HasPositive, RecordingFamilies;
    DemandIsRequired(form, family);
    TraceIsTraceable(form, family);
    if IsDriven(form, family) {
      var i :| 0 <= i < |DriversOf(family)| && HasPositive(form.numbers(DriversOf(family)[i]));
      DriverRow(family, i);
      DriverIsRecorded(family, i);
      ReadIsRecording(DriversOf(family)[i], family);
    }
  }

  // ---- Quantities --------------------------------------------------------------------------

  /** Validation makes rounding and fallback unreachable for bulk rows too: a row that names a family is valid exactly
      if its quantity is written as it was typed. */
  lemma BulkRowMeansAsTyped(row: BulkServiceRow)
    requires row.serviceFamilyId.Known?
    ensures BulkRowIsValid(row) <==> Write(PositiveIntegerOr(1.0), row.quantity) == Parse(row.quantity)
  {
    hide Rounded;
    if Parse(row.quantity).Some? {
      RoundsToItself(Parse(row.quantity).value);
    }
  }

  lemma {:induction false} LastRow(rows: seq<BulkServiceRow>, i: nat, family: Family)
    requires i < |rows| && rows[i].serviceFamilyId == Known(family)
    requires forall j :: i < j < |rows| ==> rows[j].serviceFamilyId != Known(family)
    ensures BulkRowFor(rows, family) == Some(rows[i])
  {
    if i < |rows| - 1 {
      LastRow(rows[..|rows| - 1], i, family);
    }
  }

  /** In a valid form the last bulk row of a family gives the quantity of the family's requirement, as typed. */
  lemma BulkQuantityIsTyped(form: Form, i: nat, family: Family)
    requires IsValid(form) && i < |form.bulkServiceRows| && form.bulkServiceRows[i].serviceFamilyId == Known(family)
    requires forall j :: i < j < |form.bulkServiceRows| ==> form.bulkServiceRows[j].serviceFamilyId != Known(family)
    ensures var nws := BuildNwsFromForm(form);
            exists k :: IsFor(nws, k, family) &&
              Some(nws.serviceRequirements[k].quantity) == Parse(form.bulkServiceRows[i].quantity)
  {
    hide BuildNwsFromForm, Write, IsDriven, StorageServiceFamily, DatabaseServiceFamily, TierForRequirement, BulkRowFor;
    var row := form.bulkServiceRows[i];
    assert BulkRowIsValid(row);
    BulkRowMeansAsTyped(row);
    LastRow(form.bulkServiceRows, i, family);
    assert InBulk(form.bulkServiceRows, family);
    var k := RequirementOfFamily(form, family);
  }

  /** In a valid form without bulk rows for it, a compute family gets as many machines as were typed: the lower limit
      when scaling, and otherwise the count. */
  lemma MachinesAreTyped(form: Form, family: Family)
    requires IsValid(form) && family in COMPUTE_FAMILIES && Requires(form, family)
    requires !InBulk(form.bulkServiceRows, family)
    ensures var nws := BuildNwsFromForm(form);
            var count := if form.scalingType == Autoscaled then AutoscaleMin else InstanceCount;
            exists k :: IsFor(nws, k, family) &&
              Some(nws.serviceRequirements[k].quantity) == Parse(form.numbers(Compute(count)))
  {
    hide BuildNwsFromForm, IsDriven, StorageServiceFamily, DatabaseServiceFamily, TierForRequirement, Requires, Rounded;
    var count := if form.scalingType == Autoscaled then AutoscaleMin else InstanceCount;
    var k := RequirementOfFamily(form, family);
    NoRowFor(form.bulkServiceRows, family);
    assert NumberIsValid(form, Compute(count));
    RoundsToItself(Parse(form.numbers(Compute(count))).value);
    AtLeastOne(Parse(form.numbers(Compute(count))).value);
  }

  lemma AtLeastOne(x: real)
    requires x > 0.0 && IsInteger(x)
    ensures x >= 1.0
  {
  }

  lemma {:induction false} NoRowFor(rows: seq<BulkServiceRow>, family: Family)
    requires !InBulk(rows, family)
    ensures BulkRowFor(rows, family) == None
  {
    if rows != [] {
      var rest := rows[..|rows| - 1];
      assert rows[|rows| - 1].serviceFamilyId != Known(family);
      forall i | 0 <= i < |rest| ensures rest[i].serviceFamilyId != Known(family) {
        assert rest[i] == rows[i];
      }
      NoRowFor(rest, family);
    }
  }

  // ---- Tiers -------------------------------------------------------------------------------

  function PatternText(pattern: AccessPattern): string {
    match pattern
    case Frequent => "frequent"
    case Infrequent => "infrequent"
    case Archive => "archive"
  }

  function ClassText(storageClass: StorageClass): string {
    match storageClass
    case StandardClass => "standard"
    case Hot => "hot"
    case Cool => "cool"
    case Cold => "cold"
    case Nearline => "nearline"
    case Coldline => "coldline"
    case IntelligentTiering => "intelligent-tiering"
    case InfrequentAccess => "infrequent-access"
    case OneZoneInfrequentAccess => "one-zone-infrequent-access"
    case ArchiveInstant => "archive-instant"
    case ArchiveClass => "archive"
    case DeepArchive => "deep-archive"
    case Premium => "premium"
    case Ultra => "ultra"
  }

  function InstanceText(tier: InstanceTier): string {
    match tier
    case Small => "small"
    case Balanced => "balanced"
    case ComputeTier => "compute"
    case MemoryTier => "memory"
    case StorageTier => "storage"
    case Accelerated => "accelerated"
    case Custom => "custom"
  }

  /** The `tier` text that a label stands for. */
  function TierText(tierLabel: TierLabel): string {
    match tierLabel
    case InstanceLabel(tier) => InstanceText(tier)
    case AccessLabel(pattern) => PatternText(pattern)
    case ClassLabel(storageClass) => ClassText(storageClass)
    case DatabaseLabel(highAvailability) => if highAvailability then "high-availability" else "standard"
    case PostureLabel => "posture"
    case EdgeLabel => "edge-protection"
    case BulkLabel(text) => text
  }

  /** A label reads back as its text does: only the labels of instance tiers name one, and each its own. */
  lemma LabelsReadAsTexts(tierLabel: TierLabel)
    ensures InstanceTierFromLabel(Some(tierLabel)) == InstanceTierFromText(TierText(tierLabel))
  {
    match tierLabel {
      case InstanceLabel(tier) => InstanceTextReads(tier);
      case AccessLabel(pattern) => NoTierStarts(PatternText(pattern));
      case ClassLabel(storageClass) => NoTierStarts(ClassText(storageClass));
      case DatabaseLabel(_) => NoTierStarts(TierText(tierLabel));
      case PostureLabel => NoTierStarts("posture");
      case EdgeLabel => NoTierStarts("edge-protection");
      case BulkLabel(_) =>
    }
  }

  lemma InstanceTextReads(tier: InstanceTier)
    ensures InstanceTierFromText(InstanceText(tier)) == Some(tier)
  {
    assert "compute"[2] == 'm' && "custom"[1] == 'u' && "burstable"[1] == 'u' && "balanced"[1] == 'a';
    assert "small"[1] == 'm' && "storage"[1] == 't';
  }

  /** No instance tier is written with these first two letters. */
  lemma NoTierStarts(text: string)
    requires |text| > 2
    requires !(text[0] == 'b' && (text[1] == 'u' || text[1] == 'a'))
    requires !(text[0] == 's' && (text[1] == 'm' || (text[1] == 't' && text[2] == 'o')))
    requires !(text[0] == 'c' && text[1] == 'o' && text[2] == 'm') && !(text[0] == 'c' && text[1] == 'u')
    requires text[0] != 'm' && !(text[0] == 'a' && text[1] == 'c')
    ensures InstanceTierFromText(text) == None
  {
    assert "burstable"[1] == 'u' && "balanced"[1] == 'a' && "small"[1] == 'm' && "storage"[2] == 'o';
    assert "compute"[2] == 'm' && "custom"[1] == 'u' && "accelerated"[1] == 'c';
  }

  /** A requirement that no bulk row speaks for is of the tier that its section says. */
  lemma TiersAgree(form: Form, k: nat, family: Family)
    requires IsFor(BuildNwsFromForm(form), k, family) && !InBulk(form.bulkServiceRows, family)
    ensures var nws := BuildNwsFromForm(form);
            var tier := nws.serviceRequirements[k].tier;
            && (family in STORAGE_FAMILIES && nws.storage != [] ==>
                  tier == Some(match nws.storage[0].storageClass
                               case Some(storageClass) => ClassLabel(storageClass)
                               case None => AccessLabel(ValueOr(nws.storage[0].accessPattern, Frequent))))
            && (family in {RELATIONAL_DATABASE, NOSQL_DATABASE, CACHE} && nws.database != [] ==>
                  tier == Some(DatabaseLabel(nws.database[0].highAvailability)))
            && (family == BURSTABLE_COMPUTE ==> tier == Some(InstanceLabel(Small)))
            && (family in {VM_COMPUTE, AUTOSCALING_COMPUTE} && !SelectsBurstable(form) ==>
                  tier == Some(InstanceLabel(ValueOr(TierForInstanceFamily(nws.compute[0].instanceFamily), Custom))))
  {
    hide Ordered, Requires, InBulk, BuildWorkload, BuildNetwork, BuildProfile, QuantityFor, ScaleParams;
    hide SelectsBurstable, OrElse, ComputeNumbers, StorageNumbers, DatabaseNumbers, ProcessorArchitecture;
    hide TraceableFamilies;
    NoRowFor(form.bulkServiceRows, family);
    assert OrderedRequirementIds(form)[k] == family;
    assert BuildNwsFromForm(form).serviceRequirements[k] == RequirementFor(form, family);
  }

  // ---- Numbers that come together ----------------------------------------------------------

  /** The compute section of a valid form is sized, and has a range exactly when it scales. */
  lemma ComputeIsSized(form: Form)
    requires IsValid(form)
    ensures var numbers := ComputeNumbers(form);
            && Vcpu in numbers && MemoryGb in numbers && InstanceCount in numbers
            && (AutoscaleMin in numbers <==> form.scalingType == Autoscaled)
            && (AutoscaleMax in numbers <==> form.scalingType == Autoscaled)
  {
    hide Rounded;
    assert NumberIsValid(form, Compute(Vcpu)) && NumberIsValid(form, Compute(MemoryGb));
    assert NumberIsValid(form, Compute(InstanceCount));
  }

  /** A field that is open for a positive number of another, and then always written. */
  predicate GoesWith(field: Field, other: Field) {
    && RowOf(field).written.Some? && RowOf(field).written.value.gate == IfPositive(other)
    && AlwaysWritten(RowOf(field).rule, RowOf(field).written.value.shape)
    && RowOf(other).written == Some(Writing(PositiveNumber, Open))
  }

  lemma GoingTogether()
    ensures GoesWith(Network(CdnCacheHitRatioPercent), Network(CdnTrafficGb))
    ensures GoesWith(Storage(SnapshotRetentionDays), Storage(SnapshotSizeGb))
    ensures GoesWith(Database(BackupRetentionDays), Database(BackupStorageGb))
  {
  }

  lemma WrittenTogether(form: Form, field: Field, other: Field)
    requires IsValid(form) && SectionOn(form, field) && GoesWith(field, other)
    ensures Written(form, field).Some? <==> Written(form, other).Some?
  {
    hide RowOf, AlwaysWritten, SectionOn, Passes;
    if HasPositive(form.numbers(other)) {
      WrittenIsChecked(form, field);
      assert NumberIsValid(form, field);
      AlwaysWrittenIsWritten(RowOf(field).rule, RowOf(field).written.value.shape, form.numbers(field));
    }
  }

  /** In a valid form the hit ratio is there exactly beside the traffic it is of, and retention beside what is
      retained. */
  lemma NumbersComeTogether(form: Form)
    requires IsValid(form)
    ensures CdnCacheHitRatioPercent in NetworkNumbers(form) <==> CdnTrafficGb in NetworkNumbers(form)
    ensures form.storageEnabled ==>
              (SnapshotRetentionDays in StorageNumbers(form) <==> SnapshotSizeGb in StorageNumbers(form))
    ensures form.databaseEnabled ==>
              (BackupRetentionDays in DatabaseNumbers(form) <==> BackupStorageGb in DatabaseNumbers(form))
  {
    hide Written, IsValid, GoesWith;
    GoingTogether();
    WrittenTogether(form, Network(CdnCacheHitRatioPercent), Network(CdnTrafficGb));
    if form.storageEnabled {
      WrittenTogether(form, Storage(SnapshotRetentionDays), Storage(SnapshotSizeGb));
    }
    if form.databaseEnabled {
      WrittenTogether(form, Database(BackupRetentionDays), Database(BackupStorageGb));
    }
  }

  /** Hours and days are there only for a schedule, the utilization only for bursts. */
  lemma UsageFitsPattern(form: Form)
    ensures var numbers := ProfileNumbers(form);
            && (UsageHoursPerDay in numbers <==> form.usagePattern == ScheduledUse)
            && (UsageDaysPerWeek in numbers <==> form.usagePattern == ScheduledUse)
            && (AverageUtilizationPercent in numbers <==> form.usagePattern == BurstyUse)
            && CommitmentPreferencePercent in numbers
  {
    hide Rounded;
  }
}

