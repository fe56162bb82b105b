/**
 The workload form, the cloud-neutral spec (NWS), and the two conversions between them
 (apps/web/src/workload.ts).
 */
module Workload {
  import opened Wrappers
  import opened Text
  import opened TextLists
  import opened Regions
  import opened Catalog
  import opened Fields

  // ---- Choices that are carried as they are ----------------------------------------------

  datatype WorkloadType = WebApp | ApiBackend | StaticSite | BatchProcessing | DataPipeline | MlWorkload | OtherWorkload
  datatype Environment = Production | Staging | Development | Test
  datatype OperatingSystem = Linux | Windows | Byol
  datatype SupportTier = NoSupport | DeveloperSupport | BusinessSupport | EnterpriseOnRamp | EnterpriseSupport
  datatype UsagePattern = AlwaysOn | ScheduledUse | BurstyUse
  datatype ScalingType = Fixed | Autoscaled
  datatype Architecture = X86 | Arm | Gpu
  datatype Tenancy = Shared | DedicatedHost | SoleTenant
  datatype StorageType = ObjectStore | BlockStore | FileStore
  datatype AccessPattern = Frequent | Infrequent | Archive
  datatype StorageClass =
    | StandardClass | Hot | Cool | Cold | Nearline | Coldline | IntelligentTiering | InfrequentAccess
    | OneZoneInfrequentAccess | ArchiveInstant | ArchiveClass | DeepArchive | Premium | Ultra
  datatype Replication = NoReplication | SameRegion | CrossRegion
  datatype DatabaseEngine = Postgres | MySql | SqlServer | MongoDb | Redis | GenericRelational | GenericNoSql
  datatype FaultTolerance = SingleZone | MultiAzTolerance | MultiRegionTolerance | ActiveActive
  datatype InstanceTier = Small | Balanced | ComputeTier | MemoryTier | StorageTier | Accelerated | Custom
  datatype InstanceFamily =
    | Burstable | GeneralPurpose | ComputeOptimized | MemoryOptimized | StorageOptimized | AcceleratedComputing

  /** A service id is a catalogue family or some other text. */
  datatype ServiceId = Known(family: Family) | Foreign(text: string)

  // ---- The form --------------------------------------------------------------------------

  datatype BulkServiceRow = BulkServiceRow(serviceFamilyId: ServiceId, quantity: Input, tier: string, note: string)

  datatype Form = Form(
    workloadName: string,
    workloadType: WorkloadType,
    regionPreference: string,
    environment: Environment,
    dataResidency: string,
    complianceLocked: bool,
    complianceFrameworks: string,
    operatingSystem: OperatingSystem,
    supportTier: SupportTier,
    usagePattern: UsagePattern,
    tags: string,
    computeRole: string,
    scalingType: ScalingType,
    processorArchitecture: Architecture,
    computeTenancy: Tenancy,
    storageEnabled: bool,
    storageRole: string,
    storageType: StorageType,
    storageAccessPattern: AccessPattern,
    storageClass: StorageClass,
    storageReplication: Replication,
    multiAttachEnabled: bool,
    databaseEnabled: bool,
    databaseRole: string,
    databaseEngine: DatabaseEngine,
    databaseHighAvailability: bool,
    interRegionDestination: string,
    cdn: bool,
    loadBalancer: bool,
    selectedServiceFamilyId: ServiceId,
    instanceTier: InstanceTier,
    bulkServiceRows: seq<BulkServiceRow>,
    selectedServiceFamilyIds: seq<ServiceId>,
    multiAz: bool,
    multiRegion: bool,
    slaTarget: string,
    faultTolerance: FaultTolerance,
    numbers: Field -> Input)

  // ---- The spec --------------------------------------------------------------------------

  datatype WorkloadSection = WorkloadSection(
    name: Option<string>, kind: WorkloadType, expectedUsers: map<UsersField, real>, region: Region)

  /** The autoscaling range is the pair of AutoscaleMin and AutoscaleMax, present or absent together. */
  datatype ComputeSection = ComputeSection(
    role: string, instanceFamily: Option<InstanceFamily>, processorArchitecture: Option<Architecture>,
    tenancy: Option<Tenancy>, numbers: map<ComputeField, real>, scalingType: ScalingType)

  datatype StorageSection = StorageSection(
    role: string, kind: StorageType, accessPattern: Option<AccessPattern>, storageClass: Option<StorageClass>,
    numbers: map<StorageField, real>, replication: Option<Replication>, multiAttachEnabled: Option<bool>)

  datatype DatabaseSection = DatabaseSection(
    role: string, engine: DatabaseEngine, highAvailability: bool, numbers: map<DatabaseField, real>)

  datatype NetworkSection = NetworkSection(
    numbers: map<NetworkField, real>, interRegionDestination: Option<string>, cdn: bool, loadBalancer: bool)

  datatype AvailabilitySection = AvailabilitySection(
    multiAz: bool, multiRegion: bool, slaTarget: Option<string>, faultTolerance: Option<FaultTolerance>)

  datatype Residency = Residency(scope: string, complianceLocked: bool, frameworks: Option<seq<string>>)

  datatype ProfileSection = ProfileSection(
    environment: Option<Environment>, numbers: map<ProfileField, real>, dataResidency: Option<Residency>,
    operatingSystem: Option<OperatingSystem>, supportTier: Option<SupportTier>, usagePattern: Option<UsagePattern>,
    tags: Option<seq<Tag>>)

  /** The `tier` text of a requirement, by what it can read back as. */
  datatype TierLabel =
    | InstanceLabel(tier: InstanceTier)
    | AccessLabel(pattern: AccessPattern)
    | ClassLabel(storageClass: StorageClass)
    | DatabaseLabel(highAvailability: bool)
    | PostureLabel
    | EdgeLabel
    | BulkLabel(text: string)

  datatype ServiceRequirement = ServiceRequirement(
    serviceType: ServiceId, tier: Option<TierLabel>, quantity: real, scaleParams: Field -> Option<real>)

  datatype Nws = Nws(
    workload: WorkloadSection,
    compute: seq<ComputeSection>,
    storage: seq<StorageSection>,
    database: seq<DatabaseSection>,
    network: NetworkSection,
    availability: AvailabilitySection,
    workloadProfile: Option<ProfileSection>,
    serviceRequirements: seq<ServiceRequirement>,
    sourceTraceability: seq<ServiceId>)

  // ---- Families --------------------------------------------------------------------------

  const SUPPORTING_FAMILIES: set<Family> :=
    {MONITORING, LOGGING_AUDIT, TRACING_APM, KEYS_SECRETS, SECURITY_POSTURE, WAF_DDOS}
  const RUNTIME_FAMILIES: set<Family> :=
    {SERVERLESS_FUNCTIONS, APP_PLATFORM, SERVERLESS_CONTAINERS, CONTAINER_ORCHESTRATION, CONTAINER_REGISTRY}
  const ANALYTICS_FAMILIES: set<Family> :=
    {DATA_WAREHOUSE, DATA_LAKE, DATA_INTEGRATION, STREAMING_ANALYTICS, BUSINESS_INTELLIGENCE}
  const AI_FAMILIES: set<Family> := {ML_PLATFORM, GENERATIVE_AI, AI_APIS}
  const INTEGRATION_FAMILIES: set<Family> := {QUEUES_MESSAGING, EVENTING, WORKFLOW_ORCHESTRATION, API_GATEWAY}
  const DATABASE_FAMILIES: set<Family> := {RELATIONAL_DATABASE, NOSQL_DATABASE, CACHE, MANAGED_SEARCH}
  const STORAGE_FAMILIES: set<Family> := {OBJECT_STORAGE, BLOCK_STORAGE, FILE_STORAGE, ARCHIVE_STORAGE}
  const COMPUTE_FAMILIES: set<Family> := {VM_COMPUTE, AUTOSCALING_COMPUTE, BURSTABLE_COMPUTE}

  /** The families whose requirements record a field in their scaleParams. */
  function RecordingFamilies(field: Field): set<Family> {
    match field
    case Supporting(_) => SUPPORTING_FAMILIES
    case Runtime(_) => RUNTIME_FAMILIES
    case Analytics(_) => ANALYTICS_FAMILIES
    case Ai(_) => AI_FAMILIES
    case Integration(_) => INTEGRATION_FAMILIES
    case Database(_) => DATABASE_FAMILIES
    case _ => {}
  }

  /** The families the reader looks at for a field; of the database families only the search one. */
  function ReadFamilies(field: Field): set<Family> {
    if field.Database? then {MANAGED_SEARCH} else RecordingFamilies(field)
  }

  /** The fields a positive number in any of which calls for the family. */
  function DriversOf(family: Family): seq<Field> {
    if family == MONITORING then
      [Supporting(ObservabilityMetricsMillion), Supporting(ObservabilityAlarms), Supporting(ObservabilityDashboards)]
    else if family == LOGGING_AUDIT then
      [Supporting(ObservabilityLogsIngestGb), Supporting(ObservabilityLogRetentionGb)]
    else if family == TRACING_APM then [Supporting(ObservabilityTracesMillion)]
    else if family == KEYS_SECRETS then [Supporting(SecretsCount), Supporting(SecretApiCallsTenThousand)]
    else if family == SECURITY_POSTURE then
      [Supporting(SecurityProtectedResources), Supporting(SecurityFindingsThousand)]
    else if family == WAF_DDOS then
      [Supporting(WafWebAclCount), Supporting(WafRuleCount), Supporting(WafRequestsMillion),
       Supporting(DdosProtectedResources)]
    else if family == SERVERLESS_FUNCTIONS then [Runtime(FunctionInvocationsMillion)]
    else if family == APP_PLATFORM then [Runtime(AppPlatformRequestsMillion)]
    else if family == CONTAINER_ORCHESTRATION then
      [Runtime(KubernetesClusterCount), Runtime(KubernetesWorkerNodeCount)]
    else if family == CONTAINER_REGISTRY then [Runtime(RegistryStorageGb), Runtime(RegistryEgressGb)]
    else if family == DATA_WAREHOUSE then [Analytics(WarehouseStorageGb), Analytics(WarehouseQueryTb)]
    else if family == DATA_LAKE then [Analytics(DataLakeStorageGb)]
    else if family == DATA_INTEGRATION then [Analytics(IntegrationJobHours)]
    else if family == STREAMING_ANALYTICS then [Analytics(StreamingIngestGb)]
    else if family == BUSINESS_INTELLIGENCE then [Analytics(BiUsers)]
    else if family == ML_PLATFORM then [Ai(TrainingGpuHours), Ai(ModelHostingHours)]
    else if family == AI_APIS then [Ai(InferenceRequestsMillion), Ai(VectorStorageGb), Ai(VectorQueriesMillion)]
    else if family == GENERATIVE_AI then [Ai(ApiInputTokensMillion), Ai(ApiOutputTokensMillion)]
    else if family == QUEUES_MESSAGING then [Integration(QueueMessagesMillion)]
    else if family == EVENTING then [Integration(EventsMillion)]
    else if family == WORKFLOW_ORCHESTRATION then [Integration(WorkflowTransitionsThousand)]
    else if family == API_GATEWAY then [Integration(ApiGatewayRequestsMillion)]
    else []
  }

  /** Some driver of the family is positive. */
  predicate IsDriven(form: Form, family: Family) {
    exists i :: 0 <= i < |DriversOf(family)| && HasPositive(form.numbers(DriversOf(family)[i]))
  }

  function StorageServiceFamily(form: Form): Family {
    if form.storageType == BlockStore then BLOCK_STORAGE
    else if form.storageType == FileStore then FILE_STORAGE
    else if form.storageAccessPattern == Archive then ARCHIVE_STORAGE
    else OBJECT_STORAGE
  }

  predicate WantsSearch(form: Form) {
    || HasPositive(form.numbers(Database(SearchNodeCount)))
    || HasPositive(form.numbers(Database(SearchStorageGb)))
    || HasPositive(form.numbers(Database(SearchQueriesMillion)))
  }

  function DatabaseServiceFamily(form: Form): Family {
    if WantsSearch(form) then MANAGED_SEARCH
    else if form.databaseEngine == Redis then CACHE
    else if form.databaseEngine == MongoDb || form.databaseEngine == GenericNoSql then NOSQL_DATABASE
    else RELATIONAL_DATABASE
  }

  /** Whether a bulk row asks for the family. */
  predicate InBulk(rows: seq<BulkServiceRow>, family: Family) {
    exists i :: 0 <= i < |rows| && rows[i].serviceFamilyId == Known(family)
  }

  /** Whether the requirements must contain the family. */
  predicate Requires(form: Form, family: Family) {
    || form.selectedServiceFamilyId == Known(family)
    || Known(family) in form.selectedServiceFamilyIds
    || InBulk(form.bulkServiceRows, family)
    || (form.storageEnabled && family == StorageServiceFamily(form))
    || (form.databaseEnabled && family == DatabaseServiceFamily(form))
    || IsDriven(form, family)
    || (form.cdn && family == CDN_EDGE)
    || (form.loadBalancer && family == LOAD_BALANCING)
  }

  function RequiredFamilies(form: Form): set<Family> {
    set family: Family | Requires(form, family)
  }

  function OrderedRequirementIds(form: Form): seq<Family> {
    Ordered(RequiredFamilies(form))
  }

  // ---- Building the spec -----------------------------------------------------------------

  function OrElse(text: string, fallback: string): string {
    if Trim(text) == "" then fallback else Trim(text)
  }

  function NonBlankText(text: string): Option<string> {
    if Trim(text) == "" then None else Some(Trim(text))
  }

  function NonEmpty<T>(items: seq<T>): Option<seq<T>> {
    if items == [] then None else Some(items)
  }

  predicate GateOpen(form: Form, gate: Gate) {
    match gate
    case Open => true
    case IfAutoscaling => form.scalingType == Autoscaled
    case IfScheduled => form.usagePattern == ScheduledUse
    case IfBursty => form.usagePattern == BurstyUse
    case IfPositive(field) => HasPositive(form.numbers(field))
    case IfWholePositive(field) => Write(NonNegativeIntegerOr(0.0), form.numbers(field)).value > 0.0
  }

  /** The number a section holds for a field, if it holds one. */
  function Written(form: Form, field: Field): Option<real> {
    match RowOf(field).written
    case None => None
    case Some(Writing(shape, gate)) => if GateOpen(form, gate) then Write(shape, form.numbers(field)) else None
  }

  function UsersNumbers(form: Form): map<UsersField, real> {
    map f: UsersField | Written(form, Users(f)).Some? :: Written(form, Users(f)).value
  }

  function ComputeNumbers(form: Form): map<ComputeField, real> {
    map f: ComputeField | Written(form, Compute(f)).Some? :: Written(form, Compute(f)).value
  }

  function StorageNumbers(form: Form): map<StorageField, real> {
    map f: StorageField | Written(form, Storage(f)).Some? :: Written(form, Storage(f)).value
  }

  function DatabaseNumbers(form: Form): map<DatabaseField, real> {
    map f: DatabaseField | Written(form, Database(f)).Some? :: Written(form, Database(f)).value
  }

  function NetworkNumbers(form: Form): map<NetworkField, real> {
    map f: NetworkField | Written(form, Network(f)).Some? :: Written(form, Network(f)).value
  }

  function ProfileNumbers(form: Form): map<ProfileField, real> {
    map f: ProfileField | Written(form, Profile(f)).Some? :: Written(form, Profile(f)).value
  }

  function InstanceFamilyForTier(tier: InstanceTier): Option<InstanceFamily> {
    match tier
    case Small => Some(Burstable)
    case Balanced => Some(GeneralPurpose)
    case ComputeTier => Some(ComputeOptimized)
    case MemoryTier => Some(MemoryOptimized)
    case StorageTier => Some(StorageOptimized)
    case Accelerated => Some(AcceleratedComputing)
    case Custom => None
  }

  predicate SelectsBurstable(form: Form) {
    || form.selectedServiceFamilyId == Known(BURSTABLE_COMPUTE)
    || Known(BURSTABLE_COMPUTE) in form.selectedServiceFamilyIds
  }

  function PrimaryComputeFamily(form: Form): Option<InstanceFamily> {
    if SelectsBurstable(form) then Some(Burstable) else InstanceFamilyForTier(form.instanceTier)
  }

  function ProcessorArchitecture(form: Form): Architecture {
    if form.instanceTier == Accelerated then Gpu else form.processorArchitecture
  }

  function BuildWorkload(form: Form): WorkloadSection {
    WorkloadSection(
      NonBlankText(form.workloadName),
      form.workloadType,
      UsersNumbers(form),
      NormalizedRegionPreference(form.regionPreference, form.dataResidency, form.complianceLocked))
  }

  function BuildCompute(form: Form): ComputeSection {
    ComputeSection(
      OrElse(form.computeRole, "web"),
      PrimaryComputeFamily(form),
      Some(ProcessorArchitecture(form)),
      Some(form.computeTenancy),
      ComputeNumbers(form),
      form.scalingType)
  }

  function BuildStorage(form: Form): seq<StorageSection> {
    if !form.storageEnabled then []
    else [
      StorageSection(
        OrElse(form.storageRole, "storage"),
        form.storageType,
        Some(form.storageAccessPattern),
        if form.storageClass == StandardClass then None else Some(form.storageClass),
        StorageNumbers(form),
        if form.storageReplication == NoReplication then None else Some(form.storageReplication),
        if form.multiAttachEnabled then Some(true) else None)
    ]
  }

  function BuildDatabase(form: Form): seq<DatabaseSection> {
    if !form.databaseEnabled then []
    else [
      DatabaseSection(
        OrElse(form.databaseRole, "database"),
        form.databaseEngine,
        form.databaseHighAvailability,
        DatabaseNumbers(form))
    ]
  }

  function BuildNetwork(form: Form): NetworkSection {
    NetworkSection(
      NetworkNumbers(form),
      NonBlankText(form.interRegionDestination),
      form.cdn,
      form.loadBalancer)
  }

  function BuildAvailability(form: Form): AvailabilitySection {
    AvailabilitySection(form.multiAz, form.multiRegion, NonBlankText(form.slaTarget), Some(form.faultTolerance))
  }

  function BuildProfile(form: Form): ProfileSection {
    ProfileSection(
      Some(form.environment),
      ProfileNumbers(form),
      Some(Residency(OrElse(form.dataResidency, "global"), form.complianceLocked,
                     NonEmpty(ParseList(form.complianceFrameworks)))),
      Some(form.operatingSystem),
      Some(form.supportTier),
      Some(form.usagePattern),
      NonEmpty(ParseTags(form.tags)))
  }

  /** The last bulk row for a family, as `new Map(rows)` keeps it. */
  function BulkRowFor(rows: seq<BulkServiceRow>, family: Family): Option<BulkServiceRow> {
    if rows == [] then None
    else if rows[|rows| - 1].serviceFamilyId == Known(family) then Some(rows[|rows| - 1])
    else BulkRowFor(rows[..|rows| - 1], family)
  }

  function TierForRequirement(form: Form, family: Family): Option<TierLabel> {
    var bulkRow := BulkRowFor(form.bulkServiceRows, family);
    if bulkRow.Some? && Trim(bulkRow.value.tier) != "" then Some(BulkLabel(Trim(bulkRow.value.tier)))
    else if family in COMPUTE_FAMILIES then
      Some(InstanceLabel(if family == BURSTABLE_COMPUTE then Small else form.instanceTier))
    else if family in STORAGE_FAMILIES then
      Some(if form.storageClass == StandardClass then AccessLabel(form.storageAccessPattern)
           else ClassLabel(form.storageClass))
    else if family == RELATIONAL_DATABASE || family == NOSQL_DATABASE || family == CACHE then
      Some(DatabaseLabel(form.databaseHighAvailability))
    else if family == SECURITY_POSTURE then Some(PostureLabel)
    else if family == WAF_DDOS then Some(EdgeLabel)
    else None
  }

  function Scaled(form: Form, field: Field): Option<real> {
    match RowOf(field).scaled
    case None => None
    case Some(shape) => Write(shape, form.numbers(field))
  }

  /** The numbers a requirement records; None is an absent key. */
  function ScaleParams(form: Form, family: Family): Field -> Option<real> {
    (field: Field) => if family in RecordingFamilies(field) then Scaled(form, field) else None
  }

  /** How many of the service: what the bulk row says, or else the machines of a compute family, or one. */
  function QuantityFor(form: Form, family: Family): real {
    var bulkRow := BulkRowFor(form.bulkServiceRows, family);
    if bulkRow.Some? then Write(PositiveIntegerOr(1.0), bulkRow.value.quantity).value
    else if family in COMPUTE_FAMILIES then
      var count := if form.scalingType == Autoscaled then AutoscaleMin else InstanceCount;
      var machines := Write(NonNegativeIntegerOr(1.0), form.numbers(Compute(count))).value;
      if machines < 1.0 then 1.0 else machines
    else 1.0
  }

  function RequirementFor(form: Form, family: Family): ServiceRequirement {
    ServiceRequirement(
      Known(family), TierForRequirement(form, family), QuantityFor(form, family), ScaleParams(form, family))
  }

  function RequirementsFor(form: Form, families: seq<Family>): (r: seq<ServiceRequirement>)
    ensures |r| == |families|
    ensures forall i :: 0 <= i < |r| ==> r[i] == RequirementFor(form, families[i])
  {
    if families == [] then [] else [RequirementFor(form, families[0])] + RequirementsFor(form, families[1..])
  }

  function ServiceRequirementsFromForm(form: Form): seq<ServiceRequirement> {
    RequirementsFor(form, OrderedRequirementIds(form))
  }

  function TraceableFamilies(form: Form): set<Family> {
    set family: Family | Known(family) in form.selectedServiceFamilyIds || InBulk(form.bulkServiceRows, family)
  }

  function AsIds(families: seq<Family>): (ids: seq<ServiceId>)
    ensures |ids| == |families|
    ensures forall i :: 0 <= i < |ids| ==> ids[i] == Known(families[i])
  {
    if families == [] then [] else [Known(families[0])] + AsIds(families[1..])
  }

  function BuildNwsFromForm(form: Form): Nws {
    Nws(
      BuildWorkload(form),
      [BuildCompute(form)],
      BuildStorage(form),
      BuildDatabase(form),
      BuildNetwork(form),
      BuildAvailability(form),
      Some(BuildProfile(form)),
      ServiceRequirementsFromForm(form),
      AsIds(Ordered(TraceableFamilies(form))))
  }

  // ---- Reading the spec back -------------------------------------------------------------

  function Lookup<K>(m: map<K, real>, key: K): Option<real> {
    if key in m then Some(m[key]) else None
  }

  function SectionNumber(nws: Nws, field: Field): Option<real> {
    match field
    case Users(f) => Lookup(nws.workload.expectedUsers, f)
    case Compute(f) => if nws.compute == [] then None else Lookup(nws.compute[0].numbers, f)
    case Storage(f) => if nws.storage == [] then None else Lookup(nws.storage[0].numbers, f)
    case Database(f) => if nws.database == [] then None else Lookup(nws.database[0].numbers, f)
    case Network(f) => Lookup(nws.network.numbers, f)
    case Profile(f) => if nws.workloadProfile.None? then None else Lookup(nws.workloadProfile.value.numbers, f)
    case _ => None
  }

  /** The first defined value of the field among the requirements of the given families. */
  function FirstScaled(requirements: seq<ServiceRequirement>, families: set<Family>, field: Field): Option<real> {
    if |requirements| == 0 then None
    else
      var r := requirements[0];
      if r.serviceType.Known? && r.serviceType.family in families && r.scaleParams(field).Some?
      then r.scaleParams(field)
      else FirstScaled(requirements[1..], families, field)
  }

  function ReadNumber(nws: Nws, field: Field): Input {
    var section := SectionNumber(nws, field);
    var scaled := FirstScaled(nws.serviceRequirements, ReadFamilies(field), field);
    if section.Some? then Number(section.value)
    else if RowOf(field).scaled.Some? && scaled.Some? then Number(scaled.value)
    else ReadBackText(RowOf(field).readBack)
  }

  function TierForInstanceFamily(family: Option<InstanceFamily>): Option<InstanceTier> {
    match family
    case None => None
    case Some(Burstable) => Some(Small)
    case Some(GeneralPurpose) => Some(Balanced)
    case Some(ComputeOptimized) => Some(ComputeTier)
    case Some(MemoryOptimized) => Some(MemoryTier)
    case Some(StorageOptimized) => Some(StorageTier)
    case Some(AcceleratedComputing) => Some(Accelerated)
  }

  function InstanceTierFromText(text: string): Option<InstanceTier> {
    if text == "burstable" || text == "small" then Some(Small)
    else if text == "balanced" then Some(Balanced)
    else if text == "compute" then Some(ComputeTier)
    else if text == "memory" then Some(MemoryTier)
    else if text == "storage" then Some(StorageTier)
    else if text == "accelerated" then Some(Accelerated)
    else if text == "custom" then Some(Custom)
    else None
  }

  function InstanceTierFromLabel(tierLabel: Option<TierLabel>): Option<InstanceTier> {
    match tierLabel
    case Some(InstanceLabel(tier)) => Some(tier)
    case Some(BulkLabel(text)) => InstanceTierFromText(text)
    case _ => None
  }

  function FirstKnown(requirements: seq<ServiceRequirement>): Option<ServiceRequirement> {
    if |requirements| == 0 then None
    else if requirements[0].serviceType.Known? then Some(requirements[0])
    else FirstKnown(requirements[1..])
  }

  function RequirementFamilies(requirements: seq<ServiceRequirement>): set<Family> {
    set family: Family | exists i :: 0 <= i < |requirements| && requirements[i].serviceType == Known(family)
  }

  function FamiliesFromTraceability(trace: seq<ServiceId>): seq<Family> {
    var known := set family: Family | Known(family) in trace;
    if known == {} then DEFAULT_SELECTED_FAMILIES else Ordered(known)
  }

  function ReadInstanceTier(nws: Nws): InstanceTier {
    var written := TierForInstanceFamily(if nws.compute == [] then None else nws.compute[0].instanceFamily);
    var primary := FirstKnown(nws.serviceRequirements);
    var labelled := InstanceTierFromLabel(if primary.None? then None else primary.value.tier);
    if written.Some? then written.value else if labelled.Some? then labelled.value else Balanced
  }

  function ReadSelectedFamilies(nws: Nws): seq<Family> {
    if |nws.serviceRequirements| > 0 then Ordered(RequirementFamilies(nws.serviceRequirements))
    else FamiliesFromTraceability(nws.sourceTraceability)
  }

  function ReadSelectedFamily(nws: Nws): ServiceId {
    var primary := FirstKnown(nws.serviceRequirements);
    var traced := FamiliesFromTraceability(nws.sourceTraceability);
    if primary.Some? then primary.value.serviceType
    else if traced != [] then Known(traced[0])
    else Known(VM_COMPUTE)
  }

  function ValueOr<T>(value: Option<T>, fallback: T): T {
    match value
    case Some(v) => v
    case None => fallback
  }

  function FormFromNws(nws: Nws): Form {
    var compute := if nws.compute == [] then None else Some(nws.compute[0]);
    var storage := if nws.storage == [] then None else Some(nws.storage[0]);
    var database := if nws.database == [] then None else Some(nws.database[0]);
    var profile := nws.workloadProfile;
    var residency := if profile.Some? then profile.value.dataResidency else None;
    Form(
      workloadName := ValueOr(nws.workload.name, "Customer portal"),
      workloadType := nws.workload.kind,
      regionPreference := RegionText(nws.workload.region),
      environment := if profile.Some? then ValueOr(profile.value.environment, Production) else Production,
      dataResidency := if residency.Some? then residency.value.scope else "global",
      complianceLocked := residency.Some? && residency.value.complianceLocked,
      complianceFrameworks :=
        if residency.Some? && residency.value.frameworks.Some? then PrintList(residency.value.frameworks.value)
        else "SOC 2",
      operatingSystem := if profile.Some? then ValueOr(profile.value.operatingSystem, Linux) else Linux,
      supportTier := if profile.Some? then ValueOr(profile.value.supportTier, BusinessSupport) else BusinessSupport,
      usagePattern := if profile.Some? then ValueOr(profile.value.usagePattern, AlwaysOn) else AlwaysOn,
      tags :=
        if profile.Some? && profile.value.tags.Some? then PrintTags(profile.value.tags.value)
        else "team:platform, project:polycost-demo",
      computeRole := if compute.Some? then compute.value.role else "web",
      scalingType := if compute.Some? then compute.value.scalingType else Fixed,
      processorArchitecture := if compute.Some? then ValueOr(compute.value.processorArchitecture, X86) else X86,
      computeTenancy := if compute.Some? then ValueOr(compute.value.tenancy, Shared) else Shared,
      storageEnabled := storage.Some?,
      storageRole := if storage.Some? then storage.value.role else "uploads",
      storageType := if storage.Some? then storage.value.kind else ObjectStore,
      storageAccessPattern := if storage.Some? then ValueOr(storage.value.accessPattern, Frequent) else Frequent,
      storageClass := if storage.Some? then ValueOr(storage.value.storageClass, StandardClass) else StandardClass,
      storageReplication := if storage.Some? then ValueOr(storage.value.replication, NoReplication) else NoReplication,
      multiAttachEnabled := storage.Some? && ValueOr(storage.value.multiAttachEnabled, false),
      databaseEnabled := database.Some?,
      databaseRole := if database.Some? then database.value.role else "primary",
      databaseEngine := if database.Some? then database.value.engine else Postgres,
      databaseHighAvailability := if database.Some? then database.value.highAvailability else true,
      interRegionDestination := ValueOr(nws.network.interRegionDestination, ""),
      cdn := nws.network.cdn,
      loadBalancer := nws.network.loadBalancer,
      selectedServiceFamilyId := ReadSelectedFamily(nws),
      instanceTier := ReadInstanceTier(nws),
      bulkServiceRows := [],
      selectedServiceFamilyIds := AsIds(ReadSelectedFamilies(nws)),
      multiAz := nws.availability.multiAz,
      multiRegion := nws.availability.multiRegion,
      slaTarget := ValueOr(nws.availability.slaTarget, ""),
      faultTolerance :=
        ValueOr(nws.availability.faultTolerance,
                if nws.availability.multiRegion then MultiRegionTolerance
                else if nws.availability.multiAz then MultiAzTolerance
                else SingleZone),
      numbers := (field: Field) => ReadNumber(nws, field))
  }

  /** One trip through the spec. */
  function RoundTrip(form: Form): Form {
    FormFromNws(BuildNwsFromForm(form))
  }
}
