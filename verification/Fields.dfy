/**
 The numeric fields of the workload form (apps/web/src/workload.ts): for each one, how it is validated,
 how it is written into the spec and into the requirements' scaleParams, and what the form shows when
 nothing was written.
 */
module Fields {
  import opened Wrappers
  import Money

  // ---- Typed text and its reading --------------------------------------------------------

  /** A numeric text, by what parseOptionalNumber and trim make of it: blank, a finite number, or neither. */
  datatype Input = Blank | Garbage | Number(value: real)

  function Parse(text: Input): Option<real> {
    match text
    case Number(value) => Some(value)
    case Blank => None
    case Garbage => None
  }

  function NumberToInput(value: Option<real>): Input {
    match value
    case Some(v) => Number(v)
    case None => Blank
  }

  predicate HasPositive(text: Input) {
    Parse(text).Some? && Parse(text).value > 0.0
  }

  function Rounded(x: real): real {
    Money.MathRound(x) as real
  }

  predicate IsInteger(x: real) {
    x.Floor as real == x
  }

  // ---- Writing a number ------------------------------------------------------------------

  /** The `optional*` and `parse*` helpers; None is an absent key. */
  datatype Shape =
    | PositiveNumber
    | NonNegativeNumber
    | PositiveInteger
    | NonNegativeInteger
    | ParsedOr(fallback: real)
    | PositiveNumberOr(fallback: real)
    | PositiveIntegerOr(fallback: real)
    | NonNegativeIntegerOr(fallback: real)
    | BoundedNumberOr(min: real, max: real, fallback: real)
    | BoundedIntegerOr(min: real, max: real, fallback: real)

  function Write(shape: Shape, text: Input): Option<real> {
    var parsed := Parse(text);
    match shape
    case PositiveNumber => if parsed.Some? && parsed.value > 0.0 then parsed else None
    case NonNegativeNumber => if parsed.Some? && parsed.value >= 0.0 then parsed else None
    case PositiveInteger => if parsed.Some? && parsed.value > 0.0 then Some(Rounded(parsed.value)) else None
    case NonNegativeInteger => if parsed.Some? && parsed.value >= 0.0 then Some(Rounded(parsed.value)) else None
    case ParsedOr(fallback) => if parsed.Some? then parsed else Some(fallback)
    case PositiveNumberOr(fallback) => if parsed.Some? && parsed.value > 0.0 then parsed else Some(fallback)
    case PositiveIntegerOr(fallback) =>
      if parsed.Some? && parsed.value > 0.0 then Some(Rounded(parsed.value)) else Some(fallback)
    case NonNegativeIntegerOr(fallback) =>
      if parsed.Some? && parsed.value >= 0.0 then Some(Rounded(parsed.value)) else Some(fallback)
    case BoundedNumberOr(min, max, fallback) =>
      if parsed.Some? && min <= parsed.value <= max then parsed else Some(fallback)
    case BoundedIntegerOr(min, max, fallback) =>
      Some(Rounded(if parsed.Some? && min <= parsed.value <= max then parsed.value else fallback))
  }

  // ---- Validating a number ---------------------------------------------------------------

  /** The `require*` and `optional*Field` checkers. */
  datatype Rule =
    | RequirePositive
    | RequirePositiveInteger
    | OptionalPositive
    | OptionalNonNegative
    | OptionalNonNegativeInteger
    | RequireBounded(min: real, max: real)
    | RequireBoundedInteger(min: real, max: real)

  predicate Passes(rule: Rule, text: Input) {
    var parsed := Parse(text);
    match rule
    case RequirePositive => parsed.Some? && parsed.value > 0.0
    case RequirePositiveInteger => parsed.Some? && parsed.value > 0.0 && IsInteger(parsed.value)
    case OptionalPositive => text.Blank? || (parsed.Some? && parsed.value > 0.0)
    case OptionalNonNegative => text.Blank? || (parsed.Some? && parsed.value >= 0.0)
    case OptionalNonNegativeInteger => text.Blank? || (parsed.Some? && parsed.value >= 0.0 && IsInteger(parsed.value))
    case RequireBounded(min, max) => parsed.Some? && min <= parsed.value <= max
    case RequireBoundedInteger(min, max) => parsed.Some? && min <= parsed.value <= max && IsInteger(parsed.value)
  }

  // ---- The fields ------------------------------------------------------------------------

  datatype UsersField = DailyActiveUsers | PeakConcurrentUsers

  datatype ComputeField = Vcpu | MemoryGb | InstanceCount | AutoscaleMin | AutoscaleMax

  datatype StorageField =
    | StorageSizeGb | MonthlyPutRequestsThousand | MonthlyGetRequestsThousand | MonthlyDeleteRequestsThousand
    | MonthlyListRequestsThousand | MonthlyRetrievalGb | ObjectCountThousand | ObjectRetentionDays
    | LifecycleTransitionsThousand | SnapshotSizeGb | SnapshotRetentionDays | ProvisionedIops
    | ProvisionedThroughputMbps

  datatype DatabaseField =
    | DatabaseSizeGb | BackupStorageGb | BackupRetentionDays | DatabaseIops | ReadReplicaCount
    | CrossRegionReplicaTransferGb | NosqlReadRequestUnitsMillion | NosqlWriteRequestUnitsMillion | RuPerSecond
    | QueryDataTb | CacheReplicaCount | StorageGrowthGbPerMonth | SearchNodeCount | SearchNodeHours
    | SearchStorageGb | SearchQueriesMillion

  datatype NetworkField =
    | MonthlyEgressGb | CrossAzTransferGb | InterRegionTransferGb | CdnTrafficGb | CdnCacheHitRatioPercent
    | CdnRequestsMillion | NatGatewayGb | NatGatewayHours | DnsHostedZones | DnsQueriesMillion
    | LoadBalancerProcessedGb | LoadBalancerHours | LoadBalancerNewConnectionsPerSecond
    | LoadBalancerActiveConnections | LoadBalancerRuleEvaluationsPerSecond | VpnConnectionCount
    | VpnConnectionHours | VpnDataTransferGb | PrivateCircuitCount | PrivateCircuitPortHours
    | PrivateCircuitDataTransferGb

  datatype ProfileField =
    | CommitmentPreferencePercent | UsageHoursPerDay | UsageDaysPerWeek | AverageUtilizationPercent

  datatype SupportingField =
    | ObservabilityMetricsMillion | ObservabilityLogsIngestGb | ObservabilityLogRetentionGb | ObservabilityAlarms
    | ObservabilityDashboards | ObservabilityTracesMillion | SecretsCount | SecretApiCallsTenThousand
    | SecurityProtectedResources | SecurityFindingsThousand | WafWebAclCount | WafRuleCount | WafRequestsMillion
    | DdosProtectedResources

  datatype RuntimeField =
    | FunctionInvocationsMillion | FunctionDurationMs | FunctionMemoryMb | AppPlatformRequestsMillion
    | AppPlatformRequestDurationMs | AppPlatformVcpu | AppPlatformMemoryGb | AppPlatformAlwaysOnHours
    | AppPlatformMinInstances | KubernetesClusterCount | KubernetesWorkerNodeCount | RegistryStorageGb
    | RegistryEgressGb

  datatype AnalyticsField =
    | WarehouseStorageGb | WarehouseQueryTb | DataLakeStorageGb | IntegrationJobHours | StreamingIngestGb | BiUsers

  datatype AiField =
    | TrainingGpuHours | ModelHostingHours | InferenceRequestsMillion | VectorStorageGb | VectorQueriesMillion
    | ApiInputTokensMillion | ApiOutputTokensMillion

  datatype IntegrationField =
    | QueueMessagesMillion | EventsMillion | WorkflowTransitionsThousand | ApiGatewayRequestsMillion

  datatype Field =
    | Users(users: UsersField)
    | Compute(compute: ComputeField)
    | Storage(storage: StorageField)
    | Database(database: DatabaseField)
    | Network(network: NetworkField)
    | Profile(profile: ProfileField)
    | Supporting(supporting: SupportingField)
    | Runtime(runtime: RuntimeField)
    | Analytics(analytics: AnalyticsField)
    | Ai(ai: AiField)
    | Integration(integration: IntegrationField)

  // ---- The table -------------------------------------------------------------------------

  /** When the validator looks at a field. */
  datatype Condition = Always | StorageOn | DatabaseOn | Autoscaling | Scheduled | Bursty

  /** When the builder writes a field of a section that is there. */
  datatype Gate =
    | Open | IfAutoscaling | IfScheduled | IfBursty | IfPositive(field: Field) | IfWholePositive(field: Field)

  /** What the form shows for a number found nowhere in the spec. */
  datatype ReadBack = LeaveBlank | Default(value: real)

  datatype Row = Row(
    rule: Rule, checked: Condition, written: Option<Writing>, scaled: Option<Shape>, readBack: ReadBack)

  datatype Writing = Writing(shape: Shape, gate: Gate)

  const HOURS_PER_MONTH := 730.0

  /** A quantity that is dropped when zero. */
  function Amount(checked: Condition): Row {
    Row(OptionalNonNegative, checked, Some(Writing(PositiveNumber, Open)), None, Default(0.0))
  }

  /** A whole quantity that is dropped when zero. */
  function Count(checked: Condition): Row {
    Row(OptionalNonNegativeInteger, checked, Some(Writing(PositiveInteger, Open)), None, Default(0.0))
  }

  /** Hours of a month, dropped when zero. */
  function MonthlyHours(): Row {
    Row(RequireBounded(0.0, HOURS_PER_MONTH), Always, Some(Writing(PositiveNumber, Open)), None, Default(0.0))
  }

  /** Days of retention that matter only beside a stored amount. */
  function Retention(checked: Condition, gate: Gate, default: real): Row {
    Row(RequireBoundedInteger(0.0, 3650.0), checked, Some(Writing(NonNegativeInteger, gate)), None, Default(default))
  }

  /** A required positive number. */
  function Required(): Row {
    Row(RequirePositive, Always, Some(Writing(PositiveNumber, Open)), None, LeaveBlank)
  }

  function RequiredCount(checked: Condition, shape: Shape, gate: Gate): Row {
    Row(RequirePositiveInteger, checked, Some(Writing(shape, gate)), None, LeaveBlank)
  }

  /** A percentage or duration inside bounds that is always written where its gate is open. */
  function Within(min: real, max: real, fallback: real, default: real, checked: Condition, gate: Gate): Row {
    Row(RequireBounded(min, max), checked, Some(Writing(BoundedNumberOr(min, max, fallback), gate)), None,
        Default(default))
  }

  /** Numbers that only the scaleParams of service requirements carry. */
  function ScaledAmount(): Row {
    Row(OptionalNonNegative, Always, None, Some(ParsedOr(0.0)), Default(0.0))
  }

  function ScaledCount(fallback: real): Row {
    Row(OptionalNonNegativeInteger, Always, None, Some(NonNegativeIntegerOr(fallback)), Default(fallback))
  }

  function ScaledRequired(fallback: real): Row {
    Row(RequirePositive, Always, None, Some(PositiveNumberOr(fallback)), Default(fallback))
  }

  function UsersRow(field: UsersField): Row {
    Row(OptionalNonNegativeInteger, Always, Some(Writing(NonNegativeInteger, Open)), None, LeaveBlank)
  }

  function ComputeRow(field: ComputeField): Row {
    match field
    case Vcpu | MemoryGb => Required()
    case InstanceCount => RequiredCount(Always, PositiveInteger, Open)
    case AutoscaleMin => RequiredCount(Autoscaling, NonNegativeIntegerOr(1.0), IfAutoscaling)
    case AutoscaleMax => RequiredCount(Autoscaling, NonNegativeIntegerOr(3.0), IfAutoscaling)
  }

  function StorageRow(field: StorageField): Row {
    match field
    case StorageSizeGb =>
      Row(RequirePositive, StorageOn, Some(Writing(PositiveNumberOr(1.0), Open)), None, LeaveBlank)
    case ObjectRetentionDays => Retention(StorageOn, Open, 30.0)
    case SnapshotRetentionDays => Retention(StorageOn, IfPositive(Storage(SnapshotSizeGb)), 30.0)
    case ProvisionedIops => Count(StorageOn)
    case MonthlyPutRequestsThousand | MonthlyGetRequestsThousand | MonthlyDeleteRequestsThousand
      | MonthlyListRequestsThousand | MonthlyRetrievalGb | ObjectCountThousand | LifecycleTransitionsThousand
      | SnapshotSizeGb | ProvisionedThroughputMbps => Amount(StorageOn)
  }

  function DatabaseRow(field: DatabaseField): Row {
    match field
    case DatabaseSizeGb =>
      Row(OptionalPositive, DatabaseOn, Some(Writing(PositiveNumber, Open)), None, LeaveBlank)
    case BackupRetentionDays => Retention(DatabaseOn, IfPositive(Database(BackupStorageGb)), 35.0)
    case DatabaseIops | ReadReplicaCount | RuPerSecond | CacheReplicaCount => Count(DatabaseOn)
    case BackupStorageGb | CrossRegionReplicaTransferGb | NosqlReadRequestUnitsMillion
      | NosqlWriteRequestUnitsMillion | QueryDataTb | StorageGrowthGbPerMonth => Amount(DatabaseOn)
    case SearchNodeCount => Count(DatabaseOn).(scaled := Some(NonNegativeIntegerOr(0.0)))
    case SearchNodeHours =>
      Row(RequireBounded(0.0, HOURS_PER_MONTH), DatabaseOn,
          Some(Writing(PositiveNumber, IfWholePositive(Database(SearchNodeCount)))),
          Some(BoundedNumberOr(0.0, HOURS_PER_MONTH, HOURS_PER_MONTH)), Default(HOURS_PER_MONTH))
    case SearchStorageGb | SearchQueriesMillion => Amount(DatabaseOn).(scaled := Some(ParsedOr(0.0)))
  }

  function NetworkRow(field: NetworkField): Row {
    match field
    case MonthlyEgressGb => Row(OptionalNonNegative, Always, Some(Writing(NonNegativeNumber, Open)), None, LeaveBlank)
    case CdnCacheHitRatioPercent => Within(0.0, 100.0, 85.0, 85.0, Always, IfPositive(Network(CdnTrafficGb)))
    case NatGatewayHours | LoadBalancerHours | VpnConnectionHours | PrivateCircuitPortHours => MonthlyHours()
    case DnsHostedZones | LoadBalancerActiveConnections | VpnConnectionCount | PrivateCircuitCount => Count(Always)
    case CrossAzTransferGb | InterRegionTransferGb | CdnTrafficGb | CdnRequestsMillion | NatGatewayGb
      | DnsQueriesMillion | LoadBalancerProcessedGb | LoadBalancerNewConnectionsPerSecond
      | LoadBalancerRuleEvaluationsPerSecond | VpnDataTransferGb | PrivateCircuitDataTransferGb => Amount(Always)
  }

  function ProfileRow(field: ProfileField): Row {
    match field
    case CommitmentPreferencePercent => Within(0.0, 100.0, 0.0, 65.0, Always, Open)
    case UsageHoursPerDay => Within(1.0, 24.0, 24.0, 24.0, Scheduled, IfScheduled)
    case UsageDaysPerWeek =>
      Row(RequireBoundedInteger(1.0, 7.0), Scheduled, Some(Writing(BoundedIntegerOr(1.0, 7.0, 7.0), IfScheduled)),
          None, Default(7.0))
    case AverageUtilizationPercent => Within(1.0, 100.0, 55.0, 85.0, Bursty, IfBursty)
  }

  function SupportingRow(field: SupportingField): Row {
    match field
    case ObservabilityAlarms | ObservabilityDashboards | SecretsCount | SecurityProtectedResources | WafWebAclCount
      | WafRuleCount | DdosProtectedResources => ScaledCount(0.0)
    case ObservabilityMetricsMillion | ObservabilityLogsIngestGb | ObservabilityLogRetentionGb
      | ObservabilityTracesMillion | SecretApiCallsTenThousand | SecurityFindingsThousand
      | WafRequestsMillion => ScaledAmount()
  }

  function RuntimeRow(field: RuntimeField): Row {
    match field
    case FunctionDurationMs => ScaledRequired(100.0)
    case FunctionMemoryMb =>
      Row(RequirePositiveInteger, Always, None, Some(PositiveIntegerOr(512.0)), Default(512.0))
    case AppPlatformRequestDurationMs => ScaledRequired(400.0)
    case AppPlatformVcpu => ScaledRequired(1.0)
    case AppPlatformMemoryGb => ScaledRequired(0.5)
    case AppPlatformAlwaysOnHours =>
      Row(RequireBounded(0.0, HOURS_PER_MONTH), Always, None,
          Some(BoundedNumberOr(0.0, HOURS_PER_MONTH, HOURS_PER_MONTH)), Default(HOURS_PER_MONTH))
    case AppPlatformMinInstances => ScaledCount(1.0)
    case KubernetesClusterCount | KubernetesWorkerNodeCount => ScaledCount(0.0)
    case FunctionInvocationsMillion | AppPlatformRequestsMillion | RegistryStorageGb | RegistryEgressGb =>
      ScaledAmount()
  }

  function AnalyticsRow(field: AnalyticsField): Row {
    if field == BiUsers then ScaledCount(0.0) else ScaledAmount()
  }

  function RowOf(field: Field): Row {
    match field
    case Users(f) => UsersRow(f)
    case Compute(f) => ComputeRow(f)
    case Storage(f) => StorageRow(f)
    case Database(f) => DatabaseRow(f)
    case Network(f) => NetworkRow(f)
    case Profile(f) => ProfileRow(f)
    case Supporting(f) => SupportingRow(f)
    case Runtime(f) => RuntimeRow(f)
    case Analytics(f) => AnalyticsRow(f)
    case Ai(_) => ScaledAmount()
    case Integration(_) => ScaledAmount()
  }

  // ---- What validation buys --------------------------------------------------------------

  /** The number written is the number typed, and nothing typed is left unwritten but zero. */
  predicate Faithful(shape: Shape, text: Input) {
    match Write(shape, text)
    case Some(v) => Parse(text) == Some(v)
    case None => Parse(text) == None || Parse(text) == Some(0.0)
  }

  predicate NoNegatives(rule: Rule) {
    match rule
    case RequireBounded(min, _) => min >= 0.0
    case RequireBoundedInteger(min, _) => min >= 0.0
    case _ => true
  }

  predicate WholeOnly(rule: Rule) {
    rule.RequirePositiveInteger? || rule.OptionalNonNegativeInteger? || rule.RequireBoundedInteger?
  }

  /** The rule rejects every text the shape would round, drop or replace, zero apart. */
  predicate Suits(rule: Rule, shape: Shape) {
    match shape
    case PositiveNumber | NonNegativeNumber => NoNegatives(rule)
    case PositiveInteger | NonNegativeInteger => NoNegatives(rule) && WholeOnly(rule)
    case PositiveNumberOr(_) => rule.RequirePositive? || rule.RequirePositiveInteger?
    case PositiveIntegerOr(_) | NonNegativeIntegerOr(_) => rule.RequirePositiveInteger?
    case BoundedNumberOr(min, max, _) => rule == RequireBounded(min, max)
    case BoundedIntegerOr(min, max, _) => rule == RequireBoundedInteger(min, max)
    case ParsedOr(_) => false
  }

  lemma RoundOfWhole(n: int)
    ensures Rounded(n as real) == n as real
  {
    Money.MathRoundOfWhole(n);
  }

  lemma RoundOfInteger(x: real)
    requires IsInteger(x)
    ensures Rounded(x) == x
  {
    RoundOfWhole(x.Floor);
  }

  /** The text is a number, and the shape writes that number. */
  predicate WritesAsTyped(shape: Shape, text: Input) {
    Parse(text).Some? && Write(shape, text) == Parse(text)
  }

  /** Each rule accepts exactly the texts that its writer writes as typed, whatever the fallback, and where the field is
      optional the blank. */
  lemma RuleMeansAsTyped(rule: Rule, text: Input)
    ensures Passes(rule, text) <==>
            match rule
            case RequirePositive => WritesAsTyped(PositiveNumber, text)
            case RequirePositiveInteger => WritesAsTyped(PositiveInteger, text)
            case OptionalPositive => text == Blank || WritesAsTyped(PositiveNumber, text)
            case OptionalNonNegative => text == Blank || WritesAsTyped(NonNegativeNumber, text)
            case OptionalNonNegativeInteger => text == Blank || WritesAsTyped(NonNegativeInteger, text)
            case RequireBounded(min, max) =>
              forall fallback: real :: WritesAsTyped(BoundedNumberOr(min, max, fallback), text)
            case RequireBoundedInteger(min, max) =>
              forall fallback: real :: WritesAsTyped(BoundedIntegerOr(min, max, fallback), text)
  {
    hide Rounded;
    match Parse(text) {
      case None =>
        assert rule.RequireBounded? ==> !WritesAsTyped(BoundedNumberOr(rule.min, rule.max, 0.0), text);
        assert rule.RequireBoundedInteger? ==> !WritesAsTyped(BoundedIntegerOr(rule.min, rule.max, 0.0), text);
      case Some(x) =>
        RoundsToItself(x);
        RoundsToItself(x + 1.0);
        assert rule.RequireBounded? && !(rule.min <= x <= rule.max) ==>
          !WritesAsTyped(BoundedNumberOr(rule.min, rule.max, x + 1.0), text);
        assert rule.RequireBoundedInteger? && !(rule.min <= x <= rule.max) ==>
          !WritesAsTyped(BoundedIntegerOr(rule.min, rule.max, x + 1.0), text);
        assert rule.RequireBoundedInteger? && !IsInteger(x) ==>
          !WritesAsTyped(BoundedIntegerOr(rule.min, rule.max, x + 1.0), text);
    }
  }

  lemma RoundsToItself(x: real)
    ensures Rounded(x) == x <==> IsInteger(x)
    ensures IsInteger(Rounded(x)) && (IsInteger(x) <==> IsInteger(x + 1.0))
  {
    if IsInteger(x) {
      RoundOfInteger(x);
    }
    assert (x + 1.0).Floor == x.Floor + 1;
  }

  lemma ValidIsFaithful(rule: Rule, shape: Shape, text: Input)
    requires Suits(rule, shape) && Passes(rule, text)
    ensures Faithful(shape, text)
  {
    match shape {
      case PositiveNumber =>
      case NonNegativeNumber =>
      case PositiveNumberOr(_) =>
      case BoundedNumberOr(_, _, _) =>
      case ParsedOr(_) =>
      case _ =>
        if Parse(text).Some? {
          RoundOfInteger(Parse(text).value);
        }
    }
  }

  /** The rule lets through no text that the shape leaves unwritten. */
  predicate AlwaysWritten(rule: Rule, shape: Shape) {
    match shape
    case PositiveNumber => rule.RequirePositive?
    case NonNegativeInteger => rule.RequireBoundedInteger? && NoNegatives(rule)
    case PositiveInteger => rule.RequirePositiveInteger?
    case NonNegativeNumber => false
    case _ => true
  }

  lemma AlwaysWrittenIsWritten(rule: Rule, shape: Shape, text: Input)
    requires AlwaysWritten(rule, shape) && Passes(rule, text)
    ensures Write(shape, text).Some?
  {
  }

  function ReadBackText(readBack: ReadBack): Input {
    match readBack
    case LeaveBlank => Blank
    case Default(value) => Number(value)
  }

  /** scaleParams record a text that was blank or zero as zero. */
  predicate RecordsZero(rule: Rule, scaled: Shape) {
    || scaled == ParsedOr(0.0)
    || scaled == NonNegativeIntegerOr(0.0)
    || (scaled.BoundedNumberOr? && rule == RequireBounded(scaled.min, scaled.max))
  }

  lemma RecordedZero(rule: Rule, scaled: Shape, text: Input)
    requires RecordsZero(rule, scaled) && Passes(rule, text)
    requires Parse(text) == None || Parse(text) == Some(0.0)
    ensures Write(scaled, text) == Some(0.0)
  {
    assert Rounded(0.0) == 0.0;
  }

  /** A number that was not written is not revived by what the form shows in its place: neither by the number
      recorded in scaleParams nor, where none is recorded, by the default. */
  predicate RowFits(row: Row) {
    match row.written
    case None => true
    case Some(Writing(shape, _)) =>
      && Suits(row.rule, shape)
      && (row.scaled.Some? ==> RecordsZero(row.rule, row.scaled.value) && Write(shape, Number(0.0)).None?)
      && (row.scaled.None? ==> Write(shape, ReadBackText(row.readBack)).None? || AlwaysWritten(row.rule, shape))
  }

  lemma StorageRowsFit(field: StorageField)
    ensures RowFits(StorageRow(field))
  {
  }

  lemma DatabaseRowsFit(field: DatabaseField)
    ensures RowFits(DatabaseRow(field))
  {
  }

  lemma NetworkRowsFit(field: NetworkField)
    ensures RowFits(NetworkRow(field))
  {
  }

  /** Each row's validation rule suits the way the row is written. */
  lemma RowsFit(field: Field)
    ensures RowFits(RowOf(field))
  {
    match field {
      case Storage(f) => StorageRowsFit(f);
      case Database(f) => DatabaseRowsFit(f);
      case Network(f) => NetworkRowsFit(f);
      case Users(_) =>
      case Compute(_) =>
      case Profile(_) =>
      case Supporting(_) =>
      case Runtime(_) =>
      case Analytics(_) =>
      case Ai(_) =>
      case Integration(_) =>
    }
  }

  /** Validation makes every rounding and every fallback unreachable, for each field that is written. */
  lemma ValidatedIsFaithful(field: Field, text: Input)
    requires RowOf(field).written.Some? && Passes(RowOf(field).rule, text)
    ensures Faithful(RowOf(field).written.value.shape, text)
  {
    RowsFit(field);
    ValidIsFaithful(RowOf(field).rule, RowOf(field).written.value.shape, text);
  }

  // ---- What the scaleParams and the defaults keep ----------------------------------------

  /** A valid text is recorded as typed, and a blank one as a number the rule accepts. */
  predicate SuitsScaled(rule: Rule, scaled: Shape) {
    match scaled
    case ParsedOr(fallback) => rule.OptionalNonNegative? && fallback >= 0.0
    case PositiveNumberOr(_) => rule.RequirePositive?
    case PositiveIntegerOr(_) => rule.RequirePositiveInteger?
    case NonNegativeIntegerOr(fallback) => rule.OptionalNonNegativeInteger? && fallback >= 0.0 && IsInteger(fallback)
    case BoundedNumberOr(min, max, _) => rule == RequireBounded(min, max)
    case _ => false
  }

  lemma ScaledRowsFit(field: Field)
    requires RowOf(field).scaled.Some?
    ensures SuitsScaled(RowOf(field).rule, RowOf(field).scaled.value)
  {
    RoundOfWhole(0);
    RoundOfWhole(1);
  }

  lemma ScaledIsFaithful(rule: Rule, scaled: Shape, text: Input)
    requires SuitsScaled(rule, scaled) && Passes(rule, text)
    ensures Write(scaled, text).Some?
    ensures Parse(text).Some? ==> Write(scaled, text) == Parse(text)
    ensures Passes(rule, NumberToInput(Write(scaled, text)))
  {
    if Parse(text).Some? && IsInteger(Parse(text).value) {
      RoundOfInteger(Parse(text).value);
    }
  }

  /** What the form shows where nothing was written passes the field's own rule, or else something always is written. */
  predicate Restorable(row: Row) {
    || Passes(row.rule, ReadBackText(row.readBack))
    || (row.written.Some? && AlwaysWritten(row.rule, row.written.value.shape))
  }

  /** Where the text shown would not pass, the row is written whenever it is checked. */
  predicate WrittenWhenChecked(field: Field) {
    var row := RowOf(field);
    Passes(row.rule, ReadBackText(row.readBack)) ||
      match row.written
      case None => false
      case Some(Writing(_, gate)) =>
        match row.checked
        case Always => gate == Open && !field.Storage? && !field.Database?
        case StorageOn => gate == Open && !field.Database?
        case Autoscaling => gate == IfAutoscaling && !field.Storage? && !field.Database?
        case _ => false
  }

  lemma RowsAreRestorable(field: Field)
    ensures Restorable(RowOf(field))
  {
    RoundOfWhole(0);
  }

  lemma RowsAreWritten(field: Field)
    ensures WrittenWhenChecked(field)
  {
    RoundOfWhole(0);
  }
}
