/**
 The validator as it runs: checkers that push onto a shared list of issues, in the order of
 validateWorkloadForm (apps/web/src/workload.ts).
 */
module Validator {
  import opened Wrappers
  import opened Fields
  import opened Workload
  import opened Validity
  import opened IssueReport

  /** The sections that depend on a choice in the form, by the places of their checks. */
  predicate SectionIsOff(form: Form, from: nat, to: nat) {
    || (from == 5 && to == 8 && form.scalingType != Autoscaled)
    || (from == 8 && to == 21 && !form.storageEnabled)
    || (from == 21 && to == 37 && !form.databaseEnabled)
    || (from == 103 && to == 105 && form.usagePattern != ScheduledUse)
    || (from == 105 && to == 106 && form.usagePattern != BurstyUse)
  }

  lemma OrderMattersWhenAutoscaling(form: Form)
    ensures form.scalingType != Autoscaled ==> ScaleOrderIsValid(form)
  {
  }

  lemma WhenChecked(field: Field)
    ensures match field
            case Storage(_) => RowOf(field).checked == StorageOn
            case Database(_) => RowOf(field).checked == DatabaseOn
            case Compute(_) => 5 <= FieldPlace(field) ==> RowOf(field).checked == Autoscaling
            case Profile(_) =>
              && (103 <= FieldPlace(field) < 105 ==> RowOf(field).checked == Scheduled)
              && (105 <= FieldPlace(field) ==> RowOf(field).checked == Bursty)
            case _ => true
  {
  }

  lemma NothingFailsWhenOff(form: Form, from: nat, to: nat, issue: Issue)
    requires SectionIsOff(form, from, to) && from <= Place(issue) < to
    ensures !Fails(form, issue)
  {
    hide FieldPlace, RowOf, Passes, ScaleOrderIsValid;
    match issue {
      case BadNumber(field) =>
        PlacesFit(field);
        WhenChecked(field);
      case ScaleMaxBelowMin => OrderMattersWhenAutoscaling(form);
      case BadBulkRows =>
    }
  }

  class IssueLog {
    const form: Form
    var issues: seq<Issue>
    ghost var next: nat

    /** The issues are those of the checks before `next`. */
    ghost predicate Valid()
      reads this
    {
      ReportsUpTo(form, issues, next)
    }

    constructor (form: Form)
      ensures Valid() && this.form == form && next == 0 && issues == []
    {
      this.form := form;
      issues := [];
      next := 0;
    }

    /** The check of `issue` has been made since the list was `before`. */
    ghost method Made(issue: Issue, before: seq<Issue>)
      requires next == Place(issue) && ReportsUpTo(form, before, next)
      requires issues == if Fails(form, issue) then before + [issue] else before
      modifies this`next
      ensures Valid() && next == old(next) + 1
    {
      hide Fails, Place;
      OneMoreCheck(form, before, issue);
      next := next + 1;
    }

    /** The checks of a section that is off are not made. */
    ghost method Skip(to: nat)
      requires Valid() && SectionIsOff(form, next, to)
      modifies this`next
      ensures Valid() && next == to
    {
      hide Fails, Place, ReportsUpTo;
      forall issue: Issue | next <= Place(issue) < to ensures !Fails(form, issue) {
        NothingFailsWhenOff(form, next, to, issue);
      }
      NothingMissed(form, issues, next, to);
      next := to;
    }

    method RequirePositiveNumber(field: Field)
      requires Valid() && next == FieldPlace(field) && Applies(form, RowOf(field).checked)
      requires RowOf(field).rule.RequirePositive?
      modifies this`issues, this`next
      ensures Valid() && next == old(next) + 1
    {
      hide FieldPlace, ReportsUpTo, RowOf;
      ghost var before := issues;
      var parsed := Parse(form.numbers(field));
      if parsed == None || parsed.value <= 0.0 {
        issues := issues + [BadNumber(field)];
      }
      Made(BadNumber(field), before);
    }

    method RequirePositiveInteger(field: Field)
      requires Valid() && next == FieldPlace(field) && Applies(form, RowOf(field).checked)
      requires RowOf(field).rule.RequirePositiveInteger?
      modifies this`issues, this`next
      ensures Valid() && next == old(next) + 1
    {
      hide FieldPlace, ReportsUpTo, RowOf;
      ghost var before := issues;
      var parsed := Parse(form.numbers(field));
      if parsed == None || parsed.value <= 0.0 || !IsInteger(parsed.value) {
        issues := issues + [BadNumber(field)];
      }
      Made(BadNumber(field), before);
    }

    method OptionalPositiveNumberField(field: Field)
      requires Valid() && next == FieldPlace(field) && Applies(form, RowOf(field).checked)
      requires RowOf(field).rule.OptionalPositive?
      modifies this`issues, this`next
      ensures Valid() && next == old(next) + 1
    {
      hide FieldPlace, ReportsUpTo, RowOf;
      ghost var before := issues;
      if form.numbers(field) != Blank {
        var parsed := Parse(form.numbers(field));
        if parsed == None || parsed.value <= 0.0 {
          issues := issues + [BadNumber(field)];
        }
      }
      Made(BadNumber(field), before);
    }

    method OptionalNonNegativeNumberField(field: Field)
      requires Valid() && next == FieldPlace(field) && Applies(form, RowOf(field).checked)
      requires RowOf(field).rule.OptionalNonNegative?
      modifies this`issues, this`next
      ensures Valid() && next == old(next) + 1
    {
      hide FieldPlace, ReportsUpTo, RowOf;
      ghost var before := issues;
      if form.numbers(field) != Blank {
        var parsed := Parse(form.numbers(field));
        if parsed == None || parsed.value < 0.0 {
          issues := issues + [BadNumber(field)];
        }
      }
      Made(BadNumber(field), before);
    }

    method OptionalNonNegativeIntegerField(field: Field)
      requires Valid() && next == FieldPlace(field) && Applies(form, RowOf(field).checked)
      requires RowOf(field).rule.OptionalNonNegativeInteger?
      modifies this`issues, this`next
      ensures Valid() && next == old(next) + 1
    {
      hide FieldPlace, ReportsUpTo, RowOf;
      ghost var before := issues;
      if form.numbers(field) != Blank {
        var parsed := Parse(form.numbers(field));
        if parsed == None || parsed.value < 0.0 || !IsInteger(parsed.value) {
          issues := issues + [BadNumber(field)];
        }
      }
      Made(BadNumber(field), before);
    }

    method RequireBoundedNumber(field: Field, min: real, max: real)
      requires Valid() && next == FieldPlace(field) && Applies(form, RowOf(field).checked)
      requires RowOf(field).rule.RequireBounded? && RowOf(field).rule.min == min && RowOf(field).rule.max == max
      modifies this`issues, this`next
      ensures Valid() && next == old(next) + 1
    {
      hide FieldPlace, ReportsUpTo, RowOf;
      ghost var before := issues;
      var parsed := Parse(form.numbers(field));
      if parsed == None || parsed.value < min || parsed.value > max {
        issues := issues + [BadNumber(field)];
      }
      Made(BadNumber(field), before);
    }

    method RequireBoundedInteger(field: Field, min: real, max: real)
      requires Valid() && next == FieldPlace(field) && Applies(form, RowOf(field).checked)
      requires RowOf(field).rule.RequireBoundedInteger? && RowOf(field).rule.min == min && RowOf(field).rule.max == max
      modifies this`issues, this`next
      ensures Valid() && next == old(next) + 1
    {
      hide FieldPlace, ReportsUpTo, RowOf;
      ghost var before := issues;
      var parsed := Parse(form.numbers(field));
      if parsed == None || parsed.value < min || parsed.value > max || !IsInteger(parsed.value) {
        issues := issues + [BadNumber(field)];
      }
      Made(BadNumber(field), before);
    }

    method CheckScaleOrder()
      requires Valid() && next == SCALE_ORDER_PLACE && form.scalingType == Autoscaled
      modifies this`issues, this`next
      ensures Valid() && next == old(next) + 1
    {
      ghost var before := issues;
      var min := Parse(form.numbers(Compute(AutoscaleMin)));
      var max := Parse(form.numbers(Compute(AutoscaleMax)));
      if min != None && max != None && min.value > 0.0 && max.value > 0.0
         && IsInteger(min.value) && IsInteger(max.value) && max.value < min.value {
        issues := issues + [ScaleMaxBelowMin];
      }
      Made(ScaleMaxBelowMin, before);
    }

    /** Stops at the first bad row, so there is at most one issue. */
    method CheckBulkRows()
      requires Valid() && next == BULK_ROWS_PLACE
      modifies this`issues, this`next
      ensures Valid() && next == old(next) + 1
    {
      ghost var before := issues;
      var i := 0;
      while i < |form.bulkServiceRows|
        invariant 0 <= i <= |form.bulkServiceRows|
        invariant forall k :: 0 <= k < i ==> BulkRowIsValid(form.bulkServiceRows[k])
        invariant issues == before && next == old(next)
      {
        var row := form.bulkServiceRows[i];
        var quantity := Parse(row.quantity);
        if !row.serviceFamilyId.Known? || quantity == None || quantity.value <= 0.0 || !IsInteger(quantity.value) {
          assert !BulkRowIsValid(form.bulkServiceRows[i]);
          issues := issues + [BadBulkRows];
          break;
        }
        i := i + 1;
      }
      Made(BadBulkRows, before);
    }

    method CheckCompute()
      requires Valid() && next == 0
      modifies this`issues, this`next
      ensures Valid() && next == 5
    {
      hide Valid;
      RequirePositiveNumber(Compute(Vcpu));
      RequirePositiveNumber(Compute(MemoryGb));
      RequirePositiveInteger(Compute(InstanceCount));
      OptionalNonNegativeIntegerField(Users(DailyActiveUsers));
      OptionalNonNegativeIntegerField(Users(PeakConcurrentUsers));
    }

    method CheckScale()
      requires Valid() && next == 5 && form.scalingType == Autoscaled
      modifies this`issues, this`next
      ensures Valid() && next == 8
    {
      hide Valid;
      RequirePositiveInteger(Compute(AutoscaleMin));
      RequirePositiveInteger(Compute(AutoscaleMax));
      CheckScaleOrder();
    }

    method CheckObjects()
      requires Valid() && next == 8 && form.storageEnabled
      modifies this`issues, this`next
      ensures Valid() && next == 15
    {
      hide Valid;
      RequirePositiveNumber(Storage(StorageSizeGb));
      OptionalNonNegativeNumberField(Storage(MonthlyPutRequestsThousand));
      OptionalNonNegativeNumberField(Storage(MonthlyGetRequestsThousand));
      OptionalNonNegativeNumberField(Storage(MonthlyDeleteRequestsThousand));
      OptionalNonNegativeNumberField(Storage(MonthlyListRequestsThousand));
      OptionalNonNegativeNumberField(Storage(MonthlyRetrievalGb));
      OptionalNonNegativeNumberField(Storage(ObjectCountThousand));
    }

    method CheckVolumes()
      requires Valid() && next == 15 && form.storageEnabled
      modifies this`issues, this`next
      ensures Valid() && next == 21
    {
      hide Valid;
      RequireBoundedInteger(Storage(ObjectRetentionDays), 0.0, 3650.0);
      OptionalNonNegativeNumberField(Storage(LifecycleTransitionsThousand));
      OptionalNonNegativeNumberField(Storage(SnapshotSizeGb));
      RequireBoundedInteger(Storage(SnapshotRetentionDays), 0.0, 3650.0);
      OptionalNonNegativeIntegerField(Storage(ProvisionedIops));
      OptionalNonNegativeNumberField(Storage(ProvisionedThroughputMbps));
    }

    method CheckDatabaseCapacity()
      requires Valid() && next == 21 && form.databaseEnabled
      modifies this`issues, this`next
      ensures Valid() && next == 29
    {
      hide Valid;
      OptionalPositiveNumberField(Database(DatabaseSizeGb));
      OptionalNonNegativeNumberField(Database(BackupStorageGb));
      RequireBoundedInteger(Database(BackupRetentionDays), 0.0, 3650.0);
      OptionalNonNegativeIntegerField(Database(DatabaseIops));
      OptionalNonNegativeIntegerField(Database(ReadReplicaCount));
      OptionalNonNegativeNumberField(Database(CrossRegionReplicaTransferGb));
      OptionalNonNegativeNumberField(Database(NosqlReadRequestUnitsMillion));
      OptionalNonNegativeNumberField(Database(NosqlWriteRequestUnitsMillion));
    }

    method CheckDatabaseUsage()
      requires Valid() && next == 29 && form.databaseEnabled
      modifies this`issues, this`next
      ensures Valid() && next == 37
    {
      hide Valid;
      OptionalNonNegativeIntegerField(Database(RuPerSecond));
      OptionalNonNegativeNumberField(Database(QueryDataTb));
      OptionalNonNegativeIntegerField(Database(CacheReplicaCount));
      OptionalNonNegativeNumberField(Database(StorageGrowthGbPerMonth));
      OptionalNonNegativeIntegerField(Database(SearchNodeCount));
      RequireBoundedNumber(Database(SearchNodeHours), 0.0, HOURS_PER_MONTH);
      OptionalNonNegativeNumberField(Database(SearchStorageGb));
      OptionalNonNegativeNumberField(Database(SearchQueriesMillion));
    }

    method CheckAnalytics()
      requires Valid() && next == 37
      modifies this`issues, this`next
      ensures Valid() && next == 43
    {
      hide Valid;
      OptionalNonNegativeNumberField(Analytics(WarehouseStorageGb));
      OptionalNonNegativeNumberField(Analytics(WarehouseQueryTb));
      OptionalNonNegativeNumberField(Analytics(DataLakeStorageGb));
      OptionalNonNegativeNumberField(Analytics(IntegrationJobHours));
      OptionalNonNegativeNumberField(Analytics(StreamingIngestGb));
      OptionalNonNegativeIntegerField(Analytics(BiUsers));
    }

    method CheckAi()
      requires Valid() && next == 43
      modifies this`issues, this`next
      ensures Valid() && next == 50
    {
      hide Valid;
      OptionalNonNegativeNumberField(Ai(TrainingGpuHours));
      OptionalNonNegativeNumberField(Ai(ModelHostingHours));
      OptionalNonNegativeNumberField(Ai(InferenceRequestsMillion));
      OptionalNonNegativeNumberField(Ai(VectorStorageGb));
      OptionalNonNegativeNumberField(Ai(VectorQueriesMillion));
      OptionalNonNegativeNumberField(Ai(ApiInputTokensMillion));
      OptionalNonNegativeNumberField(Ai(ApiOutputTokensMillion));
    }

    method CheckIntegration()
      requires Valid() && next == 50
      modifies this`issues, this`next
      ensures Valid() && next == 54
    {
      hide Valid;
      OptionalNonNegativeNumberField(Integration(QueueMessagesMillion));
      OptionalNonNegativeNumberField(Integration(EventsMillion));
      OptionalNonNegativeNumberField(Integration(WorkflowTransitionsThousand));
      OptionalNonNegativeNumberField(Integration(ApiGatewayRequestsMillion));
    }

    method CheckTransfer()
      requires Valid() && next == 54
      modifies this`issues, this`next
      ensures Valid() && next == 62
    {
      hide Valid;
      OptionalNonNegativeNumberField(Network(MonthlyEgressGb));
      OptionalNonNegativeNumberField(Network(CrossAzTransferGb));
      OptionalNonNegativeNumberField(Network(InterRegionTransferGb));
      OptionalNonNegativeNumberField(Network(CdnTrafficGb));
      RequireBoundedNumber(Network(CdnCacheHitRatioPercent), 0.0, 100.0);
      OptionalNonNegativeNumberField(Network(CdnRequestsMillion));
      OptionalNonNegativeNumberField(Network(NatGatewayGb));
      RequireBoundedNumber(Network(NatGatewayHours), 0.0, HOURS_PER_MONTH);
    }

    method CheckBalancing()
      requires Valid() && next == 62
      modifies this`issues, this`next
      ensures Valid() && next == 69
    {
      hide Valid;
      OptionalNonNegativeIntegerField(Network(DnsHostedZones));
      OptionalNonNegativeNumberField(Network(DnsQueriesMillion));
      OptionalNonNegativeNumberField(Network(LoadBalancerProcessedGb));
      RequireBoundedNumber(Network(LoadBalancerHours), 0.0, HOURS_PER_MONTH);
      OptionalNonNegativeNumberField(Network(LoadBalancerNewConnectionsPerSecond));
      OptionalNonNegativeIntegerField(Network(LoadBalancerActiveConnections));
      OptionalNonNegativeNumberField(Network(LoadBalancerRuleEvaluationsPerSecond));
    }

    method CheckPrivateLinks()
      requires Valid() && next == 69
      modifies this`issues, this`next
      ensures Valid() && next == 75
    {
      hide Valid;
      OptionalNonNegativeIntegerField(Network(VpnConnectionCount));
      RequireBoundedNumber(Network(VpnConnectionHours), 0.0, HOURS_PER_MONTH);
      OptionalNonNegativeNumberField(Network(VpnDataTransferGb));
      OptionalNonNegativeIntegerField(Network(PrivateCircuitCount));
      RequireBoundedNumber(Network(PrivateCircuitPortHours), 0.0, HOURS_PER_MONTH);
      OptionalNonNegativeNumberField(Network(PrivateCircuitDataTransferGb));
    }

    method CheckObservability()
      requires Valid() && next == 75
      modifies this`issues, this`next
      ensures Valid() && next == 81
    {
      hide Valid;
      OptionalNonNegativeNumberField(Supporting(ObservabilityMetricsMillion));
      OptionalNonNegativeNumberField(Supporting(ObservabilityLogsIngestGb));
      OptionalNonNegativeNumberField(Supporting(ObservabilityLogRetentionGb));
      OptionalNonNegativeIntegerField(Supporting(ObservabilityAlarms));
      OptionalNonNegativeIntegerField(Supporting(ObservabilityDashboards));
      OptionalNonNegativeNumberField(Supporting(ObservabilityTracesMillion));
    }

    method CheckSecurity()
      requires Valid() && next == 81
      modifies this`issues, this`next
      ensures Valid() && next == 89
    {
      hide Valid;
      OptionalNonNegativeIntegerField(Supporting(SecretsCount));
      OptionalNonNegativeNumberField(Supporting(SecretApiCallsTenThousand));
      OptionalNonNegativeIntegerField(Supporting(SecurityProtectedResources));
      OptionalNonNegativeNumberField(Supporting(SecurityFindingsThousand));
      OptionalNonNegativeIntegerField(Supporting(WafWebAclCount));
      OptionalNonNegativeIntegerField(Supporting(WafRuleCount));
      OptionalNonNegativeNumberField(Supporting(WafRequestsMillion));
      OptionalNonNegativeIntegerField(Supporting(DdosProtectedResources));
    }

    method CheckFunctions()
      requires Valid() && next == 89
      modifies this`issues, this`next
      ensures Valid() && next == 95
    {
      hide Valid;
      OptionalNonNegativeNumberField(Runtime(FunctionInvocationsMillion));
      RequirePositiveNumber(Runtime(FunctionDurationMs));
      RequirePositiveInteger(Runtime(FunctionMemoryMb));
      OptionalNonNegativeNumberField(Runtime(AppPlatformRequestsMillion));
      RequirePositiveNumber(Runtime(AppPlatformRequestDurationMs));
      RequirePositiveNumber(Runtime(AppPlatformVcpu));
    }

    method CheckPlatform()
      requires Valid() && next == 95
      modifies this`issues, this`next
      ensures Valid() && next == 103
    {
      hide Valid;
      RequirePositiveNumber(Runtime(AppPlatformMemoryGb));
      RequireBoundedNumber(Runtime(AppPlatformAlwaysOnHours), 0.0, HOURS_PER_MONTH);
      OptionalNonNegativeIntegerField(Runtime(AppPlatformMinInstances));
      OptionalNonNegativeIntegerField(Runtime(KubernetesClusterCount));
      OptionalNonNegativeIntegerField(Runtime(KubernetesWorkerNodeCount));
      OptionalNonNegativeNumberField(Runtime(RegistryStorageGb));
      OptionalNonNegativeNumberField(Runtime(RegistryEgressGb));
      RequireBoundedNumber(Profile(CommitmentPreferencePercent), 0.0, 100.0);
    }

    method CheckSchedule()
      requires Valid() && next == 103 && form.usagePattern == ScheduledUse
      modifies this`issues, this`next
      ensures Valid() && next == 105
    {
      hide Valid;
      RequireBoundedNumber(Profile(UsageHoursPerDay), 1.0, 24.0);
      RequireBoundedInteger(Profile(UsageDaysPerWeek), 1.0, 7.0);
    }

    method CheckBurst()
      requires Valid() && next == 105 && form.usagePattern == BurstyUse
      modifies this`issues, this`next
      ensures Valid() && next == 106
    {
      hide Valid;
      RequireBoundedNumber(Profile(AverageUtilizationPercent), 1.0, 100.0);
    }

    /** All checks have been made. */
    method Report() returns (report: seq<Issue>)
      requires Valid() && next == PLACES
      ensures IsReport(form, report)
    {
      ReportIsComplete(form, issues);
      report := issues;
    }
  }

  /** The checks of the compute, storage and database sections, each block only when its switch asks for it. */
  method CheckSections(log: IssueLog)
    requires log.Valid() && log.next == 0
    modifies log`issues, log`next
    ensures log.Valid() && log.next == 37
  {
    hide IssueLog.Valid;
    log.CheckCompute();
    if log.form.scalingType == Autoscaled {
      log.CheckScale();
    } else {
      log.Skip(8);
    }
    if log.form.storageEnabled {
      log.CheckObjects();
      log.CheckVolumes();
    } else {
      log.Skip(21);
    }
    if log.form.databaseEnabled {
      log.CheckDatabaseCapacity();
      log.CheckDatabaseUsage();
    } else {
      log.Skip(37);
    }
  }

  /** The checks of the services that are always asked about. */
  method CheckServices(log: IssueLog)
    requires log.Valid() && log.next == 37
    modifies log`issues, log`next
    ensures log.Valid() && log.next == 103
  {
    hide IssueLog.Valid;
    log.CheckAnalytics();
    log.CheckAi();
    log.CheckIntegration();
    log.CheckTransfer();
    log.CheckBalancing();
    log.CheckPrivateLinks();
    log.CheckObservability();
    log.CheckSecurity();
    log.CheckFunctions();
    log.CheckPlatform();
  }

  /** The validator's list is the report of the form, and it is empty exactly for valid forms. */
  method ValidateWorkloadForm(form: Form) returns (issues: seq<Issue>)
    ensures IsReport(form, issues)
    ensures issues == [] <==> IsValid(form)
  {
    hide IsReport, IsValid, IssueLog.Valid;
    var log := new IssueLog(form);
    CheckSections(log);
    CheckServices(log);
    if form.usagePattern == ScheduledUse {
      log.CheckSchedule();
    } else {
      log.Skip(105);
    }
    if form.usagePattern == BurstyUse {
      log.CheckBurst();
    } else {
      log.Skip(106);
    }
    log.CheckBulkRows();
    issues := log.Report();
    NoIssuesMeansValid(form, issues);
  }
}
