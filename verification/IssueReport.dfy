/**
 What validateWorkloadForm reports (apps/web/src/workload.ts): one issue for each thing that is wrong with the form,
 in the order in which the form is checked.
 */
module IssueReport {
  import opened Wrappers
  import opened Fields
  import opened Workload
  import opened Validity

  datatype Issue = BadNumber(field: Field) | ScaleMaxBelowMin | BadBulkRows

  predicate Fails(form: Form, issue: Issue) {
    match issue
    case BadNumber(field) => !NumberIsValid(form, field)
    case ScaleMaxBelowMin => !ScaleOrderIsValid(form)
    case BadBulkRows => !BulkRowsAreValid(form)
  }

  // ---- The order of the checks -------------------------------------------------------------

  function UsersPlace(field: UsersField): nat {
    match field
    case DailyActiveUsers => 0
    case PeakConcurrentUsers => 1
  }

  function ComputePlace(field: ComputeField): nat {
    match field
    case Vcpu => 0
    case MemoryGb => 1
    case InstanceCount => 2
    case AutoscaleMin => 5
    case AutoscaleMax => 6
  }

  function StoragePlace(field: StorageField): nat {
    match field
    case StorageSizeGb => 0
    case MonthlyPutRequestsThousand => 1
    case MonthlyGetRequestsThousand => 2
    case MonthlyDeleteRequestsThousand => 3
    case MonthlyListRequestsThousand => 4
    case MonthlyRetrievalGb => 5
    case ObjectCountThousand => 6
    case ObjectRetentionDays => 7
    case LifecycleTransitionsThousand => 8
    case SnapshotSizeGb => 9
    case SnapshotRetentionDays => 10
    case ProvisionedIops => 11
    case ProvisionedThroughputMbps => 12
  }

  function DatabasePlace(field: DatabaseField): nat {
    match field
    case DatabaseSizeGb => 0
    case BackupStorageGb => 1
    case BackupRetentionDays => 2
    case DatabaseIops => 3
    case ReadReplicaCount => 4
    case CrossRegionReplicaTransferGb => 5
    case NosqlReadRequestUnitsMillion => 6
    case NosqlWriteRequestUnitsMillion => 7
    case RuPerSecond => 8
    case QueryDataTb => 9
    case CacheReplicaCount => 10
    case StorageGrowthGbPerMonth => 11
    case SearchNodeCount => 12
    case SearchNodeHours => 13
    case SearchStorageGb => 14
    case SearchQueriesMillion => 15
  }

  function AnalyticsPlace(field: AnalyticsField): nat {
    match field
    case WarehouseStorageGb => 0
    case WarehouseQueryTb => 1
    case DataLakeStorageGb => 2
    case IntegrationJobHours => 3
    case StreamingIngestGb => 4
    case BiUsers => 5
  }

  function AiPlace(field: AiField): nat {
    match field
    case TrainingGpuHours => 0
    case ModelHostingHours => 1
    case InferenceRequestsMillion => 2
    case VectorStorageGb => 3
    case VectorQueriesMillion => 4
    case ApiInputTokensMillion => 5
    case ApiOutputTokensMillion => 6
  }

  function IntegrationPlace(field: IntegrationField): nat {
    match field
    case QueueMessagesMillion => 0
    case EventsMillion => 1
    case WorkflowTransitionsThousand => 2
    case ApiGatewayRequestsMillion => 3
  }

  function NetworkPlace(field: NetworkField): nat {
    match field
    case MonthlyEgressGb => 0
    case CrossAzTransferGb => 1
    case InterRegionTransferGb => 2
    case CdnTrafficGb => 3
    case CdnCacheHitRatioPercent => 4
    case CdnRequestsMillion => 5
    case NatGatewayGb => 6
    case NatGatewayHours => 7
    case DnsHostedZones => 8
    case DnsQueriesMillion => 9
    case LoadBalancerProcessedGb => 10
    case LoadBalancerHours => 11
    case LoadBalancerNewConnectionsPerSecond => 12
    case LoadBalancerActiveConnections => 13
    case LoadBalancerRuleEvaluationsPerSecond => 14
    case VpnConnectionCount => 15
    case VpnConnectionHours => 16
    case VpnDataTransferGb => 17
    case PrivateCircuitCount => 18
    case PrivateCircuitPortHours => 19
    case PrivateCircuitDataTransferGb => 20
  }

  function SupportingPlace(field: SupportingField): nat {
    match field
    case ObservabilityMetricsMillion => 0
    case ObservabilityLogsIngestGb => 1
    case ObservabilityLogRetentionGb => 2
    case ObservabilityAlarms => 3
    case ObservabilityDashboards => 4
    case ObservabilityTracesMillion => 5
    case SecretsCount => 6
    case SecretApiCallsTenThousand => 7
    case SecurityProtectedResources => 8
    case SecurityFindingsThousand => 9
    case WafWebAclCount => 10
    case WafRuleCount => 11
    case WafRequestsMillion => 12
    case DdosProtectedResources => 13
  }

  function RuntimePlace(field: RuntimeField): nat {
    match field
    case FunctionInvocationsMillion => 0
    case FunctionDurationMs => 1
    case FunctionMemoryMb => 2
    case AppPlatformRequestsMillion => 3
    case AppPlatformRequestDurationMs => 4
    case AppPlatformVcpu => 5
    case AppPlatformMemoryGb => 6
    case AppPlatformAlwaysOnHours => 7
    case AppPlatformMinInstances => 8
    case KubernetesClusterCount => 9
    case KubernetesWorkerNodeCount => 10
    case RegistryStorageGb => 11
    case RegistryEgressGb => 12
  }

  function ProfilePlace(field: ProfileField): nat {
    match field
    case CommitmentPreferencePercent => 0
    case UsageHoursPerDay => 1
    case UsageDaysPerWeek => 2
    case AverageUtilizationPercent => 3
  }

  function FieldPlace(field: Field): nat {
    match field
    case Compute(f) => ComputePlace(f)
    case Users(f) => 3 + UsersPlace(f)
    case Storage(f) => 8 + StoragePlace(f)
    case Database(f) => 21 + DatabasePlace(f)
    case Analytics(f) => 37 + AnalyticsPlace(f)
    case Ai(f) => 43 + AiPlace(f)
    case Integration(f) => 50 + IntegrationPlace(f)
    case Network(f) => 54 + NetworkPlace(f)
    case Supporting(f) => 75 + SupportingPlace(f)
    case Runtime(f) => 89 + RuntimePlace(f)
    case Profile(f) => 102 + ProfilePlace(f)
  }

  const SCALE_ORDER_PLACE := 7
  const BULK_ROWS_PLACE := 106
  const PLACES := 107

  /** The place of the check that can report the issue. */
  function Place(issue: Issue): nat {
    match issue
    case BadNumber(field) => FieldPlace(field)
    case ScaleMaxBelowMin => SCALE_ORDER_PLACE
    case BadBulkRows => BULK_ROWS_PLACE
  }

  lemma PlacesFit(field: Field)
    ensures match field
            case Users(_) => 3 <= FieldPlace(field) < 5
            case Compute(_) => FieldPlace(field) < 3 || 5 <= FieldPlace(field) < 7
            case Storage(_) => 8 <= FieldPlace(field) < 21
            case Database(_) => 21 <= FieldPlace(field) < 37
            case Analytics(_) => 37 <= FieldPlace(field) < 43
            case Ai(_) => 43 <= FieldPlace(field) < 50
            case Integration(_) => 50 <= FieldPlace(field) < 54
            case Network(_) => 54 <= FieldPlace(field) < 75
            case Supporting(_) => 75 <= FieldPlace(field) < 89
            case Runtime(_) => 89 <= FieldPlace(field) < 102
            case Profile(_) => 102 <= FieldPlace(field) < 106
  {
  }

  lemma SectionPlacesDiffer(a: Field, b: Field)
    requires FieldPlace(a) == FieldPlace(b)
    requires match a
             case Users(_) => b.Users? case Compute(_) => b.Compute? case Storage(_) => b.Storage?
             case Database(_) => b.Database? case Analytics(_) => b.Analytics? case Ai(_) => b.Ai?
             case Integration(_) => b.Integration? case Network(_) => b.Network? case Supporting(_) => b.Supporting?
             case Runtime(_) => b.Runtime? case Profile(_) => b.Profile?
    ensures a == b
  {
  }

  /** Each place is that of one issue only. */
  lemma PlacesDiffer(a: Issue, b: Issue)
    requires Place(a) == Place(b)
    ensures a == b
  {
    hide FieldPlace;
    if a.BadNumber? {
      PlacesFit(a.field);
    }
    if b.BadNumber? {
      PlacesFit(b.field);
    }
    if a.BadNumber? && b.BadNumber? {
      SectionPlacesDiffer(a.field, b.field);
    }
  }

  // ---- The report --------------------------------------------------------------------------

  predicate InOrder(issues: seq<Issue>) {
    forall i, j :: 0 <= i < j < |issues| ==> Place(issues[i]) < Place(issues[j])
  }

  /** The issues are exactly those that the checks before `next` find, each once, in the order of the checks. */
  ghost predicate ReportsUpTo(form: Form, issues: seq<Issue>, next: nat) {
    && InOrder(issues)
    && forall issue: Issue :: issue in issues <==> Fails(form, issue) && Place(issue) < next
  }

  /** The issues are exactly what is wrong with the form, each once, in the order of the checks. */
  ghost predicate IsReport(form: Form, issues: seq<Issue>) {
    && InOrder(issues)
    && forall issue: Issue :: issue in issues <==> Fails(form, issue)
  }

  /** One check made: its issue is reported exactly if it fails. */
  lemma OneMoreCheck(form: Form, issues: seq<Issue>, issue: Issue)
    requires ReportsUpTo(form, issues, Place(issue))
    ensures ReportsUpTo(form, if Fails(form, issue) then issues + [issue] else issues, Place(issue) + 1)
  {
    hide Fails, Place;
    var after := if Fails(form, issue) then issues + [issue] else issues;
    forall i | 0 <= i < |issues| ensures Place(issues[i]) < Place(issue) {
      assert issues[i] in issues;
    }
    forall other: Issue ensures other in after <==> Fails(form, other) && Place(other) < Place(issue) + 1 {
      if Place(other) == Place(issue) {
        PlacesDiffer(other, issue);
      }
    }
  }

  /** Checks that would find nothing may be left out. */
  lemma NothingMissed(form: Form, issues: seq<Issue>, from: nat, to: nat)
    requires ReportsUpTo(form, issues, from) && from <= to
    requires forall issue: Issue :: from <= Place(issue) < to ==> !Fails(form, issue)
    ensures ReportsUpTo(form, issues, to)
  {
    hide Fails, Place, InOrder;
  }

  lemma AllPlaces(issue: Issue)
    ensures Place(issue) < PLACES
  {
    hide FieldPlace;
    if issue.BadNumber? {
      PlacesFit(issue.field);
    }
  }

  lemma ReportIsComplete(form: Form, issues: seq<Issue>)
    requires ReportsUpTo(form, issues, PLACES)
    ensures IsReport(form, issues)
  {
    hide Fails, Place, InOrder;
    forall issue: Issue ensures Place(issue) < PLACES {
      AllPlaces(issue);
    }
  }

  // ---- What a report tells -----------------------------------------------------------------

  /** A form has one report only: its issues and their order are fixed. */
  lemma ReportIsUnique(form: Form, a: seq<Issue>, b: seq<Issue>)
    requires IsReport(form, a) && IsReport(form, b)
    ensures a == b
  {
    hide Fails, Place;
    SameMembersSameOrder(a, b);
  }

  lemma {:induction false} SameMembersSameOrder(a: seq<Issue>, b: seq<Issue>)
    requires InOrder(a) && InOrder(b) && forall issue: Issue :: issue in a <==> issue in b
    ensures a == b
  {
    hide Place;
    BothOrNeitherEmpty(a, b);
    if a != [] {
      var x, y := a[|a| - 1], b[|b| - 1];
      assert x in a && y in b;
      LastIsLast(a, y);
      LastIsLast(b, x);
      assert x == y;
      var c, d := a[..|a| - 1], b[..|b| - 1];
      forall issue: Issue ensures issue in c <==> issue in d {
        WithoutLast(a, issue);
        WithoutLast(b, issue);
      }
      SameMembersSameOrder(c, d);
      assert a == c + [x] && b == d + [y];
    }
  }

  lemma BothOrNeitherEmpty(a: seq<Issue>, b: seq<Issue>)
    requires forall issue: Issue :: issue in a <==> issue in b
    ensures a == [] <==> b == []
  {
    if a != [] {
      assert a[0] in a;
    }
    if b != [] {
      assert b[0] in b;
    }
  }

  lemma LastIsLast(issues: seq<Issue>, issue: Issue)
    requires InOrder(issues) && issue in issues
    ensures Place(issue) < Place(issues[|issues| - 1]) || issue == issues[|issues| - 1]
  {
    hide Place;
  }

  lemma WithoutLast(issues: seq<Issue>, issue: Issue)
    requires InOrder(issues) && issues != []
    ensures issue in issues[..|issues| - 1] <==> issue in issues && issue != issues[|issues| - 1]
  {
    hide Place;
    var last := issues[|issues| - 1];
    if issue in issues[..|issues| - 1] {
      var i :| 0 <= i < |issues| - 1 && issues[i] == issue;
      assert Place(issue) < Place(last);
    }
  }

  /** The report is empty exactly for the valid forms. */
  lemma NoIssuesMeansValid(form: Form, issues: seq<Issue>)
    requires IsReport(form, issues)
    ensures issues == [] <==> IsValid(form)
  {
    hide NumberIsValid, ScaleOrderIsValid, BulkRowsAreValid, InOrder;
    assert Fails(form, ScaleMaxBelowMin) == !ScaleOrderIsValid(form);
    assert Fails(form, BadBulkRows) == !BulkRowsAreValid(form);
    if issues == [] {
      forall field: Field ensures NumberIsValid(form, field) {
        assert !Fails(form, BadNumber(field));
      }
    } else {
      var first := issues[0];
      assert first in issues;
      assert Fails(form, first);
    }
  }
}
