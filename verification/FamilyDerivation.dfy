/**
 Deriving the service families of a form: lists that grow by one id for each kind of usage, put together and
 sorted into catalogue order (apps/web/src/workload.ts).
 */
module FamilyDerivation {
  import opened Wrappers
  import opened Catalog
  import opened Fields
  import opened Workload

  const SUPPORTING_ORDER: seq<Family> :=
    [MONITORING, LOGGING_AUDIT, TRACING_APM, KEYS_SECRETS, SECURITY_POSTURE, WAF_DDOS]
  const RUNTIME_ORDER: seq<Family> := [SERVERLESS_FUNCTIONS, APP_PLATFORM, CONTAINER_ORCHESTRATION, CONTAINER_REGISTRY]
  const ANALYTICS_ORDER: seq<Family> :=
    [DATA_WAREHOUSE, DATA_LAKE, DATA_INTEGRATION, STREAMING_ANALYTICS, BUSINESS_INTELLIGENCE]
  const AI_ORDER: seq<Family> := [ML_PLATFORM, AI_APIS, GENERATIVE_AI]
  const INTEGRATION_ORDER: seq<Family> := [QUEUES_MESSAGING, EVENTING, WORKFLOW_ORCHESTRATION, API_GATEWAY]

  predicate Positive(form: Form, field: Field) {
    HasPositive(form.numbers(field))
  }

  /** The driven families among the first `n` of a list, in the order of the list. */
  function Driven(form: Form, families: seq<Family>, n: nat): seq<Family>
    requires n <= |families|
  {
    if n == 0 then []
    else Driven(form, families, n - 1) + if IsDriven(form, families[n - 1]) then [families[n - 1]] else []
  }

  lemma {:induction false} DrivenHas(form: Form, families: seq<Family>, n: nat, family: Family)
    requires n <= |families|
    ensures family in Driven(form, families, n) <==> family in families[..n] && IsDriven(form, family)
  {
    hide IsDriven;
    if n > 0 {
      DrivenHas(form, families, n - 1, family);
      assert families[..n] == families[..n - 1] + [families[n - 1]];
    }
  }

  lemma NoneDriven(form: Form, families: seq<Family>)
    ensures Driven(form, families, 0) == []
  {
  }

  lemma OneDrives(form: Form, families: seq<Family>, n: nat, family: Family, a: Field)
    requires n < |families| && families[n] == family && DriversOf(family) == [a]
    ensures Driven(form, families, n + 1) ==
            Driven(form, families, n) +
            if Positive(form, a) then [family] else []
  {
    hide DriversOf, HasPositive;
    assert DriversOf(family)[0] == a;
  }

  lemma TwoDrives(form: Form, families: seq<Family>, n: nat, family: Family, a: Field, b: Field)
    requires n < |families| && families[n] == family && DriversOf(family) == [a, b]
    ensures Driven(form, families, n + 1) ==
            Driven(form, families, n) +
            if Positive(form, a) || Positive(form, b) then [family] else []
  {
    hide DriversOf, HasPositive;
    assert DriversOf(family)[0] == a && DriversOf(family)[1] == b;
  }

  lemma ThreeDrives(form: Form, families: seq<Family>, n: nat, family: Family, a: Field, b: Field, c: Field)
    requires n < |families| && families[n] == family && DriversOf(family) == [a, b, c]
    ensures Driven(form, families, n + 1) ==
            Driven(form, families, n) +
            if Positive(form, a) || Positive(form, b) || Positive(form, c) then [family] else []
  {
    hide DriversOf, HasPositive;
    assert DriversOf(family)[0] == a && DriversOf(family)[1] == b && DriversOf(family)[2] == c;
  }

  lemma FourDrives(form: Form, families: seq<Family>, n: nat, family: Family, a: Field, b: Field, c: Field, d: Field)
    requires n < |families| && families[n] == family && DriversOf(family) == [a, b, c, d]
    ensures Driven(form, families, n + 1) ==
            Driven(form, families, n) +
            if Positive(form, a) || Positive(form, b) || Positive(form, c) || Positive(form, d) then [family] else []
  {
    hide DriversOf, HasPositive;
    assert DriversOf(family)[0] == a && DriversOf(family)[1] == b;
    assert DriversOf(family)[2] == c && DriversOf(family)[3] == d;
  }

  /** Only the families of the five lists have drivers. */
  lemma DrivenIsListed(form: Form, family: Family)
    requires IsDriven(form, family)
    ensures family in SUPPORTING_ORDER || family in RUNTIME_ORDER || family in ANALYTICS_ORDER || family in AI_ORDER
            || family in INTEGRATION_ORDER
  {
    hide HasPositive;
    assert DriversOf(family) != [];
  }

  method SupportingServiceFamilyIds(form: Form) returns (ids: seq<Family>)
    ensures ids == Driven(form, SUPPORTING_ORDER, |SUPPORTING_ORDER|)
  {
    hide IsDriven, Positive, Driven;
    ids := [];
    NoneDriven(form, SUPPORTING_ORDER);
    ThreeDrives(form, SUPPORTING_ORDER, 0, MONITORING,
                Supporting(ObservabilityMetricsMillion), Supporting(ObservabilityAlarms),
                Supporting(ObservabilityDashboards));
    if Positive(form, Supporting(ObservabilityMetricsMillion))
       || Positive(form, Supporting(ObservabilityAlarms))
       || Positive(form, Supporting(ObservabilityDashboards)) {
      ids := ids + [MONITORING];
    }
    assert ids == Driven(form, SUPPORTING_ORDER, 1);
    TwoDrives(form, SUPPORTING_ORDER, 1, LOGGING_AUDIT,
              Supporting(ObservabilityLogsIngestGb), Supporting(ObservabilityLogRetentionGb));
    if Positive(form, Supporting(ObservabilityLogsIngestGb))
       || Positive(form, Supporting(ObservabilityLogRetentionGb)) {
      ids := ids + [LOGGING_AUDIT];
    }
    assert ids == Driven(form, SUPPORTING_ORDER, 2);
    OneDrives(form, SUPPORTING_ORDER, 2, TRACING_APM, Supporting(ObservabilityTracesMillion));
    if Positive(form, Supporting(ObservabilityTracesMillion)) {
      ids := ids + [TRACING_APM];
    }
    assert ids == Driven(form, SUPPORTING_ORDER, 3);
    TwoDrives(form, SUPPORTING_ORDER, 3, KEYS_SECRETS,
              Supporting(SecretsCount), Supporting(SecretApiCallsTenThousand));
    if Positive(form, Supporting(SecretsCount)) || Positive(form, Supporting(SecretApiCallsTenThousand)) {
      ids := ids + [KEYS_SECRETS];
    }
    assert ids == Driven(form, SUPPORTING_ORDER, 4);
    TwoDrives(form, SUPPORTING_ORDER, 4, SECURITY_POSTURE,
              Supporting(SecurityProtectedResources), Supporting(SecurityFindingsThousand));
    if Positive(form, Supporting(SecurityProtectedResources))
       || Positive(form, Supporting(SecurityFindingsThousand)) {
      ids := ids + [SECURITY_POSTURE];
    }
    assert ids == Driven(form, SUPPORTING_ORDER, 5);
    FourDrives(form, SUPPORTING_ORDER, 5, WAF_DDOS,
               Supporting(WafWebAclCount), Supporting(WafRuleCount), Supporting(WafRequestsMillion),
               Supporting(DdosProtectedResources));
    if Positive(form, Supporting(WafWebAclCount))
       || Positive(form, Supporting(WafRuleCount))
       || Positive(form, Supporting(WafRequestsMillion))
       || Positive(form, Supporting(DdosProtectedResources)) {
      ids := ids + [WAF_DDOS];
    }
    assert ids == Driven(form, SUPPORTING_ORDER, 6);
  }

  method RuntimeServiceFamilyIds(form: Form) returns (ids: seq<Family>)
    ensures ids == Driven(form, RUNTIME_ORDER, |RUNTIME_ORDER|)
  {
    hide IsDriven, Positive, Driven;
    ids := [];
    NoneDriven(form, RUNTIME_ORDER);
    OneDrives(form, RUNTIME_ORDER, 0, SERVERLESS_FUNCTIONS, Runtime(FunctionInvocationsMillion));
    if Positive(form, Runtime(FunctionInvocationsMillion)) {
      ids := ids + [SERVERLESS_FUNCTIONS];
    }
    assert ids == Driven(form, RUNTIME_ORDER, 1);
    OneDrives(form, RUNTIME_ORDER, 1, APP_PLATFORM, Runtime(AppPlatformRequestsMillion));
    if Positive(form, Runtime(AppPlatformRequestsMillion)) {
      ids := ids + [APP_PLATFORM];
    }
    assert ids == Driven(form, RUNTIME_ORDER, 2);
    TwoDrives(form, RUNTIME_ORDER, 2, CONTAINER_ORCHESTRATION,
              Runtime(KubernetesClusterCount), Runtime(KubernetesWorkerNodeCount));
    if Positive(form, Runtime(KubernetesClusterCount))
       || Positive(form, Runtime(KubernetesWorkerNodeCount)) {
      ids := ids + [CONTAINER_ORCHESTRATION];
    }
    assert ids == Driven(form, RUNTIME_ORDER, 3);
    TwoDrives(form, RUNTIME_ORDER, 3, CONTAINER_REGISTRY, Runtime(RegistryStorageGb), Runtime(RegistryEgressGb));
    if Positive(form, Runtime(RegistryStorageGb)) || Positive(form, Runtime(RegistryEgressGb)) {
      ids := ids + [CONTAINER_REGISTRY];
    }
    assert ids == Driven(form, RUNTIME_ORDER, 4);
  }

  method AnalyticsServiceFamilyIds(form: Form) returns (ids: seq<Family>)
    ensures ids == Driven(form, ANALYTICS_ORDER, |ANALYTICS_ORDER|)
  {
    hide IsDriven, Positive, Driven;
    ids := [];
    NoneDriven(form, ANALYTICS_ORDER);
    TwoDrives(form, ANALYTICS_ORDER, 0, DATA_WAREHOUSE, Analytics(WarehouseStorageGb), Analytics(WarehouseQueryTb));
    if Positive(form, Analytics(WarehouseStorageGb)) || Positive(form, Analytics(WarehouseQueryTb)) {
      ids := ids + [DATA_WAREHOUSE];
    }
    assert ids == Driven(form, ANALYTICS_ORDER, 1);
    OneDrives(form, ANALYTICS_ORDER, 1, DATA_LAKE, Analytics(DataLakeStorageGb));
    if Positive(form, Analytics(DataLakeStorageGb)) {
      ids := ids + [DATA_LAKE];
    }
    assert ids == Driven(form, ANALYTICS_ORDER, 2);
    OneDrives(form, ANALYTICS_ORDER, 2, DATA_INTEGRATION, Analytics(IntegrationJobHours));
    if Positive(form, Analytics(IntegrationJobHours)) {
      ids := ids + [DATA_INTEGRATION];
    }
    assert ids == Driven(form, ANALYTICS_ORDER, 3);
    OneDrives(form, ANALYTICS_ORDER, 3, STREAMING_ANALYTICS, Analytics(StreamingIngestGb));
    if Positive(form, Analytics(StreamingIngestGb)) {
      ids := ids + [STREAMING_ANALYTICS];
    }
    assert ids == Driven(form, ANALYTICS_ORDER, 4);
    OneDrives(form, ANALYTICS_ORDER, 4, BUSINESS_INTELLIGENCE, Analytics(BiUsers));
    if Positive(form, Analytics(BiUsers)) {
      ids := ids + [BUSINESS_INTELLIGENCE];
    }
    assert ids == Driven(form, ANALYTICS_ORDER, 5);
  }

  method AiServiceFamilyIds(form: Form) returns (ids: seq<Family>)
    ensures ids == Driven(form, AI_ORDER, |AI_ORDER|)
  {
    hide IsDriven, Positive, Driven;
    ids := [];
    NoneDriven(form, AI_ORDER);
    TwoDrives(form, AI_ORDER, 0, ML_PLATFORM, Ai(TrainingGpuHours), Ai(ModelHostingHours));
    if Positive(form, Ai(TrainingGpuHours)) || Positive(form, Ai(ModelHostingHours)) {
      ids := ids + [ML_PLATFORM];
    }
    assert ids == Driven(form, AI_ORDER, 1);
    ThreeDrives(form, AI_ORDER, 1, AI_APIS,
                Ai(InferenceRequestsMillion), Ai(VectorStorageGb), Ai(VectorQueriesMillion));
    if Positive(form, Ai(InferenceRequestsMillion))
       || Positive(form, Ai(VectorStorageGb))
       || Positive(form, Ai(VectorQueriesMillion)) {
      ids := ids + [AI_APIS];
    }
    assert ids == Driven(form, AI_ORDER, 2);
    TwoDrives(form, AI_ORDER, 2, GENERATIVE_AI, Ai(ApiInputTokensMillion), Ai(ApiOutputTokensMillion));
    if Positive(form, Ai(ApiInputTokensMillion)) || Positive(form, Ai(ApiOutputTokensMillion)) {
      ids := ids + [GENERATIVE_AI];
    }
    assert ids == Driven(form, AI_ORDER, 3);
  }

  method IntegrationServiceFamilyIds(form: Form) returns (ids: seq<Family>)
    ensures ids == Driven(form, INTEGRATION_ORDER, |INTEGRATION_ORDER|)
  {
    hide IsDriven, Positive, Driven;
    ids := [];
    NoneDriven(form, INTEGRATION_ORDER);
    OneDrives(form, INTEGRATION_ORDER, 0, QUEUES_MESSAGING, Integration(QueueMessagesMillion));
    if Positive(form, Integration(QueueMessagesMillion)) {
      ids := ids + [QUEUES_MESSAGING];
    }
    assert ids == Driven(form, INTEGRATION_ORDER, 1);
    OneDrives(form, INTEGRATION_ORDER, 1, EVENTING, Integration(EventsMillion));
    if Positive(form, Integration(EventsMillion)) {
      ids := ids + [EVENTING];
    }
    assert ids == Driven(form, INTEGRATION_ORDER, 2);
    OneDrives(form, INTEGRATION_ORDER, 2, WORKFLOW_ORCHESTRATION, Integration(WorkflowTransitionsThousand));
    if Positive(form, Integration(WorkflowTransitionsThousand)) {
      ids := ids + [WORKFLOW_ORCHESTRATION];
    }
    assert ids == Driven(form, INTEGRATION_ORDER, 3);
    OneDrives(form, INTEGRATION_ORDER, 3, API_GATEWAY, Integration(ApiGatewayRequestsMillion));
    if Positive(form, Integration(ApiGatewayRequestsMillion)) {
      ids := ids + [API_GATEWAY];
    }
    assert ids == Driven(form, INTEGRATION_ORDER, 4);
  }

  /** `validBulkServiceRows(rows).map((row) => row.serviceFamilyId)`: the families of the rows that name one, row by
      row. */
  function BulkFamilyIds(rows: seq<BulkServiceRow>): seq<Family> {
    if rows == [] then []
    else
      var last := rows[|rows| - 1].serviceFamilyId;
      BulkFamilyIds(rows[..|rows| - 1]) + if last.Known? then [last.family] else []
  }

  lemma {:induction false} BulkFamilyIsListed(rows: seq<BulkServiceRow>, family: Family)
    ensures family in BulkFamilyIds(rows) <==> InBulk(rows, family)
  {
    hide InBulk;
    if rows == [] {
      NothingInBulk(family);
    } else {
      var init, last := rows[..|rows| - 1], rows[|rows| - 1];
      BulkFamilyIsListed(init, family);
      InBulkGrows(init, last, family);
      assert rows == init + [last];
    }
  }

  lemma NothingInBulk(family: Family)
    ensures !InBulk([], family)
  {
  }

  /** A family is listed once for each row that asks for it. */
  lemma {:induction false} BulkFamiliesAreListed(rows: seq<BulkServiceRow>, family: Family)
    ensures Occurrences(BulkFamilyIds(rows), family) == |RowsFor(rows, family)|
    ensures family in BulkFamilyIds(rows) <==> InBulk(rows, family)
  {
    hide InBulk;
    BulkFamilyIsListed(rows, family);
    if rows != [] {
      var init, last := rows[..|rows| - 1], rows[|rows| - 1];
      BulkFamiliesAreListed(init, family);
      if last.serviceFamilyId.Known? {
        var ids := BulkFamilyIds(init);
        assert (ids + [last.serviceFamilyId.family])[..|ids|] == ids;
      } else {
        assert BulkFamilyIds(rows) == BulkFamilyIds(init);
      }
    }
  }

  function Occurrences(families: seq<Family>, family: Family): nat {
    if families == [] then 0
    else Occurrences(families[..|families| - 1], family) + if families[|families| - 1] == family then 1 else 0
  }

  /** The rows that ask for a family. */
  function RowsFor(rows: seq<BulkServiceRow>, family: Family): seq<BulkServiceRow> {
    if rows == [] then []
    else
      var last := rows[|rows| - 1];
      RowsFor(rows[..|rows| - 1], family) + if last.serviceFamilyId == Known(family) then [last] else []
  }

  lemma InBulkGrows(rows: seq<BulkServiceRow>, row: BulkServiceRow, family: Family)
    ensures InBulk(rows + [row], family) <==> InBulk(rows, family) || row.serviceFamilyId == Known(family)
  {
    if InBulk(rows, family) {
      var i :| 0 <= i < |rows| && rows[i].serviceFamilyId == Known(family);
      assert (rows + [row])[i] == rows[i];
    }
    assert (rows + [row])[|rows|] == row;
  }

  /** The catalogue families named by a list of ids. */
  function KnownFamilies(ids: seq<ServiceId>): set<Family> {
    set family: Family | Known(family) in ids
  }

  /** The union of all the lists, in catalogue order, is the list of required families. */
  method OrderedRequirementIdsOf(form: Form) returns (ids: seq<Family>)
    ensures ids == OrderedRequirementIds(form)
  {
    hide IsDriven, HasPositive, Driven, InBulk, StorageServiceFamily, DatabaseServiceFamily, BulkFamilyIds;
    var selected := KnownFamilies([form.selectedServiceFamilyId] + form.selectedServiceFamilyIds);
    var bulk := BulkFamilyIds(form.bulkServiceRows);
    forall family: Family ensures family in bulk <==> InBulk(form.bulkServiceRows, family) {
      BulkFamiliesAreListed(form.bulkServiceRows, family);
    }
    var storage := if form.storageEnabled then [StorageServiceFamily(form)] else [];
    var database := if form.databaseEnabled then [DatabaseServiceFamily(form)] else [];
    var supporting := SupportingServiceFamilyIds(form);
    var runtime := RuntimeServiceFamilyIds(form);
    var analytics := AnalyticsServiceFamilyIds(form);
    var ai := AiServiceFamilyIds(form);
    var integration := IntegrationServiceFamilyIds(form);
    var edge := (if form.cdn then [CDN_EDGE] else []) + (if form.loadBalancer then [LOAD_BALANCING] else []);
    var driven := supporting + runtime + analytics + ai + integration;
    var all := bulk + storage + database + driven + edge;
    var wanted := selected + set family: Family | family in all;
    forall family: Family ensures family in driven <==> IsDriven(form, family) {
      DrivenListsHave(form, family);
    }
    assert wanted == RequiredFamilies(form);
    ids := Ordered(wanted);
  }

  lemma DrivenListsHave(form: Form, family: Family)
    ensures IsDriven(form, family) <==>
            || family in Driven(form, SUPPORTING_ORDER, |SUPPORTING_ORDER|)
            || family in Driven(form, RUNTIME_ORDER, |RUNTIME_ORDER|)
            || family in Driven(form, ANALYTICS_ORDER, |ANALYTICS_ORDER|)
            || family in Driven(form, AI_ORDER, |AI_ORDER|)
            || family in Driven(form, INTEGRATION_ORDER, |INTEGRATION_ORDER|)
  {
    hide IsDriven, Driven;
    DrivenListHas(form, SUPPORTING_ORDER, family);
    DrivenListHas(form, RUNTIME_ORDER, family);
    DrivenListHas(form, ANALYTICS_ORDER, family);
    DrivenListHas(form, AI_ORDER, family);
    DrivenListHas(form, INTEGRATION_ORDER, family);
    if IsDriven(form, family) {
      DrivenIsListed(form, family);
    }
  }

  lemma DrivenListHas(form: Form, families: seq<Family>, family: Family)
    ensures family in Driven(form, families, |families|) <==> family in families && IsDriven(form, family)
  {
    hide IsDriven, Driven;
    DrivenHas(form, families, |families|, family);
    assert families[..|families|] == families;
  }
}
