/** The service families in catalogue order (apps/web/src/service-catalog.ts). */
module Catalog {
  const CATALOG_SIZE := 53

  /** A family is its place in the catalogue. */
  type Family = n: nat | n < CATALOG_SIZE

  const VM_COMPUTE: Family := 0
  const BURSTABLE_COMPUTE: Family := 1
  const AUTOSCALING_COMPUTE: Family := 2
  const SERVERLESS_FUNCTIONS: Family := 3
  const BATCH_HPC: Family := 4
  const CONTAINER_ORCHESTRATION: Family := 5
  const SERVERLESS_CONTAINERS: Family := 6
  const CONTAINER_REGISTRY: Family := 7
  const APP_PLATFORM: Family := 8
  const STATIC_WEB: Family := 9
  const API_GATEWAY: Family := 10
  const LOW_CODE: Family := 11
  const OBJECT_STORAGE: Family := 12
  const BLOCK_STORAGE: Family := 13
  const FILE_STORAGE: Family := 14
  const ARCHIVE_STORAGE: Family := 15
  const BACKUP_DR: Family := 16
  const RELATIONAL_DATABASE: Family := 17
  const NOSQL_DATABASE: Family := 18
  const CACHE: Family := 19
  const MANAGED_SEARCH: Family := 20
  const GRAPH_LEDGER: Family := 21
  const DATA_WAREHOUSE: Family := 22
  const DATA_LAKE: Family := 23
  const DATA_INTEGRATION: Family := 24
  const STREAMING_ANALYTICS: Family := 25
  const BUSINESS_INTELLIGENCE: Family := 26
  const ML_PLATFORM: Family := 27
  const GENERATIVE_AI: Family := 28
  const AI_APIS: Family := 29
  const QUEUES_MESSAGING: Family := 30
  const EVENTING: Family := 31
  const WORKFLOW_ORCHESTRATION: Family := 32
  const CDN_EDGE: Family := 33
  const LOAD_BALANCING: Family := 34
  const DNS: Family := 35
  const PRIVATE_NETWORKING: Family := 36
  const DEDICATED_CONNECTIVITY: Family := 37
  const IDENTITY_ACCESS: Family := 38
  const KEYS_SECRETS: Family := 39
  const SECURITY_POSTURE: Family := 40
  const WAF_DDOS: Family := 41
  const MONITORING: Family := 42
  const LOGGING_AUDIT: Family := 43
  const TRACING_APM: Family := 44
  const COST_MANAGEMENT: Family := 45
  const CICD: Family := 46
  const IAC_CONFIG: Family := 47
  const MIGRATION: Family := 48
  const HYBRID_EDGE: Family := 49
  const IOT: Family := 50
  const DESKTOP_END_USER: Family := 51
  const MARKETPLACE: Family := 52

  const DEFAULT_SELECTED_FAMILIES: seq<Family> := [
    VM_COMPUTE, AUTOSCALING_COMPUTE, OBJECT_STORAGE, RELATIONAL_DATABASE, CACHE, CDN_EDGE, LOAD_BALANCING
  ]

  /** The wanted families from place `from` on. */
  function PickFrom(wanted: set<Family>, from: nat): seq<Family>
    requires from <= CATALOG_SIZE
    decreases CATALOG_SIZE - from
  {
    if from == CATALOG_SIZE then []
    else (if from in wanted then [from] else []) + PickFrom(wanted, from + 1)
  }

  /** `CLOUD_SERVICE_CATALOG.filter((family) => wanted.has(family.id))` */
  function Ordered(wanted: set<Family>): seq<Family> {
    PickFrom(wanted, 0)
  }

  lemma {:induction false} PickFromHas(wanted: set<Family>, from: nat, family: Family)
    requires from <= CATALOG_SIZE
    ensures family in PickFrom(wanted, from) <==> family in wanted && from <= family
    decreases CATALOG_SIZE - from
  {
    if from < CATALOG_SIZE {
      PickFromHas(wanted, from + 1, family);
    }
  }

  lemma OrderedHas(wanted: set<Family>, family: Family)
    ensures family in Ordered(wanted) <==> family in wanted
  {
    PickFromHas(wanted, 0, family);
  }

  /** The ordered list has exactly the wanted families as members. */
  lemma OrderedMembers(wanted: set<Family>)
    ensures (set f | f in Ordered(wanted)) == wanted
    ensures Ordered(wanted) == [] <==> wanted == {}
  {
    forall f: Family ensures f in Ordered(wanted) <==> f in wanted {
      OrderedHas(wanted, f);
    }
    assert Ordered(wanted) != [] ==> Ordered(wanted)[0] in Ordered(wanted);
  }

  lemma {:induction false} PickFromIncreases(wanted: set<Family>, from: nat, i: nat, j: nat)
    requires from <= CATALOG_SIZE
    requires i < j < |PickFrom(wanted, from)|
    ensures from <= PickFrom(wanted, from)[i] < PickFrom(wanted, from)[j]
    decreases CATALOG_SIZE - from
  {
    var rest := PickFrom(wanted, from + 1);
    if from !in wanted {
      assert PickFrom(wanted, from) == rest;
      PickFromIncreases(wanted, from + 1, i, j);
    } else {
      assert PickFrom(wanted, from) == [from] + rest;
      if i > 0 {
        PickFromIncreases(wanted, from + 1, i - 1, j - 1);
      } else {
        assert rest[j - 1] in rest;
        PickFromHas(wanted, from + 1, rest[j - 1]);
      }
    }
  }

  /** Members come in catalogue order, so none comes twice. */
  lemma OrderedIncreases(wanted: set<Family>, i: nat, j: nat)
    requires i < j < |Ordered(wanted)|
    ensures Ordered(wanted)[i] < Ordered(wanted)[j]
  {
    PickFromIncreases(wanted, 0, i, j);
  }
}
