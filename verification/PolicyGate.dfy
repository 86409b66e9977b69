// services/policy_gate: which task types a source's policy lets through.
module PolicyGate {
  import opened Prelude

  datatype PolicyStatus = CrawlAllowed | PartnerRequired | ManualOnly | Unknown

  datatype TaskType = SearchTask | MapTask | CrawlTask | ScrapeTask | ImportTask

  type SourceId = string

  datatype SourcePolicy = SourcePolicy(policyId: string, status: PolicyStatus)

  const ALL_TASKS := {SearchTask, MapTask, CrawlTask, ScrapeTask, ImportTask}

  const FIRECRAWL_TASKS := {CrawlTask, ScrapeTask}

  function AllowedOperations(status: PolicyStatus): set<TaskType> {
    match status
    case CrawlAllowed => ALL_TASKS
    case ManualOnly => {ImportTask}
    case PartnerRequired => {}
    case Unknown => {}
  }

  // A source nobody has a policy for is unknown.
  function StatusOf(policies: map<SourceId, SourcePolicy>, source: SourceId): PolicyStatus {
    if source in policies then policies[source].status else Unknown
  }

  predicate Allowed(policies: map<SourceId, SourcePolicy>, source: SourceId, taskType: TaskType) {
    taskType in AllowedOperations(StatusOf(policies, source))
  }

  // The gate's compliance rule: nothing that fetches is allowed unless crawling is, and only imports
  // are allowed under manual review.
  lemma AllowedExactly(policies: map<SourceId, SourcePolicy>, source: SourceId, taskType: TaskType)
    ensures Allowed(policies, source, taskType) <==>
            source in policies &&
            (policies[source].status == CrawlAllowed ||
             (policies[source].status == ManualOnly && taskType == ImportTask))
    ensures taskType in FIRECRAWL_TASKS && Allowed(policies, source, taskType) ==>
            StatusOf(policies, source) == CrawlAllowed
  {
    assert taskType in ALL_TASKS by {
      match taskType { case SearchTask => case MapTask => case CrawlTask => case ScrapeTask => case ImportTask => }
    }
  }
}
