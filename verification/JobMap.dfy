/** The worker's two-level job map. A nil entry is a reserved ID. */
module JobMap {
  import opened Basics

  /** A job, named by its namespace, its ID and the submission that created it. */
  datatype JobRef = JobRef(namespace: string, id: string, submission: nat)

  type JobsById = map<string, Option<JobRef>>
  type Jobs = map<string, JobsById>

  /** A key of the two levels. */
  datatype Key = Key(ns: string, id: string)

  /** Indexing the nested map with the comma-ok form; a missing namespace has no entries. */
  function Lookup(m: Jobs, ns: string, id: string): Option<Option<JobRef>> {
    if ns in m && id in m[ns] then Some(m[ns][id]) else None
  }

  /** The job GetJob sees: absent and reserved IDs both read as nil. */
  function JobAt(m: Jobs, ns: string, id: string): Option<JobRef> {
    match Lookup(m, ns, id) case None => None case Some(v) => v
  }

  function WithNamespace(m: Jobs, ns: string): Jobs { if ns in m then m else m[ns := map[]] }

  function Put(m: Jobs, ns: string, id: string, v: Option<JobRef>): Jobs
    requires ns in m
  {
    m[ns := m[ns][id := v]]
  }

  /** Deleting from a missing namespace is a no-op. */
  function Delete(m: Jobs, ns: string, id: string): Jobs {
    if ns in m then m[ns := map k | k in m[ns] && k != id :: m[ns][k]] else m
  }

  lemma LookupPut(m: Jobs, ns: string, id: string, v: Option<JobRef>, ns': string, id': string)
    requires ns in m
    ensures Lookup(Put(m, ns, id, v), ns', id') == if ns == ns' && id == id' then Some(v) else Lookup(m, ns', id')
  {}

  lemma LookupDelete(m: Jobs, ns: string, id: string, ns': string, id': string)
    ensures Lookup(Delete(m, ns, id), ns', id') == if ns == ns' && id == id' then None else Lookup(m, ns', id')
  {}

  lemma LookupWithNamespace(m: Jobs, ns: string, ns': string, id': string)
    ensures Lookup(WithNamespace(m, ns), ns', id') == Lookup(m, ns', id')
  {}

  /** `n` is `m` except at one key. */
  ghost predicate Changed(m: Jobs, n: Jobs, k: Key, v: Option<Option<JobRef>>) {
    forall ns, id :: Lookup(n, ns, id) == if Key(ns, id) == k then v else Lookup(m, ns, id)
  }

  ghost predicate HasNil(m: Jobs) { exists ns, id :: Lookup(m, ns, id) == Some(None) }

  /** Every job in the map. */
  function AllJobs(m: Jobs): set<JobRef> {
    set ns, id | ns in m && id in m[ns] && m[ns][id].Some? :: m[ns][id].value
  }

  lemma AllJobsLookup(m: Jobs, ns: string, id: string, j: JobRef)
    requires Lookup(m, ns, id) == Some(Some(j))
    ensures j in AllJobs(m)
  {
    assert ns in m && id in m[ns] && m[ns][id].Some?;
  }

  lemma AllJobsWitness(m: Jobs, j: JobRef)
    requires j in AllJobs(m)
    ensures exists ns, id :: Lookup(m, ns, id) == Some(Some(j))
  {
    var ns, id :| ns in m && id in m[ns] && m[ns][id] == Some(j);
    assert Lookup(m, ns, id) == Some(Some(j));
  }
}
