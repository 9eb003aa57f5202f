/** `get_metrics`: one metrics round over a batch of jobs, each either asked of
    its node (live) or advanced by the simulation. */
module Metrics {
  import opened Endpoint
  import opened Zipping
  import opened Simulation

  /** One entry of the result dictionary: the node's decoded reply, passed on
      as it is, or the simulation's record. */
  datatype Metric<R> = Live(reply: R) | Simulated(metrics: SimMetrics)

  /** The two outputs of a round: the result dictionary, and the active job
      table after the in-place updates of the source. */
  datatype RoundResult<R> = RoundResult(results: map<JobId, Metric<R>>, jobs: map<JobId, JobState>)

  /** Every simulated entry has a table entry the step can run on. */
  predicate Ready(entries: seq<Entry>, jobs: map<JobId, JobState>, policy: Policy) {
    forall i :: 0 <= i < |entries| && entries[i].2 ==>
      entries[i].0 in jobs && CanStep(jobs[entries[i].0], policy)
  }

  /** True when `j` is the job id of some simulated entry. */
  predicate SimulatedIn(entries: seq<Entry>, j: JobId) {
    exists i :: 0 <= i < |entries| && entries[i].2 && entries[i].0 == j
  }

  /** True when `j` is the job id of some entry. */
  predicate ListedIn(entries: seq<Entry>, j: JobId) {
    exists i :: 0 <= i < |entries| && entries[i].0 == j
  }

  /** The result entry of one batch element, given the table as it stands. */
  function Visit<R>(port: string, fetch: (string, JobId) -> R, e: Entry,
                    roundDuration: real, policy: Policy, acc: RoundResult<R>): RoundResult<R>
    requires e.2 ==> e.0 in acc.jobs && CanStep(acc.jobs[e.0], policy)
  {
    if !e.2 then
      RoundResult(acc.results[e.0 := Live(fetch(Address(e.1, port), e.0))], acc.jobs)
    else
      var out := Step(acc.jobs[e.0], roundDuration, policy);
      RoundResult(acc.results[e.0 := Simulated(out.1)], acc.jobs[e.0 := out.0])
  }

  /** Visiting the first element leaves the rest ready: the table keeps its keys
      and every entry stays steppable. */
  lemma ReadyAfterVisit<R>(port: string, fetch: (string, JobId) -> R, entries: seq<Entry>,
                           roundDuration: real, policy: Policy, acc: RoundResult<R>)
    requires |entries| > 0 && Ready(entries, acc.jobs, policy)
    ensures Ready(entries[1..], Visit(port, fetch, entries[0], roundDuration, policy, acc).jobs, policy)
  {
  }

  /** A job id is listed (or simulated) in a non-empty batch iff it is the first
      element's, or it is listed (or simulated) in the rest. */
  lemma MembershipOfTail(entries: seq<Entry>)
    requires |entries| > 0
    ensures forall j :: ListedIn(entries, j) <==> entries[0].0 == j || ListedIn(entries[1..], j)
    ensures forall j :: SimulatedIn(entries, j) <==> (entries[0].2 && entries[0].0 == j) || SimulatedIn(entries[1..], j)
  {
  }

  /** The loop of `get_metrics` from a given point on: visits the remaining
      elements in order, each seeing the table left by the ones before it. */
  function CollectFrom<R>(port: string, fetch: (string, JobId) -> R, entries: seq<Entry>,
                          roundDuration: real, policy: Policy, acc: RoundResult<R>): (r: RoundResult<R>)
    requires Ready(entries, acc.jobs, policy)
    // one result per listed job id, added to what was there
    ensures forall j :: j in r.results <==> j in acc.results || ListedIn(entries, j)
    ensures forall j :: j in acc.results && !ListedIn(entries, j) ==> r.results[j] == acc.results[j]
    // the table gains no keys, and only simulated jobs change
    ensures r.jobs.Keys == acc.jobs.Keys
    ensures forall j :: j in acc.jobs && !SimulatedIn(entries, j) ==> r.jobs[j] == acc.jobs[j]
    ensures forall j :: j in acc.jobs ==>
      && r.jobs[j].iterationTime == acc.jobs[j].iterationTime
      && r.jobs[j].totalGpus == acc.jobs[j].totalGpus
      && r.jobs[j].totalIteration == acc.jobs[j].totalIteration
    decreases |entries|
  {
    if |entries| == 0 then acc
    else
      var next := Visit(port, fetch, entries[0], roundDuration, policy, acc);
      ReadyAfterVisit(port, fetch, entries, roundDuration, policy, acc);
      var r := CollectFrom(port, fetch, entries[1..], roundDuration, policy, next);
      MembershipOfTail(entries);
      r
  }

  /** `get_metrics(job_id_list, ipaddr_list, if_simulation, round_duration, active_job_dict)`
      under `policy`, with `fetch` standing for the node's decoded reply to a
      metrics request sent to an address for a job. */
  function GetMetrics<R>(port: string, fetch: (string, JobId) -> R, jobIds: seq<JobId>,
                         ipaddrs: seq<string>, ifSimulation: seq<bool>, roundDuration: real,
                         jobs: map<JobId, JobState>, policy: Policy): (r: RoundResult<R>)
    requires forall i :: 0 <= i < |jobIds| && i < |ipaddrs| && i < |ifSimulation| && ifSimulation[i] ==>
      jobIds[i] in jobs && CanStep(jobs[jobIds[i]], policy)
    // exactly one key per zipped job id
    ensures forall j :: j in r.results <==>
      exists i :: 0 <= i < Min(Min(|jobIds|, |ipaddrs|), |ifSimulation|) && jobIds[i] == j
    // the table keeps its keys and changes only at simulated jobs
    ensures r.jobs.Keys == jobs.Keys
    ensures forall j :: j in jobs ==>
      (forall i :: 0 <= i < Min(Min(|jobIds|, |ipaddrs|), |ifSimulation|) && ifSimulation[i] ==> jobIds[i] != j) ==>
      r.jobs[j] == jobs[j]
  {
    var entries := Zip3(jobIds, ipaddrs, ifSimulation);
    var r := CollectFrom(port, fetch, entries, roundDuration, policy, RoundResult(map[], jobs));
    assert forall j :: ListedIn(entries, j) ==>
      exists i :: 0 <= i < |entries| && jobIds[i] == j;
    r
  }

  /** Job ids are pairwise distinct among the entries. */
  predicate Distinct(entries: seq<Entry>) {
    forall i, k :: 0 <= i < k < |entries| ==> entries[i].0 != entries[k].0
  }

  /** With distinct job ids every entry's result is computed from the table as
      it was before the round: the node's reply at `ipaddr:port` for a live job,
      the simulation step of its own entry for a simulated one, whose new state
      is what the table then holds. */
  lemma {:induction false} CollectDistinct<R>(port: string, fetch: (string, JobId) -> R, entries: seq<Entry>,
                                              roundDuration: real, policy: Policy, acc: RoundResult<R>)
    requires Ready(entries, acc.jobs, policy) && Distinct(entries)
    ensures var r := CollectFrom(port, fetch, entries, roundDuration, policy, acc);
      forall i :: 0 <= i < |entries| ==>
        && entries[i].0 in r.results
        && (!entries[i].2 ==> r.results[entries[i].0] == Live(fetch(Address(entries[i].1, port), entries[i].0)))
        && (entries[i].2 ==>
              && r.results[entries[i].0] == Simulated(Step(acc.jobs[entries[i].0], roundDuration, policy).1)
              && r.jobs[entries[i].0] == Step(acc.jobs[entries[i].0], roundDuration, policy).0)
    decreases |entries|
  {
    if |entries| > 0 {
      var next := Visit(port, fetch, entries[0], roundDuration, policy, acc);
      var tail := entries[1..];
      ReadyAfterVisit(port, fetch, entries, roundDuration, policy, acc);
      assert Distinct(tail) by {
        forall i, k | 0 <= i < k < |tail| ensures tail[i].0 != tail[k].0 {
          assert tail[i] == entries[i + 1] && tail[k] == entries[k + 1];
        }
      }
      CollectDistinct(port, fetch, tail, roundDuration, policy, next);
      var r := CollectFrom(port, fetch, tail, roundDuration, policy, next);
      assert r == CollectFrom(port, fetch, entries, roundDuration, policy, acc);
      var j0 := entries[0].0;
      assert !ListedIn(tail, j0) && !SimulatedIn(tail, j0) by {
        forall i | 0 <= i < |tail| ensures tail[i].0 != j0 {
          assert tail[i] == entries[i + 1];
        }
      }
      forall i | 0 <= i < |entries|
        ensures entries[i].0 in r.results
        ensures !entries[i].2 ==> r.results[entries[i].0] == Live(fetch(Address(entries[i].1, port), entries[i].0))
        ensures entries[i].2 ==>
          && r.results[entries[i].0] == Simulated(Step(acc.jobs[entries[i].0], roundDuration, policy).1)
          && r.jobs[entries[i].0] == Step(acc.jobs[entries[i].0], roundDuration, policy).0
      {
        if i == 0 {
          assert r.results[j0] == next.results[j0];
          assert entries[0].2 ==> r.jobs[j0] == next.jobs[j0];
        } else {
          assert entries[i] == tail[i - 1] && entries[i].0 != j0;
          assert entries[i].2 ==> next.jobs[entries[i].0] == acc.jobs[entries[i].0];
        }
      }
    }
  }

  /** With distinct job ids, `get_metrics` answers each zipped job from the
      table as it was before the round and commits each simulated job's step. */
  lemma GetMetricsPerJob<R>(port: string, fetch: (string, JobId) -> R, jobIds: seq<JobId>,
                            ipaddrs: seq<string>, ifSimulation: seq<bool>, roundDuration: real,
                            jobs: map<JobId, JobState>, policy: Policy)
    requires forall i :: 0 <= i < |jobIds| && i < |ipaddrs| && i < |ifSimulation| && ifSimulation[i] ==>
      jobIds[i] in jobs && CanStep(jobs[jobIds[i]], policy)
    requires forall i, k :: 0 <= i < k < Min(Min(|jobIds|, |ipaddrs|), |ifSimulation|) ==> jobIds[i] != jobIds[k]
    ensures var r := GetMetrics(port, fetch, jobIds, ipaddrs, ifSimulation, roundDuration, jobs, policy);
      forall i :: 0 <= i < Min(Min(|jobIds|, |ipaddrs|), |ifSimulation|) ==>
        && jobIds[i] in r.results
        && (!ifSimulation[i] ==> r.results[jobIds[i]] == Live(fetch(Address(ipaddrs[i], port), jobIds[i])))
        && (ifSimulation[i] ==>
              && r.results[jobIds[i]] == Simulated(Step(jobs[jobIds[i]], roundDuration, policy).1)
              && r.jobs[jobIds[i]] == Step(jobs[jobIds[i]], roundDuration, policy).0)
  {
    var entries := Zip3(jobIds, ipaddrs, ifSimulation);
    CollectDistinct(port, fetch, entries, roundDuration, policy, RoundResult(map[], jobs));
  }
}
