/** The requests `launch_job` and `terminate_jobs` send to node managers, as
    plain records instead of gRPC calls. */
module Requests {
  import opened Wrappers
  import opened Endpoint
  import opened Zipping

  /** The `should_resume` field: the job's `suspended` value when the description
      has one, otherwise the string "0" (`DefaultZero`). `S` is whatever type the
      submitter stored under `suspended`. */
  datatype ShouldResume<S> = DefaultZero | Resume(suspended: S)
  // The two tags record where the value came from: a `suspended` value that is
  // itself "0" puts the same payload on the wire as `DefaultZero`.

  /** The parts of a job description the launch path reads. Absent keys are `None`. */
  datatype JobDescription<S> = JobDescription(
    simulation: Option<bool>,
    launchCommand: Option<string>,
    suspended: Option<S>)

  /** One launch request: node-manager address and the JSON payload
      `{job_id, local_GPU_ID, launch_command, should_resume}`. */
  datatype LaunchRequest<S> = LaunchRequest(
    address: string,
    jobId: JobId,
    localGpuId: int,
    launchCommand: string,
    shouldResume: ShouldResume<S>)

  /** `MissingSimulationFlag` is the KeyError of reading `simulation`;
      `MissingLaunchCommand` is the explicit "Missing Launch Command" exception. */
  datatype LaunchError = MissingSimulationFlag | MissingLaunchCommand

  /** The requests sent, in order, and the exception raised afterwards, if any. */
  datatype LaunchOutcome<S> = LaunchOutcome(sent: seq<LaunchRequest<S>>, raised: Option<LaunchError>)

  function ResumeOf<S>(desc: JobDescription<S>): ShouldResume<S> {
    if desc.suspended.Some? then Resume(desc.suspended.value) else DefaultZero
  }

  /** The loop of a non-simulated launch over `(ipaddr, local GPU id)` pairs: each
      pass checks for the launch command, then sends one request. */
  function LaunchPairs<S>(port: string, jobId: JobId, desc: JobDescription<S>,
                          pairs: seq<(string, int)>): (o: LaunchOutcome<S>)
    // without a command the first pass raises before it sends anything
    ensures desc.launchCommand.None? ==>
      o.sent == [] && o.raised == (if |pairs| > 0 then Some(MissingLaunchCommand) else None)
    ensures desc.launchCommand.Some? ==>
      && o.raised == None
      && |o.sent| == |pairs|
      && forall i :: 0 <= i < |pairs| ==>
           o.sent[i] == LaunchRequest(Address(pairs[i].0, port), jobId, pairs[i].1,
                                      desc.launchCommand.value, ResumeOf(desc))
    decreases |pairs|
  {
    if |pairs| == 0 then LaunchOutcome([], None)
    else if desc.launchCommand.None? then LaunchOutcome([], Some(MissingLaunchCommand))
    else
      var request := LaunchRequest(Address(pairs[0].0, port), jobId, pairs[0].1,
                                   desc.launchCommand.value, ResumeOf(desc));
      var rest := LaunchPairs(port, jobId, desc, pairs[1..]);
      LaunchOutcome([request] + rest.sent, rest.raised)
  }

  /** `launch_job(job_id, job_description, local_gpu_ids, ipaddr_list)`. */
  function LaunchJob<S>(port: string, jobId: JobId, desc: JobDescription<S>,
                        localGpuIds: seq<int>, ipaddrs: seq<string>): (o: LaunchOutcome<S>)
    // without a simulation flag the lookup raises before anything is sent
    ensures desc.simulation == None ==> o == LaunchOutcome([], Some(MissingSimulationFlag))
    // a simulated job sends nothing and never raises
    ensures desc.simulation == Some(true) ==> o == LaunchOutcome([], None)
    // a missing command raises before the first request, and only if there is a pair
    ensures desc.simulation == Some(false) && desc.launchCommand.None? ==>
      o.sent == [] && o.raised == (if Min(|ipaddrs|, |localGpuIds|) > 0 then Some(MissingLaunchCommand) else None)
    // otherwise one request per zipped pair, in order
    ensures desc.simulation == Some(false) && desc.launchCommand.Some? ==>
      && o.raised == None
      && |o.sent| == Min(|ipaddrs|, |localGpuIds|)
      && forall i :: 0 <= i < |o.sent| ==>
           && o.sent[i].address == ipaddrs[i] + ":" + port
           && o.sent[i].jobId == jobId
           && o.sent[i].localGpuId == localGpuIds[i]
           && o.sent[i].launchCommand == desc.launchCommand.value
           && (o.sent[i].shouldResume == DefaultZero <==> desc.suspended == None)
           && (desc.suspended.Some? ==> o.sent[i].shouldResume == Resume(desc.suspended.value))
  {
    match desc.simulation
    case None => LaunchOutcome([], Some(MissingSimulationFlag))
    case Some(false) => LaunchPairs(port, jobId, desc, Zip(ipaddrs, localGpuIds))
    case Some(true) => LaunchOutcome([], None)
  }

  /** One terminate request: node-manager address and the payload `{Job_ID}`. */
  datatype TerminateRequest = TerminateRequest(address: string, jobId: JobId)

  /** The terminate request for one batch element. */
  function TerminateFor(port: string, e: Entry): TerminateRequest {
    TerminateRequest(Address(e.1, port), e.0)
  }

  /** The loop of `terminate_jobs` as written: the guard is the truth value of
      `not terminate_simulation`, the same on every pass, and the per-entry flag
      is never read. */
  function TerminateLoop(port: string, entries: seq<Entry>, listIsEmpty: bool): (rs: seq<TerminateRequest>)
    ensures !listIsEmpty ==> rs == []
    ensures listIsEmpty ==> |rs| == |entries| && forall i :: 0 <= i < |rs| ==> rs[i] == TerminateFor(port, entries[i])
    decreases |entries|
  {
    if |entries| == 0 then []
    else
      var here := if listIsEmpty then [TerminateFor(port, entries[0])] else [];
      here + TerminateLoop(port, entries[1..], listIsEmpty)
  }

  /** `terminate_jobs(job_id_list, ipaddr_list, terminate_simulation)` as written:
      no input makes it send a terminate request. A non-empty flag list makes the
      guard false; an empty one leaves nothing to zip. */
  function TerminateJobs(port: string, jobIds: seq<JobId>, ipaddrs: seq<string>,
                         terminateSimulation: seq<bool>): (rs: seq<TerminateRequest>)
    ensures rs == []
  {
    TerminateLoop(port, Zip3(jobIds, ipaddrs, terminateSimulation), |terminateSimulation| == 0)
  }

  /** True when `r` is the request of some entry whose own flag says "not simulated". */
  predicate TargetedBy(port: string, entries: seq<Entry>, r: TerminateRequest) {
    exists i :: 0 <= i < |entries| && !entries[i].2 && r == TerminateFor(port, entries[i])
  }

  /** The entries whose own simulation flag is false, in their original order. */
  function NotSimulated(entries: seq<Entry>): (live: seq<Entry>)
    ensures |live| <= |entries|
    ensures forall e :: e in live <==> e in entries && !e.2
    decreases |entries|
  {
    if |entries| == 0 then []
    else
      var rest := NotSimulated(entries[1..]);
      assert forall e :: e in entries <==> e == entries[0] || e in entries[1..];
      if entries[0].2 then rest else [entries[0]] + rest
  }

  /** The loop the guard's comment describes: a request for every entry whose own
      simulation flag is false, in order. */
  function TerminateLoopPerJob(port: string, entries: seq<Entry>): (rs: seq<TerminateRequest>)
    ensures |rs| <= |entries|
    ensures forall r :: r in rs <==> TargetedBy(port, entries, r)
    // exactly what the as-written loop sends, with its guard true, over the live entries
    ensures rs == TerminateLoop(port, NotSimulated(entries), true)
    decreases |entries|
  {
    if |entries| == 0 then []
    else
      var here := if entries[0].2 then [] else [TerminateFor(port, entries[0])];
      var rest := TerminateLoopPerJob(port, entries[1..]);
      assert forall r :: TargetedBy(port, entries, r) <==>
        (!entries[0].2 && r == TerminateFor(port, entries[0])) || TargetedBy(port, entries[1..], r) by {
        forall r | TargetedBy(port, entries[1..], r) ensures TargetedBy(port, entries, r) {
          var i :| 0 <= i < |entries[1..]| && !entries[1..][i].2 && r == TerminateFor(port, entries[1..][i]);
          assert entries[i + 1] == entries[1..][i];
        }
        forall r | TargetedBy(port, entries, r) && !(!entries[0].2 && r == TerminateFor(port, entries[0]))
          ensures TargetedBy(port, entries[1..], r)
        {
          var i :| 0 <= i < |entries| && !entries[i].2 && r == TerminateFor(port, entries[i]);
          assert entries[1..][i - 1] == entries[i];
        }
      }
      here + rest
  }

  /** `terminate_jobs` with the per-job guard: exactly the zipped jobs that are
      not simulated get a terminate request at `ipaddr:port`. */
  function TerminateJobsPerJob(port: string, jobIds: seq<JobId>, ipaddrs: seq<string>,
                               terminateSimulation: seq<bool>): (rs: seq<TerminateRequest>)
    ensures forall i :: 0 <= i < Min(Min(|jobIds|, |ipaddrs|), |terminateSimulation|) && !terminateSimulation[i] ==>
      TerminateRequest(ipaddrs[i] + ":" + port, jobIds[i]) in rs
    ensures forall r :: r in rs ==>
      exists i :: 0 <= i < Min(Min(|jobIds|, |ipaddrs|), |terminateSimulation|) && !terminateSimulation[i] &&
        r == TerminateRequest(ipaddrs[i] + ":" + port, jobIds[i])
    ensures rs == TerminateLoop(port, NotSimulated(Zip3(jobIds, ipaddrs, terminateSimulation)), true)
  {
    var entries := Zip3(jobIds, ipaddrs, terminateSimulation);
    var rs := TerminateLoopPerJob(port, entries);
    assert forall i :: 0 <= i < |entries| ==> TerminateFor(port, entries[i]) == TerminateRequest(ipaddrs[i] + ":" + port, jobIds[i]);
    forall i | 0 <= i < |entries| && !terminateSimulation[i]
      ensures TerminateRequest(ipaddrs[i] + ":" + port, jobIds[i]) in rs
    {
      assert TargetedBy(port, entries, TerminateFor(port, entries[i]));
    }
    rs
  }

  /** A single live job on one node: the source sends no terminate request,
      while the per-job guard sends one to that node. */
  lemma TerminateGuardDiscrepancy()
    ensures TerminateJobs("50052", [7], ["10.0.0.1"], [false]) == []
    ensures TerminateJobsPerJob("50052", [7], ["10.0.0.1"], [false])
              == [TerminateRequest("10.0.0.1:50052", 7)]
  {
    var entries := Zip3([7], ["10.0.0.1"], [false]);
    assert entries == [(7, "10.0.0.1", false)];
    assert TerminateLoopPerJob("50052", entries[1..]) == [];
    assert Address("10.0.0.1", "50052") == "10.0.0.1:50052";
    assert TerminateLoopPerJob("50052", entries) == [TerminateRequest("10.0.0.1:50052", 7)];
  }
}
