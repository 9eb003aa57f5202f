# Resource Manager communication in Blox, modelled in Dafny

This project models the decision logic of `ResourceManagerComm`, the class a
Blox resource manager uses to talk to its node managers. It covers three parts.

- **Simulated metrics round.** For a job flagged as simulated, `get_metrics`
  advances the job's entry in the active job table by one round. It updates the
  first-launch flags and adds `round_duration / job_iteration_time` iterations.
  Under the "Optimus" policy that increment is multiplied by a static GPU-count
  table. It then decides whether the job has reached `job_total_iteration`, and
  reports `attained_service`, `per_iter_time` and, only on exit, `job_exit`.
  This is `Simulation.Step`, with the table in `Scaling`.
- **Metrics aggregation.** `get_metrics` walks
  `zip(job_id_list, ipaddr_list, if_simulation)`. Live jobs get their node's
  decoded reply. Simulated jobs get the step above, applied to the table as the
  earlier elements left it. The result is keyed by job id (`Metrics`).
- **Request planning.** `launch_job` and `terminate_jobs` are modelled as the
  sequences of request records they send (`Requests`). No gRPC call is made.

Modelling choices:

- Numbers are exact `real`s.
- The policy read from the `sched_policy` environment variable is a parameter,
  `Policy = Optimus | Other`. `PolicyNamed` maps a name to it by the source's
  string comparison.
- The source updates `active_job_dict` in place. Here each round returns the
  new table next to the result map (`RoundResult`).
- The node's live metrics reply is opaque. It is a function parameter
  `fetch: (address, job id) -> R` of any result type `R`.
- The node-manager port is taken in its text form, so an address is
  `ipaddr + ":" + port`.
- An absent dictionary key is `Option.None`. The optional `job_exit` key is
  `jobExit: Option<bool>`, and the step only ever produces `None` or `Some(true)`.
- A description without a `simulation` key makes `launch_job` raise a
  `KeyError` before it sends anything. The model returns this as the error
  `MissingSimulationFlag`.
- The simulated branch crashes in three ways that the model turns into
  preconditions (`CanStep`, and the `requires` of `GetMetrics`): a missing
  table entry for a simulated job, a `total_gpus` outside the table under
  Optimus (both `KeyError`), and `job_iteration_time == 0`
  (`ZeroDivisionError`). The other crashes of the source are listed under
  "Left out".

Behaviour of the code worth noting:

- `terminate_jobs` tests the whole flag list rather than each job's flag. So it
  never sends a terminate request (see Findings).
- Address and GPU-id lists of different lengths are silently truncated by
  `zip`. The launch path does not reject them.
- A missing job state for a simulated job is a Python `KeyError` that ends
  the whole round, not a per-job error value. When the simulated branch
  crashes, the entries of earlier batch elements have already been updated in
  place, and for a `ZeroDivisionError` or a `total_gpus` `KeyError` the crashing
  job's own `previously_launched` and `job_launched_first_time` are already set.
- The step does not advance the stored `tracked_metrics.attained_service`. It
  only reports that value plus `round_duration`. Over many rounds inside this
  core, the stored value stays fixed (`RoundsBookkeeping`).

## Model

| member | source | states |
|---|---|---|
| Zipping.Zip | blox/deployment/grpc_client_rm.py:45 | Python's two-list `zip`: as many pairs as the shorter list, with the i-th pair built from the i-th elements |
| Zipping.Zip3 | blox/deployment/grpc_client_rm.py:121 | Python's three-list `zip`: as many triples as the shortest list, with the i-th triple built from the i-th elements |
| Scaling.Scale | blox/deployment/grpc_client_rm.py:135-146 | every multiplier the Optimus table can return lies in (0, 5] |
| Scaling.ScaleTableShape | blox/deployment/grpc_client_rm.py:135-146 | the table's keys are exactly the float texts "1.0" to "9.0"; key n holds the n-th of 5, 3, 1.4, 1.2, 1.1, 1.0, 1.0, 1.0, 1.0 |
| Scaling.ScaleNonIncreasing | blox/deployment/grpc_client_rm.py:135-146 | diminishing returns: a larger GPU count never gets a larger multiplier |
| Simulation.PolicyNameSelectsScaling | blox/deployment/grpc_client_rm.py:164-175 | the policy name decides a round's gain: with the name "Optimus" the committed count grows by the GPU table multiplier times round over iteration time, with any other name by round over iteration time alone |
| Simulation.Step | blox/deployment/grpc_client_rm.py:147-198 | after a round the job counts as previously launched; it counts as launched for the first time iff it was not previously launched; the reported service is the tracked service plus the round; the stored tracked service is unchanged; `per_iter_time` is the job's iteration time; `job_exit` is present, and true, exactly when the committed count reaches the total, and absent otherwise; the job's iteration time, total and GPU count are untouched |
| Simulation.StepProgress | blox/deployment/grpc_client_rm.py:154-175 | the committed count is the old count plus round over iteration time; under Optimus only that increment is multiplied by the GPU table entry |
| Simulation.OptimusScalesOnlyIncrement | blox/deployment/grpc_client_rm.py:164-175 | from the same state, Optimus's gain is exactly the table multiplier times the gain under any other policy, so history is never scaled |
| Simulation.ExecutedNeverDecreases | blox/deployment/grpc_client_rm.py:154-186 | with a non-negative round and a positive iteration time the committed count never decreases, under either policy, whether the job exits or not |
| Simulation.FirstLaunchOnce | blox/deployment/grpc_client_rm.py:147-152 | a never-launched job reports a first launch on its first round and not on its second |
| Simulation.ExitPersists | blox/deployment/grpc_client_rm.py:176-186 | once a round reports exit, a further round with non-negative progress reports exit again |
| Simulation.Rounds | blox/deployment/grpc_client_rm.py:147-186 | repeated rounds keep the job steppable and never change its iteration time, GPU count or iteration total |
| Simulation.RoundsEqualIncrements | blox/deployment/grpc_client_rm.py:154-186 | over repeated rounds every round adds the same increment, the one the first round adds, so iterations accrue linearly with the number of rounds |
| Simulation.RoundsBookkeeping | blox/deployment/grpc_client_rm.py:147-160 | over repeated rounds the stored tracked service never changes; after one round the job counts as previously launched, and from the second round on it is no longer launched for the first time |
| Simulation.ExitExample | blox/deployment/grpc_client_rm.py:154-193 | a 10-iteration job at 1 s per iteration exits after one 10 s round, with 10 iterations committed |
| Simulation.OptimusExample | blox/deployment/grpc_client_rm.py:164-175 | under Optimus with "2.0" GPUs a 10 s round at 1 s per iteration adds 30 iterations to whatever was executed before |
| Metrics.CollectFrom | blox/deployment/grpc_client_rm.py:121-198 | the metrics loop adds one result per listed job id and keeps other results; the job table gains no keys; entries of jobs not simulated in the batch are unchanged; no entry's iteration time, GPU count or total changes |
| Metrics.GetMetrics | blox/deployment/grpc_client_rm.py:102-200 | the result has exactly one key per zipped job id; the job table keeps its keys and changes only at jobs simulated in the zipped batch |
| Metrics.CollectDistinct | blox/deployment/grpc_client_rm.py:121-198 | with distinct ids, each live job's result is the node's reply for `ipaddr:port`; each simulated job's result and new table entry are its own step from the table as it was before the round |
| Metrics.GetMetricsPerJob | blox/deployment/grpc_client_rm.py:120-200 | with distinct job ids, `get_metrics` gives each zipped live job its node's reply and each simulated job its step's record, and commits that step's new state |
| Requests.LaunchPairs | blox/deployment/grpc_client_rm.py:45-64 | with a launch command the loop sends one request per pair, in order, carrying the pair's address and GPU id, and raises nothing; without one it raises `MissingLaunchCommand` on its first pass, before anything is sent, and with no pair it neither sends nor raises |
| Requests.LaunchJob | blox/deployment/grpc_client_rm.py:28-69 | a description without a `simulation` key raises `MissingSimulationFlag` before anything is sent; a simulated job sends nothing and raises nothing; otherwise one request per zipped (address, GPU id) pair in order, addressed `ipaddr:port`, with the job id, the launch command, and `should_resume` equal to `suspended` if present else "0"; a missing command raises `MissingLaunchCommand` before the first request when there is a pair, and returns without raising when there is none |
| Requests.TerminateLoop | blox/deployment/grpc_client_rm.py:88-99 | the terminate loop sends nothing when its list-wide guard is false, and, when it is true, one request per entry, in order, addressed to that entry's `ipaddr:port` with its job id |
| Requests.TerminateJobs | blox/deployment/grpc_client_rm.py:71-100 | as written, `terminate_jobs` sends no terminate request for any input |
| Requests.TerminateLoopPerJob | blox/deployment/grpc_client_rm.py:88-99 | with the per-job guard, the requests sent are exactly those of the entries whose own simulation flag is false, one per such entry and in batch order: the as-written loop with its guard true, run over the non-simulated entries only |
| Requests.TerminateJobsPerJob | blox/deployment/grpc_client_rm.py:88-99 | with the per-job guard, every zipped non-simulated job gets a terminate request at `ipaddr:port` and no other request is sent; the requests come one per such job, in batch order |
| Requests.TerminateGuardDiscrepancy | blox/deployment/grpc_client_rm.py:91 | for one live job on one node the code sends no terminate request, while the per-job guard sends one |

## Left out

- gRPC channels, stubs and the `LaunchJob`, `TerminateJob` and `GetMetrics` calls are network I/O. Only the request records and an opaque live reply are modelled. A transport failure partway through a loop is not modelled either.
- `json.dumps` and `json.loads` are replaced by Dafny records. The live metrics schema belongs to the node.
- The `os.environ["sched_policy"]` lookup is replaced by the `Policy` parameter. `print` logging is dropped.
- `blox/deployment/job_submit_script.py` is a command-line submitter with no logic of its own and is not part of this model.
- Python float rounding: arithmetic is exact over `real`. `round_duration` is annotated `int` in the source and is a `real` here.
- The `KeyError` and `ZeroDivisionError` crashes of the simulated branch named above are preconditions, not error values. The partial in-place updates the source leaves behind when it crashes (earlier batch entries, and the crashing job's launch flags) are therefore not modelled.
- A missing field inside an active job entry (`previously_launched`, `job_iteration_time`, `tracked_metrics`, `job_executed_iteration`, `job_total_iteration`, or `total_gpus` under Optimus) is a `KeyError` in the source. `JobState` always has every field, so this crash is not modelled.
- An unset `sched_policy` environment variable is a `KeyError` at the first simulated job of a round. The policy is a parameter, so this crash is not modelled.
- A `simulation` value present but equal to neither `True` nor `False` makes the source skip both branches of `launch_job`. It is not modelled: the value is an `Option<bool>`.
- Concurrency: the source runs sequentially and has only TODO notes about threads.
- Checkpoint/restore timing for simulated launches is an unimplemented placeholder in the source. A simulated launch does nothing.
- Metrics.GetMetricsPerJob: the per-entry results are stated only for distinct job ids. With repeated ids, later entries overwrite earlier results and see the earlier updates. `CollectFrom` states only the key sets and frame facts for that case.
- Metrics.CollectDistinct: the per-entry results are stated only for distinct job ids, for the same reason as `GetMetricsPerJob`.
- Requests.ShouldResume: the two constructors record where the value came from. A `suspended` value of "0" and the default put the same `should_resume` on the wire, but the model keeps them as different records.

## Findings

| source | as written | input that shows it | evidently intended | confidence | as-written member | corrected member |
|---|---|---|---|---|---|---|
| blox/deployment/grpc_client_rm.py:91 | `if not terminate_simulation:` tests the whole flag list, which is non-empty whenever the loop body runs, so no terminate request is ever sent | job ids `[7]`, addresses `["10.0.0.1"]`, flags `[False]`: nothing is sent | test the loop variable `simulation`, so each non-simulated job gets a terminate request | high; not executed | Requests.TerminateJobs | Requests.TerminateJobsPerJob |
