/** Identifiers shared by the launch, terminate and metrics paths. */
module Endpoint {

  /** Job identifiers are Python integers. */
  type JobId = int

  /** One batch element `(job_id, ipaddr, simulation flag)` produced by zipping
      the three per-job lists of `get_metrics` or `terminate_jobs`. */
  type Entry = (JobId, string, bool)

  /** The gRPC target of a node manager: its IP address, a colon, and the
      node-manager port the communicator was constructed with (in text form). */
  function Address(ipaddr: string, port: string): string {
    ipaddr + ":" + port
  }
}
