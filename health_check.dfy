/** The health check of the running stack: each service is probed once, a
    service is healthy when it answers with a status below 500, and the
    check succeeds (exit code 0) only when every service is healthy. */
module HealthCheck {

  /** A service and the endpoint that probes it. */
  datatype Service = Service(name: string, url: string, endpoint: string)

  /** The services probed, in the order they are reported. */
  const Services: seq<Service> := [
    Service("api-server", "http://localhost:9000", "/api/health"),
    Service("socket-server", "http://localhost:9001", "/socket.io/"),
    Service("reverse-proxy", "http://localhost:8000", "/")
  ]

  /** What a `GET` of a probe URL gives: a response with any status (every
      status is accepted rather than thrown), or an error such as a refused
      connection or the five-second timeout. */
  datatype ProbeOutcome = Responded(status: int) | Threw(message: string)

  /** The address a service is probed at. */
  function ProbeUrl(service: Service): string
  {
    service.url + service.endpoint
  }

  /** `checkService`: healthy exactly when the service answered with a status
      below 500; a 4xx answer counts as healthy, an error as unhealthy. */
  function CheckService(outcome: ProbeOutcome): (healthy: bool)
    ensures healthy <==> outcome.Responded? && outcome.status < 500
  {
    match outcome
    case Responded(status) => status < 500
    case Threw(_) => false
  }

  /** `Promise.all(services.map(checkService))`, with `probe` giving the
      outcome of fetching each address. */
  function Results(services: seq<Service>, probe: string -> ProbeOutcome): (results: seq<bool>)
    ensures |results| == |services|
    ensures forall i | 0 <= i < |services| :: results[i] == CheckService(probe(ProbeUrl(services[i])))
  {
    seq(|services|, i requires 0 <= i < |services| => CheckService(probe(ProbeUrl(services[i]))))
  }

  /** `results.filter(Boolean).length`. */
  function CountTrue(results: seq<bool>): (count: nat)
    ensures count <= |results|
    ensures results != [] && !results[0] ==> count < |results|
  {
    if results == [] then 0 else (if results[0] then 1 else 0) + CountTrue(results[1..])
  }

  /** At most every result is true, and all of them are exactly when every
      one is. */
  lemma {:induction false} CountTrueAll(results: seq<bool>)
    ensures CountTrue(results) <= |results|
    ensures CountTrue(results) == |results| <==> forall i | 0 <= i < |results| :: results[i]
  {
    if results != [] {
      var rest := results[1..];
      CountTrueAll(rest);
      assert forall i | 0 <= i < |rest| :: rest[i] == results[i + 1];
    }
  }

  /** `healthCheck`'s exit code: 0 when the healthy count is the number of
      services, 1 otherwise. */
  function HealthExitCode(probe: string -> ProbeOutcome): (code: int)
    ensures code == 0 || code == 1
    ensures code == 0 <==>
      forall i | 0 <= i < |Services| :: probe(ProbeUrl(Services[i])).Responded? && probe(ProbeUrl(Services[i])).status < 500
  {
    CountTrueAll(Results(Services, probe));
    if CountTrue(Results(Services, probe)) == |Services| then 0 else 1
  }
}
