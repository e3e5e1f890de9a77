# Shoot DNS system test: readiness probe and name derivation

This project models the deterministic logic of the shoot DNS service's system test
(`test/system/shootdns_test.go`) and proves properties of it in Dafny.

The test deploys an echo server into a shoot cluster, in a load-balancer variant and an
ingress variant. It then waits until the DNS name created for that server has propagated
and the server answers. Two parts of it are modelled.

- **The readiness probe** (`runHttpRequest`, module `ReadinessProbe`, file
  `readiness_probe.dfy`). It loops until a deadline. Each iteration sleeps one second and
  looks the host up at the DNS server 8.8.8.8. Only if the lookup succeeded does it GET
  `http://<host>`, close the response body and accept status 200 alone. Every failure is
  recorded in `lastErr` and the loop goes on. The probe returns nil on the first fully
  successful iteration; at the deadline it returns `lastErr`.
  - The clock, the resolver and the HTTP client are an `Env` value. It holds the delay
    before the first check of the loop condition, the time each iteration takes beyond
    its one-second sleep, and the answers of the resolver and of the HTTP client in
    each iteration.
  - The imperative method `RunHttpRequest` (with `Attempt` for one iteration) is proved
    against `Explains`, a declarative statement of what the loop promises.
    `ExplainsUnique` shows that statement determines the result. The recursive function
    `Run` is the same loop as a function, and the lemmas are stated about it.
  - A ghost trace of events (sleep, lookup, GET, body close) records the order of side
    effects. Lemmas over it show the GET happens only after a successful lookup.
- **Name derivation** (module `ShootNames`, file `shoot_names.dfy`). This covers
  `TechnicalShootId` ("shoot--<project>--<shoot>", with one leading "garden-" removed
  from the project namespace). It also covers the namespace, echo server name, template
  values and probed DNS name built in `createEchoheaders`.

Clock readings are nanoseconds, the unit of Go's `time.Duration`. They are counted from the
moment the deadline is computed. Strings are `seq<char>`. Go slices strings by byte, but the
prefix "garden-" is ASCII, so removing its 7 bytes is removing 7 characters.

The model follows the code in these points, where a more idealised design of the probe would differ:
- The code returns only an error, with no attempt count. The model counts iterations only
  for its own statements: in a ghost output of `RunHttpRequest` and in the `attempts` field
  of the outcome of the functional model `Run`.
- The code has no "deadline exceeded" sentinel. When the loop never runs, `lastErr` stays
  nil and nil is returned; `NoIterationNoError` states this.
- The deadline is checked only before each iteration, and each iteration takes at least a
  second. So at most `ceil(timeout / 1 s)` iterations run, not that number plus one
  (`AttemptsBounds`). The bound is reached (`AttemptsWhenNeverReady`): a name that never
  resolves makes five attempts in five seconds when nothing delays the first check and no
  lookup takes any time (`NeverResolvingScenario`).

## Model

| member | source | states |
|---|---|---|
| `ReadinessProbe.Url` | test/system/shootdns_test.go:175 | the probed URL is "http://" followed by exactly the domain name |
| `ReadinessProbe.CheckTime` | test/system/shootdns_test.go:177-179 | the clock at the i-th check of the loop condition is at least the initial delay plus i seconds |
| `ReadinessProbe.IterationError` | test/system/shootdns_test.go:180-195 | an iteration records nothing (returns nil) exactly when the lookup resolved and the GET answered 200; otherwise it records the lookup error wrapped with the host, the GET error, or a status error carrying the code |
| `ReadinessProbe.IterationEvents` | test/system/shootdns_test.go:179-180 | every iteration starts with the one-second sleep followed by the lookup of the host at 8.8.8.8 |
| `ReadinessProbe.IterationEventsFacts` | test/system/shootdns_test.go:180-190 | an iteration issues the GET on the host's URL exactly when its lookup resolved, and closes the body exactly when the GET got a response |
| `ReadinessProbe.Attempt` | test/system/shootdns_test.go:179-195 | one iteration returns the error the loop records (None for return nil), takes one second plus the lookup and GET time, and performs the iteration's events in order |
| `ReadinessProbe.RunHttpRequest` | test/system/shootdns_test.go:172-198 | the returned error and the iteration count are those of the functional model `Run` and satisfy `Explains`; its events are the trace of the executed iterations, and it returns at `CheckTime(env, attempts)`: the end of the last iteration, which is the failing loop check when the deadline stopped it |
| `ReadinessProbe.CheckTimeMonotone` | test/system/shootdns_test.go:177-179 | the clock advances by at least one second per iteration between any two tests of the loop condition |
| `ReadinessProbe.CheckTimeUniform` | test/system/shootdns_test.go:177-179 | with no delay beyond the sleeps, the i-th check of the loop condition happens exactly i seconds in |
| `ReadinessProbe.RunFromExplains` | test/system/shootdns_test.go:176-197 | the loop run from any iteration reached without a success satisfies `Explains` |
| `ReadinessProbe.LastError` | test/system/shootdns_test.go:176-197 | the error the probe returns once n iterations have run: nil exactly when none ran (`lastErr` is never assigned) or the last one succeeded (the probe returns nil, whatever `lastErr` still holds from an earlier iteration); otherwise what the last one recorded |
| `ReadinessProbe.Trace` | test/system/shootdns_test.go:178-190 | the side effects of n iterations in order; each iteration contributes between two (sleep, lookup) and four (also GET, close) events |
| `ReadinessProbe.RunFrom` | test/system/shootdns_test.go:178-196 | the loop from its i-th check: it runs another iteration only if the clock is before the deadline, and when it runs none it returns the error recorded so far |
| `ReadinessProbe.Run` | test/system/shootdns_test.go:176-197 | the result is the last executed iteration's error (nil if none ran), all earlier iterations failed, the last started before the deadline, and the loop stopped on success or at the deadline |
| `ReadinessProbe.ExplainedAttemptsAtMost` | test/system/shootdns_test.go:178-195 | no outcome satisfying `Explains` runs more iterations than another one |
| `ReadinessProbe.ExplainsUnique` | test/system/shootdns_test.go:176-197 | those promises determine the iteration count and the returned error uniquely |
| `ReadinessProbe.RunMatches` | test/system/shootdns_test.go:176-197 | every outcome satisfying `Explains` is the outcome of `Run` |
| `ReadinessProbe.RunResult` | test/system/shootdns_test.go:180-197 | nil comes back exactly when no iteration ran or the last was fully successful; an error comes back only at the deadline, after every executed iteration failed, and it is the last iteration's error |
| `ReadinessProbe.NoIterationNoError` | test/system/shootdns_test.go:176-178 | when the deadline is not after the first check of the loop condition, no iteration runs and nil is returned |
| `ReadinessProbe.ReadyBeforeDeadlineIsSeen` | test/system/shootdns_test.go:178-195 | a fully successful iteration that starts before the deadline makes the probe return nil by that iteration |
| `ReadinessProbe.AttemptsBounds` | test/system/shootdns_test.go:177-179 | at least one iteration runs exactly when the deadline is after the first check, and at most ceil(timeout / 1 s) run |
| `ReadinessProbe.ReturnsWithinOneIteration` | test/system/shootdns_test.go:177-197 | when no iteration runs, the deadline had already passed at the first check of the loop condition (timeout at most the lag) and the probe returns at that check; otherwise it returns before the deadline plus one iteration (the 1 s sleep plus that iteration's lookup and GET time) |
| `ReadinessProbe.PersistentStatusIsReported` | test/system/shootdns_test.go:185-197 | an endpoint that always resolves and always answers the same code other than 200 makes the probe return a status error with that code, once an iteration ran |
| `ReadinessProbe.AttemptsWhenNeverReady` | test/system/shootdns_test.go:177-197 | with no success and no delay beyond the sleeps, exactly ceil(timeout / 1 s) iterations run and the last one's error is returned |
| `ReadinessProbe.NeverResolvingScenario` | test/system/shootdns_test.go:172-198 | a name that never resolves within 5 s gives five lookups and the wrapped lookup error (no delay before the first check, lookups take no time) |
| `ReadinessProbe.PropagationScenario` | test/system/shootdns_test.go:172-198 | three failed lookups, a 503 and then a 200 give nil after exactly five iterations |
| `ReadinessProbe.TraceMembership` | test/system/shootdns_test.go:178-190 | an event is in the trace exactly when it belongs to an iteration that ran |
| `ReadinessProbe.GetOnlyAfterResolvedLookup` | test/system/shootdns_test.go:180-185 | a GET is issued in iteration i exactly when iteration i ran and its lookup succeeded, and always on http://host |
| `ReadinessProbe.BodyClosedOnEveryResponse` | test/system/shootdns_test.go:185-190 | the body is closed in iteration i exactly when it ran, resolved, and its GET received a response |
| `ReadinessProbe.SleepThenLookup` | test/system/shootdns_test.go:178-180 | each iteration's events follow the earlier iterations' and begin with the sleep, then the lookup |
| `ShootNames.HasPrefix` | test/system/shootdns_test.go:81 | Go's prefix test holds exactly when the prefix is a prefix of the string |
| `ShootNames.ProjectPart` | test/system/shootdns_test.go:80-83 | a namespace starting with "garden-" is "garden-" followed by the result; any other namespace is returned unchanged |
| `ShootNames.TechnicalShootId` | test/system/shootdns_test.go:79-85 | the id starts with "shoot--" and is 9 characters longer than the project part and shoot name together |
| `ShootNames.ProjectPartOf` | test/system/shootdns_test.go:84 | a parsed id is exactly "shoot--" + project part + "--" + shoot name |
| `ShootNames.TechnicalShootIdRoundTrip` | test/system/shootdns_test.go:79-85 | parsing the technical id with its shoot name gives back the project part |
| `ShootNames.StripsOneGardenPrefix` | test/system/shootdns_test.go:81-83 | exactly one "garden-" is removed, even when the rest starts with "garden-" again |
| `ShootNames.GardenAndBareNamespaceAgree` | test/system/shootdns_test.go:79-85 | namespaces "garden-p" and "p" (p not starting with "garden-") give the same technical id |
| `ShootNames.EchoSuffix` | test/system/shootdns_test.go:97-100 | the variant suffix is a valid RFC 1123 label without dots |
| `ShootNames.EchoNamespace` | test/system/shootdns_test.go:97-101 | the namespace is "shootdns-test-echoserver-service-lb" for the load-balancer variant, "shootdns-test-echoserver-ingress" otherwise |
| `ShootNames.EchoName` | test/system/shootdns_test.go:113 | the echo server is "echo-service-lb" or "echo-ingress", a name without dots |
| `ShootNames.TemplateValues` | test/system/shootdns_test.go:112-117 | the load-balancer flag is the variant asked for and is set exactly for "echo-service-lb"; the namespace and the echo name carry the same variant suffix after their fixed prefixes, and the echo name is a dot-free first label of the probed name above the shoot's domain |
| `ShootNames.DomainName` | test/system/shootdns_test.go:121 | the probed name is the echo name, a dot, then the shoot's DNS domain |
| `ShootNames.SplitFirstLabel` | test/system/shootdns_test.go:121 | splitting a name at its first dot gives a dot-free first label and the rest, which join back to the name |
| `ShootNames.SplitFirstLabelOfJoin` | test/system/shootdns_test.go:121 | "first.rest" with a dot-free first part splits back into those two parts |
| `ShootNames.DomainNameRoundTrip` | test/system/shootdns_test.go:121 | the probed name is the echo name as one label directly under the shoot's DNS domain, and both are recovered from it |
| `ShootNames.VariantsAreDisjoint` | test/system/shootdns_test.go:97-121 | the two variants never share a namespace, an echo name or a probed DNS name |
| `ShootNames.EchoNamesAreDnsLabels` | test/system/shootdns_test.go:101-113 | the namespaces and echo names are valid RFC 1123 labels, as Kubernetes requires of namespace names |
| `ShootNames.EchoProbeAttempts` | test/system/shootdns_test.go:122 | within its 120 s the echo probe makes between 1 and 120 attempts, when the first check comes before the deadline |
| `ShootNames.EchoUrl` | test/system/shootdns_test.go:121-122 | the echo probe targets "http://echo-<suffix>.<domain>" |
| `ShootNames.EchoProbeUrl` | test/system/shootdns_test.go:121-122 | every GET of the echo probe is against "http://echo-<suffix>.<domain>", in any environment |

## Left out

- Flag registration (`init`, `RegisterTestFlags`): process-wide command-line plumbing. The configuration is the `TestConfig` value.
- `NewShootDNSFramework`, the Ginkgo `Describe`/`CIt` wiring and the test timeouts: test-runner harness.
- Kubernetes client construction, `controller.GetCluster`, creating and deleting the namespace, rendering the template, and waiting for deletion: cluster I/O. Only their string inputs are modelled.
- The checks that the shoot has the nginx ingress add-on and a DNS domain (lines 90-95): they read the cluster object. The model takes the DNS domain as a given string.
- `lookupHost`'s resolver with its dialer to `<server>:53` and its 10 s dial timeout: network I/O. Only its success or failure in each iteration is modelled, and the server it is sent to.
- Every lookup and every GET is assumed to return in finite time: `Env` gives each iteration a finite duration, so the model always terminates and `ReturnsWithinOneIteration` always holds. The source's `http.Get` uses Go's default client, which has no timeout, so one stuck response can block `runHttpRequest` inside an iteration, past its deadline, indefinitely; the model does not capture that.
- `http.Get`, `time.Now` and `time.Sleep`: network and clock side effects. They are the `Env` oracle and the model's clock. Closing the body is an event only.
- Error texts: the wrapping message of the lookup error and the status text after the code (`resp.Status`) are not modelled. Errors are tagged values with their cause or code.
- Go's `time.Time.Add` at the extremes of its range, and 64-bit durations: the clock and the timeout are unbounded integers.
