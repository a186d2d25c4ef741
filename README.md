# GlanceStore image transfer with retries

This project models how Nova's XenAPI `GlanceStore` moves a VHD image
between a hypervisor host and the Glance image service through the
`glance` plugin:

- `download_image` calls `glance.download_vhd`; `upload_image` calls
  `glance.upload_vhd`.
- Each operation builds one parameter map and resends it unchanged on
  every attempt: the image id, the storage-repository path, the identity
  headers, and either the uuid stack (download) or the VDI uuids and image
  `properties` (upload).
- Each attempt sets `glance_host`, `glance_port` and `glance_use_ssl` from
  the next endpoint of the shuffled `api_servers` pool.
- A plugin failure counts as transient when one of its detail lines holds
  `RetryableError`, `task signaled` or `signal: <NAME>`. A transient
  failure is retried after a sleep of 0.5 s, then 1 s, then doubling.
- The budget is `num_retries + 1` attempts.
- When the budget runs out, the operation raises `CouldNotUploadImage` or
  `CouldNotFetchImage`, never the plugin's own failure. Any other exception
  propagates unchanged.

The behaviour is the one the `TestGlanceStore` cases pin down.

## Modules

- `Strings` (`strings.dfy`) holds the text helpers:
  - substring search (`in`, `find`) and `rfind` of a character;
  - decimal ports, with their round trip;
  - the comma join of the role list, with its round trip through split.
- `Endpoints` (`endpoints.dfy`) covers the endpoint pool:
  - parsing of `host:port` and `scheme://host:port` server strings;
  - the pool that a configuration yields;
  - the shuffle, taken as a given permutation, and its pigeonhole proof;
  - the `ServerCycle` class, the cursor that hands out endpoints in
    order and starts over after the last one.
- `Failures` (`failures.dfy`) covers what a plugin call can come back with
  and which failures are transient.
- `Retry` (`retry.dfy`) is the session's retry loop:
  - `CallPluginWithRetry` is the imperative loop, with its invariants.
  - It is proved equal to the declarative `RetryTrace` (calls made,
    debug log records, sleeps, result).
  - The lemmas state the budget, the backoff schedule, exhaustion and
    the stop at the first non-transient outcome.
- `GlanceStore` (`glance_store.dfy`) covers the store's two operations:
  - the parameter map, the identity headers and the upload `properties`;
  - the mapping of the session's outcome to the store's result;
  - the methods `CallGlancePlugin`, `DownloadImage` and `UploadImage`,
    each proved equal to its specification function.
- `GlanceScenarios` (`glance_scenarios.dfy`) states each `TestGlanceStore`
  case as a lemma about the specification, on the test's own fixture.

Collaborators become inputs:

- The plugin's answers are a function `respond` from the 0-based call
  number to `Returned(payload)` or `Raised(failure)`.
- `random.shuffle` is a permutation `perm` of the pool's positions.
- `time.sleep` is recorded as a sequence of delays in milliseconds.
- `vm_utils.get_sr_path` and `vm_utils._make_uuid_stack` are plain
  parameters.

## Model

| member | source | states |
|---|---|---|
| GlanceStore.IdentityHeaders | nova/tests/virt/xenapi/image/test_glance.py:66-70 | the extra headers have exactly the five keys `X-Auth-Token`, `X-Roles`, `X-Tenant-Id`, `X-User-Id`, `X-Identity-Status`; the token, tenant and user headers carry the context's values and the status is `Confirmed` |
| GlanceStore.RolesHeader | nova/tests/virt/xenapi/image/test_glance.py:67 | `X-Roles` is empty for a context without roles; for comma-free roles, splitting it at commas gives the role list back |
| GlanceStore.LookupMetadata | nova/tests/virt/xenapi/image/test_glance.py:164-166 | the value found belongs to the last system-metadata row with that key; nothing is found exactly when no row has the key |
| GlanceStore.OsTypeDefaulting | nova/tests/virt/xenapi/image/test_glance.py:153-162 | the upload's `os_type` is the instance's when given, and `linux` when it is `None` or missing |
| GlanceStore.AutoDiskConfigDisabledIff | nova/tests/virt/xenapi/image/test_glance.py:164-167 | `auto_disk_config` is `"disabled"` exactly when the last `image_auto_disk_config` metadata row says `Disabled`; otherwise it is the instance's flag |
| GlanceStore.UploadProperties | nova/tests/virt/xenapi/image/test_glance.py:134-167 | the upload's `properties` pair; stated by `OsTypeDefaulting`, `AutoDiskConfigDisabledIff` and `FixtureUploadProperties` |
| GlanceStore.DownloadParams | nova/tests/virt/xenapi/image/test_glance.py:60-75 | the download's parameter map (image id, SR path, identity headers, uuid stack); stated by `DownloadParamsFixed` and `DownloadOneCall` |
| GlanceStore.UploadParams | nova/tests/virt/xenapi/image/test_glance.py:134-140 | the upload's parameter map (image id, SR path, identity headers, VDI uuids, properties); stated by `UploadParamsFixed` and `UploadOneCall` |
| GlanceStore.GlanceCall | nova/tests/virt/xenapi/image/test_glance.py:97-132 | derives the pool, shuffles it, runs `RetryTrace` and maps its outcome; stated by `CallGlancePlugin`, `DownloadOnPool` and `UploadOnPool` |
| GlanceStore.Download | nova/tests/virt/xenapi/image/test_glance.py:77-132 | the download operation's specification; stated by `DownloadImage`, `DownloadOnPool`, `DownloadGivesUp` and `DownloadParamsFixed` |
| GlanceStore.Upload | nova/tests/virt/xenapi/image/test_glance.py:142-229 | the upload operation's specification; stated by `UploadImage`, `UploadOnPool`, `UploadGivesUp` and `UploadParamsFixed` |
| GlanceStore.CallGlancePlugin | nova/tests/virt/xenapi/image/test_glance.py:97-132 | the calls, log records, sleeps and result equal the retry loop over the shuffled pool, with the session's outcome mapped to the store's result |
| GlanceStore.DownloadImage | nova/tests/virt/xenapi/image/test_glance.py:77-132 | the download's trace equals its specification `Download`: `download_vhd` with the download parameter map, and running out of attempts becomes `CouldNotFetchImage` |
| GlanceStore.UploadImage | nova/tests/virt/xenapi/image/test_glance.py:142-229 | the upload's trace equals its specification `Upload`: `upload_vhd` with the upload parameter map, the return value dropped, and running out of attempts becomes `CouldNotUploadImage` |
| GlanceStore.DownloadOnPool | nova/tests/virt/xenapi/image/test_glance.py:97-132 | on a usable pool a download makes the retry loop's calls, log and sleeps; success returns the plugin's value, a non-transient failure is raised as it came, exhaustion becomes `CouldNotFetchImage` |
| GlanceStore.UploadOnPool | nova/tests/virt/xenapi/image/test_glance.py:169-229 | on a usable pool an upload makes the retry loop's calls, log and sleeps; success returns nothing, a non-transient failure is raised as it came, exhaustion becomes `CouldNotUploadImage` |
| GlanceStore.DownloadGivesUp | nova/tests/virt/xenapi/image/test_glance.py:97-132 | a download fails with `CouldNotFetchImage` exactly when all `num_retries + 1` answers are transient, then after all calls and the whole sleep schedule; it never surfaces "retries exceeded" or a transient failure |
| GlanceStore.UploadGivesUp | nova/tests/virt/xenapi/image/test_glance.py:182-204 | an upload fails with `CouldNotUploadImage` exactly when all `num_retries + 1` answers are transient, then after all calls and the whole sleep schedule; it never surfaces "retries exceeded" or a transient failure |
| GlanceStore.UploadParamsFixed | nova/tests/virt/xenapi/image/test_glance.py:134-140 | every upload attempt sends `upload_vhd` the same map (identity headers, VDI uuids, defaulted properties) to the endpoint at that attempt's place in the shuffled pool |
| GlanceStore.DownloadParamsFixed | nova/tests/virt/xenapi/image/test_glance.py:100-108 | every download attempt sends `download_vhd` the same map (identity headers, uuid stack) to the endpoint at that attempt's place in the shuffled pool |
| Endpoints.FormatParseRoundTrip | nova/tests/virt/xenapi/image/test_glance.py:118-119 | a colon-free host and a port, written with or without a colon-free scheme, parse back to that host and port; TLS is on only for `https` and otherwise follows the default |
| Endpoints.ParseServer | nova/tests/virt/xenapi/image/test_glance.py:118-119 | splits off an optional `scheme://` and parses the rest with `ParseHostPort`; its meaning is stated by `FormatParseRoundTrip` in one direction and `ParsedWithoutScheme` / `ParsedWithScheme` in the other |
| Endpoints.ParseHostPort | nova/tests/virt/xenapi/image/test_glance.py:118-119 | parses `host:port` at the last colon; stated by `HostPortRoundTrip` |
| Endpoints.HostPortRoundTrip | nova/tests/virt/xenapi/image/test_glance.py:118-119 | a non-empty host and a port written as `host:port` parse back to that host and port with the given TLS flag |
| Endpoints.ParsedWithoutScheme | nova/tests/virt/xenapi/image/test_glance.py:118 | a server string without `://` that parses is exactly `host:digits`, with a non-empty host, the port the value of the digits, and TLS the configured default |
| Endpoints.ParsedWithScheme | nova/tests/virt/xenapi/image/test_glance.py:119 | a server string whose first `://` is at i and that parses is exactly `scheme://host:digits`, with a non-empty host, the port the value of the digits, and TLS on exactly when the scheme is `https` |
| Endpoints.ParseAll | nova/tests/virt/xenapi/image/test_glance.py:118-120 | parses the configured server strings in order, stopping at the first malformed one; stated by `ParseAllPool`, `ParseAllError` and `ParseAllParsed` |
| Endpoints.ServerStrings | nova/tests/virt/xenapi/image/test_glance.py:36-38 | the strings the pool is parsed from: the configured list when there is one, and the default `host:port` otherwise; stated by `DefaultPool` |
| Endpoints.ApiServers | nova/tests/virt/xenapi/image/test_glance.py:118-120 | the pool a configuration yields: `ParseAll` over `ServerStrings`; stated by `DefaultPool`, `ParseAllPool` and `RetryServersParse` |
| Endpoints.ParseAllPool | nova/tests/virt/xenapi/image/test_glance.py:118-120 | a parsed pool holds, position by position, what each configured server string parses to |
| Endpoints.ParseAllError | nova/tests/virt/xenapi/image/test_glance.py:118-120 | a pool error names the first configured server string that does not parse |
| Endpoints.ParseAllParsed | nova/tests/virt/xenapi/image/test_glance.py:118-120 | when every server string parses, the pool is their endpoints in configured order |
| Endpoints.DefaultPool | nova/tests/virt/xenapi/image/test_glance.py:36-38 | with no server list, the pool is the single configured host and port with the default TLS flag |
| Endpoints.Shuffle | nova/tests/virt/xenapi/image/test_glance.py:93 | the pool reordered by a given permutation of its positions; stated by `ShuffleKeepsAll` and `ShuffleIdentity` |
| Endpoints.ShuffleKeepsAll | nova/tests/virt/xenapi/image/test_glance.py:93 | the shuffled pool holds every endpoint of the pool |
| Endpoints.ShuffleIdentity | nova/tests/virt/xenapi/image/test_glance.py:93 | the identity permutation (the patched shuffle) is a permutation and keeps the configured order |
| Endpoints.NoRepeatWithinPass | nova/tests/virt/xenapi/image/test_glance.py:105-108 | attempts fewer than a pool's length apart use different pool positions |
| Endpoints.ServerCycle.Next | nova/tests/virt/xenapi/image/test_glance.py:105-108 | hands out the endpoint under the cursor and moves the cursor to the next position, back to the start after the last |
| Failures.IsRetryable | nova/tests/virt/xenapi/image/test_glance.py:124-125 | which failures the loop retries; stated by `RetryableIff`, `OtherErrorIsFatal`, `EmptyDetailsAreFatal` and the three marker lemmas |
| Failures.RetryableIff | nova/tests/virt/xenapi/image/test_glance.py:124-125 | a failure is retried exactly when it is a XenAPI failure with a detail line holding `RetryableError`, `task signaled` or `signal: ` plus a signal name at some position |
| Failures.RetryableLineIff | nova/tests/virt/xenapi/image/test_glance.py:212-219 | the line scan finds a marker exactly when one starts at some position of the line |
| Failures.HasSignalNameIff | nova/tests/virt/xenapi/image/test_glance.py:218 | the scan for `signal: <NAME>` succeeds exactly when `signal: ` followed by an upper-case letter occurs in the line |
| Failures.OtherErrorIsFatal | nova/tests/virt/xenapi/image/test_glance.py:169-180 | an exception other than a XenAPI failure (`RuntimeError`) is never retried |
| Failures.EmptyDetailsAreFatal | nova/tests/virt/xenapi/image/test_glance.py:124 | a XenAPI failure whose detail lines are all empty is not retried |
| Failures.RetryableErrorLine | nova/tests/virt/xenapi/image/test_glance.py:124-125 | the failure `["", "", "RetryableError", ""]` is transient |
| Failures.TaskSignaledLine | nova/tests/virt/xenapi/image/test_glance.py:212-213 | the failure `["", "task signaled", "", ""]` is transient |
| Failures.SignalLine | nova/tests/virt/xenapi/image/test_glance.py:218-219 | the failure `["", "signal: SIGTERM", "", ""]` is transient |
| Retry.BackoffMs | nova/tests/virt/xenapi/image/test_glance.py:192-195 | the delay before retry i + 1, at least 500 ms; stated by `BackoffClosedForm`, `BackoffIncreasing` and `SleepsDouble` |
| Retry.BackoffClosedForm | nova/tests/virt/xenapi/image/test_glance.py:192-195 | the i-th sleep is 500 · 2^i ms |
| Retry.BackoffIncreasing | nova/tests/virt/xenapi/image/test_glance.py:192-195 | later sleeps are strictly longer |
| Retry.FirstStop | nova/tests/virt/xenapi/image/test_glance.py:126-129 | the attempt that ends the loop is the first whose answer is not transient, or the budget when there is none |
| Retry.RetryTrace | nova/tests/virt/xenapi/image/test_glance.py:182-229 | the retry loop stated declaratively; stated by `CallPluginWithRetry`, `AttemptBudget`, `CallsShareParams`, `ExhaustedIff`, `StopsAtFirstNonTransient` and `EndpointsCycle` |
| Retry.CallPluginWithRetry | nova/tests/virt/xenapi/image/test_glance.py:182-229 | the loop's calls, log records, sleeps and result equal `RetryTrace`: sleep before every attempt but the first, next endpoint, log, call; stop on success or a non-transient failure; report "retries exceeded" after `num_retries + 1` transient failures |
| Retry.AttemptBudget | nova/tests/virt/xenapi/image/test_glance.py:109-116 | between 1 and `num_retries + 1` calls, one log record per call, one sleep fewer than calls |
| Retry.CallsShareParams | nova/tests/virt/xenapi/image/test_glance.py:105-116 | every call re-sends the same plugin, function and parameters; log record k numbers attempt k + 1 of `num_retries + 1` and names the host called |
| Retry.SleepsDouble | nova/tests/virt/xenapi/image/test_glance.py:192-195 | the first sleep is 500 ms and each later one twice the one before |
| Retry.ExhaustedIff | nova/tests/virt/xenapi/image/test_glance.py:182-204 | "retries exceeded" exactly when all `num_retries + 1` answers are transient; then all calls were made and the whole sleep schedule taken |
| Retry.StopsAtFirstNonTransient | nova/tests/virt/xenapi/image/test_glance.py:206-229 | the loop stops at the first non-transient answer n: n + 1 calls, n sleeps, and that answer's value or failure |
| Retry.FatalIsNotTransient | nova/tests/virt/xenapi/image/test_glance.py:169-180 | a failure the loop re-raises is never a transient one |
| Retry.EndpointsCycle | nova/tests/virt/xenapi/image/test_glance.py:105-108 | attempt k goes to the shuffled pool's position k mod pool size; attempts fewer than a pool's length apart use different positions |
| Strings.DecimalRoundTrip | nova/tests/virt/xenapi/image/test_glance.py:118-119 | writing a port in decimal and parsing it gives the port back |
| Strings.SplitJoin | nova/tests/virt/xenapi/image/test_glance.py:67 | splitting the comma join of comma-free parts gives the parts back |
| Strings.IndexOfFirst | nova/tests/virt/xenapi/image/test_glance.py:119 | the search for `://` finds its first occurrence, and nothing exactly when it does not occur |
| Strings.LastIndexOfLast | nova/tests/virt/xenapi/image/test_glance.py:118-119 | the search for the port colon finds the last colon, and nothing exactly when there is no colon |
| Strings.ContainsIff | nova/tests/virt/xenapi/image/test_glance.py:124 | the substring test holds exactly when the pattern occurs at some position |
| GlanceScenarios.FixtureHeaders | nova/tests/virt/xenapi/image/test_glance.py:43-44 | the fixture context yields token `foobar`, empty roles, tenant `project`, user `user`, status `Confirmed` |
| GlanceScenarios.FixturePool | nova/tests/virt/xenapi/image/test_glance.py:36-38 | the fixture configuration's pool is 1.1.1.1:123 without TLS |
| GlanceScenarios.DownloadInOrder | nova/tests/virt/xenapi/image/test_glance.py:93 | under the patched shuffle, a download stopping at attempt n makes n + 1 calls walking the pool, logs them, takes the first n sleeps and returns the answer |
| GlanceScenarios.UploadInOrder | nova/tests/virt/xenapi/image/test_glance.py:206-229 | under the patched shuffle, an upload stopping at attempt n makes n + 1 calls walking the pool, takes the first n sleeps, and succeeds or raises the failure |
| GlanceScenarios.UploadInOrderExhausted | nova/tests/virt/xenapi/image/test_glance.py:182-204 | under the patched shuffle, an upload whose every answer is transient makes all calls, takes all sleeps and raises `CouldNotUploadImage` |
| GlanceScenarios.DownloadOneCall | nova/tests/virt/xenapi/image/test_glance.py:77-90 | a download answered at once makes one `glance.download_vhd` call at 1.1.1.1:123 with the fixture's map, sleeps never and returns the answer |
| GlanceScenarios.FirstServerParses | nova/tests/virt/xenapi/image/test_glance.py:118 | `10.0.1.1:9292` is host 10.0.1.1, port 9292, no TLS |
| GlanceScenarios.SecondServerParses | nova/tests/virt/xenapi/image/test_glance.py:119 | `http://10.0.0.1:9293` is host 10.0.0.1, port 9293, no TLS |
| GlanceScenarios.RetryServersParse | nova/tests/virt/xenapi/image/test_glance.py:118-120 | the test's two server strings give the pool [10.0.1.1:9292, 10.0.0.1:9293] in that order |
| GlanceScenarios.DownloadRetryThenSuccess | nova/tests/virt/xenapi/image/test_glance.py:97-132 | `RetryableError` then `success` gives two calls, to 10.0.1.1:9292 then 10.0.0.1:9293 with the same map, log records 1/3 and 2/3 naming those hosts, one 0.5 s sleep, and `success` |
| GlanceScenarios.FixtureUploadProperties | nova/tests/virt/xenapi/image/test_glance.py:134-167 | the fixture instance's properties: `default`; `linux` for a `None` or missing `os_type`; `"disabled"` with the `Disabled` metadata row |
| GlanceScenarios.UploadOneCall | nova/tests/virt/xenapi/image/test_glance.py:142-154 | an upload answered at once makes one `glance.upload_vhd` call with the fixture's map and the instance's properties, sleeps never and succeeds |
| GlanceScenarios.UploadRaisesOtherError | nova/tests/virt/xenapi/image/test_glance.py:169-180 | a `RuntimeError` on the first call is raised as it came, after exactly one `glance.upload_vhd` call with the fixture's upload map and no sleep |
| GlanceScenarios.UploadRetriesThenRaises | nova/tests/virt/xenapi/image/test_glance.py:182-204 | three `RetryableError`s give three identical calls, sleeps of 0.5 s and 1 s, and `CouldNotUploadImage` |
| GlanceScenarios.SignalFailuresTransient | nova/tests/virt/xenapi/image/test_glance.py:212-219 | the `task signaled` and `signal: SIGTERM` failures are both transient |
| GlanceScenarios.UploadRetriesOnSignal | nova/tests/virt/xenapi/image/test_glance.py:206-229 | `task signaled`, `signal: SIGTERM`, then success give three identical calls, sleeps of 0.5 s and 1 s, and a normal end |

## Left out

- `nova/virt/xenapi/image/glance.py` and the XenAPI session client are not part of this model. Their behaviour is modelled as the tests in `nova/tests/virt/xenapi/image/test_glance.py` pin it down. Where the tests are silent, the model makes the choices listed in the lines below. Each of those lines starts with the member that makes the choice.
- The XenAPI session and `call_plugin_serialized` are a remote call. They become the injected answer function `respond`.
- `time.sleep` is recorded as delays in whole milliseconds rather than suspending. Floating-point seconds are not modelled.
- Cancelling a call during a sleep or an attempt is not modelled. No test exercises it, and the model has no notion of time.
- Endpoints.Shuffle: `random.shuffle` is a given permutation of the pool's positions, drawn once per call of the store.
- Endpoints.ServerCycle.Next: when the budget exceeds the pool, the cursor wraps and the attempts go through the same shuffled order again, rather than through a fresh shuffle. `Retry.Calls` and `Retry.Logs` state the same cycling as position `k mod |order|`. The tests patch the shuffle to do nothing, so both readings agree on them.
- Retry.BackoffMs: the delay doubles without an upper bound. No test gives a cap.
- Endpoints.ParseServer: a server string without `://` takes its TLS flag from a configured default, `StoreConfig.defaultUseSsl`. The tests only show that flag as false.
- Endpoints.ParseHostPort: an empty host, a missing `:`, or a port that is empty or not all digits makes the server string malformed. There is no default port and no default host.
- Endpoints.ParseAll: a malformed server string becomes the `InvalidApiServer` result of the operation that derives the pool. It is not a start-up error, because configuration loading is not modelled.
- Failures.IsRetryable: every detail line of a XenAPI failure is scanned, not one fixed position. Only the three markers are recognised. `signal: <NAME>` is read as `signal: ` followed by an upper-case letter.
- GlanceStore.IdentityHeaders: `X-Identity-Status` is always `Confirmed`. How a `RequestContext` is built is not modelled.
- GlanceStore.LookupMetadata: when a system-metadata key repeats, the last row wins.
- GlanceStore.AutoDiskConfigProperty: only the exact value `Disabled` turns the property off. The match is case-sensitive and untrimmed, so a row holding `disabled` leaves the instance's flag in place.
- GlanceStore.AutoDiskConfigProperty: when the metadata does not say `Disabled`, the instance's own `auto_disk_config` flag is sent. The property is not forced on.
- GlanceStore.OsTypeProperty: only a missing or `None` `os_type` becomes `linux`. An empty string is sent unchanged.
- The text of the debug log message is not modelled. Only its structured fields are recorded: plugin, function, attempt, attempts and callback result.
- The mox/mock machinery, `fake.reset`, the driver and session set-up, and the `xenserver` connection flags are test scaffolding with no behaviour of the store.
