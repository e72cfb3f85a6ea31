# Wallix Bastion exporter, modelled in Dafny

A model of the core of `wallix_bastion_exporter`. This Prometheus exporter logs
in to a Wallix Bastion REST API on every scrape. It then fetches users, groups,
devices, five kinds of targets, encryption status, license information and
sessions, and publishes them as constant gauges under the `wallix_bastion_`
namespace.

The model has these layers:

- `Wallix` (wallix.dfy) models the API client:
  - `doRequest`, with its status rule: 200 and 204 succeed, and every other status is an error carrying the plain-text body;
  - list and object decoding;
  - the login;
  - the eight endpoint functions.

  The HTTP client is a function from requests to responses. URL building and JSON text parsing are parameters (`Stdlib`).
- `Json` (json.dfy) models the decoded JSON values and the two conversions Go's `encoding/json` applies when it decodes into `map[string]interface{}` and `[]map[string]interface{}`, including `null`.
- `Metrics` (metrics.dfy) models descriptors, samples, `BuildFQName` and the send-only channels. That channel is a class whose `sent` sequence grows with every send.
- `Catalogue` (catalogue.dfy) models the descriptor catalogue. It keeps the names as the code writes them, including the swapped `pm_target`/`sm_target` names.
- `Gatherer` (gatherer.dfy) models the eleven gathering tasks. Each task is a method that appends to the sample channel. Its contract is a function of the upstream answers that gives exactly the samples appended. Lemmas state what each family sends.
- `Exporter` (exporter.dfy) models the exporter class:
  - `Describe`, `Collect`, `AuthenticateWallixAPI` and `FetchWallixMetrics`;
  - lemmas about the whole scrape: its control flow, well-formed samples, independence from task order, and bulkhead isolation between tasks.
- `Seqs` (seqs.dfy) holds the sequence facts these lemmas need: flattening, and the permutation of flattened runs.
- `Wrappers` (wrappers.dfy) holds `Option` and `Result`.

Where the code and its documentation differ, the model follows the code:

- `Authenticate` succeeds on 200 as well as on 204, because it shares the status rule of `doRequest` (`wallix/wallix.go:61-67`).
- A non-success status never yields the structured `{error, description}` payload. The response body has been read to its end at `wallix/wallix.go:57`, so decoding from the stream at line 68 always fails, and the error returned is the plain-text body (`Wallix.StatusErrorIsPlainText`).
- A 204 answer to a GET passes `doRequest`. Decoding its empty body then fails (`Wallix.NoContentOnGet`).
- The encryption and license requests carry no query parameters. `limit`/`fields` are sent only by the list endpoints (`Wallix.ObjectRequests`).
- The ratio computed from `pm_target` is published under the name `license_sm_target_ratio`, and vice versa (`exporter/exporter.go:93-102`, `Gatherer.PmTargetPublishedAsSm`).
- A usage ratio's denominator is not guarded. A zero maximum gives a float64 Inf or NaN, which `Metrics.RealOf` reports as having no real value.

## Model

| member | source | states |
|---|---|---|
| Json.StringAt | exporter/gatherer.go:152-154 | a string is read exactly when the key is present and holds a JSON string, and the result is that string |
| Json.BoolAt | exporter/gatherer.go:185-202 | a boolean is read exactly when the key is present and holds a JSON boolean, and the result is that boolean |
| Json.NumberAt | exporter/gatherer.go:203-272 | a number is read exactly when the key is present and holds a JSON number, and the result is that number |
| Json.AsObject | wallix/wallix.go:113-117 | decoding into a Go map succeeds exactly for an object or `null`; an object gives its fields and `null` gives the empty (nil) map |
| Json.AsObjects | wallix/wallix.go:91-95 | decoding the elements of an array succeeds exactly when every element is an object or null, with one map per element, in order |
| Json.AsObjectList | wallix/wallix.go:91-95 | decoding into a slice of maps: `null` gives an empty slice; an array succeeds exactly when all its elements are object-like, with the same length; any other value is an error |
| Metrics.RealOf | exporter/gatherer.go:203-212 | an exact gauge denotes its value; a ratio has a real value exactly when its denominator is non-zero, and that value times the denominator is the numerator |
| Metrics.BuildFQName | exporter/exporter.go:23-27 | an empty name gives ""; with no subsystem, the name is prefixed by the namespace and "_" when the namespace is non-empty |
| Metrics.Channel.Send | exporter/exporter.go:115-124 | a send appends exactly the value sent to what the channel has received |
| Catalogue.NewDescName | exporter/exporter.go:22-27 | every descriptor's name is "wallix_bastion_" followed by its suffix, and its labels are those given |
| Catalogue.CountNames | exporter/exporter.go:23-42 | the names of up, users, groups and devices |
| Catalogue.LabelledNames | exporter/exporter.go:43-62 | the names of sessions, targets, encryption_status and encryption_security_level |
| Catalogue.LicenseFlagNames | exporter/exporter.go:63-82 | the names of license_is_expired and the primary, secondary and named-user ratios |
| Catalogue.RatioNames | exporter/exporter.go:83-102 | the names of the resource and waapm ratios, and that the pm-target descriptor is named sm_target and the sm-target descriptor pm_target |
| Catalogue.DescriptorLabels | exporter/exporter.go:22-103 | only sessions (status), targets (type) and the two encryption metrics (status and security_level, in opposite orders) have variable labels |
| Catalogue.DescribedNamesDistinct | exporter/exporter.go:115-124 | the eight announced descriptors have pairwise distinct names |
| Catalogue.LicenseNotDescribed | exporter/exporter.go:115-124 | none of the eight license descriptors is among those Describe announces |
| Catalogue.DescribedCatalogue | exporter/exporter.go:115-124 | Describe's catalogue has eight descriptors with distinct names, and no license descriptor |
| Wallix.Query | wallix/wallix.go:38-44 | a nil parameter map gives an empty query; otherwise the query has exactly the parameters' keys, each with the single value given |
| Wallix.Classify | wallix/wallix.go:50-75 | the body is returned exactly when a reply came with status 200 or 204; a transport failure is a TransportError for the URL; any other status is a StatusError with that status and the plain-text body |
| Wallix.DoRequest | wallix/wallix.go:30-76 | the method, whose loop adds every parameter to the query, returns the outcome of building, sending and classifying the request |
| Wallix.QuerySchemes | wallix/wallix.go:78-98 | a GET without credentials, whose success body is decoded into a list of objects |
| Wallix.QueryScheme | wallix/wallix.go:100-120 | a GET without credentials, whose success body is decoded into one object |
| Wallix.Authenticate | wallix/wallix.go:123-138 | the login returns the outcome of one POST to the scrape URI, with basic auth and no parameters |
| Wallix.GetUsers | wallix/wallix.go:141-152 | the users list call |
| Wallix.GetGroups | wallix/wallix.go:155-166 | the user groups list call |
| Wallix.GetDevices | wallix/wallix.go:169-180 | the devices list call |
| Wallix.GetClosedSessions | wallix/wallix.go:183-203 | the closed sessions list call over the window ending now |
| Wallix.GetCurrentSessions | wallix/wallix.go:207-219 | the current sessions list call |
| Wallix.GetTargets | wallix/wallix.go:222-233 | the list call for one target type |
| Wallix.GetEncryption | wallix/wallix.go:236-244 | the encryption object call |
| Wallix.GetLicense | wallix/wallix.go:247-255 | the license object call |
| Wallix.DoRequestCases | wallix/wallix.go:30-76 | a refused URL is a RequestError; otherwise the request sent has the method, URL, one value per parameter and the credentials given, and the request succeeds exactly on 200 or 204 |
| Wallix.ListOutcomeCases | wallix/wallix.go:78-98 | a list call fails with the error of doRequest when that fails; otherwise it succeeds exactly when the body decodes into a list of objects, and the result is that list |
| Wallix.ObjectOutcomeCases | wallix/wallix.go:100-120 | an object call fails with the error of doRequest when that fails; otherwise it succeeds exactly when the body decodes into an object, and the result is that object |
| Wallix.NoContentOnGet | wallix/wallix.go:61-95 | a 204 with an empty body passes doRequest but fails to decode, for lists and for objects alike |
| Wallix.StatusErrorIsPlainText | wallix/wallix.go:55-73 | every status other than 200 and 204 gives a StatusError with the status and the raw body, never a structured payload |
| Wallix.AuthenticateCases | wallix/wallix.go:123-138 | the login request is a POST with an empty query and basic-auth credentials; the login succeeds exactly when the URL is accepted and the answer is 200 or 204; a refused URL is a RequestError |
| Wallix.CallLocal | wallix/wallix.go:78-120 | an endpoint call's outcome depends only on the client's answer to that call's own request |
| Wallix.CallDown | wallix/wallix.go:50-53 | a call whose request fails in transport fails |
| Wallix.DirectoryRequests | wallix/wallix.go:141-180 | users, usergroups and devices are GETs with limit -1 and a single field each (user_name, id, id) |
| Wallix.TargetsRequest | wallix/wallix.go:222-233 | a target list is a GET on /targets/<type> with limit -1 and fields=id |
| Wallix.SessionsRequests | wallix/wallix.go:183-219 | current sessions ask status=current; closed sessions ask status=closed, date_field=end and from_date set to the time the given minutes before now, formatted with the layout "2006-01-02 15:04:05" |
| Wallix.ObjectRequests | wallix/wallix.go:236-255 | encryption and licenseinfo are GETs with no query parameters |
| Gatherer.GatherUsers | exporter/gatherer.go:12-25 | the users task appends exactly the users family's samples |
| Gatherer.GatherGroups | exporter/gatherer.go:27-40 | the groups task appends exactly the groups family's samples |
| Gatherer.GatherDevices | exporter/gatherer.go:42-55 | the devices task appends exactly the devices family's samples |
| Gatherer.GatherTargets | exporter/gatherer.go:57-71 | the body shared by the target tasks appends the family of its target type |
| Gatherer.GatherTargetsSessionAccounts | exporter/gatherer.go:57-71 | appends the session_accounts targets family |
| Gatherer.GatherTargetsSessionAccountMappings | exporter/gatherer.go:73-87 | appends the session_account_mappings targets family |
| Gatherer.GatherTargetsSessionInteractiveLogins | exporter/gatherer.go:89-103 | appends the session_interactive_logins targets family |
| Gatherer.GatherTargetsSessionScenarioAccounts | exporter/gatherer.go:105-119 | appends the session_scenario_accounts targets family |
| Gatherer.GatherTargetsPasswordRetrievalAccounts | exporter/gatherer.go:121-135 | appends the password_retrieval_accounts targets family |
| Gatherer.GatherEncryption | exporter/gatherer.go:137-173 | the encryption task appends exactly the encryption family's samples |
| Gatherer.SendRatio | exporter/gatherer.go:203-212 | one ratio block appends exactly that ratio's samples |
| Gatherer.GatherLicense | exporter/gatherer.go:175-275 | the license task appends exactly the license family's samples, in the order the code sends them |
| Gatherer.GatherSessions | exporter/gatherer.go:277-305 | the sessions task appends exactly the current then closed session samples |
| Gatherer.CountFromWire | exporter/gatherer.go:12-25 | a count sample is sent exactly when the URL is accepted, the answer is 200/204 and the body decodes into a list of objects (or null); its value is the array's length (0 for null) |
| Gatherer.CountFamilies | exporter/gatherer.go:12-55 | users, groups and devices send nothing on a failed fetch, and otherwise one unlabelled sample valued at the list length |
| Gatherer.TypeLabelsDistinct | exporter/gatherer.go:57-135 | the five target type strings are pairwise distinct |
| Gatherer.TargetsFamily | exporter/gatherer.go:57-135 | a target task fetches /targets/<type> and sends at most one targets sample, labelled with its type and valued at the list length, exactly when the fetch succeeds |
| Gatherer.EncryptionCodes | exporter/gatherer.go:140-147 | the six encryption strings map to their codes, and any other string to 0 |
| Gatherer.EncryptionFamily | exporter/gatherer.go:148-170 | encryption sends no sample or exactly two: both when encryption and security_level are strings, the status sample labelled (status, level) and the level sample labelled (level, status), valued by the vocabulary |
| Gatherer.EncryptionReady | exporter/gatherer.go:140-172 | "ready" with "passphrase_defined" reads 1 on both metrics |
| Gatherer.ExpiredFlags | exporter/gatherer.go:185-202 | a boolean is_expired gives a sample of 1 when true and 0 when false; a boolean is_valid gives a second sample of 1 when false and 0 when true; non-booleans give none |
| Gatherer.RatioRule | exporter/gatherer.go:203-212 | a ratio is sent exactly when its maximum is a number, valued at the counter (0 when absent or not a number) over that maximum |
| Gatherer.PrimaryRatioExample | exporter/gatherer.go:203-212 | 50 used out of 200 gives the ratio 0.25; with no counter the ratio is 0 |
| Gatherer.LicenseFamily | exporter/gatherer.go:175-275 | the license task sends nothing when its fetch fails, and at most nine samples |
| Gatherer.LicenseDescriptors | exporter/gatherer.go:185-272 | every license sample is unlabelled and belongs to a license descriptor |
| Gatherer.PmTargetPublishedAsSm | exporter/gatherer.go:253-262 | when pm_target_max is a number, a sample named license_sm_target_ratio is sent |
| Gatherer.SessionsIndependent | exporter/gatherer.go:277-305 | the current and closed session samples are each sent exactly when their own fetch succeeds, labelled "current" and "closed", valued at the list lengths |
| Exporter.ClientConfig | exporter/exporter.go:127-135 | the client is built with the configured timeout and TLS policy, the User-Agent header, a cookie jar and no injected credentials |
| Exporter.Families | exporter/exporter.go:183-212 | there is one sample family per task started |
| Exporter.Exporter.NewExporter | exporter/exporter.go:109-113 | the exporter keeps the configuration it is given |
| Exporter.Exporter.Describe | exporter/exporter.go:115-124 | Describe appends exactly the eight announced descriptors, in order |
| Exporter.Exporter.Collect | exporter/exporter.go:126-151 | a scrape appends exactly the samples of its control flow (see ScrapeControlFlow) |
| Exporter.Exporter.AuthenticateWallixAPI | exporter/exporter.go:158-178 | returns the login outcome and sends exactly one up sample, 0 on failure and 1 on success |
| Exporter.Exporter.FetchWallixMetrics | exporter/exporter.go:183-212 | appends the eleven families' samples, in the order the tasks are started |
| Exporter.ElevenTasks | exporter/exporter.go:186-211 | eleven distinct tasks are started, one of every kind of task |
| Exporter.FamiliesInOrder | exporter/exporter.go:186-211 | the flattened families are the gatherers' samples, task after task |
| Exporter.FetchOrderIrrelevant | exporter/exporter.go:186-211 | running the tasks in any order sends the same multiset of samples |
| Exporter.TaskUrls | wallix/wallix.go:141-255 | every request of a task goes to the scrape URI followed by that task's suffix |
| Exporter.SuffixesDistinct | wallix/wallix.go:141-255 | different tasks use different URL suffixes |
| Exporter.RequestsDisjoint | wallix/wallix.go:141-255 | no request is sent by two different tasks |
| Exporter.UsersLocal | exporter/gatherer.go:12-25 | the users samples depend only on the answer to the users request |
| Exporter.GroupsLocal | exporter/gatherer.go:27-40 | the groups samples depend only on the answer to the groups request |
| Exporter.DevicesLocal | exporter/gatherer.go:42-55 | the devices samples depend only on the answer to the devices request |
| Exporter.TargetsLocal | exporter/gatherer.go:57-135 | each targets task's samples depend only on the answer to its own type's request |
| Exporter.EncryptionLocal | exporter/gatherer.go:137-173 | the encryption samples depend only on the answer to the encryption request |
| Exporter.LicenseLocal | exporter/gatherer.go:175-275 | the license samples depend only on the answer to the license request |
| Exporter.SessionsLocal | exporter/gatherer.go:277-305 | the session samples depend only on the answers to the two session requests |
| Exporter.FamilyLocal | exporter/exporter.go:186-211 | what any task sends depends only on the answers to its own requests |
| Exporter.UnpluggedGatherers | exporter/gatherer.go:12-305 | through a client that reaches nothing, every gatherer sends nothing |
| Exporter.UnpluggedSendsNothing | exporter/exporter.go:186-211 | through a client that reaches nothing, no task sends anything |
| Exporter.FamilyDown | exporter/exporter.go:186-211 | a task all of whose requests fail in transport sends nothing |
| Exporter.OneFamilyDown | exporter/exporter.go:186-211 | when one task's requests all fail, that task sends nothing, every other task sends what it would have, and the scrape's samples are exactly the others', in order and as a multiset |
| Exporter.CountGathered | exporter/gatherer.go:12-135 | a count family's samples match their descriptor's label count and are not up |
| Exporter.NotUp | exporter/exporter.go:23-102 | no descriptor other than up, announced or license, equals up |
| Exporter.CountsGathered | exporter/gatherer.go:12-305 | the count, target and session families send well-formed non-up samples only |
| Exporter.EncryptionGathered | exporter/gatherer.go:137-173 | the encryption family sends well-formed non-up samples only |
| Exporter.LicenseGathered | exporter/gatherer.go:175-275 | the license family sends well-formed non-up samples only |
| Exporter.FamiliesGathered | exporter/exporter.go:183-212 | every task sends well-formed samples only, and never an up sample |
| Exporter.ScrapeControlFlow | exporter/exporter.go:126-178 | no client means no sample; a failed login means the single sample up=0; a successful login means up=1 first, then the tasks' samples, none of them another up |
| Exporter.ScrapeWellFormed | exporter/exporter.go:126-212 | every sample of a scrape has as many label values as its descriptor has labels |

## Left out

- Concurrency: the eleven goroutines and the `sync.WaitGroup` that joins them. The tasks run one after the other. `FetchOrderIrrelevant` covers every interleaving of whole tasks, and `OneFamilyDown` covers isolation between tasks. The wait-group counter itself is not modelled.
- The HTTP transport is not modelled: TLS, timeouts, the cookie jar and how the User-Agent header is injected. The client is a function from requests to responses. Building it is a `Builder` parameter, and `httpclient/http.go` is not part of this model.
- Configuration loading, flag parsing and the HTTP server (`config/config.go`, `main.go`) are not part of this model. The configuration is a value, and `Collect` is the scrape handler.
- JSON text parsing and URL parsing are parameters (`Stdlib.decode`, `Stdlib.urlOk`). Go decodes only the first JSON value of the stream, and that is part of the `decode` parameter.
- Wallix.Query: query encoding (`RawQuery.Encode`, with its key order and escaping) is not modelled, and neither are parameters already present in the scrape URI's own query. The query is a map from keys to values.
- The clock is a parameter (`Clock`: now, and Go's formatting of a time with a layout). int64 overflow of the duration arithmetic is not modelled.
- Floating point: a ratio is kept as its numerator/denominator pair. Counts are exact. IEEE rounding, Inf and NaN are not modelled.
- Logging, and the panics of `MustNewConstMetric`. `ScrapeWellFormed` shows that its label-count panic cannot happen. Its other causes, a descriptor error and label values that are not valid UTF-8, are not modelled.
- Wallix.Classify: the error message texts built by `fmt.Errorf` are not modelled. An error keeps the data its message shows: the URL, the status code and the body.
- Errors from reading the response body (`io.ReadAll`, whose error the code discards) are not modelled. The body is the full response text.
- The BasicAuth header's base64 encoding is not modelled. The request carries the user name and password.
- Duplicate expiry samples: when both `is_expired` and `is_valid` are booleans, two unlabelled `license_is_expired` samples are sent, as in `exporter/gatherer.go:185-202` (`Gatherer.ExpiredFlags`). The metrics registry probably rejects the second sample as a duplicate and fails the scrape. That registry behaviour is outside this model.
