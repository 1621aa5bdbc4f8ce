# fabric8-jenkins-proxy, verified

A Dafny model of the Jenkins proxy: the service that stands between openshift.io users, GitHub
webhooks and a Jenkins pod that may be idle. Everything outside the proxy (the database, the idler,
the tenant and work item services, Jenkins, the clock, the browser) is an adversary whose answers
are parameters; the theorems hold for all of them unless a hypothesis says which answers are good.

* **Webhook buffer** (`storage`, `buffer`, `visit`, `isolation`, `drain`, `machine`). The store is a
  class updated in place; `ProcessBuffer` is the real loop over passes, namespaces and rows, proved
  equal to a small specification (`Passes`, whose heart is `Judge`). About that specification: what
  one visit does to each row, independence of namespaces, and a drain measure. A step machine
  interleaves webhook handlers with the consumer at the granularity of single database and network
  calls; it carries ledgers and yields conservation, the snapshot property, exact retry counts and
  the attempt bounds. Every run of the loop is a run of the machine (`PassesRun`), and so is every
  call of the webhook handler, whatever happens between its database call and its answer
  (`HandlerRuns`).
* **Webhook handler** (`github`, `webhooks`, `request`, `lookup`, `wit`, `tenant`). When a webhook is
  forwarded, buffered or refused, what is stored and which pod is unidled, what each status tells the
  sender, how a row turns back into a request, and the retrying, cached lookup of a repository's owner.
* **UI sessions** (`ui_requests`, `ui_outcomes`, `ui_runs`, `login`, `handle`, `cookieutil`). The
  token login and the cookie loop, proved equal to a functional specification. About it: what any
  request comes to, with or without a token and whatever its cookies (`OutcomeOfToken`,
  `AnyPlainRequest`), where forwarded requests go over whole runs, and a browser that reaches Jenkins
  in at most four requests, whatever other browsers do between them.
* **Key refresh** (`auth`): callers and timers around a resettable once, in every interleaving.
* **Response recorder** (`reverseproxy`) and **usage statistics** (`statistics`).

A method and the function that specifies it could be wrong in the same way. So each such function
has laws that do not go through it: they are stated in the answers of the outside world, with the
status codes, names and statistics fields spelled out (`Recorded`, `Woke`, `LeadsTo`, `Buffers`).

Three facts about the code that the proofs bring out:

* A token whose Jenkins namespace has an empty name (or cluster URL) leaves a session that
  `GetJenkins` refuses. A plain request fails when its cookie loop reaches such a session, and no
  request removes the session (`UnusableStays`); its cookie goes when the branch of another cookie, a
  token request or an invalidation after a 403 expires it. `LoginCanGetStuck` gives a reachable case of a browser stuck on it although
  everything else works; `LoginBoundedIff` shows that this is the only obstacle to a bounded login.
* After the idled-cookie branches the cookie loop goes on (ui_requests.go:240-262), so a request
  with several known cookies can be forwarded to Jenkins after 202 has been written.
  `ForwardedAfter202` is a reachable case; `ForwardedUntouchedIff` says exactly when.
* The response recorder holds back a blocked status and its bytes, but not headers: cookies that
  Jenkins sets on a blocked answer reach the client with the redirect (`RecorderAllOrNothing`).

Assumptions about libraries: rows have unique keys and a failed call changes nothing; gorm's `Save`
inserts a missing row; the first status written to a client wins and takes the headers with it;
`resync.Once` is a mutex and a done flag, set in one step and the mutex released in another, while a
reset is one store under the mutex; cache expiry removes entries; the JSON and URL codecs are
parameters, lossless where a lemma says `Lossless`.

## Model

| member | source | states |
|---|---|---|
| Buffer.ProcessBuffer | internal/proxy/github.go:135-240 | any number of turns of the buffer loop leave exactly the rows, statistics and tenant cache that `Passes` gives, for every row and namespace order and all answers |
| Buffer.ReplayRows | internal/proxy/github.go:147-235 | the loop over one namespace's rows, with its breaks |
| Buffer.ReplayRow | internal/proxy/github.go:148-234 | one turn of that loop: lookup, state, statistics, and whether the loop ends |
| Buffer.Send | internal/proxy/github.go:183-230 | the running-Jenkins part: formatting, retry limit, replay, retry count, deletion |
| VisitShape.RowInspected | internal/proxy/github.go:174-234 | a row whose pod's state is known: buffering recorded; kept if the pod does not run; deleted if it does not format, its retries are used up or the replay was answered 200, 400 or 404; else its retry count saved, or the row deleted if that fails; and in which cases the visit ends |
| VisitShape.RowNotInspected | internal/proxy/github.go:148-178 | undecodable payload, failed lookup, namespace without name or cluster, or unknown state: nothing changes and the visit ends |
| VisitShape.PassesKeepAccess | internal/proxy/github.go:135-240 | no series of passes changes an access time or forgets a statistics row |
| VisitShape.VisitStopsAtFirst | internal/proxy/github.go:147-235 | rows before the first one not settled by 200, 400, 404 or used-up retries are deleted unless that fails; that row is kept, bumped or dropped and ends the visit; later rows stay as they are |
| VisitShape.DealtPrefixMeaning | internal/proxy/github.go:183-230 | what "the first one not settled" means |
| Isolation.VisitKeepsOthers | internal/proxy/github.go:147-235 | whatever is answered, a visit (and its `break`) never changes another namespace's rows |
| Isolation.VisitsAreIndependent | internal/proxy/github.go:141-236 | after visiting a list of namespaces, each one's rows are what its own visit alone makes of them |
| Isolation.NamespaceIsolation | internal/proxy/github.go:137-236 | two passes with the same answers but different namespace orders leave the same rows, those of independent visits |
| Drain.BacklogZero | internal/proxy/github.go:195-230 | the drain measure is zero exactly when the namespace has no rows |
| Drain.PassLowers | internal/proxy/github.go:183-235 | no pass raises a backlog; one with working services strictly lowers that of a namespace with rows |
| Drain.BacklogDrains | internal/proxy/github.go:135-240 | without arrivals a served namespace is empty after as many passes as its backlog, whatever the replays answer |
| BufferMachine.Conservation | internal/proxy/github.go:93-234 | in every interleaving a created row is either stored, unchanged but for its retries, or has left once for a reason the ledgers of replays and failed saves bear out; one that left as answered was answered 200, 400 or 404 |
| BufferMachine.GivingUpTakesRetries | internal/proxy/github.go:195-230 | a row leaves for used-up retries only after that many replays without a final answer |
| BufferMachine.FinalAnswersAreFinal | internal/proxy/github.go:208-230 | a webhook answered 200, 400 or 404 is replayed again only for a deletion that failed |
| BufferMachine.SnapshotStaysCurrent | internal/proxy/github.go:142-227 | rows of the snapshot not yet dealt with are stored exactly as read, so a retry count is never saved over a missing or changed row |
| BufferMachine.AttemptBound | internal/proxy/github.go:195-230 | replays are at most saved retries plus failed deletions while stored, plus the one a visit is still dealing with; and at most the limit plus failed deletions over a row's life |
| BufferMachine.RetriesAreExact | internal/proxy/github.go:197-224 | the retry count of a row is exactly its replays without a final answer less the failed saves (and the one being counted) |
| BufferMachine.VerdictRuns | internal/proxy/github.go:183-234 | the steps of the machine amount to the loop's verdict on a row |
| BufferMachine.PassesRun | internal/proxy/github.go:135-240 | every series of passes of the loop is a run of the machine |
| BufferMachine.BufferLoopConserves | internal/proxy/github.go:135-240 | conservation for the loop itself: a row gone after any series of passes left for a justified reason |
| Storage.DBStore.CreateRequest | internal/storage/db_store.go:26-28 | stores a row under a new id, or fails and changes nothing |
| Storage.DBStore.GetRequests | internal/storage/db_store.go:31-35 | the rows of a namespace, once each, in the database's order, or an error |
| Storage.DBStore.UpdateRequest | internal/storage/db_store.go:100-102 | saves a row or fails and changes nothing |
| Storage.DBStore.DeleteRequest | internal/storage/db_store.go:68-70 | removes a row or fails and changes nothing |
| Storage.DBStore.IncrementRequestRetry | internal/storage/db_store.go:38-50 | saves the row with one retry more; if that fails deletes it; reports each failure |
| Storage.DBStore.CreateStatistics | internal/storage/db_store.go:73-75 | stores a new statistics row or fails |
| Storage.DBStore.UpdateStatistics | internal/storage/db_store.go:78-80 | saves a statistics row or fails |
| Storage.DBStore.GetStatisticsUser | internal/storage/db_store.go:83-90 | the row of a namespace, or not found, or an error |
| Storage.RecordStatistics | internal/proxy/proxy.go:188-227 | one recording: creates or updates the row as `RecordStats` says, fails on a failed call |
| Storage.RecordStatsMeaning | internal/proxy/proxy.go:188-227 | if both database calls succeed the namespace's non-zero times are set and its others kept, 0 in a new row; all other rows are unchanged |
| StatisticsFold.StatisticsAreLastTimes | internal/proxy/proxy.go:188-227 | after any series of calls the row holds the last non-zero access and buffering times of the successful ones; other rows are unchanged |
| RequestCodec.NewRequest | internal/storage/request.go:33-50 | the row of a webhook, or an error if its headers do not encode |
| RequestCodec.GetHTTPRequest | internal/storage/request.go:70-91 | a row formats exactly when verb, URL and headers decode; the request re-adds every stored header value, for any map iteration order |
| RequestCodec.RoundTrip | internal/storage/request.go:33-91 | the rebuilt request is the received one without its query exactly when header names are canonical, no header is empty and the verb is spelled out |
| Tenant.OfKind | internal/tenant/tenant.go:128-139 | the first namespace of a type, none exactly when there is none |
| Tenant.GetNamespaceByType | internal/tenant/tenant.go:128-139 | the index loop finds that namespace |
| Wit.UnmarshalOwner | internal/wit/wit.go:75-84 | the nested join loops compute `Owner` |
| Wit.OwnerIsFirstJoin | internal/wit/wit.go:75-84 | the owner is that of the lexicographically first joining pair, empty if nothing joins |
| Lookup.CodebaseNamespace | internal/proxy/codebase.go:37-59 | the chain of searches for the owner's Jenkins namespace |
| Lookup.PlainLookupMeaning | internal/proxy/codebase.go:37-59 | it succeeds exactly with a non-blank owner whose tenant has a Jenkins namespace, and gives the first such |
| Lookup.GetUser | internal/proxy/github.go:254-273 | a cached answer, or a lookup whose success is cached |
| Lookup.GetUserWithRetry | internal/proxy/github.go:242-251 | the first success among at most max(1, retry) lookups; only successes are cached |
| Lookup.FirstSuccessMeaning | internal/proxy/github.go:242-251 | the retry fails exactly when all attempts fail, otherwise gives that of the first attempt that does not |
| Lookup.CachedLookupRefinesPlain | internal/proxy/github.go:242-273 | with stable backends the cached, retried lookup is the plain one and the cache stays right |
| Jenkins.Start | internal/proxy/jenkins.go:125-152 | fails exactly on an unknown state or an idled pod whose unidle call is not answered 200 or 503; otherwise the code is 503 for an idled pod on a full cluster and 202 else; an idled pod, and only that, is unidled |
| Jenkins.Idler.UnIdle | internal/idler/idler.go:153-186 | makes the call; passes on 200 and 503, all else is an error |
| Jenkins.Clusters | internal/idler/idler.go:190-226 | the cluster map has exactly the listed URLs, the last entry of each winning |
| GitHub.HandleGitHubRequest | internal/proxy/github.go:34-108 | forwards, buffers or fails as `Decide` says; its status, store, statistics, tenant cache, unidle call and the readdressed request |
| GitHub.DecideMeaning | internal/proxy/github.go:36-107 | a webhook fails exactly if its body, hook, lookup (15 attempts), namespace, route or pod state is missing; else it is forwarded if the pod runs and buffered if not, for the namespace's route |
| GitHub.BuffersWebhook | internal/proxy/github.go:93-132 | a buffered webhook: the stored row field by field, the recording, 202 exactly if both worked, and the pod unidled if idled, even if storing failed |
| GitHub.Locate | internal/proxy/github.go:54-81 | the repository's namespace with a known Jenkins route, to which the request is readdressed, or an error |
| GitHub.StoreGHRequest | internal/proxy/github.go:110-132 | 202 exactly if the row is stored and recorded, else 500; the stored row |
| Webhooks.HandlerRuns | internal/proxy/github.go:34-132 | every call of the handler with a fresh id is a run of the machine, with anything between storing and answering; the row arrives as stored and is acknowledged exactly with 202 |
| Webhooks.AcknowledgedIsNotLost | internal/proxy/github.go:93-234 | in every interleaving of handler calls with the consumer, a webhook answered 202 is still stored as it came in but for its retries, or has left for a justified reason |
| Webhooks.StoresAddressed | internal/proxy/github.go:76-94 | a stored row reads as a hook and is addressed by https to its own namespace's Jenkins route |
| Webhooks.StoresMapped | internal/proxy/github.go:54-94 | with stable lookups it follows the mapping from repositories to namespaces |
| Webhooks.StoredRowsAreAddressed | internal/proxy/github.go:46-153 | in every interleaving of handler calls with the consumer all stored rows are so addressed, so the consumer's decoding cannot fail |
| Webhooks.ReplayReachesSeenPod | internal/proxy/github.go:158-196 | ... and with a stable mapping a replay goes to the pod whose state was just asked for |
| UIRequests.HandleJenkinsUIRequest | internal/proxy/ui_requests.go:16-290 | session cache, statistics, unidle calls, response, target and results are those of `HandleUI`; the request is readdressed only if forwarded |
| UIRequests.HandleIdled | internal/proxy/ui_requests.go:195-261 | the idled-cookie branch; the unexpected-code branch is unreachable |
| UIRequests.HandleToken | internal/proxy/ui_requests.go:30-127 | the token branch |
| UIRequests.GetJenkins | internal/proxy/jenkins.go:57-94 | a session exactly if the token decodes, auth service, user id and tenant are there and the tenant's first namespace of type jenkins is on a known cluster; then that namespace, cluster and route |
| UIRequests.TokenLeads | internal/proxy/jenkins.go:57-94 | `ResolveToken` says just this |
| UIRequests.RedirectKeepsPath | internal/proxy/ui_requests.go:23 | the redirect goes to the configured address without slashes at its end, followed by the request's path |
| UIOutcomes.OutcomeOfBadRequest | internal/proxy/ui_requests.go:23-61 | an address that does not parse or a token that leads nowhere: 500 and no other change |
| UIOutcomes.OutcomeOfToken | internal/proxy/ui_requests.go:63-127 | any good token: the pod unidled if idled; parked under the uuid, logged in under the last session cookie, redirected without either, or 500; with the exact cache, cookies and location of each |
| UIOutcomes.AnyPlainRequest | internal/proxy/ui_requests.go:129-288 | any request without token, whatever its cookies: up to which cookie the loop goes, and the target, cache, statistics, unidle calls, status and location that follow |
| UIOutcomes.OutcomeOfBrokenHit | internal/proxy/ui_requests.go:150-262 | something goes wrong at the first known cookie: 500 and no other change but expired cookies and the unidle call |
| UIOutcomes.OutcomeWithoutHit | internal/proxy/ui_requests.go:129-288 | no known cookie: 307 to auth (500 without auth service), all session and idled cookies expired, nothing else changes |
| UIOutcomes.OutcomeOfSessionHit | internal/proxy/ui_requests.go:162-193 | a known session: forwarded with no status written and nothing recorded if the pod runs; else forgotten, the access recorded, an idled pod unidled, and off to auth |
| UIOutcomes.OutcomeOfIdledHit | internal/proxy/ui_requests.go:195-261 | a known idled cookie: loading page with 202 or 503, the access recorded if the pod does not run, or cleared once its route answers 200 or 403; with exactly the deletions, expiries and unidle calls of each |
| UIOutcomes.ExactlyOneOutcome | internal/proxy/ui_requests.go:129-288 | with at most one known cookie and no error, exactly one of the four outcomes |
| UIOutcomes.ForwardedUntouchedIff | internal/proxy/ui_requests.go:133-262 | any forwarded request follows its first ready session cookie, and its response is untouched exactly if no earlier idled cookie met a Jenkins that does not answer yet |
| UIRuns.ForwardedAfter202 | internal/proxy/ui_requests.go:251-262 | a reachable cache and a request that is forwarded after 202 was written |
| UIRuns.EntriesAreStored | internal/proxy/ui_requests.go:71-120 | over any run the cache holds a session under a key exactly if a token request last stored it there (under the idled cookie's uuid, or Jenkins' last session cookie after a login with 200), as that of its user's first Jenkins namespace, and it stayed |
| UIRuns.UnusableStays | internal/proxy/jenkins.go:44-55 | no request removes a session without namespace or cluster, unless it stores another under its key |
| UIRuns.EntriesAreWellRouted | internal/proxy/utils.go:68-75 | every entry ever present has scheme https and the route of its own namespace on a known cluster |
| UIRuns.ForwardTarget | internal/proxy/ui_requests.go:139-182 | a forwarded request goes to the well-formed route that a token request last stored under one of its session cookies, held there since |
| LoginJourney.ArrivesWithinFour | internal/proxy/ui_requests.go:30-288 | with Jenkins running and services working, four requests bring a browser without unusable sessions to Jenkins, whatever happens between them to other sessions |
| LoginJourney.BoundedLogin | static/html/index.html:47-52 | the same from every reachable session cache and any cookie jar, unless a cookie leads to a session without namespace or cluster, which some token request stored |
| LoginJourney.ThreeAreTooFew | internal/proxy/ui_requests.go:240-251 | a browser with a known idled cookie and no known session needs the fourth |
| LoginJourney.LoginBoundedIff | internal/proxy/jenkins.go:44-55 | the login is bounded exactly if no cookie of the browser leads to a session without namespace or cluster |
| LoginJourney.LoginCanGetStuck | internal/proxy/ui_requests.go:71-89 | a reachable case of such a session, and a browser stuck on it |
| LoginJourney.ColdStart | internal/proxy/ui_requests.go:71-89 | a user who logs in while Jenkins is down waits on the loading page, and arrives within four requests once it is up |
| CookieUtil.ExpireCookiesMatching | internal/proxy/cookieutil/cookieutil.go:31-37 | expires every matching cookie in the request's order |
| CookieUtil.CookieKinds | internal/proxy/cookieutil/cookieutil.go:57-73 | session cookies are those whose name starts with JSESSIONID, the idled cookie is JenkinsIdled |
| CookieUtil.ExpiringMeaning | internal/proxy/cookieutil/cookieutil.go:31-55 | exactly the matching cookies are expired, in their order |
| CookieUtil.FilterCookies | internal/proxy/cookieutil/cookieutil.go:40-49 | computes `Filter` |
| CookieUtil.FilterMeaning | internal/proxy/cookieutil/cookieutil.go:40-49 | keeps exactly the cookies at the matching positions, in their order |
| CookieUtil.SetJenkinsCookies | internal/proxy/cookieutil/cookieutil.go:84-94 | sets all cookies and returns the last session cookie |
| CookieUtil.LastSessionMeaning | internal/proxy/cookieutil/cookieutil.go:84-94 | which is the session cookie at the last position that has one |
| Handle.InvalidateSession | internal/proxy/proxy.go:229-246 | removes every session value from the cache and expires its cookie |
| Handle.CheckSessionValidity | internal/proxy/proxy.go:248-277 | 200 is valid, 403 is not, anything else is an error |
| Handle.OnErrorUIRequest | internal/proxy/proxy.go:280-301 | drops the sessions exactly after a 403 with several session cookies or one answered 403 by the check |
| Handle.ServeUI | internal/proxy/reverseproxy/reverseproxy.go:42-70 | after an upstream status of 403, 502, 503 or 504 a 302 without upstream bytes, with the sessions dropped in the two 403 cases only; any other status and all bytes pass |
| Handle.HandleUIRequest | internal/proxy/proxy.go:101-169 | a forwarded request has a session cookie and its access is recorded for the session's namespace; what the browser then sees by the upstream's status; after a 403 all its sessions are dropped, or it had one the check did not find invalid |
| Handle.HandleWebhook | internal/proxy/proxy.go:101-169 | forwarded with 200 and its access recorded if it can be served and the pod runs, buffered with all of `BuffersWebhook` if it can be served and does not, else 500 and no change; whatever Jenkins answers |
| ReverseProxy.ResponseRecorder.WriteHeader | internal/proxy/reverseproxy/response.go:28-59 | the first code decides; 403, 502, 503 and 504 are held back |
| ReverseProxy.ResponseRecorder.Write | internal/proxy/reverseproxy/response.go:61-70 | bytes are held back after a blocked code |
| ReverseProxy.Forward | internal/proxy/reverseproxy/reverseproxy.go:56-62 | any sequence of calls, played into a fresh recorder |
| ReverseProxy.RecorderAllOrNothing | internal/proxy/reverseproxy/reverseproxy.go:56-69 | with headers at most before the first status, either that is 403, 502, 503 or 504 and no upstream status or byte passes and one 302 follows, with all upstream cookies, or that status, the cookies before it and all bytes pass in order |
| ReverseProxy.BytesLeakIff | internal/proxy/reverseproxy/response.go:28-70 | for any call sequence, bytes slip past a later redirect exactly if written before a first status of 403, 502, 503 or 504 |
| ReverseProxy.EarlyBytesSay200 | internal/proxy/reverseproxy/response.go:61-70 | bytes written before any status go out under 200, which nothing changes any more |
| Auth.RefreshIsSafe | internal/auth/auth.go:181-195 | in every interleaving at most one fetch runs, fetches never exceed resets plus one, and a done once is owed a reset by an armed timer or a caller at or past the end of `Do` |
| Auth.NeverSticks | internal/auth/auth.go:181-195 | from every reachable state at most five steps of those already there let the next caller fetch |
| Auth.SoloCall | internal/auth/auth.go:181-195 | a caller alone fetches exactly if the once is not done, and leaves it done with a timer armed, or reset after an error of its own |
| Auth.ParsedMeaning | internal/auth/auth.go:228-241 | the key stored for an id is the last of that id that parses, whatever other keys do |
| Auth.Client.UpdatePublicKeys | internal/auth/auth.go:197-244 | the parsed keys are stored over the old ones; an error is reported exactly if the reply fails or some key does not parse |
| Auth.Client.UpdatePublicKeysOnce | internal/auth/auth.go:181-195 | fetches unless done, and stays done exactly without an error |
| Auth.Client.RsaPublicKeyForID | internal/auth/auth.go:143-157 | a known key without a fetch; after a fetch with any bad key an error, although a good key is kept |

## Left out

- HTTP transport, TLS, timeouts, routers, CORS, goroutine start-up and shutdown: their results are parameters.
- Logging, metrics, request hashes and HTML templating: no effect on the modelled state. A template error only adds to a body whose status is already sent.
- JWT and RSA parsing, token generation and the command line tools.
- Outgoing calls are represented by their answers; only the unidle calls are also kept as a log, of namespace and cluster as passed to the idler client.
- Response bodies of errors, redirects and the loading page; only upstream bytes are modelled.
- Interleaving of UI requests with each other: a request is one step on the session cache, and cache expiry happens between requests. A key is read once per request, so an expiry in the middle acts like one before it.
- Cookie attributes: a browser's cookies are keyed by name, the last Set-Cookie wins and an expired one removes; paths and domains are not modelled. The login lemmas assume that Jenkins does not set the proxy's own idled cookie and hands out new session ids.
- Sleeps between retries and passes, and the expiry of tenant cache entries inside one lookup; `Consistent` is kept by removals.
- The endless buffer loop is modelled as any finite number of turns.
- Concurrent statistics recording: the row is read outside the lock, so only series of calls are modelled; the recording that runs beside a forwarded request is taken to come before it.
- Handle.HandleWebhook: the User-Agent test that tells webhooks from UI requests is not modelled; each kind has its own entry.
- Storage.DBStore.DeleteRequest: rows always have an id; gorm's behaviour for a blank primary key is not modelled.
- A second proxy replica: one consumer is assumed, as deployed.
- UIRequests.HandleJenkinsUIRequest: escaping of the return address inside the auth URL is not modelled, the redirect carries the address itself.
- Integer widths: times are only copied and compared with zero, and retries stay below the limit.
- The request and statistics counts, the info and start APIs, and configuration: they add only table lookups.
