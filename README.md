# pod-pruner in Dafny

A model of the decision logic of pod-pruner. The pruner is a Kubernetes
controller. Every tick it visits the namespaces in `NAMESPACES` and does two
things for each one:

- it lists the pods whose containers wait or terminated with a reason in
  `CONTAINER_STATUSES`, and the jobs with a condition type in `JOB_STATUSES`;
- unless `DRY_RUN` is `"true"` (the default), it deletes them.

`RESOURCES` (`PODS` by default) chooses which of the two kinds of resource
are pruned at all.

The model replaces the Kubernetes API with a `Kube.Cluster` value that has
these parts:

- a page source that answers a pod list request, given a namespace and a
  continuation token;
- a job list per namespace;
- two oracles that say whether a delete call fails. Each call has its own
  answer, keyed by namespace, name and the call's position in its batch, so
  a second delete of the same object can fail where the first succeeded;
- `listDeadline`, the number of pod list requests that complete inside the
  30-second context of one pod listing. Later requests fail with the
  context's error.

The operations return what they would do, instead of doing it. Each returns
its result together with a trace of `Kube.Event`s: list requests, delete
requests and abstract log lines. Properties such as "dry run deletes
nothing" are stated over that trace. The environment is a map
`Utils.Env` from variable names to values.

Modules, one per core source file, plus two shared ones:

- `GoStrings`: the parts of Go's `strings` package the code relies on
  (`Index`, `Split`, `TrimSpace`), over strings as code points.
- `Utils`: `GetEnv`, `os.Getenv` and `Contains` (`pruner/utils/utils.go`).
- `Kube`: the records, the cluster, the event trace, `Deletes`, the
  delete requests of a trace, and `Sequentially`, the trace of a loop over
  namespaces.
- `Containers`: `pruner/internal/resources/containers.go`.
- `Jobs`: `pruner/internal/resources/jobs.go`.
- `Pruner`: the configuration and one tick of `pruner/pruner.go`.
- `Legacy`: the older `pruner.go`.

The loops of the source are methods with loop invariants, proved against a
function on the inputs:

- the page loop of `GetContainers`, and the loops over a page's pods and a
  pod's statuses, `Containers.AppendMatches` and
  `Containers.AppendStatusEntries`;
- the loops of `GetJobs` over jobs and conditions, `Jobs.AppendJobMatches`
  and `Jobs.AppendConditionEntries`;
- the loops of `DeleteContainers` and `DeleteJobs`;
- the namespace loop, `Pruner.Tick`;
- in the legacy file, `Legacy.AppendStateMatches`,
  `Legacy.AppendStateEntries`, `Legacy.Contains` and `Legacy.Tick`.

The straight-line code around and inside these loops is also written as
methods without loops, each proved against its function:

- `GetJobs` and `Legacy.GetContainersState`, which call the loop methods;
- the two branches of a namespace pass, `Pruner.PodsPass` and
  `Pruner.JobsPass`, whose identical pruning blocks are one method,
  `Pruner.PruneFound`;
- the body of each deletion loop: `Containers.DeleteContainer`, and
  `Jobs.DeleteJobEntry` for the goroutine of `DeleteJobs`.

The lemmas state the promised properties about those functions.

Two loops are not methods:

- The loop of `utils.Contains` (`pruner/utils/utils.go:53-57`) is the
  recursive function `Utils.Contains`, because the matching and branch
  functions call it.
- The loop in `isContainerInState` that builds a set of the statuses
  (`pruner/internal/resources/containers.go:94-96`) is a set comprehension.

Where the code and its documentation differ, the model follows the code:

- After a failed pod listing, the tick loop `continue`s
  (`pruner/pruner.go:72`). So the jobs branch of that namespace is skipped,
  not only the pods branch.
- A failed pod listing drops the matches of earlier pages. No partial result
  is returned.
- `DeleteJobs` logs a malformed descriptor together with the whole batch
  `jobs`, not the single item (`pruner/internal/resources/jobs.go:76`).
- The descriptors are parsed again with `Split` and `TrimSpace` exactly as
  written. A name with `/` or `: ` in it is parsed differently, and the
  round-trip lemmas say under which conditions the name comes back.

## Model

| member | source | states |
|---|---|---|
| GoStrings.Index | pruner/internal/resources/containers.go:125 | the position of the first occurrence of the separator, or -1 when there is none: no occurrence comes before the result |
| GoStrings.Split | pruner/internal/resources/containers.go:125-140 | Split always yields at least one piece, and exactly one piece iff the separator does not occur |
| GoStrings.JoinSplit | pruner/internal/resources/containers.go:125-140 | joining the pieces of a split with the separator gives back the original string |
| GoStrings.SplitPiecesFree | pruner/internal/resources/containers.go:125-140 | no piece of a split contains the separator: every occurrence is a cut |
| GoStrings.PrefixFree | pruner/internal/resources/containers.go:125 | the text before the first occurrence of the separator does not contain it |
| GoStrings.SplitTwo | pruner/internal/resources/containers.go:125-140 | a string that splits into two pieces is the first piece, the separator and the second, and neither piece holds the separator |
| GoStrings.SplitHead | pruner/internal/resources/jobs.go:79 | the first piece of a split is a prefix without the separator that is either the whole string or followed by the separator |
| GoStrings.SplitWhole | pruner/internal/resources/containers.go:125-140 | a string without the separator splits into just itself |
| GoStrings.SplitAfter | pruner/internal/resources/containers.go:125-140 | `a + sep + b`, where `a` has no character of `sep`'s first, splits into `a` followed by the pieces of `b` |
| GoStrings.SplitFree | pruner/pruner.go:40-42 | a string without the one-character separator splits into just itself, so `"PODS"` and `""` stay whole |
| GoStrings.TrimLeft | pruner/internal/resources/jobs.go:43 | the result is a suffix, starts with a non-space, and everything removed is white space |
| GoStrings.TrimRight | pruner/internal/resources/jobs.go:43 | the result is a prefix, ends with a non-space, and everything removed is white space |
| GoStrings.TrimSpace | pruner/internal/resources/jobs.go:79 | the result neither starts nor ends with white space, and an already trimmed string is unchanged |
| GoStrings.TrimSpaceCore | pruner/internal/resources/jobs.go:79 | the result is a contiguous block of the input, and only white space lies before and after it |
| Utils.GetEnv | pruner/utils/utils.go:35-41 | the stored value whenever the key is set, even when it is `""`; the default when unset |
| Utils.Getenv | pruner/pruner.go:40 | `os.Getenv`: the stored value, or `""` when unset |
| Utils.GetEnvIsDefault | pruner/utils/utils.go:36-40 | GetEnv returns the default exactly when the key is absent or holds the default itself |
| Utils.Contains | pruner/utils/utils.go:52-59 | true iff some index holds the string; false on the empty list |
| Utils.ContainsAppend | pruner/utils/utils.go:52-59 | a found string stays found when elements are appended; membership in `l + m` is membership in `l` or in `m` |
| Kube.PodListWithin | pruner/internal/resources/containers.go:52-61 | a request inside the context's budget gets the cluster's answer; every later one fails with the deadline error |
| Kube.Deletes | pruner/pruner.go:86 | the delete requests of a trace: each is in the trace and is a delete; the result is empty iff the trace holds no delete |
| Kube.DeletesMembers | pruner/pruner.go:86 | an event is among the delete requests of a trace iff it is a delete event of the trace, so no delete is dropped |
| Kube.DeletesAppend | pruner/pruner.go:62-126 | the delete requests of concatenated traces are concatenated |
| Containers.IsContainerInState | pruner/internal/resources/containers.go:92-109 | true iff the waiting reason is present and listed, or the terminated reason is present and listed; false with neither state or no statuses |
| Containers.MatchesAppend | pruner/internal/resources/containers.go:66-72 | matching keeps page and item order: the matches of `a + b` are those of `a`, then those of `b` |
| Containers.StatusEntriesMembers | pruner/internal/resources/containers.go:67-70 | a descriptor is listed for a pod iff one of its matching container statuses names it |
| Containers.MatchesMembers | pruner/internal/resources/containers.go:66-72 | a descriptor is listed iff some matching status of some pod yields `"ns/pod: container"`; a pod with several matches yields several |
| Containers.AppendStatusEntries | pruner/internal/resources/containers.go:67-71 | the inner loop over one pod's container statuses appends exactly that pod's matching descriptors, in status order |
| Containers.AppendMatches | pruner/internal/resources/containers.go:66-72 | the loop over one page appends exactly the page's matches, in item order |
| Containers.ListingFrom | pruner/internal/resources/containers.go:58-78 | the rest of a listing sends at least one request and at most one more than the context's remaining budget; a failure is the list error wrapped with the namespace |
| Containers.GetContainers | pruner/internal/resources/containers.go:46-81 | the descriptors and list requests of GetContainers are those of the listing function `ListContainers` |
| Containers.ListingFollowsTokens | pruner/internal/resources/containers.go:58-61 | the first request carries the start token; each later request carries the non-empty token of the page before it; all go to the namespace |
| Containers.ListingStops | pruner/internal/resources/containers.go:62-64 | the listing ends at its last request: a failed request gives the error wrapped with the namespace, otherwise that page's token is `""` and the listing succeeds |
| Containers.ListingCollects | pruner/internal/resources/containers.go:66-77 | a successful listing returns the matches of all visited pages, in page and item order |
| Containers.ContainerStatusesGuard | pruner/internal/resources/containers.go:47-50 | the failure "CONTAINER_STATUSES unset or empty" happens exactly when the variable reads as `""`, and then no request is sent; every other failure is a list error naming the namespace |
| Containers.ParsePodName | pruner/internal/resources/containers.go:125-141 | a descriptor without `": "` is skipped |
| Containers.PodDescriptorRoundTrip | pruner/internal/resources/containers.go:69 | `"ns/pod: container"`, with no `/` or `:` in ns and pod and no `": "` in the container name, parses back to the pod name |
| Containers.ParsedPodShape | pruner/internal/resources/containers.go:125-140 | whatever parses has the shape `"ns/pod: container"` for the parsed pod, with exactly one `": "` and one `/` before it: a second `": "` or `/` is skipped |
| Containers.DeleteContainers | pruner/internal/resources/containers.go:120-157 | the requests and logs of DeleteContainers are those of `DeleteContainersEvents`, descriptor after descriptor |
| Containers.DeleteContainer | pruner/internal/resources/containers.go:125-156 | one pass of the deletion loop: a malformed descriptor is logged and skipped, otherwise the pod is deleted and the call's own answer logged |
| Containers.RepeatedPodDeletes | pruner/internal/resources/containers.go:66-70 | a pod listed with two matching containers is deleted twice, and each call is logged with its own answer |
| Containers.DeleteItemRequests | pruner/internal/resources/containers.go:141-143 | a descriptor causes exactly one delete, of the parsed pod in the namespace argument, or none when malformed |
| Containers.DeleteContainersRequests | pruner/internal/resources/containers.go:124-156 | the deletes of a batch are one per parsable descriptor, in order, whatever the delete oracle answers |
| Jobs.JobStatusesDefault | pruner/internal/resources/jobs.go:43 | the default `"Complete"` trims and splits to the single type `"Complete"` |
| Jobs.JobStatusesAsRead | pruner/internal/resources/jobs.go:43 | the accepted types are GetEnv of JOB_STATUSES with default `"Complete"`, trimmed and split on `,` |
| Jobs.CountAcceptedAppend | pruner/internal/resources/jobs.go:52-53 | the count of accepted conditions adds up over concatenation |
| Jobs.ConditionEntriesCount | pruner/internal/resources/jobs.go:52-55 | a job with K accepted conditions yields exactly K descriptors, each `"ns/job: Type"` with an accepted type |
| Jobs.JobMatchesAppend | pruner/internal/resources/jobs.go:51-57 | descriptors keep list order: the descriptors of `a + b` are those of `a`, then those of `b` |
| Jobs.AppendConditionEntries | pruner/internal/resources/jobs.go:52-56 | the inner loop over one job's conditions appends one descriptor per accepted condition, in condition order |
| Jobs.AppendJobMatches | pruner/internal/resources/jobs.go:51-57 | the loop over the listed jobs appends exactly their descriptors, in list order |
| Jobs.GetJobs | pruner/internal/resources/jobs.go:42-59 | the descriptors, single list request and logs of GetJobs are those of `ListJobsOutcome`: one request without continuation, and an error returned unwrapped with no descriptors |
| Jobs.ParseJobName | pruner/internal/resources/jobs.go:74-79 | a descriptor without `/` is skipped, and a parsed name is trimmed |
| Jobs.JobDescriptorRoundTrip | pruner/internal/resources/jobs.go:54 | `"ns/job: Type"`, with no `/` in ns, no `/` or `:` in the trimmed job name and no `/` in the type, parses back to the job name |
| Jobs.ParsedJobShape | pruner/internal/resources/jobs.go:74-79 | whatever parses is `ns + "/" + rest` with no other `/`, and the name is the trimmed text of `rest` before its first `:`, or all of it: a second `/` is skipped |
| Jobs.DeleteJobs | pruner/internal/resources/jobs.go:68-90 | the requests and logs of DeleteJobs are those of `DeleteJobsEvents`, descriptor after descriptor |
| Jobs.DeleteJobEntry | pruner/internal/resources/jobs.go:72-87 | the goroutine body for one descriptor: a malformed descriptor is logged with the batch, otherwise the job is deleted with Background propagation and the call's own answer logged |
| Jobs.RepeatedJobDeletes | pruner/internal/resources/jobs.go:52-55 | a job listed with two accepted conditions is deleted twice, and each call is logged with its own answer |
| Jobs.DeleteJobRequests | pruner/internal/resources/jobs.go:74-81 | a descriptor causes exactly one delete, of the parsed job in the namespace argument with Background propagation, or none when malformed |
| Jobs.DeleteJobsRequests | pruner/internal/resources/jobs.go:70-88 | the deletes of a batch are one per parsable descriptor, in batch order (the model's choice for the goroutines), whatever the delete oracle answers |
| Pruner.LoadConfig | pruner/pruner.go:38-42 | a set DRY_RUN is used as read; the namespace and resource lists are never empty, join back to their variables and hold no comma |
| Pruner.ConfigDefaults | pruner/pruner.go:38-42 | DRY_RUN unset gives `"true"`, RESOURCES unset gives `["PODS"]`, NAMESPACES unset gives `[""]` |
| Pruner.PruneFound | pruner/pruner.go:76-92 | after a successful listing (the pods block here, the jobs block at lines 108-124 alike): the events of `Prune`, that is a dry-run log, or a log followed by the deletion of the items, or a "nothing to prune" log |
| Pruner.PodsPass | pruner/pruner.go:64-93 | the pods branch gives the events of `PodsBranch`, and reports whether its listing failed |
| Pruner.JobsPass | pruner/pruner.go:96-125 | the jobs branch gives the events of `JobsBranch` |
| Pruner.Tick | pruner/pruner.go:62-126 | a tick gives the events of `TickEvents`: the namespace passes in configuration order |
| Pruner.TickStep | pruner/pruner.go:62-126 | one more namespace adds its pods branch and, unless the pod listing failed, its jobs branch |
| Pruner.PodListingOnlyLists | pruner/internal/resources/containers.go:58-61 | a pod listing sends only pod list requests, all to its namespace |
| Pruner.DeleteContainersTraffic | pruner/internal/resources/containers.go:143 | container deletion sends only pod deletes |
| Pruner.DeleteJobsTraffic | pruner/internal/resources/jobs.go:81 | job deletion sends only job deletes |
| Pruner.PruneTraffic | pruner/pruner.go:76-92 | pruning sends deletes of its own kind only |
| Pruner.PodsBranchTraffic | pruner/pruner.go:64-93 | the pods branch sends no job request, and nothing at all without PODS |
| Pruner.JobsBranchTraffic | pruner/pruner.go:96-125 | the jobs branch sends no pod request, and nothing at all without JOBS |
| Pruner.NamespaceTraffic | pruner/pruner.go:62-126 | without PODS no pod request is sent; without JOBS no job request; after a failed pod listing no job request; pod requests come before job requests |
| Pruner.JobListingSendsNoDeletes | pruner/internal/resources/jobs.go:42-59 | listing jobs sends no delete request |
| Pruner.PruneDeletes | pruner/pruner.go:76-92 | pruning deletes exactly the parsable descriptors when some were listed and the mode is live; an empty listing or dry run deletes nothing |
| Pruner.PodsBranchDeletes | pruner/pruner.go:64-93 | the pods branch deletes the listed descriptors only when PODS is enabled, the listing succeeded, found some and dryRun is not `"true"` |
| Pruner.JobsBranchDeletes | pruner/pruner.go:96-125 | the jobs branch deletes the listed descriptors only when JOBS is enabled, the listing succeeded, found some and dryRun is not `"true"` |
| Pruner.NamespaceDeletes | pruner/pruner.go:62-126 | the deletes of a namespace pass are those of its pods branch, then those of its jobs branch when that branch runs, always in the current namespace |
| Pruner.TickDeletes | pruner/pruner.go:60-127 | the deletes of a tick are those of its namespaces, in configuration order |
| Kube.SequentiallyAppend | pruner/pruner.go:62 | running the passes over `a + b` runs them over `a`, then over `b` |
| Pruner.DryRunNoDeletes | pruner/pruner.go:77-80 | when dryRun is `"true"` a tick sends no delete request |
| Pruner.DefaultIsDryRun | pruner/pruner.go:38 | with DRY_RUN unset no tick deletes anything |
| Pruner.TickGating | pruner/pruner.go:64 | over a whole tick, a kind of resource missing from RESOURCES is never requested |
| Legacy.Contains | pruner.go:92-99 | true iff some element equals the string; the same answer as `Utils.Contains` |
| Legacy.StatusEntry | pruner.go:80-84 | at most one descriptor per container status, present iff isContainerInState holds; it names the status |
| Legacy.StateEntriesAgree | pruner.go:79-85 | the legacy matching of a pod's statuses equals the current one |
| Legacy.StateMatchesAgree | pruner.go:78-86 | over a pod list the legacy descriptors equal those of the current matching, in the same order |
| Legacy.CheckState | pruner.go:80-84 | the if/else-if on the waiting and the terminated reason yields the descriptor of `StatusEntry`, looking each reason up only when its state is set |
| Legacy.AppendStateEntries | pruner.go:79-85 | the inner loop over one pod's statuses appends exactly its legacy descriptors, in order |
| Legacy.AppendStateMatches | pruner.go:78-86 | the loop over the page appends exactly the legacy descriptors of its pods, in order |
| Legacy.GetContainersState | pruner.go:69-89 | the descriptors and requests are those of `StateListing`: one request without continuation; its error is returned unwrapped |
| Legacy.UnsetStatusesStillList | pruner.go:70-72 | with CONTAINER_STATUSES unset the statuses are `[""]` and the request is still sent; only an empty reason then matches |
| Legacy.Tick | pruner.go:57-64 | a tick with a working client gives the events of its namespace passes, in order |
| Legacy.NamespaceLogShape | pruner.go:58-63 | a legacy pass is one list request and one log line, with no delete |
| Legacy.TickNeverDeletes | pruner.go:57-64 | the legacy tick never deletes and, after a listing error, moves on to the next namespace: two events per namespace |
| Legacy.TickWith | pruner.go:57-64 | a tick with a client always completes; a tick panics only without a client and over a non-empty namespace list |
| Legacy.NilClientPanics | pruner.go:24-33 | with a nil client a tick over any non-empty namespace list panics before sending or logging anything |
| Legacy.FirstTickPanics | pruner.go:47-58 | NAMESPACES always splits into at least one namespace, so the first tick as written panics |
| Legacy.BuiltClientCompletes | pruner.go:33-64 | with the client main builds, the tick completes with the events of `Legacy.Tick` |

## Left out

- Authentication and client construction (`pruner/internal/auth/auth.go`) is not part of this model. The client is the given `Kube.Cluster`.
- Prometheus metrics (`pruner/internal/metrics/prometheus.go`) are not part of this model. No modelled code updates them.
- `pruner/internal/resources/types.go` (`ContainerInfo`) is not part of this model. No modelled code uses it.
- The ticker loops, the logger setup and the `Fatal`/`Panic` bootstrap of both `main`s are left out. One tick is modelled. The only exception is the legacy client variable in the finding below.
- The goroutines and `sync.WaitGroup` of `DeleteJobs` are taken one after another, in batch order. Which attempts are made, and their requests, do not depend on the interleaving; the order in which the requests are sent and logged does. The model takes batch order, so the order of the job deletes in a trace is one possible order. Each goroutine's delete gets the answer for its position in the batch, not for its place in time, so which of two deletes of one job fails is also the model's choice.
- The 30-second contexts are wall-clock budgets. For a pod listing the model uses `listDeadline`, a count of requests. For deletions the context's effect is folded into the delete oracle.
- Log lines are abstract `Kube.Message` values. Their text, fields and levels are not modelled.
- The warnings that `GetEnv` logs for DRY_RUN and RESOURCES at startup are left out. `utils.LogWithFields` is not part of this model beyond the abstract message it writes.
- Strings are sequences of code points, while Go's `strings` works on UTF-8 bytes. The operations used agree on valid UTF-8.
- Kubernetes semantics are left out: deleting does not remove the object from later listings, and pages are whatever the page source answers.

## Findings

| source | as written | input that shows it | evidently intended | confidence | as-written member | corrected member |
|---|---|---|---|---|---|---|
| pruner.go:24, 33, 58 | main declares `var clientset *kubernetes.Clientset` and never assigns it. It builds and checks `clientSet`, but passes `clientset` (nil) to `getcontainersState`, whose first API call dereferences nil | any environment in which main gets past the client set-up at pruner.go:28-40: `strings.Split` yields at least one namespace, so the first tick calls `getcontainersState` with the nil client | the tick uses the client main built | high, from reading the code; not executed | Legacy.NilClientPanics | Legacy.BuiltClientCompletes |
