/**
 * pruner/pruner.go: the configuration main reads at startup and one tick of
 * its ticker loop, which goes through the namespaces in order and, per
 * namespace, runs the pods branch and then the jobs branch, each gated by
 * RESOURCES and guarded by DRY_RUN.
 */
module Pruner {
  import opened Wrappers
  import opened GoStrings
  import opened Utils
  import opened Kube
  import opened Containers
  import opened Jobs

  datatype Config = Config(dryRun: string, namespaces: seq<string>, resources: seq<string>)

  /**
   * The settings main reads once, before the ticker starts: the namespace and
   * resource lists are the comma-free pieces of their variables, never empty.
   */
  function LoadConfig(env: Env): (r: Config)
    ensures "DRY_RUN" in env ==> r.dryRun == env["DRY_RUN"]
    ensures |r.namespaces| >= 1 && Join(r.namespaces, ",") == Getenv(env, "NAMESPACES")
    ensures forall n :: n in r.namespaces ==> !Occurs(n, ",")
    ensures |r.resources| >= 1 && Join(r.resources, ",") == GetEnv(env, "RESOURCES", "PODS")
    ensures forall n :: n in r.resources ==> !Occurs(n, ",")
  {
    JoinSplit(Getenv(env, "NAMESPACES"), ",");
    SplitPiecesFree(Getenv(env, "NAMESPACES"), ",");
    JoinSplit(GetEnv(env, "RESOURCES", "PODS"), ",");
    SplitPiecesFree(GetEnv(env, "RESOURCES", "PODS"), ",");
    Config(
      GetEnv(env, "DRY_RUN", "true"),
      Split(Getenv(env, "NAMESPACES"), ","),
      Split(GetEnv(env, "RESOURCES", "PODS"), ","))
  }

  /**
   * The defaults: dry run when DRY_RUN is unset, only pods when RESOURCES is
   * unset, and one empty namespace when NAMESPACES is unset.
   */
  lemma ConfigDefaults(env: Env)
    ensures "DRY_RUN" !in env ==> LoadConfig(env).dryRun == "true"
    ensures "RESOURCES" !in env ==> LoadConfig(env).resources == ["PODS"]
    ensures "NAMESPACES" !in env ==> LoadConfig(env).namespaces == [""]
  {
    SplitFree("PODS", ",");
    SplitFree("", ",");
  }

  /** What a branch does once its listing returned `items`: log them, and delete them unless in dry run. */
  function Prune(c: Cluster, kind: Kind, namespace: string, items: seq<string>, dryRun: string): seq<Event> {
    if |items| > 0 then
      if dryRun == "true" then [Log(WouldDelete(kind, items))]
      else
        [Log(ToPrune(kind, namespace, items))]
          + if kind == Containers then DeleteContainersEvents(c, namespace, items) else DeleteJobsEvents(c, namespace, items, items)
    else [Log(NothingToPrune(kind, namespace))]
  }

  /**
   * The pods branch of one namespace: nothing unless PODS is enabled;
   * otherwise the listing, then its error logged or its descriptors pruned.
   */
  function PodsBranch(c: Cluster, env: Env, cfg: Config, namespace: string): seq<Event> {
    if Contains(cfg.resources, "PODS") then
      var l := ListContainers(c, env, namespace);
      l.events
        + match l.result
          case Failure(e) => [Log(FetchFailed(Containers, namespace, e))]
          case Success(items) => Prune(c, Containers, namespace, items, cfg.dryRun)
    else []
  }

  /** Whether the pods branch of `namespace` ran and its listing failed. */
  predicate PodsFailed(c: Cluster, env: Env, cfg: Config, namespace: string) {
    Contains(cfg.resources, "PODS") && ListContainers(c, env, namespace).result.Failure?
  }

  /** The jobs branch of one namespace: nothing unless JOBS is enabled. */
  function JobsBranch(c: Cluster, env: Env, cfg: Config, namespace: string): seq<Event> {
    if Contains(cfg.resources, "JOBS") then
      var l := ListJobsOutcome(c, env, namespace);
      l.events
        + match l.result
          case Failure(e) => [Log(FetchFailed(Jobs, namespace, e))]
          case Success(items) => Prune(c, Jobs, namespace, items, cfg.dryRun)
    else []
  }

  /**
   * One pass of the namespace loop: the pods branch, then the jobs branch;
   * a failed pod listing `continue`s the loop, skipping the jobs branch.
   */
  function NamespaceEvents(c: Cluster, env: Env, cfg: Config, namespace: string): seq<Event> {
    PodsBranch(c, env, cfg, namespace)
      + if PodsFailed(c, env, cfg, namespace) then [] else JobsBranch(c, env, cfg, namespace)
  }

  /** The passes of a tick, as a function of the namespace. */
  function Pass(c: Cluster, env: Env, cfg: Config): string -> seq<Event> {
    namespace => NamespaceEvents(c, env, cfg, namespace)
  }

  /** The events of a tick over `namespaces`. */
  function TickEvents(c: Cluster, env: Env, cfg: Config, namespaces: seq<string>): seq<Event> {
    Sequentially(Pass(c, env, cfg), namespaces)
  }

  /**
   * The part of a branch after a successful listing: the items are logged,
   * then deleted unless in dry run; when there are none, that is logged.
   */
  method PruneFound(c: Cluster, kind: Kind, namespace: string, items: seq<string>, dryRun: string) returns (events: seq<Event>)
    ensures events == Prune(c, kind, namespace, items, dryRun)
  {
    if |items| > 0 {
      if dryRun == "true" {
        events := [Log(WouldDelete(kind, items))];
      } else {
        events := [Log(ToPrune(kind, namespace, items))];
        var deleted;
        if kind == Containers {
          deleted := DeleteContainers(c, namespace, items);
        } else {
          deleted := DeleteJobs(c, namespace, items);
        }
        events := events + deleted;
      }
    } else {
      events := [Log(NothingToPrune(kind, namespace))];
    }
  }

  /** The pods branch of the loop body; `failed` says whether the body then `continue`s. */
  method PodsPass(c: Cluster, env: Env, cfg: Config, namespace: string) returns (failed: bool, events: seq<Event>)
    ensures failed == PodsFailed(c, env, cfg, namespace)
    ensures events == PodsBranch(c, env, cfg, namespace)
  {
    events := [];
    failed := false;
    if Contains(cfg.resources, "PODS") {
      var containers, calls := GetContainers(c, env, namespace);
      events := calls;
      if containers.Failure? {
        events := events + [Log(FetchFailed(Containers, namespace, containers.error))];
        failed := true;
        return;
      }
      var pruned := PruneFound(c, Containers, namespace, containers.value, cfg.dryRun);
      events := events + pruned;
    }
  }

  /** The jobs branch of the loop body. */
  method JobsPass(c: Cluster, env: Env, cfg: Config, namespace: string) returns (events: seq<Event>)
    ensures events == JobsBranch(c, env, cfg, namespace)
  {
    events := [];
    if Contains(cfg.resources, "JOBS") {
      var jobs, calls := GetJobs(c, env, namespace);
      events := calls;
      if jobs.Failure? {
        events := events + [Log(FetchFailed(Jobs, namespace, jobs.error))];
        return;
      }
      var pruned := PruneFound(c, Jobs, namespace, jobs.value, cfg.dryRun);
      events := events + pruned;
    }
  }

  /** One tick of the ticker loop of main: the namespaces in configuration order. */
  method Tick(c: Cluster, env: Env, cfg: Config) returns (events: seq<Event>)
    ensures events == TickEvents(c, env, cfg, cfg.namespaces)
  {
    events := [];
    for i := 0 to |cfg.namespaces|
      invariant events == TickEvents(c, env, cfg, cfg.namespaces[..i])
    {
      var namespace := cfg.namespaces[i];
      TickStep(c, env, cfg, cfg.namespaces, i);
      ghost var expected := TickEvents(c, env, cfg, cfg.namespaces[..i + 1]);
      var failed, podEvents := PodsPass(c, env, cfg, namespace);
      events := events + podEvents;
      if failed {
        assert events == expected;
        continue;
      }
      var jobEvents := JobsPass(c, env, cfg, namespace);
      events := events + jobEvents;
      assert events == expected;
    }
    assert cfg.namespaces[..|cfg.namespaces|] == cfg.namespaces;
  }

  /** A tick over one more namespace adds that namespace's pods branch and, unless it failed, its jobs branch. */
  lemma TickStep(c: Cluster, env: Env, cfg: Config, namespaces: seq<string>, i: nat)
    requires i < |namespaces|
    ensures TickEvents(c, env, cfg, namespaces[..i + 1]) ==
      TickEvents(c, env, cfg, namespaces[..i]) + PodsBranch(c, env, cfg, namespaces[i])
        + if PodsFailed(c, env, cfg, namespaces[i]) then [] else JobsBranch(c, env, cfg, namespaces[i])
  {
    SequentiallyStep(Pass(c, env, cfg), namespaces, i);
    assert Pass(c, env, cfg)(namespaces[i]) == NamespaceEvents(c, env, cfg, namespaces[i]);
  }

  /** A pod listing sends only pod list requests, all to its namespace. */
  lemma PodListingOnlyLists(c: Cluster, env: Env, namespace: string)
    ensures forall e :: e in ListContainers(c, env, namespace).events ==> e.ListPods? && e.namespace == namespace
  {
    var statuses := ContainerStatuses(env);
    if !(|statuses| == 0 || (|statuses| == 1 && statuses[0] == "")) {
      ListingFollowsTokens(c, namespace, statuses, "", 0);
    }
  }

  /** Container deletion sends nothing but pod delete requests. */
  lemma {:induction false} DeleteContainersTraffic(c: Cluster, namespace: string, items: seq<string>)
    ensures forall e :: e in DeleteContainersEvents(c, namespace, items) ==> e.Log? || e.DeletePod?
    decreases |items|
  {
    if items != [] {
      DeleteContainersTraffic(c, namespace, items[..|items| - 1]);
    }
  }

  /** Job deletion sends nothing but job delete requests. */
  lemma {:induction false} DeleteJobsTraffic(c: Cluster, namespace: string, jobs: seq<string>, items: seq<string>)
    ensures forall e :: e in DeleteJobsEvents(c, namespace, jobs, items) ==> e.Log? || e.DeleteJob?
    decreases |items|
  {
    if items != [] {
      DeleteJobsTraffic(c, namespace, jobs, items[..|items| - 1]);
    }
  }

  /** Pruning sends delete requests of its own kind of resource only. */
  lemma PruneTraffic(c: Cluster, kind: Kind, namespace: string, items: seq<string>, dryRun: string)
    ensures forall e :: e in Prune(c, kind, namespace, items, dryRun) ==>
      e.Log? || (kind == Containers && e.DeletePod?) || (kind == Jobs && e.DeleteJob?)
  {
    if |items| > 0 && dryRun != "true" {
      if kind == Containers {
        DeleteContainersTraffic(c, namespace, items);
      } else {
        DeleteJobsTraffic(c, namespace, items, items);
      }
    }
  }

  /** The pods branch talks to the pod API only, and only when PODS is enabled. */
  lemma PodsBranchTraffic(c: Cluster, env: Env, cfg: Config, namespace: string)
    ensures forall e :: e in PodsBranch(c, env, cfg, namespace) ==> !e.IsJobRequest()
    ensures !Contains(cfg.resources, "PODS") ==> PodsBranch(c, env, cfg, namespace) == []
  {
    if Contains(cfg.resources, "PODS") {
      PodListingOnlyLists(c, env, namespace);
      var l := ListContainers(c, env, namespace);
      if l.result.Success? {
        PruneTraffic(c, Containers, namespace, l.result.value, cfg.dryRun);
      }
    }
  }

  /** The jobs branch talks to the job API only, and only when JOBS is enabled. */
  lemma JobsBranchTraffic(c: Cluster, env: Env, cfg: Config, namespace: string)
    ensures forall e :: e in JobsBranch(c, env, cfg, namespace) ==> !e.IsPodRequest()
    ensures !Contains(cfg.resources, "JOBS") ==> JobsBranch(c, env, cfg, namespace) == []
  {
    if Contains(cfg.resources, "JOBS") {
      var l := ListJobsOutcome(c, env, namespace);
      if l.result.Success? {
        PruneTraffic(c, Jobs, namespace, l.result.value, cfg.dryRun);
      }
    }
  }

  /**
   * RESOURCES gating and order within a pass: without PODS no pod request is
   * sent, without JOBS no job request, after a failed pod listing no job
   * request either, and every pod request comes before every job request.
   */
  lemma NamespaceTraffic(c: Cluster, env: Env, cfg: Config, namespace: string)
    ensures var ev := NamespaceEvents(c, env, cfg, namespace);
      && (!Contains(cfg.resources, "PODS") ==> forall e :: e in ev ==> !e.IsPodRequest())
      && (!Contains(cfg.resources, "JOBS") ==> forall e :: e in ev ==> !e.IsJobRequest())
      && (PodsFailed(c, env, cfg, namespace) ==> forall e :: e in ev ==> !e.IsJobRequest())
      && PodRequestsFirst(ev)
  {
    PodsBranchTraffic(c, env, cfg, namespace);
    JobsBranchTraffic(c, env, cfg, namespace);
    var jobs := if PodsFailed(c, env, cfg, namespace) then [] else JobsBranch(c, env, cfg, namespace);
    PodRequestsFirstConcat(PodsBranch(c, env, cfg, namespace), jobs);
  }

  /** Every pod request of `ev` comes before every job request of it. */
  predicate PodRequestsFirst(ev: seq<Event>) {
    forall i, j :: 0 <= i < j < |ev| && ev[i].IsJobRequest() ==> !ev[j].IsPodRequest()
  }

  lemma PodRequestsFirstConcat(pods: seq<Event>, jobs: seq<Event>)
    requires forall e :: e in pods ==> !e.IsJobRequest()
    requires forall e :: e in jobs ==> !e.IsPodRequest()
    ensures PodRequestsFirst(pods + jobs)
  {
    var ev := pods + jobs;
    forall i, j | 0 <= i < j < |ev| && ev[i].IsJobRequest()
      ensures !ev[j].IsPodRequest()
    {
      if i >= |pods| {
        assert ev[j] == jobs[j - |pods|];
      }
    }
  }

  /** The delete requests of a branch whose listing succeeded with `items`. */
  function BranchDeletes(kind: Kind, namespace: string, items: seq<string>, dryRun: string): seq<Event> {
    if |items| > 0 && dryRun != "true" then
      if kind == Containers then PodDeletes(namespace, items) else JobDeletes(namespace, items)
    else []
  }

  /** Pruning deletes the parsable descriptors in live mode and nothing in dry run. */
  lemma PruneDeletes(c: Cluster, kind: Kind, namespace: string, items: seq<string>, dryRun: string)
    ensures Deletes(Prune(c, kind, namespace, items, dryRun)) == BranchDeletes(kind, namespace, items, dryRun)
  {
    var log: seq<Event> := [Log(ToPrune(kind, namespace, items))];
    assert Deletes(log) == [] by { assert !log[0].IsDelete(); }
    if |items| > 0 && dryRun != "true" {
      if kind == Containers {
        DeletesAppend(log, DeleteContainersEvents(c, namespace, items));
        DeleteContainersRequests(c, namespace, items);
      } else {
        DeletesAppend(log, DeleteJobsEvents(c, namespace, items, items));
        DeleteJobsRequests(c, namespace, items, items);
      }
    }
  }

  /** The delete requests of the pods branch. */
  lemma PodsBranchDeletes(c: Cluster, env: Env, cfg: Config, namespace: string)
    ensures Deletes(PodsBranch(c, env, cfg, namespace)) ==
      if Contains(cfg.resources, "PODS") && ListContainers(c, env, namespace).result.Success?
      then BranchDeletes(Containers, namespace, ListContainers(c, env, namespace).result.value, cfg.dryRun)
      else []
  {
    if Contains(cfg.resources, "PODS") {
      PodListingOnlyLists(c, env, namespace);
      ListedDeletes(c, Containers, namespace, ListContainers(c, env, namespace), cfg.dryRun);
    }
  }

  /** The delete requests of the jobs branch. */
  lemma JobsBranchDeletes(c: Cluster, env: Env, cfg: Config, namespace: string)
    ensures Deletes(JobsBranch(c, env, cfg, namespace)) ==
      if Contains(cfg.resources, "JOBS") && ListJobsOutcome(c, env, namespace).result.Success?
      then BranchDeletes(Jobs, namespace, ListJobsOutcome(c, env, namespace).result.value, cfg.dryRun)
      else []
  {
    if Contains(cfg.resources, "JOBS") {
      JobListingSendsNoDeletes(c, env, namespace);
      ListedDeletes(c, Jobs, namespace, ListJobsOutcome(c, env, namespace), cfg.dryRun);
    }
  }

  /** Listing jobs sends no delete request. */
  lemma JobListingSendsNoDeletes(c: Cluster, env: Env, namespace: string)
    ensures Deletes(ListJobsOutcome(c, env, namespace).events) == []
  {
    var events := ListJobsOutcome(c, env, namespace).events;
    assert forall i :: 0 <= i < |events| ==> events[i].Log? || events[i].ListJobs?;
  }

  /** After a listing that deletes nothing, a branch deletes what pruning its descriptors deletes. */
  lemma ListedDeletes(c: Cluster, kind: Kind, namespace: string, l: Listing, dryRun: string)
    requires Deletes(l.events) == []
    ensures Deletes(l.events
      + match l.result
        case Failure(e) => [Log(FetchFailed(kind, namespace, e))]
        case Success(items) => Prune(c, kind, namespace, items, dryRun))
      == if l.result.Success? then BranchDeletes(kind, namespace, l.result.value, dryRun) else []
  {
    match l.result
    case Failure(e) =>
      var tail: seq<Event> := [Log(FetchFailed(kind, namespace, e))];
      DeletesAppend(l.events, tail);
      assert Deletes(tail) == [] by { assert !tail[0].IsDelete(); }
    case Success(items) =>
      DeletesAppend(l.events, Prune(c, kind, namespace, items, dryRun));
      PruneDeletes(c, kind, namespace, items, dryRun);
  }

  /** Whether the jobs branch runs for `namespace`: JOBS is enabled and no pod listing failed before it. */
  predicate JobsBranchRuns(c: Cluster, env: Env, cfg: Config, namespace: string) {
    Contains(cfg.resources, "JOBS") && !PodsFailed(c, env, cfg, namespace)
  }

  /**
   * The delete requests one namespace calls for: the pods branch deletes
   * exactly its parsable descriptors when PODS is enabled, the listing
   * succeeded, found some and the mode is live; then the jobs branch
   * likewise when it runs.
   */
  function NamespaceDeleteRequests(c: Cluster, env: Env, cfg: Config, namespace: string): seq<Event> {
    (if Contains(cfg.resources, "PODS") && ListContainers(c, env, namespace).result.Success?
     then BranchDeletes(Containers, namespace, ListContainers(c, env, namespace).result.value, cfg.dryRun)
     else [])
    + (if JobsBranchRuns(c, env, cfg, namespace) && ListJobsOutcome(c, env, namespace).result.Success?
       then BranchDeletes(Jobs, namespace, ListJobsOutcome(c, env, namespace).result.value, cfg.dryRun)
       else [])
  }

  /** The deletes a namespace pass sends are exactly the ones it calls for. */
  lemma NamespaceDeletes(c: Cluster, env: Env, cfg: Config, namespace: string)
    ensures Deletes(NamespaceEvents(c, env, cfg, namespace)) == NamespaceDeleteRequests(c, env, cfg, namespace)
  {
    PodsBranchDeletes(c, env, cfg, namespace);
    JobsBranchDeletes(c, env, cfg, namespace);
    var jobs := if PodsFailed(c, env, cfg, namespace) then [] else JobsBranch(c, env, cfg, namespace);
    DeletesAppend(PodsBranch(c, env, cfg, namespace), jobs);
  }

  /** The delete requests of a tick: those of its namespaces, in configuration order. */
  lemma {:induction false} TickDeletes(c: Cluster, env: Env, cfg: Config, namespaces: seq<string>)
    ensures Deletes(TickEvents(c, env, cfg, namespaces))
      == Sequentially(namespace => NamespaceDeleteRequests(c, env, cfg, namespace), namespaces)
    decreases |namespaces|
  {
    if namespaces != [] {
      var init := namespaces[..|namespaces| - 1];
      var ns := namespaces[|namespaces| - 1];
      TickDeletes(c, env, cfg, init);
      DeletesAppend(TickEvents(c, env, cfg, init), NamespaceEvents(c, env, cfg, ns));
      NamespaceDeletes(c, env, cfg, ns);
    }
  }

  /** Dry run: when DRY_RUN is "true" a tick sends no delete request at all. */
  lemma {:induction false} DryRunNoDeletes(c: Cluster, env: Env, cfg: Config, namespaces: seq<string>)
    requires cfg.dryRun == "true"
    ensures Deletes(TickEvents(c, env, cfg, namespaces)) == []
    decreases |namespaces|
  {
    if namespaces != [] {
      var init := namespaces[..|namespaces| - 1];
      var ns := namespaces[|namespaces| - 1];
      DryRunNoDeletes(c, env, cfg, init);
      DeletesAppend(TickEvents(c, env, cfg, init), NamespaceEvents(c, env, cfg, ns));
      NamespaceDeletes(c, env, cfg, ns);
    }
  }

  /** With DRY_RUN unset the pruner starts in dry run, so no tick deletes anything. */
  lemma DefaultIsDryRun(c: Cluster, env: Env)
    requires "DRY_RUN" !in env
    ensures Deletes(TickEvents(c, env, LoadConfig(env), LoadConfig(env).namespaces)) == []
  {
    ConfigDefaults(env);
    DryRunNoDeletes(c, env, LoadConfig(env), LoadConfig(env).namespaces);
  }

  /** RESOURCES gating over a whole tick: a disabled kind of resource is never requested. */
  lemma {:induction false} TickGating(c: Cluster, env: Env, cfg: Config, namespaces: seq<string>)
    ensures !Contains(cfg.resources, "PODS") ==> forall e :: e in TickEvents(c, env, cfg, namespaces) ==> !e.IsPodRequest()
    ensures !Contains(cfg.resources, "JOBS") ==> forall e :: e in TickEvents(c, env, cfg, namespaces) ==> !e.IsJobRequest()
    decreases |namespaces|
  {
    if namespaces != [] {
      TickGating(c, env, cfg, namespaces[..|namespaces| - 1]);
      NamespaceTraffic(c, env, cfg, namespaces[|namespaces| - 1]);
    }
  }
}
