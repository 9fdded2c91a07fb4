/**
 * The part of the Kubernetes API the pruner sees, reduced to values: the
 * pod and job records it reads, an abstract cluster that answers list
 * requests page by page and delete requests through an outcome oracle, and
 * the trace of observable effects (API requests and log lines) that the
 * operations of the model return instead of performing them.
 */
module Kube {
  import opened Wrappers

  /** The reason of a container state; `None` stands for a nil state pointer. */
  datatype ContainerState = ContainerState(waiting: Option<string>, terminated: Option<string>)

  datatype ContainerStatus = ContainerStatus(name: string, state: ContainerState)

  datatype Pod = Pod(namespace: string, name: string, containerStatuses: seq<ContainerStatus>)

  /** One page of a pod listing and the continuation token for the next ("" on the last page). */
  datatype PodList = PodList(items: seq<Pod>, continueToken: string)

  datatype JobCondition = JobCondition(condType: string)

  datatype Job = Job(namespace: string, name: string, conditions: seq<JobCondition>)

  /** Deletion propagation policy; the pruner only ever asks for Background. */
  datatype Propagation = Background | Foreground | Orphan

  /** The errors a listing returns. */
  datatype Error =
    | ContainerStatusesUnset                        // CONTAINER_STATUSES unset or empty
    | PodListFailed(namespace: string, cause: string)  // wrapped with the namespace
    | ApiError(cause: string)                       // returned unwrapped

  datatype Kind = Containers | Jobs

  /** The log lines of the pruner, without their formatting. */
  datatype Message =
    | EnvDefaulted(key: string, defaultValue: string)
    | UnexpectedContainerFormat(item: string, parts: seq<string>)
    | UnexpectedPodInfoFormat(podInfo: string)
    | PodDeleteFailed(podInfo: string, namespace: string, cause: string)
    | PodDeleted(podInfo: string, namespace: string)
    | JobsListFailed(cause: string)
    | InvalidJobFormat(jobs: seq<string>)
    | JobDeleteFailed(jobName: string, cause: string)
    | JobDeleted(jobName: string)
    | FetchFailed(kind: Kind, namespace: string, error: Error)
    | WouldDelete(kind: Kind, items: seq<string>)
    | ToPrune(kind: Kind, namespace: string, items: seq<string>)
    | NothingToPrune(kind: Kind, namespace: string)
    | InErrorState(namespace: string, items: seq<string>)

  /** What a listing returns (its error or its descriptors) and the events it produced. */
  datatype Listing = Listing(result: Result<seq<string>, Error>, events: seq<Event>)

  /** One observable effect: a request to the cluster API or a log line. */
  datatype Event =
    | ListPods(namespace: string, continueToken: string)
    | ListJobs(namespace: string)
    | DeletePod(namespace: string, name: string)
    | DeleteJob(namespace: string, name: string, policy: Propagation)
    | Log(message: Message)
  {
    predicate IsDelete() { DeletePod? || DeleteJob? }
    predicate IsPodRequest() { ListPods? || DeletePod? }
    predicate IsJobRequest() { ListJobs? || DeleteJob? }
  }

  /**
   * The cluster as the pruner observes it during one tick. `podPages(ns, t)`
   * answers a pod list request in namespace `ns` carrying continuation token
   * `t`; `jobLists(ns)` answers the (unpaginated) job list request;
   * `podDeleteError(ns, name, k)` and `jobDeleteError(ns, name, k)` say
   * whether the delete call for the `k`-th descriptor (from 0) of a batch
   * fails (Some(cause)) or succeeds (None): each call has its own answer, so
   * a second delete of an object the first one removed can fail. `listDeadline` is the
   * number of pod list requests that complete inside the 30-second context
   * of one pod listing: later requests fail with the context's error.
   */
  datatype Cluster = Cluster(
    podPages: (string, string) -> Result<PodList, string>,
    jobLists: string -> Result<seq<Job>, string>,
    podDeleteError: (string, string, nat) -> Option<string>,
    jobDeleteError: (string, string, nat) -> Option<string>,
    listDeadline: nat)

  const DeadlineExceeded: string := "context deadline exceeded"

  /**
   * The answer to the pod list request numbered `sent` (from 0) inside one
   * listing context.
   */
  function PodListWithin(c: Cluster, namespace: string, token: string, sent: nat): (r: Result<PodList, string>)
    ensures sent >= c.listDeadline ==> r == Failure(DeadlineExceeded)
    ensures sent < c.listDeadline ==> r == c.podPages(namespace, token)
  {
    if sent < c.listDeadline then c.podPages(namespace, token) else Failure(DeadlineExceeded)
  }

  /** The descriptor "namespace/name: detail" of fmt.Sprintf("%s/%s: %s", ...). */
  function Describe(namespace: string, name: string, detail: string): string {
    namespace + "/" + name + ": " + detail
  }

  /** The delete requests of a trace, in order. */
  function Deletes(events: seq<Event>): (r: seq<Event>)
    ensures forall e :: e in r ==> e in events && e.IsDelete()
    ensures r == [] <==> forall i :: 0 <= i < |events| ==> !events[i].IsDelete()
  {
    if events == [] then []
    else
      assert events == events[..|events| - 1] + [events[|events| - 1]];
      Deletes(events[..|events| - 1]) + (if events[|events| - 1].IsDelete() then [events[|events| - 1]] else [])
  }

  /** The delete requests of a trace are exactly its delete events. */
  lemma {:induction false} DeletesMembers(events: seq<Event>)
    ensures forall e :: e in Deletes(events) <==> e in events && e.IsDelete()
    decreases |events|
  {
    if events != [] {
      var init, x := events[..|events| - 1], events[|events| - 1];
      assert events == init + [x];
      DeletesMembers(init);
    }
  }

  lemma {:induction false} DeletesAppend(a: seq<Event>, b: seq<Event>)
    ensures Deletes(a + b) == Deletes(a) + Deletes(b)
    decreases |b|
  {
    if b == [] {
      assert a + b == a;
    } else {
      var b', x := b[..|b| - 1], b[|b| - 1];
      assert b == b' + [x];
      assert a + b == (a + b') + [x];
      DeletesAppend(a, b');
      DeletesSnoc(a, b', x);
    }
  }

  /** One more event at the end of `b` keeps `Deletes(a + b)` split at `a`. */
  lemma DeletesSnoc(a: seq<Event>, b: seq<Event>, x: Event)
    requires Deletes(a + b) == Deletes(a) + Deletes(b)
    ensures Deletes((a + b) + [x]) == Deletes(a) + Deletes(b + [x])
  {
    var s, t := (a + b) + [x], b + [x];
    var last := if x.IsDelete() then [x] else [];
    assert Deletes(s) == Deletes(a + b) + last by {
      assert s[..|s| - 1] == a + b && s[|s| - 1] == x;
    }
    assert Deletes(t) == Deletes(b) + last by {
      assert t[..|t| - 1] == b && t[|t| - 1] == x;
    }
    Associative(Deletes(a), Deletes(b), last);
  }

  lemma Associative<T>(p: seq<T>, q: seq<T>, r: seq<T>)
    ensures (p + q) + r == p + (q + r)
  {
  }

  /** The events of `pass` run over `namespaces`, one namespace after the other. */
  function Sequentially(pass: string -> seq<Event>, namespaces: seq<string>): seq<Event>
    decreases |namespaces|
  {
    if namespaces == [] then []
    else Sequentially(pass, namespaces[..|namespaces| - 1]) + pass(namespaces[|namespaces| - 1])
  }

  /** Running passes over `a + b` runs them over `a`, then over `b`. */
  lemma {:induction false} SequentiallyAppend(pass: string -> seq<Event>, a: seq<string>, b: seq<string>)
    ensures Sequentially(pass, a + b) == Sequentially(pass, a) + Sequentially(pass, b)
    decreases |b|
  {
    if b == [] {
      assert a + b == a;
    } else {
      assert (a + b)[..|a + b| - 1] == a + b[..|b| - 1];
      SequentiallyAppend(pass, a, b[..|b| - 1]);
    }
  }

  /** One more loop iteration appends the pass of the next namespace. */
  lemma SequentiallyStep(pass: string -> seq<Event>, namespaces: seq<string>, i: nat)
    requires i < |namespaces|
    ensures Sequentially(pass, namespaces[..i + 1]) == Sequentially(pass, namespaces[..i]) + pass(namespaces[i])
  {
    assert namespaces[..i + 1][..i] == namespaces[..i];
  }
}
