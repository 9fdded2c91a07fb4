/**
 * pruner.go: the older single-file pruner. Its tick lists the pods of each
 * namespace in one unpaginated request and only logs the containers in a
 * configured state; it never deletes.
 */
module Legacy {
  import opened Wrappers
  import opened GoStrings
  import Utils
  import opened Kube
  import opened Containers

  /** contains: a linear search that returns as soon as it meets `str`. */
  method Contains(list: seq<string>, str: string) returns (found: bool)
    ensures found <==> exists i :: 0 <= i < |list| && list[i] == str
    ensures found == Utils.Contains(list, str)
  {
    for i := 0 to |list|
      invariant forall k :: 0 <= k < i ==> list[k] != str
    {
      if list[i] == str {
        return true;
      }
    }
    return false;
  }

  /**
   * The descriptors getcontainersState emits for one container status of
   * `pod`: one when the waiting reason is accepted, or else the terminated
   * reason is; none otherwise.
   */
  function StatusEntry(pod: Pod, cs: ContainerStatus, statuses: seq<string>): (r: seq<string>)
    ensures |r| <= 1
    ensures |r| == 1 <==> IsContainerInState(cs, statuses)
    ensures r != [] ==> r == [Describe(pod.namespace, pod.name, cs.name)]
  {
    if cs.state.waiting.Some? && Utils.Contains(statuses, cs.state.waiting.value) then
      [Describe(pod.namespace, pod.name, cs.name)]
    else if cs.state.terminated.Some? && Utils.Contains(statuses, cs.state.terminated.value) then
      [Describe(pod.namespace, pod.name, cs.name)]
    else []
  }

  /** The descriptors of the statuses `css` of `pod`, in order. */
  function StateEntries(pod: Pod, css: seq<ContainerStatus>, statuses: seq<string>): seq<string>
    decreases |css|
  {
    if css == [] then []
    else StateEntries(pod, css[..|css| - 1], statuses) + StatusEntry(pod, css[|css| - 1], statuses)
  }

  /** The descriptors of a pod list, pod after pod. */
  function StateMatches(pods: seq<Pod>, statuses: seq<string>): seq<string>
    decreases |pods|
  {
    if pods == [] then []
    else
      var pod := pods[|pods| - 1];
      StateMatches(pods[..|pods| - 1], statuses) + StateEntries(pod, pod.containerStatuses, statuses)
  }

  /** The legacy matching selects the same statuses as isContainerInState, in the same order. */
  lemma {:induction false} StateEntriesAgree(pod: Pod, css: seq<ContainerStatus>, statuses: seq<string>)
    ensures StateEntries(pod, css, statuses) == StatusEntries(pod, css, statuses)
    decreases |css|
  {
    if css != [] {
      StateEntriesAgree(pod, css[..|css| - 1], statuses);
    }
  }

  /** Over a whole pod list the two matchings list the same descriptors, in the same order. */
  lemma {:induction false} StateMatchesAgree(pods: seq<Pod>, statuses: seq<string>)
    ensures StateMatches(pods, statuses) == Matches(pods, statuses)
    decreases |pods|
  {
    if pods != [] {
      var pod := pods[|pods| - 1];
      StateMatchesAgree(pods[..|pods| - 1], statuses);
      StateEntriesAgree(pod, pod.containerStatuses, statuses);
    }
  }

  /**
   * What getcontainersState returns and requests: exactly one list request
   * with no continuation; its error is returned unwrapped; otherwise the
   * descriptors of the first page, whatever its continuation token says.
   */
  function StateListing(c: Cluster, env: Utils.Env, namespace: string): Listing {
    var call := ListPods(namespace, "");
    match c.podPages(namespace, "")
    case Failure(cause) => Listing(Failure(ApiError(cause)), [call])
    case Success(page) => Listing(Success(StateMatches(page.items, ContainerStatuses(env))), [call])
  }

  /** The loop over the pods of the page: the descriptors of their matching statuses are appended to `found`. */
  method AppendStateMatches(found: seq<string>, items: seq<Pod>, statuses: seq<string>) returns (result: seq<string>)
    ensures result == found + StateMatches(items, statuses)
  {
    result := found;
    for i := 0 to |items|
      invariant result == found + StateMatches(items[..i], statuses)
    {
      var pod := items[i];
      ghost var entries := StateEntries(pod, pod.containerStatuses, statuses);
      assert items[..i + 1][..i] == items[..i] && items[..i + 1][i] == pod;
      assert StateMatches(items[..i + 1], statuses) == StateMatches(items[..i], statuses) + entries;
      result := AppendStateEntries(result, pod, statuses);
      assert result == found + (StateMatches(items[..i], statuses) + entries);
    }
    assert items[..|items|] == items;
  }

  /** The loop over the container statuses of `pod`: the descriptor of each matching one is appended to `found`. */
  method AppendStateEntries(found: seq<string>, pod: Pod, statuses: seq<string>) returns (result: seq<string>)
    ensures result == found + StateEntries(pod, pod.containerStatuses, statuses)
  {
    result := found;
    for j := 0 to |pod.containerStatuses|
      invariant result == found + StateEntries(pod, pod.containerStatuses[..j], statuses)
    {
      assert pod.containerStatuses[..j + 1][..j] == pod.containerStatuses[..j];
      var entry := CheckState(pod, pod.containerStatuses[j], statuses);
      result := result + entry;
    }
    assert pod.containerStatuses[..|pod.containerStatuses|] == pod.containerStatuses;
  }

  /**
   * The body of the inner loop: the descriptor when the waiting reason is
   * accepted, else when the terminated reason is; each reason is looked up
   * only when its state is set.
   */
  method CheckState(pod: Pod, containerStatus: ContainerStatus, statuses: seq<string>) returns (entry: seq<string>)
    ensures entry == StatusEntry(pod, containerStatus, statuses)
  {
    entry := [];
    var waiting := false;
    if containerStatus.state.waiting.Some? {
      waiting := Contains(statuses, containerStatus.state.waiting.value);
    }
    if waiting {
      entry := [Describe(pod.namespace, pod.name, containerStatus.name)];
    } else if containerStatus.state.terminated.Some? {
      var terminated := Contains(statuses, containerStatus.state.terminated.value);
      if terminated {
        entry := [Describe(pod.namespace, pod.name, containerStatus.name)];
      }
    }
  }

  /** getcontainersState. */
  method GetContainersState(c: Cluster, env: Utils.Env, namespace: string) returns (r: Result<seq<string>, Error>, events: seq<Event>)
    ensures Listing(r, events) == StateListing(c, env, namespace)
  {
    var statuses := Split(Utils.Getenv(env, "CONTAINER_STATUSES"), ",");
    var pods := c.podPages(namespace, "");
    events := [ListPods(namespace, "")];
    if pods.Failure? {
      return Failure(ApiError(pods.error)), events;
    }
    var containersState := AppendStateMatches([], pods.value.items, statuses);
    assert containersState == StateMatches(pods.value.items, statuses);
    r := Success(containersState);
  }

  /**
   * No configuration guard: with CONTAINER_STATUSES unset the statuses are
   * [""], and the single list request is sent anyway; only a status whose
   * reason is empty can then match.
   */
  lemma UnsetStatusesStillList(c: Cluster, env: Utils.Env, namespace: string)
    requires "CONTAINER_STATUSES" !in env
    ensures ContainerStatuses(env) == [""]
    ensures StateListing(c, env, namespace).events == [ListPods(namespace, "")]
    ensures forall cs: ContainerStatus ::
      IsContainerInState(cs, ContainerStatuses(env)) <==>
        (cs.state.waiting.Some? && cs.state.waiting.value == "") || (cs.state.terminated.Some? && cs.state.terminated.value == "")
  {
    SplitFree("", ",");
    assert ContainerStatuses(env) == [""];
  }

  /** One pass of the legacy namespace loop: the listing, then its error or its descriptors logged. */
  function NamespaceLog(c: Cluster, env: Utils.Env, namespace: string): seq<Event> {
    var l := StateListing(c, env, namespace);
    l.events
      + match l.result
        case Failure(e) => [Log(FetchFailed(Containers, namespace, e))]
        case Success(items) => [Log(InErrorState(namespace, items))]
  }

  /** The passes of a legacy tick, as a function of the namespace. */
  function LogPass(c: Cluster, env: Utils.Env): string -> seq<Event> {
    namespace => NamespaceLog(c, env, namespace)
  }

  /** One tick of the legacy ticker loop, given a working client `c`. */
  method Tick(c: Cluster, env: Utils.Env, namespaces: seq<string>) returns (events: seq<Event>)
    ensures events == Sequentially(LogPass(c, env), namespaces)
  {
    events := [];
    for i := 0 to |namespaces|
      invariant events == Sequentially(LogPass(c, env), namespaces[..i])
    {
      var namespace := namespaces[i];
      SequentiallyStep(LogPass(c, env), namespaces, i);
      ghost var expected := events + NamespaceLog(c, env, namespace);
      assert Sequentially(LogPass(c, env), namespaces[..i + 1]) == expected;
      var containersState, calls := GetContainersState(c, env, namespace);
      NamespaceLogStep(c, env, namespace, containersState, calls);
      events := events + calls;
      if containersState.Failure? {
        events := events + [Log(FetchFailed(Containers, namespace, containersState.error))];
        continue;
      }
      events := events + [Log(InErrorState(namespace, containersState.value))];
    }
    assert namespaces[..|namespaces|] == namespaces;
  }

  /** A legacy pass, given what its listing returned and requested. */
  lemma NamespaceLogStep(c: Cluster, env: Utils.Env, namespace: string, r: Result<seq<string>, Error>, calls: seq<Event>)
    requires Listing(r, calls) == StateListing(c, env, namespace)
    ensures r.Failure? ==> NamespaceLog(c, env, namespace) == calls + [Log(FetchFailed(Containers, namespace, r.error))]
    ensures r.Success? ==> NamespaceLog(c, env, namespace) == calls + [Log(InErrorState(namespace, r.value))]
  {
  }

  /** The legacy tick only logs: it lists each namespace once, in order, and never deletes. */
  lemma {:induction false} TickNeverDeletes(c: Cluster, env: Utils.Env, namespaces: seq<string>)
    ensures Deletes(Sequentially(LogPass(c, env), namespaces)) == []
    ensures |Sequentially(LogPass(c, env), namespaces)| == 2 * |namespaces|
    decreases |namespaces|
  {
    if namespaces != [] {
      var init := namespaces[..|namespaces| - 1];
      var namespace := namespaces[|namespaces| - 1];
      TickNeverDeletes(c, env, init);
      NamespaceLogShape(c, env, namespace);
      DeletesAppend(Sequentially(LogPass(c, env), init), NamespaceLog(c, env, namespace));
    }
  }

  /** A legacy pass is one list request and one log line. */
  lemma NamespaceLogShape(c: Cluster, env: Utils.Env, namespace: string)
    ensures var pass := NamespaceLog(c, env, namespace);
      |pass| == 2 && pass[0] == ListPods(namespace, "") && pass[1].Log? && Deletes(pass) == []
  {
    var l := StateListing(c, env, namespace);
    var line := match l.result
      case Failure(e) => Log(FetchFailed(Containers, namespace, e))
      case Success(items) => Log(InErrorState(namespace, items));
    assert l.events == [ListPods(namespace, "")];
    assert NamespaceLog(c, env, namespace) == [ListPods(namespace, ""), line];
    var pass := [ListPods(namespace, ""), line];
    assert forall i :: 0 <= i < |pass| ==> !pass[i].IsDelete();
  }

  /** How a legacy tick ends: it completes with its events, or a nil dereference panics it after `events`. */
  datatype TickOutcome = Completed(events: seq<Event>) | Panicked(events: seq<Event>)

  /**
   * The legacy tick run with `client`, where None stands for a nil
   * clientset: the first List call through a nil clientset panics, before
   * any request is sent or anything is logged.
   */
  function TickWith(client: Option<Cluster>, env: Utils.Env, namespaces: seq<string>): (r: TickOutcome)
    ensures client.Some? ==> r.Completed?
    ensures r.Panicked? ==> client.None? && namespaces != []
    decreases |namespaces|
  {
    if namespaces == [] then Completed([])
    else
      match TickWith(client, env, namespaces[..|namespaces| - 1])
      case Panicked(e) => Panicked(e)
      case Completed(e) =>
        match client
        case None => Panicked(e)
        case Some(c) => Completed(e + NamespaceLog(c, env, namespaces[|namespaces| - 1]))
  }

  /**
   * As written, main passes getcontainersState the variable `clientset`,
   * which it declares and never assigns (the client it builds and checks is
   * `clientSet`): every tick over a non-empty namespace list panics at once.
   */
  lemma {:induction false} NilClientPanics(env: Utils.Env, namespaces: seq<string>)
    requires namespaces != []
    ensures TickWith(None, env, namespaces) == Panicked([])
    decreases |namespaces|
  {
    if |namespaces| > 1 {
      NilClientPanics(env, namespaces[..|namespaces| - 1]);
    }
  }

  /** NAMESPACES always splits into at least one namespace, so the first tick of the legacy main panics. */
  lemma FirstTickPanics(env: Utils.Env)
    ensures TickWith(None, env, Split(Utils.Getenv(env, "NAMESPACES"), ",")) == Panicked([])
  {
    NilClientPanics(env, Split(Utils.Getenv(env, "NAMESPACES"), ","));
  }

  /** With the client main builds, the tick completes with the events of Tick. */
  lemma {:induction false} BuiltClientCompletes(c: Cluster, env: Utils.Env, namespaces: seq<string>)
    ensures TickWith(Some(c), env, namespaces) == Completed(Sequentially(LogPass(c, env), namespaces))
    decreases |namespaces|
  {
    if namespaces != [] {
      BuiltClientCompletes(c, env, namespaces[..|namespaces| - 1]);
    }
  }
}
