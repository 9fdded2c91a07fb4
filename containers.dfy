/**
 * pruner/internal/resources/containers.go: which container statuses match,
 * the paginated pod listing that collects "ns/pod: container" descriptors,
 * and the deletion of the pods those descriptors name.
 */
module Containers {
  import opened Wrappers
  import opened GoStrings
  import opened Utils
  import opened Kube

  /**
   * isContainerInState: the container waits or has terminated with a
   * reason from `statuses`. With neither state present, or with no
   * statuses, nothing matches.
   */
  function IsContainerInState(cs: ContainerStatus, statuses: seq<string>): (r: bool)
    ensures r <==> ((cs.state.waiting.Some? && Contains(statuses, cs.state.waiting.value))
                 || (cs.state.terminated.Some? && Contains(statuses, cs.state.terminated.value)))
    ensures cs.state.waiting.None? && cs.state.terminated.None? ==> !r
    ensures statuses == [] ==> !r
  {
    var statusSet := set s | s in statuses;
    (cs.state.waiting.Some? && cs.state.waiting.value in statusSet)
    || (cs.state.terminated.Some? && cs.state.terminated.value in statusSet)
  }

  /** The descriptors of the matching statuses among `css` (statuses of `pod`), in order. */
  function StatusEntries(pod: Pod, css: seq<ContainerStatus>, statuses: seq<string>): seq<string>
    decreases |css|
  {
    if css == [] then []
    else
      var cs := css[|css| - 1];
      StatusEntries(pod, css[..|css| - 1], statuses)
        + (if IsContainerInState(cs, statuses) then [Describe(pod.namespace, pod.name, cs.name)] else [])
  }

  /** The descriptors contributed by the pods of one page, in item order. */
  function Matches(pods: seq<Pod>, statuses: seq<string>): seq<string>
    decreases |pods|
  {
    if pods == [] then []
    else
      var pod := pods[|pods| - 1];
      Matches(pods[..|pods| - 1], statuses) + StatusEntries(pod, pod.containerStatuses, statuses)
  }

  /** Matching distributes over concatenation of pods: each page and item keeps its place. */
  lemma {:induction false} MatchesAppend(a: seq<Pod>, b: seq<Pod>, statuses: seq<string>)
    ensures Matches(a + b, statuses) == Matches(a, statuses) + Matches(b, statuses)
    decreases |b|
  {
    if b == [] {
      assert a + b == a;
    } else {
      var init := b[..|b| - 1];
      var pod := b[|b| - 1];
      var last := StatusEntries(pod, pod.containerStatuses, statuses);
      assert (a + b)[..|a + b| - 1] == a + init;
      assert (a + b)[|a + b| - 1] == pod;
      assert Matches(a + b, statuses) == Matches(a + init, statuses) + last;
      MatchesAppend(a, init, statuses);
      assert Matches(a, statuses) + Matches(init, statuses) + last == Matches(a, statuses) + (Matches(init, statuses) + last);
    }
  }

  /** A descriptor is listed exactly when some status of the pod matches and names it. */
  lemma {:induction false} StatusEntriesMembers(pod: Pod, css: seq<ContainerStatus>, statuses: seq<string>, d: string)
    ensures d in StatusEntries(pod, css, statuses) <==>
      exists j :: 0 <= j < |css| && IsContainerInState(css[j], statuses) && d == Describe(pod.namespace, pod.name, css[j].name)
    decreases |css|
  {
    if css != [] {
      var init := css[..|css| - 1];
      StatusEntriesMembers(pod, init, statuses, d);
      assert forall j :: 0 <= j < |init| ==> init[j] == css[j];
    }
  }

  /** Status `j` of pod `i` matches and `d` is its descriptor. */
  predicate Names(pods: seq<Pod>, statuses: seq<string>, d: string, i: int, j: int) {
    0 <= i < |pods| && 0 <= j < |pods[i].containerStatuses|
    && IsContainerInState(pods[i].containerStatuses[j], statuses)
    && d == Describe(pods[i].namespace, pods[i].name, pods[i].containerStatuses[j].name)
  }

  /** Every matching status of every pod yields its own descriptor, and nothing else is listed. */
  lemma {:induction false} MatchesMembers(pods: seq<Pod>, statuses: seq<string>, d: string)
    ensures d in Matches(pods, statuses) <==> exists i, j :: Names(pods, statuses, d, i, j)
    decreases |pods|
  {
    if pods != [] {
      var init := pods[..|pods| - 1];
      var pod := pods[|pods| - 1];
      MatchesMembers(init, statuses, d);
      if d in Matches(pods, statuses) {
        MatchesListed(pods, init, statuses, d);
      }
      if exists i, j :: Names(pods, statuses, d, i, j) {
        var i, j :| Names(pods, statuses, d, i, j);
        MatchesNamed(pods, init, statuses, d, i, j);
      }
    }
  }

  /** The step from `init` to `init + [pod]`: a listed descriptor is named by some status. */
  lemma MatchesListed(pods: seq<Pod>, init: seq<Pod>, statuses: seq<string>, d: string)
    requires pods != [] && init == pods[..|pods| - 1] && d in Matches(pods, statuses)
    requires d in Matches(init, statuses) ==> exists i, j :: Names(init, statuses, d, i, j)
    ensures exists i, j :: Names(pods, statuses, d, i, j)
  {
    var pod := pods[|pods| - 1];
    if d in Matches(init, statuses) {
      var i, j :| Names(init, statuses, d, i, j);
      assert Names(pods, statuses, d, i, j);
    } else {
      StatusEntriesMembers(pod, pod.containerStatuses, statuses, d);
      var j :| 0 <= j < |pod.containerStatuses| && IsContainerInState(pod.containerStatuses[j], statuses)
        && d == Describe(pod.namespace, pod.name, pod.containerStatuses[j].name);
      assert Names(pods, statuses, d, |pods| - 1, j);
    }
  }

  /** The step from `init` to `init + [pod]`: a named descriptor is listed. */
  lemma MatchesNamed(pods: seq<Pod>, init: seq<Pod>, statuses: seq<string>, d: string, i: int, j: int)
    requires pods != [] && init == pods[..|pods| - 1] && Names(pods, statuses, d, i, j)
    requires (exists i, j :: Names(init, statuses, d, i, j)) ==> d in Matches(init, statuses)
    ensures d in Matches(pods, statuses)
  {
    var pod := pods[|pods| - 1];
    if i < |init| {
      assert Names(init, statuses, d, i, j);
    } else {
      StatusEntriesMembers(pod, pod.containerStatuses, statuses, d);
      assert d in StatusEntries(pod, pod.containerStatuses, statuses);
    }
  }

  /** `found` placed before the descriptors of `rest`, after requests `sent`. */
  function After(found: seq<string>, calls: seq<Event>, rest: Listing): Listing {
    Listing(
      match rest.result
      case Success(more) => Success(found + more)
      case Failure(e) => Failure(e),
      calls + rest.events)
  }

  lemma AfterNothing(rest: Listing)
    ensures After([], [], rest) == rest
  {
    assert [] + rest.events == rest.events;
    if rest.result.Success? { assert [] + rest.result.value == rest.result.value; }
  }

  lemma AfterAfter(found: seq<string>, calls: seq<Event>, found': seq<string>, calls': seq<Event>, rest: Listing)
    ensures After(found, calls, After(found', calls', rest)) == After(found + found', calls + calls', rest)
  {
    assert calls + (calls' + rest.events) == (calls + calls') + rest.events;
    if rest.result.Success? {
      assert found + (found' + rest.result.value) == (found + found') + rest.result.value;
    }
  }

  /**
   * The rest of a pod listing in `namespace`, starting with the request that
   * carries `token` and is the `sent`-th of its context: a failed request
   * ends it with the wrapped error, dropping what earlier pages matched; a
   * page whose continuation token is "" ends it with all the matches. The
   * context's deadline bounds the number of requests.
   */
  function ListingFrom(c: Cluster, namespace: string, statuses: seq<string>, token: string, sent: nat): (r: Listing)
    ensures 1 <= |r.events| <= if sent < c.listDeadline then c.listDeadline - sent + 1 else 1
    ensures r.result.Failure? ==> r.result.error.PodListFailed? && r.result.error.namespace == namespace
    decreases c.listDeadline - sent
  {
    var call := ListPods(namespace, token);
    match PodListWithin(c, namespace, token, sent)
    case Failure(cause) => Listing(Failure(PodListFailed(namespace, cause)), [call])
    case Success(page) =>
      var found := Matches(page.items, statuses);
      if page.continueToken == "" then Listing(Success(found), [call])
      else After(found, [call], ListingFrom(c, namespace, statuses, page.continueToken, sent + 1))
  }

  /** The statuses list GetContainers reads from CONTAINER_STATUSES. */
  function ContainerStatuses(env: Env): seq<string> {
    Split(Getenv(env, "CONTAINER_STATUSES"), ",")
  }

  /** What GetContainers returns and requests. */
  function ListContainers(c: Cluster, env: Env, namespace: string): Listing {
    var statuses := ContainerStatuses(env);
    if |statuses| == 0 || (|statuses| == 1 && statuses[0] == "") then Listing(Failure(ContainerStatusesUnset), [])
    else ListingFrom(c, namespace, statuses, "", 0)
  }

  /** The loop over the items of one page: the descriptors of its matching statuses are appended to `containers`. */
  method AppendMatches(containers: seq<string>, items: seq<Pod>, statuses: seq<string>) returns (result: seq<string>)
    ensures result == containers + Matches(items, statuses)
  {
    result := containers;
    for i := 0 to |items|
      invariant result == containers + Matches(items[..i], statuses)
    {
      var pod := items[i];
      ghost var entries := StatusEntries(pod, pod.containerStatuses, statuses);
      assert items[..i + 1][..i] == items[..i] && items[..i + 1][i] == pod;
      assert Matches(items[..i + 1], statuses) == Matches(items[..i], statuses) + entries;
      result := AppendStatusEntries(result, pod, statuses);
      assert result == containers + (Matches(items[..i], statuses) + entries);
    }
    assert items[..|items|] == items;
  }

  /** The loop over the container statuses of `pod`: the descriptor of each matching one is appended to `found`. */
  method AppendStatusEntries(found: seq<string>, pod: Pod, statuses: seq<string>) returns (result: seq<string>)
    ensures result == found + StatusEntries(pod, pod.containerStatuses, statuses)
  {
    result := found;
    for j := 0 to |pod.containerStatuses|
      invariant result == found + StatusEntries(pod, pod.containerStatuses[..j], statuses)
    {
      var cs := pod.containerStatuses[j];
      assert pod.containerStatuses[..j + 1][..j] == pod.containerStatuses[..j];
      if IsContainerInState(cs, statuses) {
        result := result + [Describe(pod.namespace, pod.name, cs.name)];
      }
    }
    assert pod.containerStatuses[..|pod.containerStatuses|] == pod.containerStatuses;
  }

  /**
   * GetContainers: lists the pods of `namespace` page by page and collects
   * one descriptor per matching container status.
   */
  method GetContainers(c: Cluster, env: Env, namespace: string) returns (r: Result<seq<string>, Error>, calls: seq<Event>)
    ensures Listing(r, calls) == ListContainers(c, env, namespace)
  {
    var statuses := Split(Getenv(env, "CONTAINER_STATUSES"), ",");
    if |statuses| == 0 || (|statuses| == 1 && statuses[0] == "") {
      return Failure(ContainerStatusesUnset), [];
    }
    var containers: seq<string> := [];
    var continueToken := "";
    var sent: nat := 0;
    calls := [];
    AfterNothing(ListingFrom(c, namespace, statuses, continueToken, sent));
    while true
      invariant ListContainers(c, env, namespace) == After(containers, calls, ListingFrom(c, namespace, statuses, continueToken, sent))
      decreases c.listDeadline - sent
    {
      ghost var before, beforeCalls := containers, calls;
      var podList := PodListWithin(c, namespace, continueToken, sent);
      calls := calls + [ListPods(namespace, continueToken)];
      if podList.Failure? {
        return Failure(PodListFailed(namespace, podList.error)), calls;
      }
      var items := podList.value.items;
      containers := AppendMatches(containers, items, statuses);
      ghost var rest := ListingFrom(c, namespace, statuses, continueToken, sent);
      if podList.value.continueToken == "" {
        break;
      }
      ghost var next := ListingFrom(c, namespace, statuses, podList.value.continueToken, sent + 1);
      assert rest == After(Matches(items, statuses), [ListPods(namespace, continueToken)], next);
      AfterAfter(before, beforeCalls, Matches(items, statuses), [ListPods(namespace, continueToken)], next);
      continueToken := podList.value.continueToken;
      sent := sent + 1;
    }
    r := Success(containers);
  }

  /** The pods of the pages answered to `calls`, the `k`-th of them numbered `sent + k`. */
  function Visited(c: Cluster, namespace: string, calls: seq<Event>, sent: nat): seq<Pod>
    decreases |calls|
  {
    if calls == [] || !calls[0].ListPods? then []
    else
      var here := match PodListWithin(c, namespace, calls[0].continueToken, sent)
        case Success(page) => page.items
        case Failure(_) => [];
      here + Visited(c, namespace, calls[1..], sent + 1)
  }

  /** `request`, the `sent`-th of its context, got a page whose continuation token `next` carries. */
  predicate Continues(c: Cluster, namespace: string, request: Event, next: Event, sent: nat)
    requires request.ListPods? && next.ListPods?
  {
    var answer := PodListWithin(c, namespace, request.continueToken, sent);
    answer.Success? && answer.value.continueToken != "" && answer.value.continueToken == next.continueToken
  }

  /**
   * Pagination: the first request carries the starting token, each later
   * request carries the continuation token of the page before it (never ""),
   * and every request goes to `namespace`.
   */
  lemma {:induction false} ListingFollowsTokens(c: Cluster, namespace: string, statuses: seq<string>, token: string, sent: nat)
    ensures var l := ListingFrom(c, namespace, statuses, token, sent);
      && |l.events| >= 1
      && l.events[0] == ListPods(namespace, token)
      && (forall k :: 0 <= k < |l.events| ==> l.events[k].ListPods? && l.events[k].namespace == namespace)
      && (forall k :: 0 <= k < |l.events| - 1 ==> Continues(c, namespace, l.events[k], l.events[k + 1], sent + k))
    decreases c.listDeadline - sent
  {
    var l := ListingFrom(c, namespace, statuses, token, sent);
    var call := ListPods(namespace, token);
    match PodListWithin(c, namespace, token, sent)
    case Failure(cause) =>
    case Success(page) =>
      if page.continueToken != "" {
        var rest := ListingFrom(c, namespace, statuses, page.continueToken, sent + 1);
        ListingFollowsTokens(c, namespace, statuses, page.continueToken, sent + 1);
        assert l.events == [call] + rest.events;
        forall k | 0 <= k < |l.events| - 1
          ensures Continues(c, namespace, l.events[k], l.events[k + 1], sent + k)
        {
          if k > 0 {
            assert l.events[k] == rest.events[k - 1] && l.events[k + 1] == rest.events[k];
            assert sent + k == (sent + 1) + (k - 1);
          } else {
            assert l.events[0] == call && l.events[1] == rest.events[0];
          }
        }
      } else {
        assert l.events == [call];
      }
  }

  /**
   * The listing stops exactly at the first failed request, with the cause
   * wrapped with the namespace, or at the first page whose token is "",
   * with success.
   */
  lemma {:induction false} ListingStops(c: Cluster, namespace: string, statuses: seq<string>, token: string, sent: nat)
    ensures var l := ListingFrom(c, namespace, statuses, token, sent);
      && |l.events| >= 1 && l.events[|l.events| - 1].ListPods?
      && var last := PodListWithin(c, namespace, l.events[|l.events| - 1].continueToken, sent + |l.events| - 1);
        && (last.Failure? ==> l.result == Failure(PodListFailed(namespace, last.error)))
        && (last.Success? ==> last.value.continueToken == "" && l.result.Success?)
    decreases c.listDeadline - sent
  {
    var l := ListingFrom(c, namespace, statuses, token, sent);
    var call := ListPods(namespace, token);
    match PodListWithin(c, namespace, token, sent)
    case Failure(cause) =>
    case Success(page) =>
      if page.continueToken != "" {
        var rest := ListingFrom(c, namespace, statuses, page.continueToken, sent + 1);
        ListingStops(c, namespace, statuses, page.continueToken, sent + 1);
        assert l.events == [call] + rest.events;
        assert l.events[|l.events| - 1] == rest.events[|rest.events| - 1];
        assert sent + |l.events| - 1 == (sent + 1) + |rest.events| - 1;
      }
  }

  /** A successful listing returns the matches of all visited pages, in page and item order. */
  lemma {:induction false} ListingCollects(c: Cluster, namespace: string, statuses: seq<string>, token: string, sent: nat)
    ensures var l := ListingFrom(c, namespace, statuses, token, sent);
      l.result.Success? ==> l.result.value == Matches(Visited(c, namespace, l.events, sent), statuses)
    decreases c.listDeadline - sent
  {
    var l := ListingFrom(c, namespace, statuses, token, sent);
    var call := ListPods(namespace, token);
    match PodListWithin(c, namespace, token, sent)
    case Failure(cause) =>
    case Success(page) =>
      if page.continueToken == "" {
        assert l.events == [call] && l.events[1..] == [];
        assert Visited(c, namespace, l.events, sent) == page.items + Visited(c, namespace, [], sent + 1);
        assert page.items + [] == page.items;
      } else {
        var rest := ListingFrom(c, namespace, statuses, page.continueToken, sent + 1);
        ListingCollects(c, namespace, statuses, page.continueToken, sent + 1);
        assert l.events == [call] + rest.events && l.events[1..] == rest.events;
        assert Visited(c, namespace, l.events, sent) == page.items + Visited(c, namespace, rest.events, sent + 1);
        if l.result.Success? {
          MatchesAppend(page.items, Visited(c, namespace, rest.events, sent + 1), statuses);
        }
      }
  }

  /**
   * GetContainers fails with ContainerStatusesUnset, sending no request,
   * exactly when CONTAINER_STATUSES is unset or empty; every other failure
   * is a list error that names the namespace.
   */
  lemma ContainerStatusesGuard(c: Cluster, env: Env, namespace: string)
    ensures var l := ListContainers(c, env, namespace);
      && (l.result == Failure(ContainerStatusesUnset) <==> Getenv(env, "CONTAINER_STATUSES") == "")
      && (Getenv(env, "CONTAINER_STATUSES") == "" ==> l.events == [])
      && (Getenv(env, "CONTAINER_STATUSES") != "" && l.result.Failure? ==> l.result.error.PodListFailed? && l.result.error.namespace == namespace)
  {
    var v := Getenv(env, "CONTAINER_STATUSES");
    var statuses := ContainerStatuses(env);
    if v == "" {
      assert statuses == [""];
    } else {
      if |statuses| == 1 { SplitWhole(v, ","); }
      ListingStops(c, namespace, statuses, "", 0);
    }
  }

  /** The pod name DeleteContainers parses out of a descriptor; None when it skips it. */
  function ParsePodName(item: string): (r: Option<string>)
    ensures !Occurs(item, ": ") ==> r == None
  {
    var parts := Split(item, ": ");
    if |parts| != 2 then None
    else
      var podParts := Split(parts[0], "/");
      if |podParts| != 2 then None else Some(podParts[1])
  }

  /**
   * Round trip: a descriptor built from a namespace and a pod name without
   * '/' or ':' (as Kubernetes names are) and a container name without ": "
   * parses back to the pod name.
   */
  lemma PodDescriptorRoundTrip(namespace: string, pod: string, container: string)
    requires '/' !in namespace && ':' !in namespace && '/' !in pod && ':' !in pod
    requires !Occurs(container, ": ")
    ensures ParsePodName(Describe(namespace, pod, container)) == Some(pod)
  {
    var podInfo := namespace + "/" + pod;
    assert Describe(namespace, pod, container) == podInfo + ": " + container;
    assert ':' !in podInfo;
    SplitAfter(podInfo, ": ", container);
    SplitWhole(container, ": ");
    assert podInfo == namespace + "/" + pod;
    SplitAfter(namespace, "/", pod);
    SplitFree(pod, "/");
  }

  /**
   * The converse of the round trip: a descriptor DeleteContainers does not
   * skip is "ns/pod: container" for the parsed pod, with exactly one ": "
   * and exactly one '/' before it. A second ": " or '/' is skipped.
   */
  lemma ParsedPodShape(item: string)
    requires ParsePodName(item).Some?
    ensures var pod := ParsePodName(item).value;
      exists namespace, container :: item == Describe(namespace, pod, container)
        && !Occurs(namespace, "/") && !Occurs(pod, "/")
        && !Occurs(namespace + "/" + pod, ": ") && !Occurs(container, ": ")
  {
    var parts := Split(item, ": ");
    SplitTwo(item, ": ");
    var podParts := Split(parts[0], "/");
    SplitTwo(parts[0], "/");
    var namespace, pod, container := podParts[0], podParts[1], parts[1];
    assert pod == ParsePodName(item).value;
    assert item == Describe(namespace, pod, container);
  }

  /** The events DeleteContainers produces for one descriptor, the `attempt`-th of its batch. */
  function DeleteItemEvents(c: Cluster, namespace: string, item: string, attempt: nat): seq<Event> {
    match ParsePodName(item)
    case None => [Log(SkipMessage(item))]
    case Some(podName) =>
      var podInfo := Split(item, ": ")[0];
      [DeletePod(namespace, podName), PodDeleteOutcome(podInfo, namespace, c.podDeleteError(namespace, podName, attempt))]
  }

  /**
   * The warning for a descriptor DeleteContainers skips: the descriptor and
   * its pieces when it does not split in two at ": ", otherwise its pod info.
   */
  function SkipMessage(item: string): Message {
    var parts := Split(item, ": ");
    if |parts| != 2 then UnexpectedContainerFormat(item, parts) else UnexpectedPodInfoFormat(parts[0])
  }

  /** The log entry for the answer `err` to the delete of the pod `podInfo`. */
  function PodDeleteOutcome(podInfo: string, namespace: string, err: Option<string>): Event {
    if err.Some? then Log(PodDeleteFailed(podInfo, namespace, err.value)) else Log(PodDeleted(podInfo, namespace))
  }

  /** The events of DeleteContainers for a batch, item after item. */
  function DeleteContainersEvents(c: Cluster, namespace: string, items: seq<string>): seq<Event>
    decreases |items|
  {
    if items == [] then []
    else DeleteContainersEvents(c, namespace, items[..|items| - 1]) + DeleteItemEvents(c, namespace, items[|items| - 1], |items| - 1)
  }

  /**
   * DeleteContainers: one delete request per well-formed descriptor, in the
   * namespace passed in; malformed descriptors and failed deletes are logged
   * and the loop goes on.
   */
  method DeleteContainers(c: Cluster, namespace: string, containers: seq<string>) returns (events: seq<Event>)
    ensures events == DeleteContainersEvents(c, namespace, containers)
  {
    events := [];
    for i := 0 to |containers|
      invariant events == DeleteContainersEvents(c, namespace, containers[..i])
    {
      assert containers[..i + 1][..i] == containers[..i];
      var itemEvents := DeleteContainer(c, namespace, containers[i], i);
      events := events + itemEvents;
    }
    assert containers[..|containers|] == containers;
  }

  /**
   * One pass of DeleteContainers' loop: a malformed descriptor is logged and
   * skipped (the source's `continue`); otherwise the pod is deleted and the
   * outcome logged.
   */
  method DeleteContainer(c: Cluster, namespace: string, container: string, attempt: nat) returns (events: seq<Event>)
    ensures events == DeleteItemEvents(c, namespace, container, attempt)
  {
    var parts := Split(container, ": ");
    if |parts| != 2 {
      return [Log(UnexpectedContainerFormat(container, parts))];
    }
    var podInfo := parts[0];
    var podParts := Split(podInfo, "/");
    if |podParts| != 2 {
      return [Log(UnexpectedPodInfoFormat(podInfo))];
    }
    var podName := podParts[1];
    events := [DeletePod(namespace, podName)];
    var err := c.podDeleteError(namespace, podName, attempt);
    if err.Some? {
      events := events + [Log(PodDeleteFailed(podInfo, namespace, err.value))];
    } else {
      events := events + [Log(PodDeleted(podInfo, namespace))];
    }
  }

  /** The delete requests a batch calls for: one per parsable descriptor, in order. */
  function PodDeletes(namespace: string, items: seq<string>): seq<Event>
    decreases |items|
  {
    if items == [] then []
    else
      PodDeletes(namespace, items[..|items| - 1])
        + match ParsePodName(items[|items| - 1])
          case Some(name) => [DeletePod(namespace, name)]
          case None => []
  }

  /** The delete requests of one descriptor: the parsed pod in `namespace`, or none. */
  lemma DeleteItemRequests(c: Cluster, namespace: string, item: string, attempt: nat)
    ensures Deletes(DeleteItemEvents(c, namespace, item, attempt)) ==
      match ParsePodName(item)
      case Some(name) => [DeletePod(namespace, name)]
      case None => []
  {
    var ev := DeleteItemEvents(c, namespace, item, attempt);
    if ParsePodName(item).Some? {
      assert |ev| == 2 && ev[..1] == [ev[0]];
      assert Deletes(ev[..1]) == Deletes([]) + [ev[0]];
    } else {
      assert |ev| == 1 && ev[..0] == [];
    }
  }

  /**
   * Failure isolation: the delete requests of DeleteContainers are those
   * its descriptors call for, whatever the outcome oracle answers, so a
   * failed delete or a malformed descriptor never stops the others.
   */
  lemma {:induction false} DeleteContainersRequests(c: Cluster, namespace: string, items: seq<string>)
    ensures Deletes(DeleteContainersEvents(c, namespace, items)) == PodDeletes(namespace, items)
    decreases |items|
  {
    if items != [] {
      var init := items[..|items| - 1];
      var item := items[|items| - 1];
      var last := DeleteItemEvents(c, namespace, item, |init|);
      assert DeleteContainersEvents(c, namespace, items) == DeleteContainersEvents(c, namespace, init) + last;
      DeleteContainersRequests(c, namespace, init);
      DeletesAppend(DeleteContainersEvents(c, namespace, init), last);
      DeleteItemRequests(c, namespace, item, |init|);
    }
  }

  /**
   * A pod listed with two matching containers is deleted twice, and each
   * call gets its own answer: when the first call removes the pod, the
   * second can fail and be logged as a failure.
   */
  lemma RepeatedPodDeletes(c: Cluster, namespace: string, pod: string, first: string, second: string)
    requires '/' !in namespace && ':' !in namespace && '/' !in pod && ':' !in pod
    requires !Occurs(first, ": ") && !Occurs(second, ": ")
    ensures var items := [Describe(namespace, pod, first), Describe(namespace, pod, second)];
      var podInfo := namespace + "/" + pod;
      DeleteContainersEvents(c, namespace, items) ==
        [DeletePod(namespace, pod), PodDeleteOutcome(podInfo, namespace, c.podDeleteError(namespace, pod, 0)),
         DeletePod(namespace, pod), PodDeleteOutcome(podInfo, namespace, c.podDeleteError(namespace, pod, 1))]
  {
    ParsedPodEvents(c, namespace, pod, first, 0);
    ParsedPodEvents(c, namespace, pod, second, 1);
    TwoItemsEvents(c, namespace, Describe(namespace, pod, first), Describe(namespace, pod, second));
  }

  /** The events of one well-formed descriptor of `pod` in `namespace`. */
  lemma ParsedPodEvents(c: Cluster, namespace: string, pod: string, container: string, attempt: nat)
    requires '/' !in namespace && ':' !in namespace && '/' !in pod && ':' !in pod
    requires !Occurs(container, ": ")
    ensures DeleteItemEvents(c, namespace, Describe(namespace, pod, container), attempt) ==
      [DeletePod(namespace, pod), PodDeleteOutcome(namespace + "/" + pod, namespace, c.podDeleteError(namespace, pod, attempt))]
  {
    var podInfo := namespace + "/" + pod;
    assert Describe(namespace, pod, container) == podInfo + ": " + container;
    assert ':' !in podInfo;
    SplitAfter(podInfo, ": ", container);
    SplitWhole(container, ": ");
    SplitAfter(namespace, "/", pod);
    SplitFree(pod, "/");
  }

  lemma TwoItemsEvents(c: Cluster, namespace: string, d1: string, d2: string)
    ensures DeleteContainersEvents(c, namespace, [d1, d2]) ==
      DeleteItemEvents(c, namespace, d1, 0) + DeleteItemEvents(c, namespace, d2, 1)
  {
    var items := [d1, d2];
    var first := DeleteItemEvents(c, namespace, items[0], 0);
    assert items[..1][..0] == [] && items[..1][0] == items[0];
    assert DeleteContainersEvents(c, namespace, items[..1]) == [] + first == first;
    assert items[..|items| - 1] == items[..1];
  }
}
