/**
 * pruner/internal/resources/jobs.go: the single job listing that yields one
 * "ns/job: Type" descriptor per accepted condition, and the deletion of the
 * jobs those descriptors name with background propagation.
 */
module Jobs {
  import opened Wrappers
  import opened GoStrings
  import opened Utils
  import opened Kube

  /**
   * The accepted condition types: JOB_STATUSES trimmed and split on ",",
   * and the single type "Complete" when it is unset.
   */
  function JobStatuses(env: Env): seq<string> {
    if "JOB_STATUSES" in env then Split(TrimSpace(env["JOB_STATUSES"]), ",") else ["Complete"]
  }

  /** Unset JOB_STATUSES reads as "Complete", which trimming and splitting leave as one type. */
  lemma JobStatusesDefault()
    ensures Split(TrimSpace("Complete"), ",") == ["Complete"]
  {
    assert Trimmed("Complete");
    SplitFree("Complete", ",");
  }

  /** JobStatuses is what GetJobs reads: GetEnv with default "Complete", trimmed, split on ",". */
  lemma JobStatusesAsRead(env: Env)
    ensures JobStatuses(env) == Split(TrimSpace(GetEnv(env, "JOB_STATUSES", "Complete")), ",")
  {
    if "JOB_STATUSES" in env {
      assert GetEnv(env, "JOB_STATUSES", "Complete") == env["JOB_STATUSES"];
    } else {
      JobStatusesDefault();
    }
  }

  /** The descriptors of the accepted conditions among `conds` (conditions of `job`), in order. */
  function ConditionEntries(job: Job, conds: seq<JobCondition>, statuses: seq<string>): seq<string>
    decreases |conds|
  {
    if conds == [] then []
    else
      var cond := conds[|conds| - 1];
      ConditionEntries(job, conds[..|conds| - 1], statuses)
        + (if Contains(statuses, cond.condType) then [Describe(job.namespace, job.name, cond.condType)] else [])
  }

  /** The descriptors of a job list, job after job. */
  function JobMatches(jobs: seq<Job>, statuses: seq<string>): seq<string>
    decreases |jobs|
  {
    if jobs == [] then []
    else
      var job := jobs[|jobs| - 1];
      JobMatches(jobs[..|jobs| - 1], statuses) + ConditionEntries(job, job.conditions, statuses)
  }

  /** The number of conditions among `conds` whose type is accepted. */
  function CountAccepted(conds: seq<JobCondition>, statuses: seq<string>): nat
    decreases |conds|
  {
    if conds == [] then 0
    else (if Contains(statuses, conds[0].condType) then 1 else 0) + CountAccepted(conds[1..], statuses)
  }

  lemma {:induction false} CountAcceptedAppend(a: seq<JobCondition>, b: seq<JobCondition>, statuses: seq<string>)
    ensures CountAccepted(a + b, statuses) == CountAccepted(a, statuses) + CountAccepted(b, statuses)
    decreases |a|
  {
    if a == [] {
      assert a + b == b;
    } else {
      assert (a + b)[1..] == a[1..] + b;
      CountAcceptedAppend(a[1..], b, statuses);
    }
  }

  /**
   * Duplication: a job with K accepted conditions yields exactly K
   * descriptors, each "ns/job: Type" of its own job with an accepted type.
   */
  lemma {:induction false} ConditionEntriesCount(job: Job, conds: seq<JobCondition>, statuses: seq<string>)
    ensures var e := ConditionEntries(job, conds, statuses);
      && |e| == CountAccepted(conds, statuses)
      && forall d :: d in e <==> exists j :: 0 <= j < |conds| && Contains(statuses, conds[j].condType)
                                           && d == Describe(job.namespace, job.name, conds[j].condType)
    decreases |conds|
  {
    if conds != [] {
      var init := conds[..|conds| - 1];
      var cond := conds[|conds| - 1];
      ConditionEntriesCount(job, init, statuses);
      assert conds == init + [cond];
      CountAcceptedAppend(init, [cond], statuses);
      assert [cond][1..] == [];
      assert forall j :: 0 <= j < |init| ==> init[j] == conds[j];
    }
  }

  /** Job matching distributes over concatenation: list order is kept. */
  lemma {:induction false} JobMatchesAppend(a: seq<Job>, b: seq<Job>, statuses: seq<string>)
    ensures JobMatches(a + b, statuses) == JobMatches(a, statuses) + JobMatches(b, statuses)
    decreases |b|
  {
    if b == [] {
      assert a + b == a;
    } else {
      var init := b[..|b| - 1];
      var job := b[|b| - 1];
      var last := ConditionEntries(job, job.conditions, statuses);
      assert (a + b)[..|a + b| - 1] == a + init;
      assert (a + b)[|a + b| - 1] == job;
      assert JobMatches(a + b, statuses) == JobMatches(a + init, statuses) + last;
      JobMatchesAppend(a, init, statuses);
      assert JobMatches(a, statuses) + JobMatches(init, statuses) + last == JobMatches(a, statuses) + (JobMatches(init, statuses) + last);
    }
  }

  /** The log line GetEnv writes when JOB_STATUSES is unset. */
  function StatusesWarning(env: Env): seq<Event> {
    if "JOB_STATUSES" in env then [] else [Log(EnvDefaulted("JOB_STATUSES", "Complete"))]
  }

  /**
   * What GetJobs returns and logs: one list request without continuation;
   * its error is logged and returned unwrapped, with no descriptors.
   */
  function ListJobsOutcome(c: Cluster, env: Env, namespace: string): Listing {
    var statuses := JobStatuses(env);
    match c.jobLists(namespace)
    case Failure(cause) =>
      Listing(Failure(ApiError(cause)), StatusesWarning(env) + [ListJobs(namespace), Log(JobsListFailed(cause))])
    case Success(jobs) =>
      Listing(Success(JobMatches(jobs, statuses)), StatusesWarning(env) + [ListJobs(namespace)])
  }

  /** The loop over the listed jobs: one descriptor per accepted condition is appended to `found`. */
  method AppendJobMatches(found: seq<string>, items: seq<Job>, statuses: seq<string>) returns (result: seq<string>)
    ensures result == found + JobMatches(items, statuses)
  {
    result := found;
    for i := 0 to |items|
      invariant result == found + JobMatches(items[..i], statuses)
    {
      var job := items[i];
      ghost var entries := ConditionEntries(job, job.conditions, statuses);
      assert items[..i + 1][..i] == items[..i] && items[..i + 1][i] == job;
      assert JobMatches(items[..i + 1], statuses) == JobMatches(items[..i], statuses) + entries;
      result := AppendConditionEntries(result, job, statuses);
      assert result == found + (JobMatches(items[..i], statuses) + entries);
    }
    assert items[..|items|] == items;
  }

  /** The loop over the conditions of `job`: the descriptor of each accepted one is appended to `found`. */
  method AppendConditionEntries(found: seq<string>, job: Job, statuses: seq<string>) returns (result: seq<string>)
    ensures result == found + ConditionEntries(job, job.conditions, statuses)
  {
    result := found;
    for j := 0 to |job.conditions|
      invariant result == found + ConditionEntries(job, job.conditions[..j], statuses)
    {
      var jobStatus := job.conditions[j];
      assert job.conditions[..j + 1][..j] == job.conditions[..j];
      if Contains(statuses, jobStatus.condType) {
        result := result + [Describe(job.namespace, job.name, jobStatus.condType)];
      }
    }
    assert job.conditions[..|job.conditions|] == job.conditions;
  }

  /** GetJobs: lists the jobs of `namespace` and collects one descriptor per accepted condition. */
  method GetJobs(c: Cluster, env: Env, namespace: string) returns (r: Result<seq<string>, Error>, events: seq<Event>)
    ensures Listing(r, events) == ListJobsOutcome(c, env, namespace)
  {
    events := StatusesWarning(env);
    var statuses := JobStatuses(env);
    var jobs := c.jobLists(namespace);
    events := events + [ListJobs(namespace)];
    if jobs.Failure? {
      events := events + [Log(JobsListFailed(jobs.error))];
      return Failure(ApiError(jobs.error)), events;
    }
    var jobsList := AppendJobMatches([], jobs.value, statuses);
    assert jobsList == JobMatches(jobs.value, statuses);
    r := Success(jobsList);
  }

  /**
   * The job name DeleteJobs parses out of a descriptor: the trimmed text
   * after the only '/' and before the first ':' after it; None when the
   * descriptor does not have exactly one '/'. A parsed name is trimmed.
   */
  function ParseJobName(item: string): (r: Option<string>)
    ensures !Occurs(item, "/") ==> r == None
    ensures r.Some? ==> Trimmed(r.value)
  {
    var jobParts := Split(item, "/");
    if |jobParts| != 2 then None else Some(TrimSpace(Split(jobParts[1], ":")[0]))
  }

  /**
   * Round trip: a descriptor built from a namespace without '/', a job name
   * without '/' or ':' and without surrounding white space, and a condition
   * type without '/' parses back to the job name.
   */
  lemma JobDescriptorRoundTrip(namespace: string, name: string, condType: string)
    requires '/' !in namespace && '/' !in name && ':' !in name
    requires Trimmed(name) && '/' !in condType
    ensures ParseJobName(Describe(namespace, name, condType)) == Some(name)
  {
    DescriptorParts(namespace, name, condType);
    NameBeforeColon(name, condType);
    assert TrimSpace(name) == name;
  }

  /**
   * The converse of the round trip: a descriptor DeleteJobs does not skip
   * has exactly one '/', and the job name is the trimmed text after it up to
   * the first ':' (or its end). A second '/' is skipped.
   */
  lemma ParsedJobShape(item: string)
    requires ParseJobName(item).Some?
    ensures exists namespace, rest ::
      item == namespace + "/" + rest && !Occurs(namespace, "/") && !Occurs(rest, "/")
      && FirstField(rest, ":", ParseJobName(item).value)
  {
    var jobParts := Split(item, "/");
    SplitTwo(item, "/");
    var namespace, rest := jobParts[0], jobParts[1];
    var name := ParseJobName(item).value;
    assert name == TrimSpace(Split(rest, ":")[0]);
    SplitHead(rest, ":");
    assert FirstField(rest, ":", name);
    assert item == namespace + "/" + rest;
  }

  /** `name` is the trimmed text of `s` before the first `sep`, or of all of `s` when there is none. */
  predicate FirstField(s: string, sep: string, name: string)
    requires sep != []
  {
    var head := Split(s, sep)[0];
    && head <= s && !Occurs(head, sep) && (head == s || At(s, sep, |head|))
    && name == TrimSpace(head)
  }

  /** The descriptor splits at its only '/' into the namespace and the rest. */
  lemma DescriptorParts(namespace: string, name: string, condType: string)
    requires '/' !in namespace && '/' !in name && '/' !in condType
    ensures Split(Describe(namespace, name, condType), "/") == [namespace, name + ": " + condType]
  {
    var tail := name + ": " + condType;
    assert Describe(namespace, name, condType) == namespace + "/" + tail by {
      assert namespace + "/" + name + ": " + condType == namespace + "/" + (name + ": " + condType);
    }
    SplitAfter(namespace, "/", tail);
    NoSlashInTail(name, condType);
    SplitFree(tail, "/");
    assert [namespace] + [tail] == [namespace, tail];
  }

  lemma NameBeforeColon(name: string, condType: string)
    requires ':' !in name
    ensures Split(name + ": " + condType, ":")[0] == name
  {
    assert name + ": " + condType == name + ":" + (" " + condType);
    SplitAfter(name, ":", " " + condType);
  }

  lemma NoSlashInTail(name: string, condType: string)
    requires '/' !in name && '/' !in condType
    ensures '/' !in name + ": " + condType
  {
    var tail := name + ": " + condType;
    forall k | 0 <= k < |tail| ensures tail[k] != '/' {
      if k < |name| { assert tail[k] == name[k]; }
      else if k >= |name| + 2 { assert tail[k] == condType[k - |name| - 2]; }
    }
  }

  /** The events DeleteJobs produces for one descriptor of the batch `jobs`, the `attempt`-th of it. */
  function DeleteJobEvents(c: Cluster, namespace: string, jobs: seq<string>, job: string, attempt: nat): seq<Event> {
    match ParseJobName(job)
    case None => [Log(InvalidJobFormat(jobs))]
    case Some(jobName) =>
      [DeleteJob(namespace, jobName, Background), DeleteOutcome(jobName, c.jobDeleteError(namespace, jobName, attempt))]
  }

  /** The log line of one job delete call: its error, or the success. */
  function DeleteOutcome(jobName: string, err: Option<string>): Event {
    if err.Some? then Log(JobDeleteFailed(jobName, err.value)) else Log(JobDeleted(jobName))
  }

  /**
   * A job listed with two accepted conditions is deleted twice, and each
   * call gets its own answer: when the first call removes the job, the
   * second can fail and be logged as a failure.
   */
  lemma RepeatedJobDeletes(c: Cluster, namespace: string, name: string, type1: string, type2: string)
    requires '/' !in namespace && '/' !in name && ':' !in name && Trimmed(name)
    requires '/' !in type1 && '/' !in type2
    ensures var jobs := [Describe(namespace, name, type1), Describe(namespace, name, type2)];
      DeleteJobsEvents(c, namespace, jobs, jobs) ==
        [DeleteJob(namespace, name, Background), DeleteOutcome(name, c.jobDeleteError(namespace, name, 0)),
         DeleteJob(namespace, name, Background), DeleteOutcome(name, c.jobDeleteError(namespace, name, 1))]
  {
    var jobs := [Describe(namespace, name, type1), Describe(namespace, name, type2)];
    JobDescriptorRoundTrip(namespace, name, type1);
    JobDescriptorRoundTrip(namespace, name, type2);
    ParsedJobEvents(c, namespace, jobs, jobs[0], 0, name);
    ParsedJobEvents(c, namespace, jobs, jobs[1], 1, name);
    TwoJobsEvents(c, namespace, jobs);
  }

  /** A descriptor that parses to `name` is one delete call for `name` and its outcome. */
  lemma ParsedJobEvents(c: Cluster, namespace: string, jobs: seq<string>, job: string, attempt: nat, name: string)
    requires ParseJobName(job) == Some(name)
    ensures DeleteJobEvents(c, namespace, jobs, job, attempt)
      == [DeleteJob(namespace, name, Background), DeleteOutcome(name, c.jobDeleteError(namespace, name, attempt))]
  {
  }

  /** A batch of two is its first descriptor's attempt 0, then its second's attempt 1. */
  lemma TwoJobsEvents(c: Cluster, namespace: string, jobs: seq<string>)
    requires |jobs| == 2
    ensures DeleteJobsEvents(c, namespace, jobs, jobs)
      == DeleteJobEvents(c, namespace, jobs, jobs[0], 0) + DeleteJobEvents(c, namespace, jobs, jobs[1], 1)
  {
    var first := DeleteJobEvents(c, namespace, jobs, jobs[0], 0);
    assert jobs[..1][..0] == [] && jobs[..1][0] == jobs[0];
    assert DeleteJobsEvents(c, namespace, jobs, jobs[..1]) == [] + first == first;
    assert jobs[..|jobs| - 1] == jobs[..1];
  }

  /** The events of DeleteJobs for the descriptors `items` of the batch `jobs`, item after item. */
  function DeleteJobsEvents(c: Cluster, namespace: string, jobs: seq<string>, items: seq<string>): seq<Event>
    decreases |items|
  {
    if items == [] then []
    else DeleteJobsEvents(c, namespace, jobs, items[..|items| - 1]) + DeleteJobEvents(c, namespace, jobs, items[|items| - 1], |items| - 1)
  }

  /**
   * DeleteJobs: one background-propagation delete request per descriptor
   * with exactly one '/', in the namespace passed in; every descriptor is
   * attempted whatever happened to the others. The concurrent attempts are
   * taken one after the other, in batch order.
   */
  method DeleteJobs(c: Cluster, namespace: string, jobs: seq<string>) returns (events: seq<Event>)
    ensures events == DeleteJobsEvents(c, namespace, jobs, jobs)
  {
    events := [];
    for i := 0 to |jobs|
      invariant events == DeleteJobsEvents(c, namespace, jobs, jobs[..i])
    {
      assert jobs[..i + 1][..i] == jobs[..i];
      var jobEvents := DeleteJobEntry(c, namespace, jobs, jobs[i], i);
      events := events + jobEvents;
    }
    assert jobs[..|jobs|] == jobs;
  }

  /** The goroutine body for one descriptor: parse it, then delete the job with Background propagation. */
  method DeleteJobEntry(c: Cluster, namespace: string, jobs: seq<string>, job: string, attempt: nat) returns (events: seq<Event>)
    ensures events == DeleteJobEvents(c, namespace, jobs, job, attempt)
  {
    var jobParts := Split(job, "/");
    if |jobParts| != 2 {
      return [Log(InvalidJobFormat(jobs))];
    }
    var jobName := TrimSpace(Split(jobParts[1], ":")[0]);
    events := [DeleteJob(namespace, jobName, Background)];
    var err := c.jobDeleteError(namespace, jobName, attempt);
    if err.Some? {
      events := events + [Log(JobDeleteFailed(jobName, err.value))];
    } else {
      events := events + [Log(JobDeleted(jobName))];
    }
  }

  /** The delete requests a job batch calls for: one per parsable descriptor, in order. */
  function JobDeletes(namespace: string, items: seq<string>): seq<Event>
    decreases |items|
  {
    if items == [] then []
    else
      JobDeletes(namespace, items[..|items| - 1])
        + match ParseJobName(items[|items| - 1])
          case Some(name) => [DeleteJob(namespace, name, Background)]
          case None => []
  }

  /** The delete requests of one descriptor: the parsed job in `namespace`, with Background, or none. */
  lemma DeleteJobRequests(c: Cluster, namespace: string, jobs: seq<string>, job: string, attempt: nat)
    ensures Deletes(DeleteJobEvents(c, namespace, jobs, job, attempt)) ==
      match ParseJobName(job)
      case Some(name) => [DeleteJob(namespace, name, Background)]
      case None => []
  {
    var ev := DeleteJobEvents(c, namespace, jobs, job, attempt);
    if ParseJobName(job).Some? {
      assert |ev| == 2 && ev[..1] == [ev[0]];
      assert Deletes(ev[..1]) == Deletes([]) + [ev[0]];
    } else {
      assert |ev| == 1 && ev[..0] == [];
    }
  }

  /**
   * Failure isolation: the delete requests of DeleteJobs are those its
   * descriptors call for, whatever the outcome oracle answers.
   */
  lemma {:induction false} DeleteJobsRequests(c: Cluster, namespace: string, jobs: seq<string>, items: seq<string>)
    ensures Deletes(DeleteJobsEvents(c, namespace, jobs, items)) == JobDeletes(namespace, items)
    decreases |items|
  {
    if items != [] {
      var init := items[..|items| - 1];
      var item := items[|items| - 1];
      var last := DeleteJobEvents(c, namespace, jobs, item, |init|);
      assert DeleteJobsEvents(c, namespace, jobs, items) == DeleteJobsEvents(c, namespace, jobs, init) + last;
      DeleteJobsRequests(c, namespace, jobs, init);
      DeletesAppend(DeleteJobsEvents(c, namespace, jobs, init), last);
      DeleteJobRequests(c, namespace, jobs, item, |init|);
    }
  }
}
