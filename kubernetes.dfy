/**
  The `kubernetes` package: running one scheduled job as a batch Job resource.

  RunJob loads the job's template, writes the job's arguments, image override
  and namespace into it, creates the resource, watches its status events until
  a terminal condition or the end of the stream, and deletes the resource on
  every path once it exists. Create, watch and delete each go through
  AutoRetry, which tries an operation up to three times.

  The cluster is not modelled: each remote operation is an oracle giving the
  outcome of its i-th call, and the template file is an oracle from path to
  load result. Sleeping is counted, not performed.
*/
module Kubernetes {
  import opened Common
  import Scheduler

  /** How many times AutoRetry calls its operation at most. */
  const MaxAttempts: nat := 3

  /** What a retried operation returns, with how many calls and one-second sleeps it took. */
  datatype Retried<+T> = Retried(result: Attempt<T>, calls: nat, sleeps: nat)

  /**
    The retry loop entered at attempt `from` (calls 0 .. from - 1 having failed).
    Stops at the first success; after a failure sleeps, and gives up with the
    last error once MaxAttempts calls have failed.
  */
  function RetryFrom<T>(fn: nat -> Attempt<T>, from: nat): (r: Retried<T>)
    requires from < MaxAttempts
    ensures from < r.calls <= MaxAttempts
    ensures r.result == fn(r.calls - 1)
    ensures forall i | from <= i < r.calls - 1 :: fn(i).Failure?
    ensures r.result.Success? ==> r.sleeps == r.calls - 1
    ensures r.result.Failure? ==> r.calls == MaxAttempts && r.sleeps == MaxAttempts
    decreases MaxAttempts - from
  {
    if fn(from).Success? then Retried(fn(from), from + 1, from)
    else if from + 1 == MaxAttempts then Retried(fn(from), MaxAttempts, MaxAttempts)
    else RetryFrom(fn, from + 1)
  }

  /**
    What autoRetry does with an operation whose i-th call yields `fn(i)`:
    between one and three calls; the result is that of the last call, every
    earlier call failed; a success comes after one sleep per failed call, and a
    failure only after three failed calls and three sleeps.
  */
  function Retry<T>(fn: nat -> Attempt<T>): (r: Retried<T>)
    ensures 0 < r.calls <= MaxAttempts
    ensures r.result == fn(r.calls - 1)
    ensures forall i | 0 <= i < r.calls - 1 :: fn(i).Failure?
    ensures r.result.Success? ==> r.sleeps == r.calls - 1
    ensures r.result.Failure? ==> r.calls == MaxAttempts && r.sleeps == MaxAttempts
  {
    RetryFrom(fn, 0)
  }

  /** If call k is the first to succeed, autoRetry returns its value after exactly k + 1 calls and k sleeps. */
  lemma RetryStopsAtFirstSuccess<T>(fn: nat -> Attempt<T>, k: nat)
    requires k < MaxAttempts && fn(k).Success?
    requires forall i | 0 <= i < k :: fn(i).Failure?
    ensures Retry(fn) == Retried(fn(k), k + 1, k)
  {
  }

  /** If all three calls fail, autoRetry returns the third call's error after three calls and three sleeps. */
  lemma RetryExhausted<T>(fn: nat -> Attempt<T>)
    requires forall i | 0 <= i < MaxAttempts :: fn(i).Failure?
    ensures Retry(fn) == Retried(fn(2), 3, 3)
  {
  }

  /** autoRetry: the loop itself, proved to behave as Retry. */
  method AutoRetry<T>(fn: nat -> Attempt<T>) returns (result: Attempt<T>, calls: nat, sleeps: nat)
    ensures Retried(result, calls, sleeps) == Retry(fn)
  {
    var attempts: nat := 0;
    var err := "";
    calls, sleeps := 0, 0;
    while attempts < MaxAttempts
      invariant attempts <= MaxAttempts && calls == attempts && sleeps == attempts
      invariant attempts < MaxAttempts ==> Retry(fn) == RetryFrom(fn, attempts)
      invariant attempts == MaxAttempts ==> Retry(fn) == Retried(Failure(err), MaxAttempts, MaxAttempts)
    {
      var thing := fn(attempts);
      calls := calls + 1;
      if thing.Success? {
        return thing, calls, sleeps;
      }
      err := thing.error;
      attempts := attempts + 1;
      sleeps := sleeps + 1;
    }
    result := Failure(err);
  }

  // ----- Resources and status events -----

  /** A batch Job resource: the metadata the scheduler uses and the pod template's containers. */
  datatype KubeJob = KubeJob(name: string, namespace: string, resourceVersion: string, containers: seq<Container>)

  /** One status condition of a Job; its type is a string such as "Complete" or "Failed". */
  datatype Condition = Condition(kind: string, message: string)

  /** One watch event: the Job's status conditions at that moment, in order. */
  datatype Event = Event(conditions: seq<Condition>)

  const JobComplete := "Complete"
  const JobFailed := "Failed"

  /** Path of a job's template: the scheduler's configuration directory, a slash, the template name. */
  function JobPath(configPath: string, job: Scheduler.Job): (path: string)
    ensures |path| == |configPath| + 1 + |job.template|
    ensures path[..|configPath|] == configPath && path[|configPath|] == '/'
    ensures path[|configPath| + 1..] == job.template
  {
    JoinPath(configPath, job.template)
  }

  /**
    The template with the job merged into it: the first container takes the
    job's arguments, and its image unless the job's image is empty; the
    resource takes the job's namespace; nothing else changes.
  */
  function MergeTemplate(template: KubeJob, job: Scheduler.Job): (merged: KubeJob)
    requires |template.containers| > 0
    ensures |merged.containers| == |template.containers|
    ensures merged.containers[0].args == job.args
    ensures job.image != "" ==> merged.containers[0].image == job.image
    ensures job.image == "" ==> merged.containers[0].image == template.containers[0].image
    ensures merged.containers[0].name == template.containers[0].name
    ensures merged.containers[0].command == template.containers[0].command
    ensures forall i | 1 <= i < |merged.containers| :: merged.containers[i] == template.containers[i]
    ensures merged.namespace == job.namespace
    ensures merged.name == template.name && merged.resourceVersion == template.resourceVersion
  {
    var first := template.containers[0];
    var first' := first.(args := job.args, image := if job.image != "" then job.image else first.image);
    template.(containers := [first'] + template.containers[1..], namespace := job.namespace)
  }

  /** Merging the same job a second time changes nothing. */
  lemma MergeIdempotent(template: KubeJob, job: Scheduler.Job)
    requires |template.containers| > 0
    ensures MergeTemplate(MergeTemplate(template, job), job) == MergeTemplate(template, job)
  {
  }

  /** Only the first condition of an event is ever inspected. */
  function FirstCondition(e: Event): Option<Condition>
  {
    if |e.conditions| > 0 then Some(e.conditions[0]) else None
  }

  /** An event ends the watch when its first condition is of type Complete or Failed. */
  predicate Terminal(e: Event)
  {
    FirstCondition(e).Some? && FirstCondition(e).value.kind in {JobComplete, JobFailed}
  }

  /** What the watch concluded: the job completed, it failed with a message, or no terminal event came. */
  datatype Verdict = Completed | FailedWith(message: string) | Undecided

  /** The verdict one event gives on its own. */
  function Classify(e: Event): (v: Verdict)
    ensures v.Undecided? <==> !Terminal(e)
    ensures |e.conditions| > 0 && e.conditions[0].kind == JobComplete ==> v == Completed
    ensures |e.conditions| > 0 && e.conditions[0].kind == JobFailed ==> v == FailedWith(e.conditions[0].message)
  {
    match FirstCondition(e)
    case Some(c) =>
      if c.kind == JobComplete then Completed
      else if c.kind == JobFailed then FailedWith(c.message)
      else Undecided
    case None => Undecided
  }

  /** Index of the first terminal event, or the length of the stream when there is none. */
  function FirstTerminal(events: seq<Event>): (i: nat)
    ensures i <= |events|
    ensures forall j | 0 <= j < i :: !Terminal(events[j])
    ensures i < |events| ==> Terminal(events[i])
    decreases |events|
  {
    if events == [] then 0
    else if Terminal(events[0]) then 0
    else 1 + FirstTerminal(events[1..])
  }

  /** The two properties of FirstTerminal pick out exactly one index. */
  lemma FirstTerminalUnique(events: seq<Event>, i: nat)
    requires i <= |events|
    requires forall j | 0 <= j < i :: !Terminal(events[j])
    requires i < |events| ==> Terminal(events[i])
    ensures FirstTerminal(events) == i
  {
  }

  /** The verdict of the whole stream is that of its first terminal event. */
  function WatchVerdict(events: seq<Event>): (v: Verdict)
    ensures v.Undecided? <==> forall j | 0 <= j < |events| :: !Terminal(events[j])
  {
    var i := FirstTerminal(events);
    if i < |events| then Classify(events[i]) else Undecided
  }

  /** How many events the watch loop reads: up to and including the first terminal one. */
  function EventsRead(events: seq<Event>): (n: nat)
    ensures n <= |events|
  {
    var i := FirstTerminal(events);
    if i < |events| then i + 1 else |events|
  }

  /**
    The first event whose first condition is Complete ends the watch as a
    success, Failed as a failure carrying that condition's message; all events
    before it were skipped because they had no condition or another type.
  */
  lemma VerdictOfFirstTerminal(events: seq<Event>, i: nat)
    requires i < |events| && Terminal(events[i])
    requires forall j | 0 <= j < i :: !Terminal(events[j])
    ensures WatchVerdict(events) == Classify(events[i])
    ensures events[i].conditions[0].kind == JobComplete ==> WatchVerdict(events) == Completed
    ensures events[i].conditions[0].kind == JobFailed ==> WatchVerdict(events) == FailedWith(events[i].conditions[0].message)
    ensures EventsRead(events) == i + 1
  {
  }

  /** Two streams whose events agree on their first conditions give the same verdict after the same number of reads. */
  lemma OnlyFirstConditionMatters(a: seq<Event>, b: seq<Event>)
    requires |a| == |b|
    requires forall j | 0 <= j < |a| :: FirstCondition(a[j]) == FirstCondition(b[j])
    ensures WatchVerdict(a) == WatchVerdict(b)
    ensures EventsRead(a) == EventsRead(b)
  {
  }

  /** Events after the first terminal one are never read and never matter. */
  lemma LaterEventsIgnored(events: seq<Event>, later: seq<Event>)
    requires !WatchVerdict(events).Undecided?
    ensures WatchVerdict(events + later) == WatchVerdict(events)
    ensures EventsRead(events + later) == EventsRead(events)
  {
    var i := FirstTerminal(events);
    var all := events + later;
    forall j | 0 <= j <= i
      ensures all[j] == events[j]
    {
    }
    FirstTerminalUnique(all, i);
  }

  // ----- RunJob -----

  /** The outcome of reading and parsing a template file. */
  datatype TemplateLoad = ReadFailed(cause: string) | ParseFailed(cause: string) | Loaded(template: KubeJob)

  /**
    The errors RunJob returns, by the step that failed and the cause or
    condition message it carries; the wording Go adds around them is not kept.
  */
  datatype RunError =
    | TemplateReadError(cause: string)
    | TemplateParseError(cause: string)
    | CreateError(cause: string)
    | WatchError(cause: string)
    | JobFailedError(message: string)

  /**
    What RunJob did: the template path it read, the resource it submitted, the
    resource the cluster created, the calls made through AutoRetry, the events
    read, the resources it asked to delete, and the sleeps taken.
  */
  datatype RunTrace = RunTrace(
    templatePath: string,
    submitted: Option<KubeJob>,
    created: Option<KubeJob>,
    createCalls: nat,
    watchCalls: nat,
    eventsRead: nat,
    deleted: seq<KubeJob>,
    deleteCalls: nat,
    sleeps: nat)

  /** RunJob's error (None for Go's nil) with its trace. */
  datatype RunOutcome = RunOutcome(err: Option<RunError>, trace: RunTrace)

  /** RunJob's precondition: a template that parses has a container to merge into. */
  predicate TemplateHasContainer(load: TemplateLoad)
  {
    load.Loaded? ==> |load.template.containers| > 0
  }

  /**
    RunJob as a function of its oracles: `readTemplate` maps a path to the
    load result, and `create`, `watch`, `delete` give the outcome of their i-th call.
  */
  function RunJobSpec(
    configPath: string, job: Scheduler.Job,
    readTemplate: string -> TemplateLoad,
    create: nat -> Attempt<KubeJob>,
    watch: nat -> Attempt<seq<Event>>,
    delete: nat -> Attempt<()>): RunOutcome
    requires TemplateHasContainer(readTemplate(JobPath(configPath, job)))
  {
    var path := JobPath(configPath, job);
    var start := RunTrace(path, None, None, 0, 0, 0, [], 0, 0);
    match readTemplate(path)
    case ReadFailed(e) => RunOutcome(Some(TemplateReadError(e)), start)
    case ParseFailed(e) => RunOutcome(Some(TemplateParseError(e)), start)
    case Loaded(template) =>
      var merged := MergeTemplate(template, job);
      var c := Retry(create);
      if c.result.Failure? then
        RunOutcome(Some(CreateError(c.result.error)),
          start.(submitted := Some(merged), createCalls := c.calls, sleeps := c.sleeps))
      else
        var w := Retry(watch);
        var d := Retry(delete);
        var err :=
          if w.result.Failure? then Some(WatchError(w.result.error))
          else match WatchVerdict(w.result.value)
            case FailedWith(m) => Some(JobFailedError(m))
            case _ => None;
        var read := if w.result.Success? then EventsRead(w.result.value) else 0;
        RunOutcome(err, RunTrace(path, Some(merged), Some(c.result.value), c.calls, w.calls, read,
          [c.result.value], d.calls, c.sleeps + w.sleeps + d.sleeps))
  }

  /**
    RunJob: load, merge, create, watch, read events until a terminal one, and
    delete the created resource on every return path after creation.
  */
  method RunJob(
    configPath: string, name: string, job: Scheduler.Job,
    readTemplate: string -> TemplateLoad,
    create: nat -> Attempt<KubeJob>,
    watch: nat -> Attempt<seq<Event>>,
    delete: nat -> Attempt<()>) returns (err: Option<RunError>, trace: RunTrace)
    requires TemplateHasContainer(readTemplate(JobPath(configPath, job)))
    ensures RunOutcome(err, trace) == RunJobSpec(configPath, job, readTemplate, create, watch, delete)
  {
    var path := JobPath(configPath, job);
    trace := RunTrace(path, None, None, 0, 0, 0, [], 0, 0);
    var template;
    match readTemplate(path) {
      case ReadFailed(e) =>
        return Some(TemplateReadError(e)), trace;
      case ParseFailed(e) =>
        return Some(TemplateParseError(e)), trace;
      case Loaded(t) =>
        template := t;
    }
    var merged := MergeTemplate(template, job);
    trace := trace.(submitted := Some(merged));

    var created, createCalls, createSleeps := AutoRetry(create);
    trace := trace.(createCalls := createCalls, sleeps := createSleeps);
    if created.Failure? {
      return Some(CreateError(created.error)), trace;
    }
    var clusterJob := created.value;
    trace := trace.(created := Some(clusterJob));

    // Everything from here on falls through to the deferred delete below.
    var watched, watchCalls, watchSleeps := AutoRetry(watch);
    trace := trace.(watchCalls := watchCalls, sleeps := trace.sleeps + watchSleeps);
    err := None;
    if watched.Failure? {
      err := Some(WatchError(watched.error));
    } else {
      var events := watched.value;
      var i := 0;
      while i < |events|
        invariant i <= |events|
        invariant forall j | 0 <= j < i :: !Terminal(events[j])
      {
        var event := events[i];
        if |event.conditions| > 0 {
          var condition := event.conditions[0];
          if condition.kind == JobComplete {
            break;
          }
          if condition.kind == JobFailed {
            err := Some(JobFailedError(condition.message));
            break;
          }
        }
        i := i + 1;
      }
      FirstTerminalUnique(events, i);
      trace := trace.(eventsRead := if i < |events| then i + 1 else i);
    }

    var deleted, deleteCalls, deleteSleeps := AutoRetry(delete);
    trace := trace.(deleted := [clusterJob], deleteCalls := deleteCalls, sleeps := trace.sleeps + deleteSleeps);
  }

  // ----- Properties of RunJob -----

  /**
    Cleanup: once creation succeeded the created resource is deleted exactly
    once, on every path, including a failed watch, for a watch stream that
    ends; when creation fails nothing is deleted. The submitted resource is
    the merged template.
  */
  lemma RunJobDeletesExactlyWhatItCreated(
    configPath: string, job: Scheduler.Job,
    readTemplate: string -> TemplateLoad,
    create: nat -> Attempt<KubeJob>,
    watch: nat -> Attempt<seq<Event>>,
    delete: nat -> Attempt<()>)
    requires TemplateHasContainer(readTemplate(JobPath(configPath, job)))
    ensures var o := RunJobSpec(configPath, job, readTemplate, create, watch, delete);
      && o.trace.templatePath == JobPath(configPath, job)
      && (o.trace.created.Some? <==> readTemplate(JobPath(configPath, job)).Loaded? && Retry(create).result.Success?)
      && (o.trace.created.Some? ==> o.trace.deleted == [o.trace.created.value] && o.trace.created.value == Retry(create).result.value)
      && (o.trace.created.None? ==> o.trace.deleted == [] && o.trace.deleteCalls == 0)
      && (readTemplate(JobPath(configPath, job)).Loaded? ==>
            o.trace.submitted == Some(MergeTemplate(readTemplate(JobPath(configPath, job)).template, job)))
  {
  }

  /** The outcome of deleting never changes RunJob's result. */
  lemma DeleteNeverChangesResult(
    configPath: string, job: Scheduler.Job,
    readTemplate: string -> TemplateLoad,
    create: nat -> Attempt<KubeJob>,
    watch: nat -> Attempt<seq<Event>>,
    delete1: nat -> Attempt<()>, delete2: nat -> Attempt<()>)
    requires TemplateHasContainer(readTemplate(JobPath(configPath, job)))
    ensures RunJobSpec(configPath, job, readTemplate, create, watch, delete1).err
         == RunJobSpec(configPath, job, readTemplate, create, watch, delete2).err
  {
  }

  /**
    Once the resource exists and its watch is established, RunJob fails
    exactly when the first terminal event is a Failed condition, and then
    with that condition's message; a Complete condition or a stream that ends
    without a terminal event gives success.
  */
  lemma RunJobOutcomeFollowsWatch(
    configPath: string, job: Scheduler.Job,
    readTemplate: string -> TemplateLoad,
    create: nat -> Attempt<KubeJob>,
    watch: nat -> Attempt<seq<Event>>,
    delete: nat -> Attempt<()>)
    requires TemplateHasContainer(readTemplate(JobPath(configPath, job)))
    requires readTemplate(JobPath(configPath, job)).Loaded?
    requires Retry(create).result.Success? && Retry(watch).result.Success?
    ensures var o := RunJobSpec(configPath, job, readTemplate, create, watch, delete);
      var events := Retry(watch).result.value;
      && (o.err.None? <==> !WatchVerdict(events).FailedWith?)
      && (WatchVerdict(events).FailedWith? ==> o.err == Some(JobFailedError(WatchVerdict(events).message)))
      && o.trace.eventsRead == EventsRead(events)
  {
  }

  /**
    A stream whose first terminal event is a Failed condition with message m
    (such as "OOMKilled") makes RunJob fail with an error carrying that
    message, and the created resource is still deleted once.
  */
  lemma FailedConditionIsReported(
    configPath: string, job: Scheduler.Job,
    readTemplate: string -> TemplateLoad,
    create: nat -> Attempt<KubeJob>,
    watch: nat -> Attempt<seq<Event>>,
    delete: nat -> Attempt<()>,
    i: nat)
    requires TemplateHasContainer(readTemplate(JobPath(configPath, job)))
    requires readTemplate(JobPath(configPath, job)).Loaded?
    requires Retry(create).result.Success? && Retry(watch).result.Success?
    requires var events := Retry(watch).result.value;
      && i < |events| && |events[i].conditions| > 0 && events[i].conditions[0].kind == JobFailed
      && forall j | 0 <= j < i :: !Terminal(events[j])
    ensures var o := RunJobSpec(configPath, job, readTemplate, create, watch, delete);
      && o.err == Some(JobFailedError(Retry(watch).result.value[i].conditions[0].message))
      && o.trace.deleted == [Retry(create).result.value]
  {
  }
}
