/**
  The earlier single-file scheduler: a Manager holding the job registry and a
  lock map keyed by job name, a Job whose Run looks its own name up in the
  registry, skips the run when that name is locked, and otherwise holds the
  lock while it runs the job as a pod and watches the pod's phases.

  The pod API is not modelled: the template file is an oracle from path to
  load result, pod creation an oracle from submitted pod to outcome, and the
  watch and the delete are given as their single outcomes. Logging, the
  Honeybadger post and the mutex are left out.
*/
module KubeScheduler {
  import opened Common

  /** One entry of the schedule configuration. */
  datatype Job = Job(cron: string, template: string, description: string, args: seq<string>, namespace: string)
  {
    /** Field-by-field equality, the arguments compared as sequences. */
    function Equal(job: Job): (equal: bool)
      ensures equal <==> this == job
    {
      && cron == job.cron
      && template == job.template
      && description == job.description
      && args == job.args
      && namespace == job.namespace
    }
  }

  /** Job.Equal is an equivalence: reflexive, symmetric and transitive. */
  lemma EqualIsEquivalence(a: Job, b: Job, c: Job)
    ensures a.Equal(a)
    ensures a.Equal(b) ==> b.Equal(a)
    ensures a.Equal(b) && b.Equal(c) ==> a.Equal(c)
  {
  }

  /** The error NameFromJob returns when no registry entry equals the job. */
  const NotInJobList := "Job is not in job list"

  /** The value Run stores in the lock map while a job runs. */
  const StartedMarker := "started"

  /** Path of a file in the configuration directory. */
  function FilePath(configDir: string, file: string): (path: string)
    ensures |path| == |configDir| + 1 + |file|
    ensures path[..|configDir|] == configDir && path[|configDir|] == '/'
    ensures path[|configDir| + 1..] == file
  {
    JoinPath(configDir, file)
  }

  // ----- createTaskPod -----

  /** A pod: its metadata and its containers. */
  datatype Pod = Pod(name: string, namespace: string, resourceVersion: string, containers: seq<Container>)

  /** The outcome of reading and parsing a pod template file. */
  datatype PodLoad = PodReadFailed(cause: string) | PodParseFailed(cause: string) | PodLoaded(pod: Pod)

  /** The errors createTaskPod returns. */
  datatype PodError =
    | ReadError(cause: string)
    | ParseError(cause: string)
    | CreateError(cause: string)
    | WatchError(cause: string)
    | PodFailed(name: string, namespace: string)

  const PhaseFailed := "Failed"
  const PhaseSucceeded := "Succeeded"

  /** A phase that ends the watch loop. */
  predicate TerminalPhase(phase: string)
  {
    phase == PhaseFailed || phase == PhaseSucceeded
  }

  /** Index of the first terminal phase, or the length of the stream when there is none. */
  function FirstTerminalPhase(phases: seq<string>): (i: nat)
    ensures i <= |phases|
    ensures forall j | 0 <= j < i :: !TerminalPhase(phases[j])
    ensures i < |phases| ==> TerminalPhase(phases[i])
    decreases |phases|
  {
    if phases == [] then 0
    else if TerminalPhase(phases[0]) then 0
    else 1 + FirstTerminalPhase(phases[1..])
  }

  /** The two properties of FirstTerminalPhase pick out exactly one index. */
  lemma FirstTerminalPhaseUnique(phases: seq<string>, i: nat)
    requires i <= |phases|
    requires forall j | 0 <= j < i :: !TerminalPhase(phases[j])
    requires i < |phases| ==> TerminalPhase(phases[i])
    ensures FirstTerminalPhase(phases) == i
  {
  }

  /** The pod template with the job's arguments in its first container and the job's namespace. */
  function PreparePod(pod: Pod, j: Job): (prepared: Pod)
    requires |pod.containers| > 0
    ensures |prepared.containers| == |pod.containers|
    ensures prepared.containers[0] == pod.containers[0].(args := j.args)
    ensures forall i | 1 <= i < |prepared.containers| :: prepared.containers[i] == pod.containers[i]
    ensures prepared.namespace == j.namespace
    ensures prepared.name == pod.name && prepared.resourceVersion == pod.resourceVersion
  {
    pod.(containers := [pod.containers[0].(args := j.args)] + pod.containers[1..], namespace := j.namespace)
  }

  /**
    What createTaskPod did: the error it returned (None for nil), the template
    path, the pod it submitted, the pod the cluster created, the pods it asked
    to delete, and whether a failed delete was reported.
  */
  datatype PodOutcome = PodOutcome(
    err: Option<PodError>,
    path: string,
    submitted: Option<Pod>,
    created: Option<Pod>,
    deleted: seq<Pod>,
    deleteFailureReported: bool)

  /** createTaskPod's precondition: a template that parses has a container to write into. */
  predicate PodHasContainer(load: PodLoad)
  {
    load.PodLoaded? ==> |load.pod.containers| > 0
  }

  /** createTaskPod as a function of its oracles. */
  function TaskPod(
    configDir: string, j: Job,
    readPod: string -> PodLoad,
    createPod: Pod -> Attempt<Pod>,
    watchPod: Attempt<seq<string>>,
    deleteErr: Option<string>): PodOutcome
    requires PodHasContainer(readPod(FilePath(configDir, j.template)))
  {
    var path := FilePath(configDir, j.template);
    var start := PodOutcome(None, path, None, None, [], false);
    match readPod(path)
    case PodReadFailed(e) => start.(err := Some(ReadError(e)))
    case PodParseFailed(e) => start.(err := Some(ParseError(e)))
    case PodLoaded(pod) =>
      var prepared := PreparePod(pod, j);
      match createPod(prepared)
      case Failure(e) => start.(err := Some(CreateError(e)), submitted := Some(prepared))
      case Success(newPod) =>
        var running := start.(submitted := Some(prepared), created := Some(newPod));
        match watchPod
        case Failure(e) => running.(err := Some(WatchError(e)))
        case Success(phases) =>
          var i := FirstTerminalPhase(phases);
          if i == |phases| then running
          else if phases[i] == PhaseFailed then
            running.(err := Some(PodFailed(newPod.name, newPod.namespace)), deleted := [newPod])
          else
            running.(deleted := [newPod], deleteFailureReported := deleteErr.Some?)
  }

  /**
    createTaskPod: load the template, write the job into it, create the pod,
    watch its phases, and delete it when it fails or succeeds.
  */
  method CreateTaskPod(
    configDir: string, j: Job,
    readPod: string -> PodLoad,
    createPod: Pod -> Attempt<Pod>,
    watchPod: Attempt<seq<string>>,
    deleteErr: Option<string>) returns (outcome: PodOutcome)
    requires PodHasContainer(readPod(FilePath(configDir, j.template)))
    ensures outcome == TaskPod(configDir, j, readPod, createPod, watchPod, deleteErr)
  {
    var path := FilePath(configDir, j.template);
    outcome := PodOutcome(None, path, None, None, [], false);
    var pod;
    match readPod(path) {
      case PodReadFailed(e) =>
        return outcome.(err := Some(ReadError(e)));
      case PodParseFailed(e) =>
        return outcome.(err := Some(ParseError(e)));
      case PodLoaded(p) =>
        pod := p;
    }
    pod := PreparePod(pod, j);
    outcome := outcome.(submitted := Some(pod));
    var newPod;
    match createPod(pod) {
      case Failure(e) =>
        return outcome.(err := Some(CreateError(e)));
      case Success(p) =>
        newPod := p;
    }
    outcome := outcome.(created := Some(newPod));
    var phases;
    match watchPod {
      case Failure(e) =>
        return outcome.(err := Some(WatchError(e)));
      case Success(s) =>
        phases := s;
    }
    var i := 0;
    while i < |phases|
      invariant i <= |phases|
      invariant forall k | 0 <= k < i :: !TerminalPhase(phases[k])
    {
      if phases[i] == PhaseFailed {
        FirstTerminalPhaseUnique(phases, i);
        return outcome.(err := Some(PodFailed(newPod.name, newPod.namespace)), deleted := [newPod]);
      }
      if phases[i] == PhaseSucceeded {
        FirstTerminalPhaseUnique(phases, i);
        outcome := outcome.(deleted := [newPod], deleteFailureReported := deleteErr.Some?);
        break;
      }
      i := i + 1;
    }
    FirstTerminalPhaseUnique(phases, i);
  }

  /**
    The phase loop: a first terminal phase Failed deletes the pod once and
    returns an error naming it; Succeeded deletes it once and returns nil; a
    stream that ends without a terminal phase returns nil and deletes nothing.
  */
  lemma TaskPodPhases(
    configDir: string, j: Job,
    readPod: string -> PodLoad,
    createPod: Pod -> Attempt<Pod>,
    phases: seq<string>,
    deleteErr: Option<string>,
    i: nat)
    requires PodHasContainer(readPod(FilePath(configDir, j.template)))
    requires readPod(FilePath(configDir, j.template)).PodLoaded?
    requires createPod(PreparePod(readPod(FilePath(configDir, j.template)).pod, j)).Success?
    requires i <= |phases|
    requires forall k | 0 <= k < i :: !TerminalPhase(phases[k])
    requires i < |phases| ==> TerminalPhase(phases[i])
    ensures var o := TaskPod(configDir, j, readPod, createPod, Success(phases), deleteErr);
      var newPod := createPod(PreparePod(readPod(FilePath(configDir, j.template)).pod, j)).value;
      && o.created == Some(newPod)
      && (i < |phases| && phases[i] == PhaseFailed ==>
            o.err == Some(PodFailed(newPod.name, newPod.namespace)) && o.deleted == [newPod])
      && (i < |phases| && phases[i] == PhaseSucceeded ==> o.err == None && o.deleted == [newPod])
      && (i == |phases| ==> o.err == None && o.deleted == [])
  {
  }

  /**
    Unlike the later RunJob, createTaskPod deletes only after a terminal
    phase: a failed watch or a stream that ends first leaves the pod behind,
    and nothing is ever deleted that was not created.
  */
  lemma TaskPodDeletesOnlyAfterTerminalPhase(
    configDir: string, j: Job,
    readPod: string -> PodLoad,
    createPod: Pod -> Attempt<Pod>,
    watchPod: Attempt<seq<string>>,
    deleteErr: Option<string>)
    requires PodHasContainer(readPod(FilePath(configDir, j.template)))
    ensures var o := TaskPod(configDir, j, readPod, createPod, watchPod, deleteErr);
      && (o.deleted != [] <==>
            o.created.Some? && watchPod.Success?
            && exists k | 0 <= k < |watchPod.value| :: TerminalPhase(watchPod.value[k]))
      && (o.deleted != [] ==> o.deleted == [o.created.value])
      && (o.deleteFailureReported ==> o.err == None && deleteErr.Some?)
  {
  }

  // ----- Manager -----

  /** What one Run did: the name it found, whether it ran the pod, and the lock value while it did. */
  datatype RunReport = RunReport(
    name: Option<string>,
    pod: Option<PodOutcome>,
    lockDuringRun: Option<string>,
    notified: bool)

  /**
    The registry and the lock map. The registry is fixed once loaded; the
    lock map, from job name to state, is what the methods change. Reading the
    YAML schedule is not modelled: the constructor receives its result.
  */
  class Manager {
    const jList: map<string, Job>
    var jLock: map<string, string>

    constructor (jList: map<string, Job>)
      ensures this.jList == jList && jLock == map[]
    {
      this.jList := jList;
      jLock := map[];
    }

    /** The state stored under a name, and whether there is one; the map is only read. */
    method ReadFromJobLock(template: string) returns (state: string, ok: bool)
      ensures ok <==> template in jLock
      ensures ok ==> state == jLock[template]
      ensures !ok ==> state == ""
    {
      ok := template in jLock;
      state := if ok then jLock[template] else "";
    }

    /** Stores a state under a name; every other name keeps its presence and state. */
    method WriteToJobLock(template: string, state: string)
      modifies this
      ensures jLock == old(jLock)[template := state]
      ensures template in jLock && jLock[template] == state
      ensures forall k | k != template :: (k in jLock <==> k in old(jLock)) && (k in jLock ==> jLock[k] == old(jLock)[k])
    {
      jLock := jLock[template := state];
    }

    /** Removes a name; every other name keeps its presence and state; on an absent name nothing changes. */
    method DeleteFromJobLock(template: string)
      modifies this
      ensures jLock == old(jLock) - {template}
      ensures template !in jLock
      ensures forall k | k != template :: (k in jLock <==> k in old(jLock)) && (k in jLock ==> jLock[k] == old(jLock)[k])
      ensures template !in old(jLock) ==> jLock == old(jLock)
    {
      jLock := jLock - {template};
    }

    /**
      The registry name of a job: some name whose entry equals it, when there
      is one (which one, among several, the map's iteration order decides);
      otherwise an error.
    */
    method NameFromJob(j: Job) returns (name: string, err: Option<string>)
      ensures err.None? ==> name in jList && jList[name].Equal(j)
      ensures err.Some? <==> forall k | k in jList :: !jList[k].Equal(j)
      ensures err.Some? ==> name == "" && err.value == NotInJobList
    {
      var unvisited := jList.Keys;
      while unvisited != {}
        invariant unvisited <= jList.Keys
        invariant forall k | k in jList && k !in unvisited :: !jList[k].Equal(j)
        decreases unvisited
      {
        var k :| k in unvisited;
        if jList[k].Equal(j) {
          return k, None;
        }
        unvisited := unvisited - {k};
      }
      return "", Some(NotInJobList);
    }

    /**
      Job.Run: when the job's name cannot be found or is already locked,
      nothing happens; otherwise the name is locked as "started" before the pod
      runs and unlocked after it, and a pod error is reported. Either way the
      lock map ends as it began.
    */
    method Run(
      j: Job, configDir: string,
      readPod: string -> PodLoad,
      createPod: Pod -> Attempt<Pod>,
      watchPod: Attempt<seq<string>>,
      deleteErr: Option<string>) returns (report: RunReport)
      requires PodHasContainer(readPod(FilePath(configDir, j.template)))
      modifies this
      ensures jLock == old(jLock)
      ensures report.name.None? <==> forall k | k in jList :: !jList[k].Equal(j)
      ensures report.name.Some? ==> report.name.value in jList && jList[report.name.value].Equal(j)
      ensures report.pod.Some? <==> report.name.Some? && report.name.value !in old(jLock)
      ensures report.pod.Some? ==>
        report.pod.value == TaskPod(configDir, j, readPod, createPod, watchPod, deleteErr)
        && report.lockDuringRun == Some(StartedMarker)
      ensures report.pod.None? ==> report.lockDuringRun.None?
      ensures report.notified <==> report.pod.Some? && report.pod.value.err.Some?
    {
      report := RunReport(None, None, None, false);
      var jobName, err := NameFromJob(j);
      if err.Some? {
        return;
      }
      report := report.(name := Some(jobName));

      var _, locked := ReadFromJobLock(jobName);
      if locked {
        return;
      }

      WriteToJobLock(jobName, StartedMarker);
      report := report.(lockDuringRun := Some(jLock[jobName]));
      var outcome := CreateTaskPod(configDir, j, readPod, createPod, watchPod, deleteErr);
      report := report.(pod := Some(outcome), notified := outcome.err.Some?);
      DeleteFromJobLock(jobName);
    }
  }
}
