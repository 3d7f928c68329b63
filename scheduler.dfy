/**
  The schedule client of the `scheduler` package: the job registry loaded at
  start-up and the run-lock table that marks which jobs are executing.

  The table maps a job key to a marker; a key's presence is what "running"
  means. The key of a job is its registry name followed by its namespace, so
  one job may run at once in several namespaces but only once per namespace.
  The table is modelled one call at a time; the mutex that serializes the calls
  is left out.
*/
module Scheduler {
  import opened Common

  /** One entry of the schedule configuration. */
  datatype Job = Job(
    cron: string,
    template: string,
    description: string,
    image: string,       // overrides the template's image when not empty
    args: seq<string>,
    namespace: string)

  type LockTable = map<string, string>

  /** The value StartJob stores for a running job. */
  const RunningMarker := "running"

  /** Path of the schedule configuration file inside its directory. */
  function FullPath(dir: string, file: string): (path: string)
    ensures |path| == |dir| + 1 + |file|
    ensures path[..|dir|] == dir && path[|dir|] == '/' && path[|dir| + 1..] == file
  {
    JoinPath(dir, file)
  }

  /** The lock key of a job: its name immediately followed by its namespace, no separator. */
  function JobKey(name: string, job: Job): (key: string)
    ensures |key| == |name| + |job.namespace|
    ensures key[..|name|] == name && key[|name|..] == job.namespace
  {
    name + job.namespace
  }

  /** The same name in two namespaces gives two keys, so the two runs do not exclude each other. */
  lemma NamespacesSeparateKeys(name: string, a: Job, b: Job)
    requires a.namespace != b.namespace
    ensures JobKey(name, a) != JobKey(name, b)
  {
  }

  /**
    Only the namespace of a job takes part in its key: two jobs of one name
    that differ in schedule, template, image or arguments share one lock.
  */
  lemma KeyDependsOnNameAndNamespaceOnly(name: string, a: Job, b: Job)
    requires a.namespace == b.namespace
    ensures JobKey(name, a) == JobKey(name, b)
  {
  }

  /**
    Because there is no separator, different (name, namespace) pairs can give
    one key: moving a character from the end of the name to the front of the
    namespace keeps the key, so job "ab" in namespace "c" and job "a" in
    namespace "bc" share a lock.
  */
  lemma KeysOfDifferentPairsCanCoincide(name: string, c: char, ns: string, a: Job, b: Job)
    requires a.namespace == ns && b.namespace == [c] + ns
    ensures JobKey(name + [c], a) == JobKey(name, b)
  {
  }

  /** The table after StartJob marked `key` running. */
  function Started(lock: LockTable, key: string): (after: LockTable)
    ensures key in after && after[key] == RunningMarker
    ensures forall k | k != key :: (k in after <==> k in lock) && (k in after ==> after[k] == lock[k])
  {
    lock[key := RunningMarker]
  }

  /** The table after FinishJob removed `key`. */
  function Finished(lock: LockTable, key: string): (after: LockTable)
    ensures key !in after
    ensures forall k | k != key :: (k in after <==> k in lock) && (k in after ==> after[k] == lock[k])
    ensures key !in lock ==> after == lock
  {
    lock - {key}
  }

  /** Starting a job twice leaves the table as starting it once. */
  lemma StartIdempotent(lock: LockTable, key: string)
    ensures Started(Started(lock, key), key) == Started(lock, key)
  {
  }

  /** Finishing a job twice leaves the table as finishing it once. */
  lemma FinishIdempotent(lock: LockTable, key: string)
    ensures Finished(Finished(lock, key), key) == Finished(lock, key)
  {
  }

  /** A start followed by a finish of a key that was free restores the table. */
  lemma StartThenFinishRestores(lock: LockTable, key: string)
    requires key !in lock
    ensures Finished(Started(lock, key), key) == lock
  {
  }

  /** One StartJob or FinishJob call, by the key it touches. */
  datatype LockOp = Start(key: string) | Finish(key: string)

  function Step(lock: LockTable, op: LockOp): LockTable
  {
    match op
    case Start(k) => Started(lock, k)
    case Finish(k) => Finished(lock, k)
  }

  /** The table after a sequence of StartJob and FinishJob calls, in order. */
  function Replay(lock: LockTable, ops: seq<LockOp>): LockTable
    decreases |ops|
  {
    if ops == [] then lock else Replay(Step(lock, ops[0]), ops[1..])
  }

  /**
    Mutual exclusion: once a job's key is marked running it stays marked,
    whatever other jobs start or finish, until a FinishJob of that very key.
    Every Running check in between reports the job as running.
  */
  lemma {:induction false} HeldUntilFinished(lock: LockTable, key: string, ops: seq<LockOp>)
    requires key in lock
    requires forall i | 0 <= i < |ops| :: ops[i] != Finish(key)
    ensures key in Replay(lock, ops)
    decreases |ops|
  {
    if ops != [] {
      assert ops[0] != Finish(key);
      forall i | 0 <= i < |ops[1..]|
        ensures ops[1..][i] != Finish(key)
      {
        assert ops[1..][i] == ops[i + 1];
      }
      HeldUntilFinished(Step(lock, ops[0]), key, ops[1..]);
    }
  }

  /** Calls on other keys never change whether, or with what value, `key` is in the table. */
  lemma {:induction false} OtherKeysUntouched(lock: LockTable, key: string, ops: seq<LockOp>)
    requires forall i | 0 <= i < |ops| :: ops[i].key != key
    ensures key in Replay(lock, ops) <==> key in lock
    ensures key in lock ==> Replay(lock, ops)[key] == lock[key]
    decreases |ops|
  {
    if ops != [] {
      assert ops[0].key != key;
      forall i | 0 <= i < |ops[1..]|
        ensures ops[1..][i].key != key
      {
        assert ops[1..][i] == ops[i + 1];
      }
      OtherKeysUntouched(Step(lock, ops[0]), key, ops[1..]);
    }
  }

  /**
    The schedule client. The registry is fixed once loaded; the lock table is
    the only state its methods change. Reading and parsing the YAML schedule
    is not modelled: the constructor receives its result.
  */
  class Client {
    const jobList: map<string, Job>
    var jobLock: LockTable

    /** A client over a loaded registry, with no job running. */
    constructor (jobList: map<string, Job>)
      ensures this.jobList == jobList && jobLock == map[]
    {
      this.jobList := jobList;
      jobLock := map[];
    }

    /** The registry as it was loaded. */
    function JobList(): (jobs: map<string, Job>)
      ensures jobs.Keys == jobList.Keys
      ensures forall name | name in jobs :: jobs[name] == jobList[name]
    {
      jobList
    }

    /** Whether the job is running in its namespace; the table is only read. */
    method Running(name: string, job: Job) returns (running: bool)
      ensures running <==> JobKey(name, job) in jobLock
    {
      running := JobKey(name, job) in jobLock;
    }

    /** Marks the job running in its namespace; every other key keeps its presence and value. */
    method StartJob(name: string, job: Job)
      modifies this
      ensures jobLock == Started(old(jobLock), JobKey(name, job))
      ensures JobKey(name, job) in jobLock && jobLock[JobKey(name, job)] == RunningMarker
    {
      jobLock := jobLock[JobKey(name, job) := RunningMarker];
    }

    /** Removes the job's mark; on a job that is not running it changes nothing. */
    method FinishJob(name: string, job: Job)
      modifies this
      ensures jobLock == Finished(old(jobLock), JobKey(name, job))
      ensures JobKey(name, job) !in jobLock
      ensures JobKey(name, job) !in old(jobLock) ==> jobLock == old(jobLock)
    {
      jobLock := jobLock - {JobKey(name, job)};
    }
  }
}
