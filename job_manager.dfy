/**
 * Background-job bookkeeping (services/job_manager.py): a dictionary of job
 * records, each moving from RUNNING to COMPLETED, FAILED or CANCELLED.
 * Identifiers (`uuid4`) and timestamps (`utcnow`) are parameters; a timestamp
 * is an opaque number ordered like the ISO strings the source compares.
 */
module JobManager {
  import opened Wrappers
  import opened GraphUtils
  import Seqs

  datatype Status = Pending | Running | Completed | Failed | Cancelled
  {
    function Value(): string
    {
      match this
      case Pending => "pending"
      case Running => "running"
      case Completed => "completed"
      case Failed => "failed"
      case Cancelled => "cancelled"
    }
  }

  /** One job record. */
  datatype Job = Job(
    jobId: string,
    jobType: string,
    status: Status,
    startedAt: nat,
    completedAt: Option<nat>,
    progress: map<string, Value>,
    parameters: map<string, Value>,
    results: seq<Value>,
    error: Option<string>)

  /** The record `create_job` stores: running, not completed, no results, no error. */
  function NewJob(jobId: string, jobType: string, parameters: map<string, Value>,
                  progressFields: Option<map<string, Value>>, now: nat): (j: Job)
    ensures j.jobId == jobId && j.jobType == jobType && j.parameters == parameters
    ensures j.status == Running && j.startedAt == now && j.completedAt.None?
    ensures j.progress == progressFields.GetOr(map[]) && j.results == [] && j.error.None?
  {
    Job(jobId, jobType, Running, now, None, progressFields.GetOr(map[]), parameters, [], None)
  }

  /** `update_progress` on one record: the keys merge, later values winning, and a "result" is appended. */
  function Progressed(j: Job, progress: map<string, Value>): (r: Job)
    ensures r.progress.Keys == j.progress.Keys + progress.Keys
    ensures forall k :: k in progress ==> r.progress[k] == progress[k]
    ensures forall k :: k in j.progress && k !in progress ==> r.progress[k] == j.progress[k]
    ensures r.results == j.results + (if "result" in progress then [progress["result"]] else [])
    ensures r.(progress := j.progress, results := j.results) == j
  {
    j.(progress := j.progress + progress,
       results := if "result" in progress then j.results + [progress["result"]] else j.results)
  }

  /** `complete_job` on one record: whatever the status was; the results are replaced only by a non-empty list. */
  function Completion(j: Job, results: Option<seq<Value>>, now: nat): (r: Job)
    ensures r.status == Completed && r.completedAt == Some(now)
    ensures r.results == (if results.Some? && results.value != [] then results.value else j.results)
    ensures r.(status := j.status, completedAt := j.completedAt, results := j.results) == j
  {
    j.(status := Completed, completedAt := Some(now),
       results := if results.Some? && results.value != [] then results.value else j.results)
  }

  /** `fail_job` on one record: whatever the status was. */
  function Failure(j: Job, error: string, now: nat): (r: Job)
    ensures r.status == Failed && r.completedAt == Some(now) && r.error == Some(error)
    ensures r.(status := j.status, completedAt := j.completedAt, error := j.error) == j
  {
    j.(status := Failed, completedAt := Some(now), error := Some(error))
  }

  /** `cancel_job` on one record: only a running job is cancelled. */
  function Cancellation(j: Job, now: nat): (r: Option<Job>)
    ensures r.Some? <==> j.status == Running
    ensures r.Some? ==> r.value == j.(status := Cancelled, completedAt := Some(now))
  {
    if j.status != Running then None else Some(j.(status := Cancelled, completedAt := Some(now)))
  }

  /**
   * Neither completing nor failing checks the status: a cancelled job can
   * still be completed or failed, and a completed one failed.
   */
  lemma TerminalStatesOverwritten(j: Job, results: Option<seq<Value>>, error: string, now: nat)
    requires j.status == Cancelled
    ensures Completion(j, results, now).status == Completed
    ensures Failure(j, error, now).status == Failed
    ensures Failure(Completion(j, results, now), error, now).status == Failed
    ensures Cancellation(Completion(j, results, now), now).None?
  {
  }

  /** No operation ever produces PENDING, so a job made by `create_job` is never pending. */
  predicate NotPending(j: Job)
  {
    j.status != Pending
  }

  lemma NeverPending(j: Job, progress: map<string, Value>, results: Option<seq<Value>>, error: string, now: nat)
    requires NotPending(j)
    ensures NotPending(Progressed(j, progress)) && NotPending(Completion(j, results, now)) && NotPending(Failure(j, error, now))
    ensures Cancellation(j, now).Some? ==> NotPending(Cancellation(j, now).value)
  {
  }

  /** Python's `s[:limit]`: a negative limit counts from the end. */
  function Prefix<T>(s: seq<T>, limit: int): (r: seq<T>)
    ensures limit >= 0 ==> r == s[..if limit < |s| then limit else |s|]
    ensures limit < 0 ==> r == s[..if -limit < |s| then |s| + limit else 0]
  {
    if limit >= 0 then s[..if limit < |s| then limit else |s|]
    else s[..if -limit < |s| then |s| + limit else 0]
  }

  /** Sorted newest first. */
  predicate NewestFirst(js: seq<Job>)
  {
    forall i, k :: 0 <= i < k < |js| ==> js[i].startedAt >= js[k].startedAt
  }

  /** `job` placed after every job that started no earlier than it, so it follows its equals. */
  function Insert(job: Job, js: seq<Job>): (r: seq<Job>)
    ensures multiset(r) == multiset(js) + multiset{job} && |r| == |js| + 1
    decreases |js|
  {
    if js == [] || job.startedAt > js[0].startedAt then [job] + js
    else
      assert js == [js[0]] + js[1..];
      [js[0]] + Insert(job, js[1..])
  }

  lemma {:induction false} InsertSorted(job: Job, js: seq<Job>)
    requires NewestFirst(js)
    ensures NewestFirst(Insert(job, js))
    decreases |js|
  {
    if js != [] && job.startedAt <= js[0].startedAt {
      var rest := Insert(job, js[1..]);
      NewestFirstTail(js);
      InsertSorted(job, js[1..]);
      forall i | 0 <= i < |rest| ensures rest[i].startedAt <= js[0].startedAt {
        assert rest[i] in multiset(js[1..]) + multiset{job};
        if rest[i] != job {
          var k :| 0 <= k < |js[1..]| && js[1..][k] == rest[i];
          assert js[k + 1] == rest[i];
        }
      }
    }
  }

  /** `sort(key=started_at, reverse=True)` */
  function SortNewestFirst(js: seq<Job>): (r: seq<Job>)
    ensures NewestFirst(r) && multiset(r) == multiset(js) && |r| == |js|
    decreases |js|
  {
    if js == [] then []
    else
      assert js == js[..|js| - 1] + [js[|js| - 1]];
      var sorted := SortNewestFirst(js[..|js| - 1]);
      InsertSorted(js[|js| - 1], sorted);
      Insert(js[|js| - 1], sorted)
  }

  /** The jobs of `js` that started at `t`, in order. */
  function StartedAt(js: seq<Job>, t: nat): seq<Job>
  {
    if js == [] then [] else (if js[0].startedAt == t then [js[0]] else []) + StartedAt(js[1..], t)
  }

  lemma StartedAtCons(j: Job, rest: seq<Job>, t: nat)
    ensures StartedAt([j] + rest, t) == (if j.startedAt == t then [j] else []) + StartedAt(rest, t)
  {
    assert ([j] + rest)[1..] == rest;
  }

  lemma {:induction false} StartedAtAppend(a: seq<Job>, b: seq<Job>, t: nat)
    ensures StartedAt(a + b, t) == StartedAt(a, t) + StartedAt(b, t)
    decreases |a|
  {
    if a == [] {
      assert a + b == b;
    } else {
      assert a == [a[0]] + a[1..] && a + b == [a[0]] + (a[1..] + b);
      StartedAtCons(a[0], a[1..], t);
      StartedAtCons(a[0], a[1..] + b, t);
      StartedAtAppend(a[1..], b, t);
    }
  }

  lemma {:induction false} NoneStartedAt(js: seq<Job>, t: nat)
    requires forall i :: 0 <= i < |js| ==> js[i].startedAt < t
    ensures StartedAt(js, t) == []
    decreases |js|
  {
    if js != [] {
      NoneStartedAt(js[1..], t);
    }
  }

  lemma NewestFirstTail(js: seq<Job>)
    requires NewestFirst(js) && js != []
    ensures NewestFirst(js[1..])
  {
    forall i, k | 0 <= i < k < |js| - 1
      ensures js[1..][i].startedAt >= js[1..][k].startedAt
    {
      assert js[1..][i] == js[i + 1] && js[1..][k] == js[k + 1];
    }
  }

  /** A job that started after every job of a newest-first list goes in front, ahead of nothing with its start time. */
  lemma InsertFrontStable(job: Job, js: seq<Job>, t: nat)
    requires NewestFirst(js)
    requires js == [] || job.startedAt > js[0].startedAt
    ensures StartedAt([job] + js, t) == StartedAt(js, t) + (if job.startedAt == t then [job] else [])
  {
    StartedAtCons(job, js, t);
    if job.startedAt == t {
      NoneStartedAt(js, t);
    }
  }

  /** Inserting into a newest-first list puts `job` after the jobs that started at the same time. */
  lemma {:induction false} InsertStable(job: Job, js: seq<Job>, t: nat)
    requires NewestFirst(js)
    ensures StartedAt(Insert(job, js), t) == StartedAt(js, t) + (if job.startedAt == t then [job] else [])
    decreases |js|
  {
    if js == [] || job.startedAt > js[0].startedAt {
      assert Insert(job, js) == [job] + js;
      InsertFrontStable(job, js, t);
    } else {
      var rest := Insert(job, js[1..]);
      var head := if js[0].startedAt == t then [js[0]] else [];
      var tail := if job.startedAt == t then [job] else [];
      assert Insert(job, js) == [js[0]] + rest;
      assert js == [js[0]] + js[1..];
      NewestFirstTail(js);
      calc {
        StartedAt(Insert(job, js), t);
        { StartedAtCons(js[0], rest, t); }
        head + StartedAt(rest, t);
        { InsertStable(job, js[1..], t); }
        head + (StartedAt(js[1..], t) + tail);
        { Seqs.Concat3(head, StartedAt(js[1..], t), tail); }
        head + StartedAt(js[1..], t) + tail;
        { StartedAtCons(js[0], js[1..], t); }
        StartedAt(js, t) + tail;
      }
    }
  }

  lemma SortSnoc(js: seq<Job>)
    requires js != []
    ensures SortNewestFirst(js) == Insert(js[|js| - 1], SortNewestFirst(js[..|js| - 1]))
  {
  }

  lemma StartedAtSnoc(js: seq<Job>, t: nat)
    requires js != []
    ensures StartedAt(js, t) == StartedAt(js[..|js| - 1], t) + (if js[|js| - 1].startedAt == t then [js[|js| - 1]] else [])
  {
    var front, last := js[..|js| - 1], js[|js| - 1];
    assert js == front + [last];
    StartedAtAppend(front, [last], t);
    StartedAtCons(last, [], t);
    assert (if last.startedAt == t then [last] else []) + [] == (if last.startedAt == t then [last] else []);
  }

  /**
   * Jobs that started at the same time keep their input order, as Python's
   * sort guarantees also with `reverse=True`. With `SortNewestFirst`'s own
   * contract this fixes the result: a stable sort's output is determined by
   * its input.
   */
  lemma {:induction false} SortStable(js: seq<Job>, t: nat)
    ensures StartedAt(SortNewestFirst(js), t) == StartedAt(js, t)
    decreases |js|
  {
    if js != [] {
      var front, last := js[..|js| - 1], js[|js| - 1];
      var sortedFront := SortNewestFirst(front);
      calc {
        StartedAt(SortNewestFirst(js), t);
        { SortSnoc(js); }
        StartedAt(Insert(last, sortedFront), t);
        { InsertStable(last, sortedFront, t); }
        StartedAt(sortedFront, t) + (if last.startedAt == t then [last] else []);
        { SortStable(front, t); }
        StartedAt(front, t) + (if last.startedAt == t then [last] else []);
        { StartedAtSnoc(js, t); }
        StartedAt(js, t);
      }
    }
  }

  /** No job of `all` that the listing `r` leaves out started later than the last job listed. */
  predicate NoneLaterLeftOut(all: seq<Job>, r: seq<Job>)
  {
    r != [] ==> forall j: Job :: j in multiset(all) - multiset(r) ==> j.startedAt <= r[|r| - 1].startedAt
  }

  /** The jobs of `js` with the requested status, in order; every job when none is requested. */
  function WithStatus(js: seq<Job>, status: Option<Status>): (r: seq<Job>)
    ensures forall j :: j in r <==> j in js && (status.None? || j.status == status.value)
    ensures |r| <= |js|
  {
    if js == [] then []
    else
      var rest := WithStatus(js[..|js| - 1], status);
      assert forall j :: j in js <==> j in js[..|js| - 1] || j == js[|js| - 1];
      if status.None? || js[|js| - 1].status == status.value then rest + [js[|js| - 1]] else rest
  }

  /**
   * What the listing of `js` holds: jobs of `js` with the status, each at
   * most as often as the filter keeps it, newest first; `limit` of them
   * (for a negative limit, all but the last `-limit`); and none of the jobs
   * left out started later than the last one listed.
   */
  lemma Listing(js: seq<Job>, status: Option<Status>, limit: int)
    ensures var kept := WithStatus(js, status);
      var r := Prefix(SortNewestFirst(kept), limit);
      && NewestFirst(r)
      && multiset(r) <= multiset(kept)
      && (forall j :: j in r ==> j in js && (status.None? || j.status == status.value))
      && (0 <= limit ==> |r| == if limit < |kept| then limit else |kept|)
      && (limit < 0 ==> |r| == if -limit < |kept| then |kept| + limit else 0)
      && NoneLaterLeftOut(kept, r)
  {
    var kept := WithStatus(js, status);
    var sorted := SortNewestFirst(kept);
    PrefixOfSorted(sorted, limit);
    KeptMembers(js, status, Prefix(sorted, limit));
  }

  lemma KeptMembers(js: seq<Job>, status: Option<Status>, r: seq<Job>)
    requires multiset(r) <= multiset(WithStatus(js, status))
    ensures forall j :: j in r ==> j in js && (status.None? || j.status == status.value)
  {
    forall j | j in r ensures j in js && (status.None? || j.status == status.value) {
      assert j in multiset(r);
    }
  }

  lemma PrefixNewestFirst(sorted: seq<Job>, k: nat)
    requires NewestFirst(sorted) && k <= |sorted|
    ensures NewestFirst(sorted[..k])
  {
    forall i, m | 0 <= i < m < k
      ensures sorted[..k][i].startedAt >= sorted[..k][m].startedAt
    {
      assert sorted[..k][i] == sorted[i] && sorted[..k][m] == sorted[m];
    }
  }

  lemma RestNoLater(sorted: seq<Job>, k: nat)
    requires NewestFirst(sorted) && 0 < k <= |sorted|
    ensures forall j: Job :: j in multiset(sorted[k..]) ==> j.startedAt <= sorted[k - 1].startedAt
  {
    forall j: Job | j in multiset(sorted[k..])
      ensures j.startedAt <= sorted[k - 1].startedAt
    {
      assert j in sorted[k..];
      var i :| 0 <= i < |sorted[k..]| && sorted[k..][i] == j;
      assert sorted[k + i] == j;
    }
  }

  /** Every job of a newest-first list that the limit leaves out started no later than the last one listed. */
  lemma {:induction false} PrefixOfSorted(sorted: seq<Job>, limit: int)
    requires NewestFirst(sorted)
    ensures var r := Prefix(sorted, limit);
      && NewestFirst(r)
      && multiset(r) <= multiset(sorted)
      && NoneLaterLeftOut(sorted, r)
  {
    var r := Prefix(sorted, limit);
    var k := |r|;
    assert r == sorted[..k];
    assert sorted == r + sorted[k..];
    assert multiset(sorted) == multiset(r) + multiset(sorted[k..]);
    PrefixNewestFirst(sorted, k);
    if k > 0 {
      RestNoLater(sorted, k);
    }
  }

  /**
   * `JobManager`: `jobs` is the dictionary, `order` its keys in insertion
   * order (the order `values()` enumerates them in).
   */
  class Manager {
    const jobType: string
    var jobs: map<string, Job>
    var order: seq<string>

    constructor(jobType: string)
      ensures this.jobType == jobType && jobs == map[] && order == []
      ensures Valid()
    {
      this.jobType := jobType;
      jobs := map[];
      order := [];
    }

    /** Each record sits under its own id, has this manager's type and is not pending; `order` lists the keys once each. */
    predicate Valid()
      reads this
    {
      && (forall id :: id in jobs ==> jobs[id].jobId == id && jobs[id].jobType == jobType && NotPending(jobs[id]))
      && (forall id :: id in jobs ==> id in order)
      && (forall i :: 0 <= i < |order| ==> order[i] in jobs)
      && Distinct(order)
    }

    /** `create_job`. Storing under an id already present replaces that record in place. */
    method CreateJob(parameters: map<string, Value>, progressFields: Option<map<string, Value>>, jobId: string, now: nat)
      returns (id: string)
      requires Valid()
      modifies this
      ensures Valid()
      ensures id == jobId && jobs == old(jobs)[jobId := NewJob(jobId, jobType, parameters, progressFields, now)]
      ensures order == if jobId in old(jobs) then old(order) else old(order) + [jobId]
      ensures GetJob(jobId) == Some(NewJob(jobId, jobType, parameters, progressFields, now))
    {
      if jobId !in jobs {
        order := order + [jobId];
      }
      jobs := jobs[jobId := NewJob(jobId, jobType, parameters, progressFields, now)];
      id := jobId;
    }

    /** `update_progress`; an unknown id changes nothing. */
    method UpdateProgress(jobId: string, progress: map<string, Value>)
      requires Valid()
      modifies this
      ensures Valid() && order == old(order)
      ensures jobs == if jobId in old(jobs) then old(jobs)[jobId := Progressed(old(jobs)[jobId], progress)] else old(jobs)
    {
      if jobId in jobs {
        jobs := jobs[jobId := Progressed(jobs[jobId], progress)];
      }
    }

    /** `complete_job`; an unknown id changes nothing. */
    method CompleteJob(jobId: string, results: Option<seq<Value>>, now: nat)
      requires Valid()
      modifies this
      ensures Valid() && order == old(order)
      ensures jobs == if jobId in old(jobs) then old(jobs)[jobId := Completion(old(jobs)[jobId], results, now)] else old(jobs)
    {
      if jobId in jobs {
        jobs := jobs[jobId := Completion(jobs[jobId], results, now)];
      }
    }

    /** `fail_job`; an unknown id changes nothing. */
    method FailJob(jobId: string, error: string, now: nat)
      requires Valid()
      modifies this
      ensures Valid() && order == old(order)
      ensures jobs == if jobId in old(jobs) then old(jobs)[jobId := Failure(old(jobs)[jobId], error, now)] else old(jobs)
    {
      if jobId in jobs {
        jobs := jobs[jobId := Failure(jobs[jobId], error, now)];
      }
    }

    /** `cancel_job`: true and CANCELLED exactly for a running job; otherwise false and nothing changes. */
    method CancelJob(jobId: string, now: nat) returns (ok: bool)
      requires Valid()
      modifies this
      ensures Valid() && order == old(order)
      ensures ok <==> jobId in old(jobs) && old(jobs)[jobId].status == Running
      ensures ok ==> jobs == old(jobs)[jobId := Cancellation(old(jobs)[jobId], now).value]
      ensures !ok ==> jobs == old(jobs)
    {
      if jobId !in jobs {
        return false;
      }
      var cancelled := Cancellation(jobs[jobId], now);
      if cancelled.None? {
        return false;
      }
      jobs := jobs[jobId := cancelled.value];
      ok := true;
    }

    /** `get_job`: the record stored under the id, or none for an unknown id. */
    function GetJob(jobId: string): (r: Option<Job>)
      reads this
      ensures r.Some? <==> jobId in jobs
      ensures r.Some? && Valid() ==> r.value.jobId == jobId && r.value.jobType == jobType && r.value.status != Pending
    {
      if jobId in jobs then Some(jobs[jobId]) else None
    }

    /** `delete_job`: removes a job unless it is unknown or still running. */
    method DeleteJob(jobId: string) returns (ok: bool)
      requires Valid()
      modifies this
      ensures Valid()
      ensures ok <==> jobId in old(jobs) && old(jobs)[jobId].status != Running
      ensures ok ==> jobs == old(jobs) - {jobId} && GetJob(jobId).None?
      ensures !ok ==> jobs == old(jobs) && order == old(order)
    {
      if jobId !in jobs || jobs[jobId].status == Running {
        return false;
      }
      ghost var before := order;
      jobs := jobs - {jobId};
      order := Remove(order, jobId);
      forall i | 0 <= i < |order| ensures order[i] in jobs {
        assert order[i] in before && order[i] != jobId;
      }
      ok := true;
    }

    /** `list(self._jobs.values())` */
    function Values(): (r: seq<Job>)
      reads this
      requires Valid()
      ensures |r| == |order| && forall i :: 0 <= i < |order| ==> r[i] == jobs[order[i]]
      ensures forall j :: j in r ==> j in jobs.Values && NotPending(j)
    {
      seq(|order|, i reads this requires 0 <= i < |order| && Valid() => jobs[order[i]])
    }

    /**
     * `list_jobs`: the jobs with the requested status, newest first, cut to
     * `limit`. None is pending.
     */
    function ListJobs(status: Option<Status>, limit: int): (r: seq<Job>)
      reads this
      requires Valid()
      ensures NewestFirst(r)
      ensures forall j :: j in r ==> j in jobs.Values && (status.None? || j.status == status.value) && NotPending(j)
      ensures multiset(r) <= multiset(WithStatus(Values(), status))
      ensures 0 <= limit ==> |r| == if limit < |WithStatus(Values(), status)| then limit else |WithStatus(Values(), status)|
      ensures limit < 0 ==> |r| == if -limit < |WithStatus(Values(), status)| then |WithStatus(Values(), status)| + limit else 0
      ensures NoneLaterLeftOut(WithStatus(Values(), status), r)
    {
      var js := Values();
      Listing(js, status, limit);
      Prefix(SortNewestFirst(WithStatus(js, status)), limit)
    }
  }

  /** The three process-wide managers, by job type. */
  datatype Kind = BatchQuery | Scraper | Rebuild
  {
    function JobType(): string
    {
      match this
      case BatchQuery => "batch_query"
      case Scraper => "scraper"
      case Rebuild => "rebuild"
    }
  }

  /** The module-level singletons: each manager is created on first request and shared afterwards. */
  class Registry {
    var managers: map<Kind, Manager>

    constructor()
      ensures managers == map[]
    {
      managers := map[];
    }

    predicate Valid()
      reads this, managers.Values
    {
      forall k :: k in managers ==> managers[k].jobType == k.JobType()
    }

    /** `get_batch_query_manager`, `get_scraper_manager`, `get_rebuild_manager` */
    method Get(kind: Kind) returns (m: Manager)
      requires Valid()
      modifies this
      ensures Valid()
      ensures kind in old(managers) ==> m == old(managers)[kind] && managers == old(managers)
      ensures kind !in old(managers) ==> fresh(m) && m.jobs == map[] && m.Valid() && managers == old(managers)[kind := m]
      ensures m.jobType == kind.JobType()
    {
      if kind !in managers {
        var created := new Manager(kind.JobType());
        managers := managers[kind := created];
      }
      m := managers[kind];
    }
  }

  predicate Distinct(s: seq<string>)
  {
    forall i, k :: 0 <= i < k < |s| ==> s[i] != s[k]
  }

  /** `order` without `id`. */
  function Remove(order: seq<string>, id: string): (r: seq<string>)
    ensures forall x :: x in r <==> x in order && x != id
    ensures Distinct(order) ==> Distinct(r)
  {
    if order == [] then []
    else
      var front, last := order[..|order| - 1], order[|order| - 1];
      var rest := Remove(front, id);
      assert forall x :: x in order <==> x in front || x == last;
      if last == id then
        assert Distinct(order) ==> Distinct(front);
        rest
      else
        assert Distinct(order) ==> Distinct(front) && last !in front;
        DistinctSnoc(rest, last);
        rest + [last]
  }

  lemma DistinctSnoc(s: seq<string>, x: string)
    ensures Distinct(s) && x !in s ==> Distinct(s + [x])
  {
  }
}
