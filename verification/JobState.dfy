/** The job registry of a host (host/state.go), updated in place. */
module JobState {
  import opened Collections
  import opened Options
  import opened JobTable
  import opened JobLives

  /** What AddJob returns. */
  datatype AddResult = Added | JobExists | VolumesInUse(volumes: seq<string>)

  /** How far a call of CloseDB is that had to wait. */
  datatype Closer = Checking | Asleep | Finished

  /** Broadcast wakes everybody who sleeps. */
  ghost predicate Woken(before: seq<Closer>, after: seq<Closer>) {
    |after| == |before| && forall i | 0 <= i < |before| ::
      after[i] == if before[i] == Asleep then Checking else before[i]
  }

  /** Every method is one critical section. */
  class State {
    var jobs: map<string, ActiveJob>
    var lists: Lists
    var bucket: map<string, Option<ActiveJob>>
    var archive: map<string, ActiveJob>
    var open: bool               // stateDB != nil
    var users: int               // dbUsers
    var closers: seq<Closer>     // calls of CloseDB that had to wait
    ghost var log: seq<Notice>   // events sent

    constructor ()
      ensures View() == Empty() && open && users == 0 && closers == [] && Valid()
    {
      jobs, lists, bucket, archive, log := map[], map[], map[], map[], [];
      open, users, closers := true, 0, [];
    }

    ghost function View(): Table
      reads this
    {
      Table(jobs, lists, bucket, archive, log)
    }

    /** While somebody uses the state, its database is open; and only then somebody sleeps
        until the last user leaves. */
    ghost predicate Valid()
      reads this`open, this`users, this`closers
    {
      (users > 0 ==> open) && forall i | 0 <= i < |closers| && closers[i] == Asleep :: users > 0
    }

    method Acquire() returns (ok: bool)
      requires Valid()
      modifies this`users
      ensures Valid() && ok == open && users == old(users) + (if ok then 1 else 0)
    {
      ok := open;
      if ok {
        users := users + 1;
      }
    }

    /** The last user to leave wakes everybody who waits to close the database. */
    method Release()
      requires Valid()
      modifies this`users, this`closers
      ensures Valid() && users == old(users) - 1
      ensures if users == 0 then Woken(old(closers), closers) else closers == old(closers)
    {
      users := users - 1;
      if users == 0 {
        Broadcast();
      }
    }

    method Broadcast()
      modifies this`closers
      ensures Woken(old(closers), closers)
    {
      for i := 0 to |closers|
        invariant |closers| == old(|closers|)
        invariant Woken(old(closers)[..i], closers[..i]) && closers[i..] == old(closers)[i..]
      {
        ghost var before := closers;
        assert closers[i] == old(closers)[i];
        if closers[i] == Asleep {
          closers := closers[i := Checking];
        }
        assert closers[..i + 1] == before[..i] + [closers[i]];
      }
      assert closers[..|closers|] == closers && old(closers)[..|closers|] == old(closers);
    }

    /** OpenDB: a database that is closed is opened, if it can be. */
    method OpenDB(canOpen: bool) returns (ok: bool)
      requires Valid()
      modifies this`open
      ensures Valid() && ok == open && (open <==> old(open) || canOpen)
    {
      if !open && canOpen {
        open := true;
      }
      ok := open;
    }

    /** CloseDB, up to the point where it returns or goes to sleep. */
    method CloseDB() returns (returned: bool)
      requires Valid()
      modifies this`open, this`closers
      ensures Valid() && returned == !open && (open <==> old(open) && users > 0)
      ensures closers == if returned then old(closers) else old(closers) + [Asleep]
    {
      if open {
        if users > 0 {
          closers := closers + [Asleep];
        } else {
          open := false;
        }
      }
      returned := !open;
    }

    /** A call of CloseDB that was woken checks again. It fails where another one has closed
        the database in between. */
    method CheckAgain(i: nat) returns (ok: bool)
      requires Valid() && i < |closers| && closers[i] == Checking
      modifies this`open, this`closers
      ensures Valid() && closers == old(closers)[i := if users > 0 then Asleep else Finished]
      ensures (ok <==> users > 0 || old(open)) && (open <==> old(open) && users > 0)
    {
      ok := true;
      if users > 0 {
        closers := closers[i := Asleep];
      } else {
        ok := open;
        open := false;
        closers := closers[i := Finished];
      }
    }

    /** No wake-up is lost: without users nobody waits to close the database. */
    lemma NobodyWaitsForNothing(i: nat)
      requires Valid() && users <= 0 && i < |closers|
      ensures closers[i] != Asleep
    {
    }

    method PruneDownJobs(app: string)
      requires app in lists
      modifies this`jobs, this`lists, this`bucket, this`archive
      ensures View() == Prune(old(View()), app)
    {
      while |lists[app]| > MAX_DOWN_JOBS_PER_APP
        invariant app in lists && Prune(View(), app) == Prune(old(View()), app)
        decreases |ListOf(lists, app)|
      {
        ghost var next := DropLast(View(), app);
        var last := |lists[app]| - 1;
        var id := lists[app][last];
        if id in jobs {
          archive := archive[id := jobs[id]];
        }
        bucket := bucket - {id};
        jobs := jobs - {id};
        lists := lists[app := lists[app][..last]];
        assert View() == next;
      }
    }

    method TrackDownJob(j: ActiveJob)
      requires j.job.Some?
      modifies this`jobs, this`lists, this`bucket, this`archive
      ensures View() == Track(old(View()), j)
    {
      var app := JobOf(j).app;
      if app !in lists {
        lists := lists[app := []];
      }
      lists := lists[app := [JobOf(j).id] + lists[app]];
      assert lists == old(lists)[app := [JobOf(j).id] + ListOf(old(lists), app)];
      if |lists[app]| > MAX_DOWN_JOBS_PER_APP {
        PruneDownJobs(app);
      }
    }

    /** Persisting the job does not fail for want of a name. */
    predicate Nameable(id: string)
      reads this`jobs
    {
      id in jobs && Down(jobs[id].status) ==> jobs[id].job.Some?
    }

    method Persist(id: string)
      requires open && Nameable(id)
      modifies this`jobs, this`lists, this`bucket, this`archive
      ensures View() == JobTable.Persist(old(View()), id)
    {
      if id in jobs {
        if Down(jobs[id].status) {
          TrackDownJob(jobs[id]);
        }
        bucket := bucket[id := if id in jobs then Some(jobs[id]) else None];
      }
    }

    /** The innermost loop of AddJob: note the volume for each time that a job has it. */
    method AppendUses(inUse: seq<string>, volumes: seq<string>, volume: string) returns (more: seq<string>)
      ensures forall v :: v in more <==> v in inUse || (v == volume && volume in volumes)
    {
      more := inUse;
      for k := 0 to |volumes|
        invariant forall v :: v in more <==> v in inUse || (v == volume && volume in volumes[..k])
      {
        if volumes[k] == volume {
          more := more + [volume];
        }
        assert volumes[..k + 1] == volumes[..k] + [volumes[k]];
      }
      assert volumes[..|volumes|] == volumes;
    }

    /** The middle loop: note the volume for each time that an active job has it. */
    method AppendAllUses(inUse: seq<string>, volume: string) returns (more: seq<string>)
      requires forall id | id in jobs && Active(jobs[id].status) :: jobs[id].job.Some?
      ensures forall v :: v in more <==> v in inUse || (v == volume && InUse(jobs, volume))
    {
      more := inUse;
      var left := jobs.Keys;
      while left != {}
        invariant left <= jobs.Keys
        invariant forall v :: v in more <==> v in inUse || (v == volume && UsedIn(jobs, jobs.Keys - left, volume))
        decreases |left|
      {
        var id :| id in left;
        UsedInOneMore(jobs, jobs.Keys - left, id, volume);
        assert jobs.Keys - (left - {id}) == (jobs.Keys - left) + {id};
        left := left - {id};
        if Active(jobs[id].status) {
          more := AppendUses(more, JobOf(jobs[id]).volumes, volume);
        }
      }
      assert UsedIn(jobs, jobs.Keys - {}, volume) <==> InUse(jobs, volume);
    }

    /** The volumes of a job that active jobs use, once for each such use. */
    method FindVolumesInUse(j: Job) returns (inUse: seq<string>)
      requires j.volumes != [] ==> forall id | id in jobs && Active(jobs[id].status) :: jobs[id].job.Some?
      ensures forall v :: v in inUse <==> v in j.volumes && InUse(jobs, v)
    {
      inUse := [];
      for k := 0 to |j.volumes|
        invariant forall v :: v in inUse <==> v in j.volumes[..k] && InUse(jobs, v)
      {
        inUse := AppendAllUses(inUse, j.volumes[k]);
        assert j.volumes[..k + 1] == j.volumes[..k] + [j.volumes[k]];
      }
      assert j.volumes[..|j.volumes|] == j.volumes;
    }

    /** AddJob: a job with a new ID is taken if none of its volumes is in use. */
    method AddJob(j: Job, now: int) returns (r: AddResult)
      requires open && (j.volumes != [] ==> forall id | id in jobs && Active(jobs[id].status) :: jobs[id].job.Some?)
      modifies this`jobs, this`lists, this`bucket, this`archive, this`log
      ensures View() == Apply(old(View()), Add(j, now))
      ensures r.JobExists? <==> j.id in old(jobs)
      ensures r.Added? <==> Takes(old(View()), Add(j, now))
      ensures r.VolumesInUse? ==> r.volumes != []
      ensures r.VolumesInUse? ==> forall v :: v in r.volumes <==> v in j.volumes && InUse(old(jobs), v)
    {
      if j.id in jobs {
        return JobExists;
      }
      var inUse := FindVolumesInUse(j);
      if |inUse| > 0 {
        assert inUse[0] in inUse;
        return VolumesInUse(inUse);
      }
      jobs := jobs[j.id := ActiveJob(Some(j), Starting, now, 0, 0, None, None, "", None, false)];
      log := log + [Created(j.id)];
      Persist(j.id);
      r := Added;
    }

    /** GetJob: also a job that was archived. */
    method GetJob(id: string) returns (r: Option<ActiveJob>)
      requires if id in jobs then jobs[id].job.Some? else open
      ensures r == Lookup(View(), id)
    {
      if id in jobs {
        return Some(jobs[id]);
      }
      r := if id in archive then Some(archive[id]) else None;
    }

    /** Send an event, and persist the job if the database is open. */
    method Announce(id: string, n: Notice)
      requires Valid() && Nameable(id)
      modifies this`jobs, this`lists, this`bucket, this`archive, this`log, this`users, this`closers
      ensures Valid() && users == old(users) && closers == old(closers)
      ensures View() == var t := old(View()).(log := old(log) + [n]); if open then JobTable.Persist(t, id) else t
    {
      log := log + [n];
      var ok := Acquire();
      if ok {
        Persist(id);
        Release();
      }
    }

    /** The table after a status change: it is persisted only while the database is open. */
    ghost predicate Became(t: Table, op: Op)
      reads this
    {
      View() == if open then Apply(t, op) else if Takes(t, op) then Change(t, op) else t
    }

    method SetStatusRunning(id: string, now: int)
      requires Valid() && (Takes(View(), SetRunning(id, now)) ==> jobs[id].job.Some?)
      modifies this`jobs, this`lists, this`bucket, this`archive, this`log, this`users, this`closers
      ensures Valid() && users == old(users) && closers == old(closers) && Became(old(View()), SetRunning(id, now))
    {
      if id !in jobs || jobs[id].status != Starting {
        return;
      }
      jobs := jobs[id := jobs[id].(startedAt := now, status := Running)];
      Announce(id, Started(JobOf(jobs[id]).id));
    }

    method SetStatusDone(id: string, exitStatus: int, now: int)
      requires Valid()
      requires (Takes(View(), SetDone(id, exitStatus, now)) ==> jobs[id].job.Some? && Nameable(JobOf(jobs[id]).id))
      modifies this`jobs, this`lists, this`bucket, this`archive, this`log, this`users, this`closers
      ensures Valid() && users == old(users) && closers == old(closers)
      ensures Became(old(View()), SetDone(id, exitStatus, now))
    {
      if id !in jobs {
        return;
      }
      var job := jobs[id];
      if job.status == Done || job.status == Crashed || job.status == Failed {
        return;
      }
      job := job.(endedAt := now, exitStatus := Some(exitStatus));
      if exitStatus == 0 {
        job := job.(status := Done);
      } else {
        job := job.(status := Crashed);
      }
      job := job.(pid := None);
      jobs := jobs[id := job];
      Announce(JobOf(job).id, Stopped(JobOf(job).id));
    }

    method SetStatusFailed(id: string, error: string, now: int)
      requires Valid() && (Takes(View(), SetFailed(id, error, now)) ==> jobs[id].job.Some?)
      modifies this`jobs, this`lists, this`bucket, this`archive, this`log, this`users, this`closers
      ensures Valid() && users == old(users) && closers == old(closers)
      ensures Became(old(View()), SetFailed(id, error, now))
    {
      if id !in jobs || jobs[id].status == Done || jobs[id].status == Crashed || jobs[id].status == Failed {
        return;
      }
      jobs := jobs[id := jobs[id].(status := Failed, endedAt := now, error := Some(error), pid := None)];
      Announce(id, Errored(JobOf(jobs[id]).id));
    }

    method SetForceStop(id: string)
      requires id in jobs ==> open && Nameable(id)
      modifies this`jobs, this`lists, this`bucket, this`archive
      ensures View() == Apply(old(View()), JobTable.SetForceStop(id))
    {
      if id !in jobs {
        return;
      }
      jobs := jobs[id := jobs[id].(forceStop := true)];
      Persist(id);
      assert old(log) + [] == log;
    }

    method SetContainerIP(id: string, ip: string)
      requires id in jobs && open && Nameable(id)
      modifies this`jobs, this`lists, this`bucket, this`archive
      ensures View() == Apply(old(View()), JobTable.SetContainerIP(id, ip))
    {
      jobs := jobs[id := jobs[id].(internalIP := ip)];
      Persist(id);
      assert old(log) + [] == log;
    }

    method SetContainerPID(id: string, pid: int)
      requires id in jobs && open && Nameable(id)
      modifies this`jobs, this`lists, this`bucket, this`archive
      ensures View() == Apply(old(View()), JobTable.SetContainerPID(id, pid))
    {
      jobs := jobs[id := jobs[id].(pid := Some(pid))];
      Persist(id);
      assert old(log) + [] == log;
    }

    /** The job loop of Restore in a new process, over the saved jobs in any order. */
    method Restore(now: int) returns (ghost keys: seq<string>)
      requires open && jobs == map[] && lists == map[] && log == []
      requires forall k | k in bucket && bucket[k].Some? && Down(bucket[k].value.status) :: bucket[k].value.job.Some?
      modifies this`jobs, this`lists, this`bucket, this`archive
      ensures Enumerates(keys, old(bucket)) && View() == Restored(old(bucket), old(archive), keys, now)
    {
      keys := [];
      ghost var saved, kept := bucket, archive;
      var left := bucket.Keys;
      while left != {}
        invariant left <= saved.Keys && Distinct(keys) && forall k :: k in keys <==> k in saved.Keys - left
        invariant View() == Restored(saved, kept, keys, now)
        decreases |left|
      {
        var key :| key in left;
        left := left - {key};
        assert key !in keys && (keys + [key])[..|keys|] == keys;
        keys := keys + [key];
        RestoreJob(key, now);
      }
    }

    method RestoreJob(key: string, now: int)
      requires key in bucket && (bucket[key].Some? && Down(bucket[key].value.status) ==> bucket[key].value.job.Some?)
      modifies this`jobs, this`lists, this`bucket, this`archive
      ensures View() == RestoreOne(old(View()), key, now)
    {
      var job := if bucket[key].Some? then bucket[key].value else Blank();
      if job.createdAt == 0 {
        job := job.(createdAt := now);
      }
      jobs := jobs[key := job];
      if Down(job.status) {
        var saved, kept := bucket, archive;
        TrackDownJob(job);
        bucket, archive := saved, kept;   // the transaction cannot write
      }
    }
  }

  /** Some active job among the IDs has the volume. */
  ghost predicate UsedIn(jobs: map<string, ActiveJob>, ids: set<string>, volume: string) {
    exists id :: id in ids && id in jobs && Active(jobs[id].status) && volume in JobOf(jobs[id]).volumes
  }

  lemma {:induction false} UsedInOneMore(jobs: map<string, ActiveJob>, ids: set<string>, id: string, volume: string)
    requires id in jobs
    ensures UsedIn(jobs, ids + {id}, volume)
            <==> UsedIn(jobs, ids, volume) || (Active(jobs[id].status) && volume in JobOf(jobs[id]).volumes)
  {
  }
}
