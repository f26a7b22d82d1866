/** The job registry over the lives of its process (host/state.go): operations, closing and
    reopening the database, and restarts that restore what was saved. */
module JobLives {
  import opened Collections
  import opened Options
  import opened JobTable

  type Bucket = map<string, Option<ActiveJob>>

  /** What is restored from a saved null. */
  function Blank(): ActiveJob {
    ActiveJob(None, Starting, 0, 0, 0, None, None, "", None, false)
  }

  /** A saved job as Restore takes it over. */
  function Revived(saved: Option<ActiveJob>, now: int): ActiveJob {
    var j := if saved.Some? then saved.value else Blank();
    if j.createdAt == 0 then j.(createdAt := now) else j
  }

  /** Restore, one entry of the jobs bucket. Its transaction cannot write. */
  function RestoreOne(t: Table, key: string, now: int): Table
    requires key in t.bucket
  {
    var j := Revived(t.bucket[key], now);
    var u := t.(jobs := t.jobs[key := j]);
    if Down(j.status) then Track(u, j).(bucket := t.bucket, archive := t.archive) else u
  }

  /** The job loop of Restore in a new process, over the keys in some order. */
  ghost function Restored(bucket: Bucket, archive: map<string, ActiveJob>, keys: seq<string>, now: int): (r: Table)
    requires forall k | k in keys :: k in bucket
    ensures r.bucket == bucket && r.archive == archive
  {
    if keys == [] then Table(map[], map[], bucket, archive, [])
    else RestoreOne(Restored(bucket, archive, keys[..|keys| - 1], now), keys[|keys| - 1], now)
  }

  /** The keys of a bucket in some order. */
  ghost predicate Enumerates(keys: seq<string>, bucket: Bucket) {
    Distinct(keys) && forall k :: k in keys <==> k in bucket
  }

  /** A saved job fits its key, is dated, and is in the list of its app if it is down. */
  ghost predicate Proper(id: string, j: ActiveJob, lists: Lists) {
    Fit(id, j) && j.createdAt != 0 && (Down(j.status) ==> id in ListOf(lists, JobOf(j).app))
  }

  ghost predicate Covered(bucket: Bucket, lists: Lists) {
    forall id {:trigger Proper(id, bucket[id].value, lists)} | id in bucket && bucket[id].Some? ::
      Proper(id, bucket[id].value, lists)
  }

  lemma {:induction false} DistinctWithin(few: seq<string>, many: seq<string>, other: string)
    requires Distinct(few) && (forall v | v in few :: v in many && v != other) && other in many
    ensures |few| < |many|
  {
    var k :| 0 <= k < |many| && many[k] == other;
    if few != [] {
      var init, last := few[..|few| - 1], few[|few| - 1];
      assert last in few;
      var m :| 0 <= m < |many| && many[m] == last;
      var rest := many[..m] + many[m + 1..];
      forall v | v in init
        ensures v in rest && v != other
      {
        var i :| 0 <= i < |init| && init[i] == v;
        assert few[i] == v && v != last && v in few;
        var n :| 0 <= n < |many| && many[n] == v;
        assert v == if n < m then rest[n] else rest[n - 1];
      }
      assert other == if k < m then rest[k] else rest[k - 1];
      DistinctWithin(init, rest, other);
    }
  }

  /** So far Restore has revived saved jobs, and lists exactly those that are down. */
  ghost predicate Reviving(r: Table, bucket: Bucket, now: int) {
    && r.bucket == bucket && Tracked(r.jobs, r.lists) && Bounded(r.lists)
    && forall v | v in r.jobs :: v in bucket && r.jobs[v] == Revived(bucket[v], now)
  }

  /** A restored list has room for a job that is still to come. */
  lemma {:induction false} RoomToRestore(bucket: Bucket, lists: Lists, r: Table, id: string, now: int)
    requires Covered(bucket, lists) && Bounded(lists) && Reviving(r, bucket, now)
    requires id in bucket && id !in r.jobs && Down(Revived(bucket[id], now).status)
    ensures bucket[id].Some? && Proper(id, bucket[id].value, lists)
    ensures |ListOf(r.lists, JobOf(bucket[id].value).app)| < MAX_DOWN_JOBS_PER_APP
  {
    assert Proper(id, bucket[id].value, lists);
    var app := JobOf(bucket[id].value).app;
    var few, many := ListOf(r.lists, app), ListOf(lists, app);
    forall v | v in few
      ensures v in many && v != id
    {
      assert DownIn(r.jobs, v, app) && Proper(v, bucket[v].value, lists);
    }
    DistinctWithin(few, many, id);
  }

  lemma {:induction false} RestoreOneKeeps(bucket: Bucket, lists: Lists, r: Table, id: string, now: int)
    requires Covered(bucket, lists) && Bounded(lists) && Reviving(r, bucket, now) && id in bucket && id !in r.jobs
    ensures Reviving(RestoreOne(r, id, now), bucket, now)
    ensures RestoreOne(r, id, now).jobs == r.jobs[id := Revived(bucket[id], now)]
  {
    var j := Revived(bucket[id], now);
    if Down(j.status) {
      RoomToRestore(bucket, lists, r, id, now);
      var c := r.(jobs := r.jobs[id := j]);
      TrackIs(c, j);
      assert Victim(r.lists, JobOf(j).app) == {};
      TrackedPush(r.jobs, r.lists, id, j);
    } else {
      TrackedOn(r.jobs, r.lists, id, j);
    }
  }

  lemma {:induction false} RestoresPrefix(bucket: Bucket, archive: map<string, ActiveJob>, lists: Lists,
                                          keys: seq<string>, now: int)
    requires Covered(bucket, lists) && Bounded(lists) && Distinct(keys) && forall k | k in keys :: k in bucket
    ensures Reviving(Restored(bucket, archive, keys, now), bucket, now)
    ensures forall v :: v in Restored(bucket, archive, keys, now).jobs <==> v in keys
  {
    if keys != [] {
      var init, last := keys[..|keys| - 1], keys[|keys| - 1];
      RestoresPrefix(bucket, archive, lists, init, now);
      assert last !in init && keys == init + [last];
      RestoreOneKeeps(bucket, lists, Restored(bucket, archive, init, now), last, now);
    }
  }

  /** Restore revives every saved job, whatever the order of the keys, prunes none, and
      lists under each app exactly its jobs that are down. */
  lemma {:induction false} RestoreRevives(bucket: Bucket, archive: map<string, ActiveJob>, lists: Lists,
                                          keys: seq<string>, now: int)
    requires Covered(bucket, lists) && Bounded(lists) && Enumerates(keys, bucket)
    ensures var r := Restored(bucket, archive, keys, now);
            && r.jobs == (map id | id in bucket :: Revived(bucket[id], now))
            && Tracked(r.jobs, r.lists) && Bounded(r.lists)
  {
    RestoresPrefix(bucket, archive, lists, keys, now);
    var r := Restored(bucket, archive, keys, now);
    assert r.jobs.Keys == bucket.Keys;
  }

  /** A host, with its database open or closed. */
  datatype Host = Host(table: Table, open: bool)

  datatype Step = Do(op: Op) | CloseDB | OpenDB | Restart(keys: seq<string>, now: int)

  /** What can happen: without the database only a status changes; jobs are added with new
      IDs, and dated by the clock; and a new process finds the bucket. */
  ghost predicate Possible(h: Host, step: Step, known: set<string>) {
    match step
    case Do(op) =>
      && (h.open || !Takes(h.table, op) || op.SetRunning? || op.SetDone? || op.SetFailed?)
      && Callable(h.table, op) && Fresh(h.table, op, known) && (op.Add? ==> op.now != 0)
    case CloseDB => true
    case OpenDB => true
    case Restart(keys, now) => Enumerates(keys, h.table.bucket) && now != 0
  }

  ghost function Next(h: Host, step: Step): Host
    requires step.Restart? ==> Enumerates(step.keys, h.table.bucket)
  {
    match step
    case Do(op) =>
      if h.open then h.(table := Apply(h.table, op))
      else if Takes(h.table, op) then h.(table := Change(h.table, op))
      else h
    case CloseDB => h.(open := false)
    case OpenDB => h.(open := true)
    case Restart(keys, now) => Host(Restored(h.table.bucket, h.table.archive, keys, now).(log := h.table.log), true)
  }

  ghost function KnownNext(h: Host, step: Step, known: set<string>): set<string> {
    if step.Do? then Known(h.table, step.op, known) else known
  }

  ghost predicate Dated(jobs: map<string, ActiveJob>) {
    forall id | id in jobs :: jobs[id].createdAt != 0
  }

  /** The job of a saved record. */
  function SavedJob(saved: Option<ActiveJob>): Option<Job> {
    if saved.Some? then saved.value.job else None
  }

  /** Every live job has an entry, and every entry that is not null is that of a live job;
      what it says about the status may be out of date. */
  ghost predicate Matched(jobs: map<string, ActiveJob>, bucket: Bucket) {
    && jobs.Keys <= bucket.Keys
    && forall id | id in bucket ::
         (bucket[id].Some? ==> id in jobs) && (id in jobs ==> jobs[id].job == SavedJob(bucket[id]))
  }

  /** What holds on every run: every job ever added is live or archived, or in the place of
      one there is a null that was restored; every record agrees with itself; and what is
      saved can be restored. */
  ghost predicate Inv(t: Table, known: set<string>) {
    && Safe(t, known) && Dated(t.jobs) && Covered(t.bucket, t.lists) && Matched(t.jobs, t.bucket)
    && t.bucket.Keys <= known && AllCoherent(t)
  }

  /** A job that is pushed stays on its list, and so do the others but for the victim. */
  lemma {:induction false} StaysListed(lists: Lists, app: string, id: string, at: string, v: string)
    requires Bounded(lists) && v in ListOf(lists, at) && !(at == app && v in Victim(lists, app))
    ensures v in ListOf(lists[app := Front([id] + ListOf(lists, app))], at)
  {
    if at == app {
      var l, f := ListOf(lists, app), Front([id] + ListOf(lists, app));
      var k :| 0 <= k < |l| && l[k] == v;
      assert f[k + 1] == v;
    }
  }

  lemma {:induction false} CoveredMoved(t: Table, u: Table, id: string, j: ActiveJob, gone: set<string>)
    requires Covered(t.bucket, t.lists) && Bounded(t.lists) && Moved(t, u, id, j, gone) && j.createdAt != 0
    ensures Covered(u.bucket, u.lists)
  {
    forall v {:trigger Proper(v, u.bucket[v].value, u.lists)} | v in u.bucket && u.bucket[v].Some?
      ensures Proper(v, u.bucket[v].value, u.lists)
    {
      if v == id {
        assert Down(j.status) ==> u.lists[JobOf(j).app][0] == id;
      } else {
        assert Proper(v, t.bucket[v].value, t.lists);
        if Down(t.bucket[v].value.status) && Down(j.status) {
          StaysListed(t.lists, JobOf(j).app, id, JobOf(t.bucket[v].value).app, v);
        }
      }
    }
  }

  lemma {:induction false} MatchedMoved(t: Table, u: Table, id: string, j: ActiveJob, gone: set<string>)
    requires Moved(t, u, id, j, gone) && Matched(t.jobs, t.bucket)
    ensures Matched(u.jobs, u.bucket)
  {
  }

  lemma {:induction false} DatedMoved(t: Table, u: Table, id: string, j: ActiveJob, gone: set<string>)
    requires Moved(t, u, id, j, gone) && Dated(t.jobs) && j.createdAt != 0
    ensures Dated(u.jobs) && u.bucket.Keys <= t.bucket.Keys + {id}
  {
  }

  /** An operation on an open database, whatever was missed while it was closed. */
  lemma {:induction false} OpenKeeps(t: Table, op: Op, known: set<string>)
    requires Inv(t, known) && Possible(Host(t, true), Do(op), known)
    ensures Inv(Apply(t, op), Known(t, op, known))
  {
    SafeKept(t, op, known);
    if Takes(t, op) {
      ApplyMoves(t, op);
      KnownAfter(t, op, known);
      CoveredMoved(t, Apply(t, op), Id(op), Changed(t, op), Gone(t, op));
      MatchedMoved(t, Apply(t, op), Id(op), Changed(t, op), Gone(t, op));
      DatedMoved(t, Apply(t, op), Id(op), Changed(t, op), Gone(t, op));
      CoherentChange(t, op);
      CoherentMoved(t, Apply(t, op), Id(op), Changed(t, op), Gone(t, op));
    }
  }

  /** A status that changes while the database is closed changes nothing else. */
  lemma {:induction false} ClosedKeeps(t: Table, op: Op, known: set<string>)
    requires Inv(t, known) && Takes(t, op) && Callable(t, op) && (op.SetRunning? || op.SetDone? || op.SetFailed?)
    ensures Inv(Change(t, op), known)
  {
    StatusAlone(t.jobs, t.bucket, op.id, Changed(t, op));
    ClosedSafe(t, op, known);
    CoherentClosed(t, op);
  }

  /** Without a new name or date a record still matches what is saved. */
  lemma {:induction false} StatusAlone(jobs: map<string, ActiveJob>, bucket: Bucket, id: string, j: ActiveJob)
    requires id in jobs && j.job == jobs[id].job && j.createdAt == jobs[id].createdAt
    requires Dated(jobs) && Matched(jobs, bucket)
    ensures Dated(jobs[id := j]) && Matched(jobs[id := j], bucket)
  {
  }

  lemma {:induction false} ClosedSafe(t: Table, op: Op, known: set<string>)
    requires Safe(t, known) && Takes(t, op) && Callable(t, op) && (op.SetRunning? || op.SetDone? || op.SetFailed?)
    ensures Safe(Change(t, op), known)
  {
    var u := Change(t, op);
    Advances(t, op);
    ActiveIsUnlisted(t, known, op.id);
    assert u.jobs.Keys == t.jobs.Keys && Changed(t, op).job == t.jobs[op.id].job;
    assert AllFit(u.jobs) && ListedDown(u.jobs, u.lists, known);
  }

  lemma {:induction false} CoherentClosed(t: Table, op: Op)
    requires AllCoherent(t) && Takes(t, op)
    ensures AllCoherent(Change(t, op))
  {
    CoherentChange(t, op);
  }

  /** A restart revives what is saved, however old it is. */
  lemma {:induction false} RestartKeeps(t: Table, keys: seq<string>, now: int, known: set<string>)
    requires Inv(t, known) && Enumerates(keys, t.bucket) && now != 0
    ensures var r := Restored(t.bucket, t.archive, keys, now);
            Inv(r, known) && Tracked(r.jobs, r.lists) && r.jobs == map id | id in t.bucket :: Revived(t.bucket[id], now)
  {
    var r := Restored(t.bucket, t.archive, keys, now);
    RestoreRevives(t.bucket, t.archive, t.lists, keys, now);
    RevivedFit(t, r.jobs, now);
    RevivedLists(t, r, now);
    RevivedCoherent(t, r, now);
    assert known == r.jobs.Keys + r.archive.Keys;
  }

  lemma {:induction false} RevivedCoherent(t: Table, r: Table, now: int)
    requires AllCoherent(t) && r.bucket == t.bucket && r.archive == t.archive
    requires r.jobs == map id | id in t.bucket :: Revived(t.bucket[id], now)
    ensures AllCoherent(r)
  {
  }

  lemma {:induction false} RevivedFit(t: Table, jobs: map<string, ActiveJob>, now: int)
    requires Covered(t.bucket, t.lists) && Matched(t.jobs, t.bucket) && Replaced(t.jobs, t.archive) && now != 0
    requires jobs == map id | id in t.bucket :: Revived(t.bucket[id], now)
    ensures AllFit(jobs) && Dated(jobs) && Matched(jobs, t.bucket) && Replaced(jobs, t.archive)
  {
    forall id | id in t.bucket
      ensures Fit(id, jobs[id]) && jobs[id].createdAt != 0 && jobs[id].job == SavedJob(t.bucket[id])
    {
      if t.bucket[id].Some? {
        assert Proper(id, t.bucket[id].value, t.lists);
      }
    }
  }

  lemma {:induction false} RevivedLists(t: Table, r: Table, now: int)
    requires Covered(t.bucket, t.lists) && r.bucket == t.bucket && Tracked(r.jobs, r.lists)
    requires r.jobs == map id | id in t.bucket :: Revived(t.bucket[id], now)
    ensures ListedDown(r.jobs, r.lists, t.bucket.Keys) && Covered(r.bucket, r.lists)
  {
    forall id | Listed(r.lists, id)
      ensures id in t.bucket.Keys && (id in r.jobs ==> Down(r.jobs[id].status))
    {
      var app :| app in r.lists && id in r.lists[app];
      assert id in ListOf(r.lists, app) <==> DownIn(r.jobs, id, app);
    }
    forall id {:trigger Proper(id, r.bucket[id].value, r.lists)} | id in r.bucket && r.bucket[id].Some?
      ensures Proper(id, r.bucket[id].value, r.lists)
    {
      var app := JobOf(r.bucket[id].value).app;
      assert Proper(id, t.bucket[id].value, t.lists);
      assert id in ListOf(r.lists, app) <==> DownIn(r.jobs, id, app);
    }
  }

  /** Every step keeps the invariant, restarts that lose something included. */
  lemma {:induction false} StepKeeps(h: Host, step: Step, known: set<string>)
    requires Inv(h.table, known) && Possible(h, step, known)
    ensures Inv(Next(h, step).table, KnownNext(h, step, known))
  {
    match step
    case Do(op) =>
      if h.open {
        OpenKeeps(h.table, op, known);
      } else if Takes(h.table, op) {
        ClosedKeeps(h.table, op, known);
      }
    case CloseDB =>
    case OpenDB =>
    case Restart(keys, now) => RestartKeeps(h.table, keys, now, known);
  }

  /** What is saved under the ID, if anything, is its live record. */
  ghost predicate UpToDate(t: Table, id: string) {
    id in t.bucket ==> id in t.jobs && t.bucket[id] == Some(t.jobs[id])
  }

  /** GetJob finds a job, and not a null that was restored. */
  predicate Named(found: Option<ActiveJob>) {
    found.Some? && found.value.job.Some?
  }

  /** For each job by itself: GetJob answers after a restart as before if and only if what is
      saved of the job, if anything, is its live record. */
  lemma {:induction false} RestartKeepsJobIff(t: Table, keys: seq<string>, now: int, known: set<string>, id: string)
    requires Inv(t, known) && Enumerates(keys, t.bucket) && now != 0
    ensures var r := Restored(t.bucket, t.archive, keys, now);
            && (UpToDate(t, id) ==> Lookup(r, id) == Lookup(t, id))
            && (Named(Lookup(t, id)) && Lookup(r, id) == Lookup(t, id) ==> UpToDate(t, id))
  {
    RestartKeeps(t, keys, now, known);
    if id in t.bucket && t.bucket[id].Some? {
      assert Proper(id, t.bucket[id].value, t.lists);
    }
  }

  /** No null is saved. */
  ghost predicate NoNull(bucket: Bucket) {
    forall id | id in bucket :: bucket[id].Some?
  }

  /** What is saved of the live jobs is up to date. */
  ghost predicate Current(jobs: map<string, ActiveJob>, bucket: Bucket) {
    forall id | id in jobs && id in bucket :: bucket[id] == Some(jobs[id])
  }

  /** Everything is written through if and only if no null is saved and nothing was missed. */
  lemma {:induction false} ThroughIff(t: Table, known: set<string>)
    requires Inv(t, known)
    ensures WrittenThrough(t) <==> NoNull(t.bucket) && Current(t.jobs, t.bucket)
    ensures WrittenThrough(t) <==> forall id :: UpToDate(t, id)
  {
    if forall id :: UpToDate(t, id) {
      forall id | id in t.bucket
        ensures id in t.jobs && t.bucket[id] == Some(t.jobs[id])
      {
        assert UpToDate(t, id);
      }
    }
  }

  /** GetJob answers after a restart as before for every job if and only if no null is saved
      and nothing was missed while the database was closed. */
  lemma {:induction false} RestartKeepsIff(t: Table, keys: seq<string>, now: int, known: set<string>)
    requires Inv(t, known) && Keyed(t.jobs) && Enumerates(keys, t.bucket) && now != 0
    ensures (forall id :: Lookup(Restored(t.bucket, t.archive, keys, now), id) == Lookup(t, id))
            <==> NoNull(t.bucket) && Current(t.jobs, t.bucket)
  {
    var r := Restored(t.bucket, t.archive, keys, now);
    ThroughIff(t, known);
    forall id
      ensures Lookup(r, id) == Lookup(t, id) <==> UpToDate(t, id)
    {
      RestartKeepsJobIff(t, keys, now, known, id);
    }
  }

  /** A saved null is restored as a starting job without a name. */
  lemma {:induction false} NullStartsAgain(t: Table, id: string, keys: seq<string>, now: int)
    requires Covered(t.bucket, t.lists) && Bounded(t.lists) && Enumerates(keys, t.bucket)
    requires id in t.bucket && t.bucket[id] == None
    ensures var found := Lookup(Restored(t.bucket, t.archive, keys, now), id);
            found.Some? && found.value.status == Starting && found.value.job == None
  {
    RestoreRevives(t.bucket, t.archive, t.lists, keys, now);
  }

  /** Force-stopping the least recent down job of a full list and restarting makes it a
      starting job without a name. */
  lemma {:induction false} ForgottenStartsAgain(t: Table, id: string, keys: seq<string>, now: int, known: set<string>)
    requires Inv(t, known) && id in t.jobs && Down(t.jobs[id].status)
    requires id in Victim(t.lists, JobOf(t.jobs[id]).app) && Enumerates(keys, Apply(t, SetForceStop(id)).bucket)
    ensures var u := Apply(t, SetForceStop(id));
            var found := Lookup(Restored(u.bucket, u.archive, keys, now), id);
            && Lookup(u, id) == Some(t.jobs[id].(forceStop := true))
            && found.Some? && found.value.status == Starting && found.value.job == None
  {
    var op := SetForceStop(id);
    SafeKept(t, op, known);
    LookupAfter(t, op, known, id);
    ForceStopForgets(t, id);
    ForceStopCovers(t, id, known);
    NullStartsAgain(Apply(t, op), id, keys, now);
  }

  lemma {:induction false} ForceStopCovers(t: Table, id: string, known: set<string>)
    requires Inv(t, known) && id in t.jobs
    ensures Covered(Apply(t, SetForceStop(id)).bucket, Apply(t, SetForceStop(id)).lists)
  {
    OpenKeeps(t, SetForceStop(id), known);
  }

  lemma {:induction false} Advances(t: Table, op: Op)
    requires Takes(t, op) && (op.SetRunning? || op.SetDone? || op.SetFailed?)
    ensures Active(t.jobs[op.id].status) && Rank(t.jobs[op.id].status) < Rank(Changed(t, op).status)
  {
  }

  lemma {:induction false} ActiveIsUnlisted(t: Table, known: set<string>, id: string)
    requires ListedDown(t.jobs, t.lists, known) && id in t.jobs && Active(t.jobs[id].status)
    ensures !Listed(t.lists, id)
  {
  }

  /** A status that changes while the database is closed is missed: also when the database is
      opened again and no null is saved, not everything is written through, and a job that
      went down is in no list. */
  lemma {:induction false} ReopenedMisses(h: Host, op: Op, known: set<string>)
    requires Inv(h.table, known) && WrittenThrough(h.table) && Takes(h.table, op) && Callable(h.table, op)
    requires op.SetRunning? || op.SetDone? || op.SetFailed?
    ensures Possible(Next(h, CloseDB), Do(op), known)
    ensures var u := Next(Next(Next(h, CloseDB), Do(op)), OpenDB);
            && u == Host(Change(h.table, op), true)
            && NoNull(u.table.bucket) && !WrittenThrough(u.table) && !Listed(u.table.lists, op.id)
  {
    Advances(h.table, op);
    ActiveIsUnlisted(h.table, known, op.id);
  }

  /** And after a restart the status is what it was before. */
  lemma {:induction false} ClosedChangeIsLost(t: Table, op: Op, keys: seq<string>, now: int, known: set<string>)
    requires Inv(t, known) && WrittenThrough(t) && Takes(t, op) && (op.SetRunning? || op.SetDone? || op.SetFailed?)
    requires Enumerates(keys, t.bucket) && now != 0
    ensures var u := Change(t, op);
            Lookup(Restored(u.bucket, u.archive, keys, now), op.id) == Lookup(t, op.id) == Some(t.jobs[op.id])
    ensures Lookup(Change(t, op), op.id) == Some(Changed(t, op))
    ensures Rank(t.jobs[op.id].status) < Rank(Changed(t, op).status)
  {
    Advances(t, op);
    RestartKeepsJobIff(t, keys, now, known, op.id);
  }

  /** Two saved jobs that are active share a volume after a restart if they share it as saved. */
  lemma {:induction false} SavedShareVolume(t: Table, a: string, b: string, volume: string, keys: seq<string>, now: int)
    requires Covered(t.bucket, t.lists) && Bounded(t.lists) && Enumerates(keys, t.bucket) && a != b
    requires forall id | id in {a, b} ::
               && id in t.bucket && t.bucket[id].Some? && Active(t.bucket[id].value.status)
               && volume in JobOf(t.bucket[id].value).volumes
    ensures !Exclusive(Restored(t.bucket, t.archive, keys, now).jobs)
  {
    RestoreRevives(t.bucket, t.archive, t.lists, keys, now);
    assert a in {a, b} && b in {a, b};
    var jobs := Restored(t.bucket, t.archive, keys, now).jobs;
    assert volume in JobOf(jobs[a]).volumes && volume in JobOf(jobs[b]).volumes;
  }

  /** If the volume of a job that went down meanwhile is given to another one, two active
      jobs share it after a restart. */
  lemma {:induction false} VolumeIsShared(t: Table, op: Op, j: Job, start: int, volume: string, keys: seq<string>,
                                          now: int, known: set<string>)
    requires Inv(t, known) && WrittenThrough(t) && Takes(t, op) && Callable(t, op) && (op.SetDone? || op.SetFailed?)
    requires Possible(Host(Change(t, op), true), Do(Add(j, start)), known) && Takes(Change(t, op), Add(j, start))
    requires volume in JobOf(t.jobs[op.id]).volumes && volume in j.volumes
    requires Enumerates(keys, Apply(Change(t, op), Add(j, start)).bucket)
    ensures var u := Apply(Change(t, op), Add(j, start));
            !Exclusive(Restored(u.bucket, u.archive, keys, now).jobs)
  {
    Advances(t, op);
    ClosedKeeps(t, op, known);
    AddSaves(Change(t, op), j, start, known);
    SavedShareVolume(Apply(Change(t, op), Add(j, start)), op.id, j.id, volume, keys, now);
  }

  lemma {:induction false} AddSaves(t: Table, j: Job, start: int, known: set<string>)
    requires Inv(t, known) && Possible(Host(t, true), Do(Add(j, start)), known) && Takes(t, Add(j, start))
    ensures var u := Apply(t, Add(j, start));
            && u.bucket == t.bucket[j.id := Some(Changed(t, Add(j, start)))]
            && Covered(u.bucket, u.lists) && Bounded(u.lists)
  {
    OpenKeeps(t, Add(j, start), known);
    ApplyMoves(t, Add(j, start));
  }

  /** The step is no restart at which what is saved of the job is out of date. */
  ghost predicate TrueTo(h: Host, step: Step, id: string) {
    step.Restart? ==> UpToDate(h.table, id)
  }

  /** Seen through GetJob, a step changes the job of its own operation and no other. */
  lemma {:induction false} StepLookup(h: Host, step: Step, known: set<string>, id: string)
    requires Inv(h.table, known) && Possible(h, step, known) && TrueTo(h, step, id)
    ensures var t, u := h.table, Next(h, step).table;
            Lookup(u, id) == if step.Do? && Takes(t, step.op) && id == Id(step.op) then Some(Changed(t, step.op))
                             else Lookup(t, id)
  {
    match step
    case Do(op) =>
      if h.open {
        LookupAfter(h.table, op, known, id);
      }
    case CloseDB =>
    case OpenDB =>
    case Restart(keys, now) => RestartKeepsJobIff(h.table, keys, now, known, id);
  }

  /** What GetJob returns after a call, with the database open or closed: of a live job its
      record with the fields that the call is about, and of a new job a new record. */
  lemma {:induction false} CallShows(h: Host, op: Op, known: set<string>)
    requires Inv(h.table, known) && Possible(h, Do(op), known)
    ensures Id(op) in h.table.jobs ==>
              var found := Lookup(Next(h, Do(op)).table, Id(op));
              found.Some? && Shows(h.table.jobs[Id(op)], op, found.value)
    ensures op.Add? && op.job.id !in h.table.jobs
            && (forall id, v | id in h.table.jobs && v in op.job.volumes && v in JobOf(h.table.jobs[id]).volumes ::
                  Down(h.table.jobs[id].status)) ==>
              var found := Lookup(Next(h, Do(op)).table, op.job.id);
              found.Some? && IsNew(op.job, op.now, found.value)
    ensures !op.Add? && op.id !in h.table.jobs ==> Next(h, Do(op)) == h
  {
    StepLookup(h, Do(op), known, Id(op));
  }

  /** From one record of a job to a later one: the same job, and a status that has only
      moved forward, and not at all once it was down. */
  predicate Forward(was: ActiveJob, now: ActiveJob) {
    now.job == was.job && Rank(was.status) <= Rank(now.status) && (Down(was.status) ==> now.status == was.status)
  }

  lemma {:induction false} StepForward(h: Host, step: Step, known: set<string>, id: string)
    requires Inv(h.table, known) && Possible(h, step, known) && TrueTo(h, step, id) && id in known
    ensures Lookup(h.table, id).Some? && Lookup(Next(h, step).table, id).Some?
    ensures Forward(Lookup(h.table, id).value, Lookup(Next(h, step).table, id).value)
  {
    StepLookup(h, step, known, id);
    if step.Do? && Takes(h.table, step.op) && id == Id(step.op) {
      ChangedForward(h.table, step.op);
    }
  }

  lemma {:induction false} ChangedForward(t: Table, op: Op)
    requires Takes(t, op) && !op.Add?
    ensures Forward(t.jobs[op.id], Changed(t, op))
  {
  }

  /** The notices about the job are all different. */
  ghost predicate Once(log: seq<Notice>, id: string) {
    forall a, b | 0 <= a < b < |log| && log[a].id == id :: log[a] != log[b]
  }

  /** The job has its name, and the log tells its story, once. */
  ghost predicate Intact(t: Table, id: string) {
    && (Lookup(t, id).Some? ==> Named(Lookup(t, id)))
    && ToldOf(t.log, Statuses(t), id) && Once(t.log, id)
  }

  lemma {:induction false} ToldSame(log: seq<Notice>, a: map<string, Status>, b: map<string, Status>, id: string)
    requires Agree(a, b, id) && ToldOf(log, a, id)
    ensures ToldOf(log, b, id)
  {
  }

  lemma {:induction false} OnceMore(log: seq<Notice>, n: Notice, id: string)
    requires Once(log, id) && (n.id == id ==> n !in log)
    ensures Once(log + [n], id)
  {
  }

  /** The notice of an operation is due. */
  lemma {:induction false} NoticeIsDue(t: Table, op: Op, known: set<string>)
    requires Safe(t, known) && Takes(t, op) && Callable(t, op) && Fresh(t, op, known) && Notices(t, op) != []
    ensures |Notices(t, op)| == 1 && Notices(t, op)[0].id == Id(op)
    ensures Due(Statuses(t), Notices(t, op)[0], Changed(t, op).status)
  {
  }

  lemma {:induction false} LogAfter(h: Host, step: Step, known: set<string>)
    requires Inv(h.table, known) && Possible(h, step, known)
    ensures Next(h, step).table.log ==
            h.table.log + (if step.Do? && Takes(h.table, step.op) then Notices(h.table, step.op) else [])
  {
    if step.Do? && h.open && Takes(h.table, step.op) {
      ApplyMoves(h.table, step.op);
    }
  }

  /** An operation that takes effect keeps the story of every job. */
  lemma {:induction false} StoryGoesOn(t: Table, op: Op, known: set<string>, id: string)
    requires Safe(t, known) && Takes(t, op) && Callable(t, op) && Fresh(t, op, known)
    requires ToldOf(t.log, Statuses(t), id) && Once(t.log, id)
    ensures ToldOf(t.log + Notices(t, op), Statuses(t)[Id(op) := Changed(t, op).status], id)
    ensures Once(t.log + Notices(t, op), id)
  {
    if Notices(t, op) == [] {
      assert t.log + [] == t.log;
      assert Agree(Statuses(t), Statuses(t)[Id(op) := Changed(t, op).status], id);
      ToldSame(t.log, Statuses(t), Statuses(t)[Id(op) := Changed(t, op).status], id);
    } else {
      NoticeIsDue(t, op, known);
      var n := Notices(t, op)[0];
      assert Notices(t, op) == [n];
      ToldOfMore(t.log, Statuses(t), n, Changed(t, op).status, id);
      OnceMore(t.log, n, id);
    }
  }

  lemma {:induction false} StepIntact(h: Host, step: Step, known: set<string>, id: string)
    requires Inv(h.table, known) && Possible(h, step, known) && TrueTo(h, step, id) && Intact(h.table, id)
    ensures Intact(Next(h, step).table, id)
  {
    var t, u := h.table, Next(h, step).table;
    StepLookup(h, step, known, id);
    LogAfter(h, step, known);
    if step.Do? && Takes(t, step.op) {
      StoryGoesOn(t, step.op, known, id);
      ToldSame(u.log, Statuses(t)[Id(step.op) := Changed(t, step.op).status], Statuses(u), id);
    } else {
      assert t.log + [] == t.log;
      ToldSame(u.log, Statuses(t), Statuses(u), id);
    }
  }

  /** The two jobs share no volume while both are starting or running. */
  ghost predicate Apart(jobs: map<string, ActiveJob>, a: string, b: string) {
    a in jobs && b in jobs && Active(jobs[a].status) && Active(jobs[b].status) ==>
      forall v | v in JobOf(jobs[a]).volumes :: v !in JobOf(jobs[b]).volumes
  }

  lemma {:induction false} ApartUpdate(t: Table, op: Op, a: string, b: string)
    requires Takes(t, op) && Apart(t.jobs, a, b) && a != b
    ensures Apart(t.jobs[Id(op) := Changed(t, op)], a, b)
  {
    if op.Add? {
      forall id, v | id in t.jobs && Active(t.jobs[id].status) && v in op.job.volumes
        ensures v !in JobOf(t.jobs[id]).volumes
      {
        assert !InUse(t.jobs, v);
      }
    } else {
      assert Changed(t, op).job == t.jobs[op.id].job;
    }
  }

  lemma {:induction false} StepApart(h: Host, step: Step, known: set<string>, a: string, b: string)
    requires Inv(h.table, known) && Possible(h, step, known) && TrueTo(h, step, a) && TrueTo(h, step, b)
    requires Apart(h.table.jobs, a, b) && a != b
    ensures Apart(Next(h, step).table.jobs, a, b)
  {
    match step
    case Do(op) =>
      if Takes(h.table, op) {
        ApartUpdate(h.table, op, a, b);
        if h.open {
          ApplyMoves(h.table, op);
        }
      }
    case CloseDB =>
    case OpenDB =>
    case Restart(keys, now) =>
      RestartKeeps(h.table, keys, now, known);
  }

  ghost predicate IsRun(h: Host, steps: seq<Step>, known: set<string>)
    decreases |steps|
  {
    steps == []
    || (Possible(h, steps[0], known) && IsRun(Next(h, steps[0]), steps[1..], KnownNext(h, steps[0], known)))
  }

  ghost function EndOf(h: Host, steps: seq<Step>, known: set<string>): Host
    requires IsRun(h, steps, known)
    decreases |steps|
  {
    if steps == [] then h else EndOf(Next(h, steps[0]), steps[1..], KnownNext(h, steps[0], known))
  }

  ghost function EndKnown(h: Host, steps: seq<Step>, known: set<string>): set<string>
    requires IsRun(h, steps, known)
    decreases |steps|
  {
    if steps == [] then known else EndKnown(Next(h, steps[0]), steps[1..], KnownNext(h, steps[0], known))
  }

  /** At no restart of the run what is saved of the job is out of date. */
  ghost predicate AllTrueTo(h: Host, steps: seq<Step>, known: set<string>, id: string)
    requires IsRun(h, steps, known)
    decreases |steps|
  {
    steps == []
    || (TrueTo(h, steps[0], id) && AllTrueTo(Next(h, steps[0]), steps[1..], KnownNext(h, steps[0], known), id))
  }

  lemma {:induction false} RunKeeps(h: Host, steps: seq<Step>, known: set<string>)
    requires Inv(h.table, known) && IsRun(h, steps, known)
    ensures Inv(EndOf(h, steps, known).table, EndKnown(h, steps, known)) && known <= EndKnown(h, steps, known)
    decreases |steps|
  {
    if steps != [] {
      StepKeeps(h, steps[0], known);
      RunKeeps(Next(h, steps[0]), steps[1..], KnownNext(h, steps[0], known));
    }
  }

  lemma {:induction false} RunIntact(h: Host, steps: seq<Step>, known: set<string>, id: string)
    requires Inv(h.table, known) && IsRun(h, steps, known) && AllTrueTo(h, steps, known, id) && Intact(h.table, id)
    ensures Intact(EndOf(h, steps, known).table, id)
    decreases |steps|
  {
    if steps != [] {
      StepKeeps(h, steps[0], known);
      StepIntact(h, steps[0], known, id);
      RunIntact(Next(h, steps[0]), steps[1..], KnownNext(h, steps[0], known), id);
    }
  }

  lemma {:induction false} RunApart(h: Host, steps: seq<Step>, known: set<string>, a: string, b: string)
    requires Inv(h.table, known) && IsRun(h, steps, known) && Apart(h.table.jobs, a, b) && a != b
    requires AllTrueTo(h, steps, known, a) && AllTrueTo(h, steps, known, b)
    ensures Apart(EndOf(h, steps, known).table.jobs, a, b)
    decreases |steps|
  {
    if steps != [] {
      StepKeeps(h, steps[0], known);
      StepApart(h, steps[0], known, a, b);
      RunApart(Next(h, steps[0]), steps[1..], KnownNext(h, steps[0], known), a, b);
    }
  }

  /** A new host. */
  function First(): Host {
    Host(Empty(), true)
  }

  /** On every run over any number of lives, whatever a restart loses: every job ever added
      is live or archived, or a null was restored in its place. Of each job whose record was
      up to date whenever there was a restart, whatever became of the others: it is found
      with its name, and the events of all lives tell its story once; and no two such jobs
      share a volume while both are active. */
  lemma {:induction false} EveryLife(steps: seq<Step>)
    requires IsRun(First(), steps, {})
    ensures var t := EndOf(First(), steps, {}).table;
            && Inv(t, EndKnown(First(), steps, {}))
            && (forall id | AllTrueTo(First(), steps, {}, id) :: Intact(t, id))
            && forall a, b | AllTrueTo(First(), steps, {}, a) && AllTrueTo(First(), steps, {}, b) && a != b ::
                 Apart(t.jobs, a, b)
  {
    var h := First();
    RunKeeps(h, steps, {});
    forall id | AllTrueTo(h, steps, {}, id)
      ensures Intact(EndOf(h, steps, {}).table, id)
    {
      RunIntact(h, steps, {}, id);
    }
    forall a, b | AllTrueTo(h, steps, {}, a) && AllTrueTo(h, steps, {}, b) && a != b
      ensures Apart(EndOf(h, steps, {}).table.jobs, a, b)
    {
      RunApart(h, steps, {}, a, b);
    }
  }

  /** If every restart found everything up to date, this holds of all jobs. */
  lemma {:induction false} FaithfulLife(steps: seq<Step>)
    requires IsRun(First(), steps, {}) && forall id :: AllTrueTo(First(), steps, {}, id)
    ensures var t := EndOf(First(), steps, {}).table;
            Keyed(t.jobs) && Exclusive(t.jobs) && Told(t.log, Statuses(t))
  {
    EveryLife(steps);
    var t := EndOf(First(), steps, {}).table;
    forall id | id in t.jobs
      ensures t.jobs[id].job.Some?
    {
      assert AllTrueTo(First(), steps, {}, id) && Intact(t, id);
    }
    forall a, b, v | a in t.jobs && b in t.jobs && a != b && Active(t.jobs[a].status) && Active(t.jobs[b].status)
                     && v in JobOf(t.jobs[a]).volumes
      ensures v !in JobOf(t.jobs[b]).volumes
    {
      assert AllTrueTo(First(), steps, {}, a) && AllTrueTo(First(), steps, {}, b) && Apart(t.jobs, a, b);
    }
    forall id
      ensures ToldOf(t.log, Statuses(t), id) && Once(t.log, id)
    {
      assert AllTrueTo(First(), steps, {}, id) && Intact(t, id);
    }
    forall a, b | 0 <= a < b < |t.log|
      ensures t.log[a] != t.log[b]
    {
      assert Once(t.log, t.log[a].id);
    }
  }

  /** The status of a job only moves forward, over all lives in which its own record was up to
      date whenever there was a restart. */
  lemma {:induction false} StatusOnlyForward(h: Host, steps: seq<Step>, known: set<string>, id: string)
    requires Inv(h.table, known) && IsRun(h, steps, known) && AllTrueTo(h, steps, known, id) && id in known
    ensures Lookup(h.table, id).Some? && Lookup(EndOf(h, steps, known).table, id).Some?
    ensures Forward(Lookup(h.table, id).value, Lookup(EndOf(h, steps, known).table, id).value)
    decreases |steps|
  {
    if steps != [] {
      StepKeeps(h, steps[0], known);
      StepForward(h, steps[0], known, id);
      StatusOnlyForward(Next(h, steps[0]), steps[1..], KnownNext(h, steps[0], known), id);
    }
  }

  /** The step neither touches a job that is down nor changes one while the database is closed. */
  ghost predicate Careful(h: Host, step: Step) {
    step.Do? ==> !Touches(h.table, step.op) && (h.open || !Takes(h.table, step.op))
  }

  ghost predicate AllCareful(h: Host, steps: seq<Step>, known: set<string>)
    requires IsRun(h, steps, known)
    decreases |steps|
  {
    steps == []
    || (Careful(h, steps[0]) && AllCareful(Next(h, steps[0]), steps[1..], KnownNext(h, steps[0], known)))
  }

  /** Bucket and lists are exact. */
  ghost predicate Exact(t: Table) {
    Keyed(t.jobs) && WrittenThrough(t) && Tracked(t.jobs, t.lists)
  }

  /** What was written through is restored as it was. */
  lemma {:induction false} RestartIsExact(t: Table, keys: seq<string>, now: int, known: set<string>)
    requires Inv(t, known) && Keyed(t.jobs) && WrittenThrough(t) && Enumerates(keys, t.bucket) && now != 0
    ensures var r := Restored(t.bucket, t.archive, keys, now);
            r.jobs == t.jobs && Exact(r)
  {
    RestartKeeps(t, keys, now, known);
    forall id | id in t.jobs
      ensures Revived(t.bucket[id], now) == t.jobs[id]
    {
      assert Proper(id, t.bucket[id].value, t.lists);
    }
  }

  lemma {:induction false} CarefulStep(h: Host, step: Step, known: set<string>)
    requires Inv(h.table, known) && Possible(h, step, known) && Careful(h, step) && Exact(h.table)
    ensures Exact(Next(h, step).table) && forall id :: TrueTo(h, step, id)
  {
    match step
    case Do(op) =>
      if h.open {
        ThroughKept(h.table, op);
        KeyedKept(h.table, op);
      }
    case CloseDB =>
    case OpenDB =>
    case Restart(keys, now) =>
      RestartIsExact(h.table, keys, now, known);
      ThroughIff(h.table, known);
  }

  /** If no job that is down is touched again and nothing changes while the database is
      closed, every restart finds every record up to date, the bucket equals the live jobs,
      and each app's list holds exactly its live jobs that are down. */
  lemma {:induction false} CarefulLives(h: Host, steps: seq<Step>, known: set<string>, id: string)
    requires Inv(h.table, known) && IsRun(h, steps, known) && AllCareful(h, steps, known) && Exact(h.table)
    ensures Exact(EndOf(h, steps, known).table) && AllTrueTo(h, steps, known, id)
    decreases |steps|
  {
    if steps != [] {
      CarefulStep(h, steps[0], known);
      StepKeeps(h, steps[0], known);
      CarefulLives(Next(h, steps[0]), steps[1..], KnownNext(h, steps[0], known), id);
    }
  }

  /** Between restarts each app keeps exactly the 25 jobs that went down most recently;
      those that a restart brings back count in the order in which they were restored. */
  lemma {:induction false} RecentSinceRestart(t: Table, keys: seq<string>, now: int, known: set<string>, ops: seq<Op>)
    requires Inv(t, known) && Keyed(t.jobs) && WrittenThrough(t) && Enumerates(keys, t.bucket) && now != 0
    requires NoneTouches(Restored(t.bucket, t.archive, keys, now), ops)
    ensures var r := Restored(t.bucket, t.archive, keys, now);
            forall app, id ::
              DownIn(Run(r, ops).jobs, id, app) <==> id in Front(ListOf(AllPushed(r, ops, r.lists), app))
  {
    var r := Restored(t.bucket, t.archive, keys, now);
    RestartKeeps(t, keys, now, known);
    RestartIsExact(t, keys, now, known);
    RunRecent(r, ops, r.lists);
    RunThrough(r, ops);
    var u, pushed := Run(r, ops), AllPushed(r, ops, r.lists);
    forall app, id
      ensures DownIn(u.jobs, id, app) <==> id in Front(ListOf(pushed, app))
    {
      assert ListOf(u.lists, app) == Front(ListOf(pushed, app));
      assert id in ListOf(u.lists, app) <==> DownIn(u.jobs, id, app);
    }
  }
}
