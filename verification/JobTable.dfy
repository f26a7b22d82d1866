/** The job registry of a host (host/state.go) as a value: the jobs, the down jobs of
    each app by recency, the two database buckets that hold jobs, and the events sent. */
module JobTable {
  import opened Collections
  import opened Options

  datatype Status = Starting | Running | Done | Crashed | Failed

  /** statusDown. */
  predicate Down(s: Status) {
    s == Done || s == Crashed || s == Failed
  }

  predicate Active(s: Status) {
    s == Starting || s == Running
  }

  datatype Job = Job(id: string, app: string, volumes: seq<string>)

  datatype ActiveJob = ActiveJob(
    job: Option<Job>,                         // nil in a job that is restored from a saved null
    status: Status,
    createdAt: int,
    startedAt: int,
    endedAt: int,
    exitStatus: Option<int>,
    error: Option<string>,
    internalIP: string,
    pid: Option<int>,
    forceStop: bool)

  /** The job that is run; where there is none the source fails. */
  function JobOf(j: ActiveJob): Job {
    if j.job.Some? then j.job.value else Job("", "", [])
  }

  const MAX_DOWN_JOBS_PER_APP: nat := 25

  datatype Notice = Created(id: string) | Started(id: string) | Stopped(id: string) | Errored(id: string)

  type Lists = map<string, seq<string>>

  function ListOf(lists: Lists, app: string): seq<string> {
    if app in lists then lists[app] else []
  }

  datatype Table = Table(
    jobs: map<string, ActiveJob>,
    lists: Lists,                             // down jobs by app, most recent first
    bucket: map<string, Option<ActiveJob>>,   // "jobs"; None is the null that a missing job is saved as
    archive: map<string, ActiveJob>,          // "gc-jobs"
    log: seq<Notice>)

  /** pruneDownJobs, one round: archive the least recent down job and forget it. */
  function DropLast(t: Table, app: string): Table
    requires app in t.lists && t.lists[app] != []
  {
    var l := t.lists[app];
    var id := l[|l| - 1];
    t.(lists := t.lists[app := l[..|l| - 1]],
       archive := if id in t.jobs then t.archive[id := t.jobs[id]] else t.archive,
       bucket := t.bucket - {id},
       jobs := t.jobs - {id})
  }

  function Prune(t: Table, app: string): Table
    requires app in t.lists
    decreases |ListOf(t.lists, app)|
  {
    if |t.lists[app]| <= MAX_DOWN_JOBS_PER_APP then t else Prune(DropLast(t, app), app)
  }

  /** trackDownJob. */
  function Track(t: Table, j: ActiveJob): Table {
    Prune(t.(lists := t.lists[JobOf(j).app := [JobOf(j).id] + ListOf(t.lists, JobOf(j).app)]), JobOf(j).app)
  }

  /** persist: write the job through to its bucket, after tracking it if it is down. */
  function Persist(t: Table, id: string): Table {
    if id !in t.jobs then t
    else
      var u := if Down(t.jobs[id].status) then Track(t, t.jobs[id]) else t;
      u.(bucket := u.bucket[id := if id in u.jobs then Some(u.jobs[id]) else None])
  }

  /** The mutators, as changes to one job. */
  datatype Op =
    | Add(job: Job, now: int)
    | SetRunning(id: string, now: int)
    | SetDone(id: string, exitStatus: int, now: int)
    | SetFailed(id: string, error: string, now: int)
    | SetForceStop(id: string)
    | SetContainerIP(id: string, ip: string)
    | SetContainerPID(id: string, pid: int)

  function Id(op: Op): string {
    if op.Add? then op.job.id else op.id
  }

  /** Some starting or running job has the volume. */
  predicate InUse(jobs: map<string, ActiveJob>, volume: string) {
    exists id :: id in jobs && Active(jobs[id].status) && volume in JobOf(jobs[id]).volumes
  }

  /** The operation does something. */
  predicate Takes(t: Table, op: Op) {
    match op
    case Add(j, _) => j.id !in t.jobs && forall v | v in j.volumes :: !InUse(t.jobs, v)
    case SetRunning(id, _) => id in t.jobs && t.jobs[id].status == Starting
    case SetDone(id, _, _) => id in t.jobs && !Down(t.jobs[id].status)
    case SetFailed(id, _, _) => id in t.jobs && !Down(t.jobs[id].status)
    case SetForceStop(id) => id in t.jobs
    case SetContainerIP(id, _) => id in t.jobs
    case SetContainerPID(id, _) => id in t.jobs
  }

  /** What it makes of its job. */
  function Changed(t: Table, op: Op): ActiveJob
    requires Takes(t, op)
  {
    match op
    case Add(j, now) => ActiveJob(Some(j), Starting, now, 0, 0, None, None, "", None, false)
    case SetRunning(id, now) => t.jobs[id].(startedAt := now, status := Running)
    case SetDone(id, exit, now) =>
      t.jobs[id].(endedAt := now, exitStatus := Some(exit), status := if exit == 0 then Done else Crashed, pid := None)
    case SetFailed(id, error, now) =>
      t.jobs[id].(status := Failed, endedAt := now, error := Some(error), pid := None)
    case SetForceStop(id) => t.jobs[id].(forceStop := true)
    case SetContainerIP(id, ip) => t.jobs[id].(internalIP := ip)
    case SetContainerPID(id, pid) => t.jobs[id].(pid := Some(pid))
  }

  /** The events it sends, which name the job by its own ID. */
  function Notices(t: Table, op: Op): seq<Notice>
    requires Takes(t, op)
  {
    var id := JobOf(Changed(t, op)).id;
    match op
    case Add(_, _) => [Created(id)]
    case SetRunning(_, _) => [Started(id)]
    case SetDone(_, _, _) => [Stopped(id)]
    case SetFailed(_, _, _) => [Errored(id)]
    case _ => []
  }

  /** The ID that it persists. */
  function Saved(t: Table, op: Op): string
    requires Takes(t, op)
  {
    if op.SetDone? then JobOf(Changed(t, op)).id else Id(op)
  }

  function Change(t: Table, op: Op): Table
    requires Takes(t, op)
  {
    t.(jobs := t.jobs[Id(op) := Changed(t, op)], log := t.log + Notices(t, op))
  }

  /** A mutator on an open database. */
  function Apply(t: Table, op: Op): Table {
    if Takes(t, op) then Persist(Change(t, op), Saved(t, op)) else t
  }

  /** The least recent down job of a full list goes when another one comes. */
  function Victim(lists: Lists, app: string): set<string> {
    Last(ListOf(lists, app))
  }

  function Last(l: seq<string>): set<string> {
    if |l| == MAX_DOWN_JOBS_PER_APP then {l[|l| - 1]} else {}
  }

  /** No list is longer than it may be. */
  predicate Bounded(lists: Lists) {
    forall app | app in lists :: |lists[app]| <= MAX_DOWN_JOBS_PER_APP
  }

  function Front(l: seq<string>): seq<string> {
    if |l| <= MAX_DOWN_JOBS_PER_APP then l else l[..MAX_DOWN_JOBS_PER_APP]
  }

  /** What tracking does to a table with bounded lists. */
  lemma {:induction false} TrackIs(t: Table, j: ActiveJob)
    requires Bounded(t.lists)
    ensures var u, app := Track(t, j), JobOf(j).app;
            var gone := Victim(t.lists, app);
            && u.lists == t.lists[app := Front([JobOf(j).id] + ListOf(t.lists, app))]
            && u.jobs == t.jobs - gone && u.bucket == t.bucket - gone && u.log == t.log
            && u.archive == t.archive + (map id | id in gone && id in t.jobs :: t.jobs[id])
  {
    var app := JobOf(j).app;
    var l := [JobOf(j).id] + ListOf(t.lists, app);
    var pushed := t.(lists := t.lists[app := l]);
    if |l| > MAX_DOWN_JOBS_PER_APP {
      var u := DropLast(pushed, app);
      assert Prune(pushed, app) == Prune(u, app) == u;
      assert u.lists == t.lists[app := Front(l)];
    }
  }

  /** Jobs are filed under their IDs. */
  predicate Keyed(jobs: map<string, ActiveJob>) {
    forall id | id in jobs :: jobs[id].job.Some? && JobOf(jobs[id]).id == id
  }

  /** A live job stands under its ID, or was restored from a saved null, and is not down then. */
  predicate Fit(id: string, j: ActiveJob) {
    if j.job.Some? then JobOf(j).id == id else !Down(j.status)
  }

  predicate AllFit(jobs: map<string, ActiveJob>) {
    forall id | id in jobs :: Fit(id, jobs[id])
  }

  /** The call does not fail for want of a job: a status changes, and volumes are compared,
      only of jobs that have one. */
  predicate Callable(t: Table, op: Op) {
    match op
    case Add(j, _) =>
      j.id !in t.jobs && j.volumes != [] ==>
        forall id | id in t.jobs && Active(t.jobs[id].status) :: t.jobs[id].job.Some?
    case SetRunning(id, _) => Takes(t, op) ==> t.jobs[id].job.Some?
    case SetDone(id, _, _) => Takes(t, op) ==> t.jobs[id].job.Some?
    case SetFailed(id, _, _) => Takes(t, op) ==> t.jobs[id].job.Some?
    case _ => true
  }

  /** The jobs that an operation makes go. */
  function Gone(t: Table, op: Op): set<string>
    requires Takes(t, op)
  {
    if Down(Changed(t, op).status) then Victim(t.lists, JobOf(Changed(t, op)).app) else {}
  }

  /** From t to u one job changed and was written through, and the jobs in `gone` went
      from the live jobs to the archive. */
  ghost predicate Moved(t: Table, u: Table, id: string, j: ActiveJob, gone: set<string>) {
    var jobs := t.jobs[id := j];
    && Fit(id, j) && u.jobs == jobs - gone
    && u.lists == (if Down(j.status) then t.lists[JobOf(j).app := Front([id] + ListOf(t.lists, JobOf(j).app))]
                   else t.lists)
    && gone == (if Down(j.status) then Victim(t.lists, JobOf(j).app) else {})
    && u.bucket == (t.bucket - gone)[id := if id in gone then None else Some(j)]
    && u.archive.Keys == t.archive.Keys + (gone * jobs.Keys)
    && (forall v | v in u.archive :: u.archive[v] == if v in gone && v in jobs then jobs[v] else t.archive[v])
  }

  lemma {:induction false} PersistMoves(t: Table, c: Table, id: string, j: ActiveJob)
    requires Bounded(t.lists) && Fit(id, j)
    requires c == t.(jobs := t.jobs[id := j], log := c.log)
    ensures Moved(t, Persist(c, id), id, j, if Down(j.status) then Victim(t.lists, JobOf(j).app) else {})
    ensures Persist(c, id).log == c.log
  {
    if Down(j.status) {
      TrackIs(c, j);
    }
  }

  /** What an operation does to a table with bounded lists. */
  lemma {:induction false} ApplyMoves(t: Table, op: Op)
    requires Takes(t, op) && Callable(t, op) && AllFit(t.jobs) && Bounded(t.lists)
    ensures Moved(t, Apply(t, op), Id(op), Changed(t, op), Gone(t, op)) && Apply(t, op).log == t.log + Notices(t, op)
  {
    assert Fit(Id(op), Changed(t, op)) && Saved(t, op) == Id(op);
    PersistMoves(t, Change(t, op), Id(op), Changed(t, op));
  }

  /** GetJob: a live job, or else an archived one. */
  function Lookup(t: Table, id: string): Option<ActiveJob> {
    if id in t.jobs then Some(t.jobs[id]) else if id in t.archive then Some(t.archive[id]) else None
  }

  ghost predicate Listed(lists: Lists, id: string) {
    exists app :: app in lists && id in lists[app]
  }

  ghost predicate ListedDown(jobs: map<string, ActiveJob>, lists: Lists, known: set<string>) {
    forall id | Listed(lists, id) :: id in known && (id in jobs ==> Down(jobs[id].status))
  }

  /** Only a job that was restored from a saved null is live beside an archived one. */
  ghost predicate Replaced(jobs: map<string, ActiveJob>, archive: map<string, ActiveJob>) {
    forall id | id in jobs && id in archive :: jobs[id].job.None?
  }

  /** Every job ever added is live or archived, and only jobs that are down are listed or archived. */
  ghost predicate Safe(t: Table, known: set<string>) {
    && AllFit(t.jobs) && Keyed(t.archive) && Bounded(t.lists) && Replaced(t.jobs, t.archive)
    && known == t.jobs.Keys + t.archive.Keys
    && (forall id | id in t.archive :: Down(t.archive[id].status)) && ListedDown(t.jobs, t.lists, known)
  }

  ghost function Known(t: Table, op: Op, known: set<string>): set<string> {
    if op.Add? && Takes(t, op) then known + {op.job.id} else known
  }

  /** The ID of an added job was not used before. */
  ghost predicate Fresh(t: Table, op: Op, known: set<string>) {
    op.Add? && Takes(t, op) ==> op.job.id !in known
  }

  lemma {:induction false} VictimIsListed(lists: Lists, app: string, id: string)
    requires id in Victim(lists, app)
    ensures Listed(lists, id)
  {
    assert app in lists && id in lists[app];
  }

  /** Only the jobs that were listed and the pushed one are listed. */
  lemma {:induction false} ListedAfter(lists: Lists, app: string, pushed: string, id: string)
    requires Listed(lists[app := Front([pushed] + ListOf(lists, app))], id)
    ensures Listed(lists, id) || id == pushed
  {
    var after := lists[app := Front([pushed] + ListOf(lists, app))];
    var at :| at in after && id in after[at];
    if at == app && id != pushed {
      var k :| 0 <= k < |after[app]| && after[app][k] == id;
      assert ListOf(lists, app)[k - 1] == id;
    }
  }

  /** A victim is known, and down if it is live. */
  lemma {:induction false} GoneAreDown(t: Table, u: Table, id: string, j: ActiveJob, gone: set<string>,
                                       known: set<string>, v: string)
    requires Safe(t, known) && Moved(t, u, id, j, gone) && v in gone
    ensures v in known && (v in t.jobs ==> Down(t.jobs[v].status)) && Down(j.status)
  {
    VictimIsListed(t.lists, JobOf(j).app, v);
  }

  lemma {:induction false} ListedMoved(t: Table, u: Table, id: string, j: ActiveJob, gone: set<string>, v: string)
    requires Moved(t, u, id, j, gone) && Listed(u.lists, v)
    ensures Listed(t.lists, v) || (v == id && Down(j.status))
  {
    if Down(j.status) {
      ListedAfter(t.lists, JobOf(j).app, id, v);
    }
  }

  /** The archive gains only jobs that are down and no longer live. */
  lemma {:induction false} ArchiveMoved(t: Table, u: Table, id: string, j: ActiveJob, gone: set<string>,
                                        known: set<string>)
    requires Safe(t, known) && Moved(t, u, id, j, gone) && (id in t.jobs || id !in known)
    requires id in t.jobs && t.jobs[id].job.None? ==> j.job.None?
    ensures Keyed(u.archive) && Replaced(u.jobs, u.archive) && known + {id} == u.jobs.Keys + u.archive.Keys
    ensures forall v | v in u.archive :: Down(u.archive[v].status)
  {
    forall v | v in u.archive
      ensures Down(u.archive[v].status) && u.archive[v].job.Some? && JobOf(u.archive[v]).id == v
      ensures v in u.jobs ==> u.jobs[v].job.None?
    {
      if v in gone {
        GoneAreDown(t, u, id, j, gone, known, v);
      }
    }
  }

  lemma {:induction false} ListsMoved(t: Table, u: Table, id: string, j: ActiveJob, gone: set<string>,
                                      known: set<string>)
    requires ListedDown(t.jobs, t.lists, known) && Bounded(t.lists) && Moved(t, u, id, j, gone)
    requires id in t.jobs || id !in known
    requires id in t.jobs && Down(t.jobs[id].status) ==> Down(j.status)
    ensures ListedDown(u.jobs, u.lists, known + {id}) && Bounded(u.lists)
  {
    forall v | Listed(u.lists, v)
      ensures v in known + {id} && (v in u.jobs ==> Down(u.jobs[v].status))
    {
      ListedMoved(t, u, id, j, gone, v);
    }
  }

  lemma {:induction false} SafeMoved(t: Table, u: Table, id: string, j: ActiveJob, gone: set<string>,
                                     known: set<string>)
    requires Safe(t, known) && Moved(t, u, id, j, gone)
    requires id in t.jobs || id !in known
    requires id in t.jobs ==> t.jobs[id].job == j.job && (Down(t.jobs[id].status) ==> Down(j.status))
    ensures Safe(u, known + {id})
  {
    ArchiveMoved(t, u, id, j, gone, known);
    ListsMoved(t, u, id, j, gone, known);
  }

  /** A job that is down stays down. */
  lemma {:induction false} StaysDown(t: Table, op: Op)
    requires Takes(t, op) && Id(op) in t.jobs && Down(t.jobs[Id(op)].status)
    ensures Down(Changed(t, op).status)
  {
  }

  /** With fresh IDs, every operation keeps all jobs retrievable. */
  lemma {:induction false} SafeKept(t: Table, op: Op, known: set<string>)
    requires Safe(t, known) && Fresh(t, op, known) && Callable(t, op)
    ensures Safe(Apply(t, op), Known(t, op, known))
  {
    if Takes(t, op) {
      ApplyMoves(t, op);
      if Id(op) in t.jobs && Down(t.jobs[Id(op)].status) {
        StaysDown(t, op);
      }
      KnownAfter(t, op, known);
      SafeMoved(t, Apply(t, op), Id(op), Changed(t, op), Gone(t, op), known);
    }
  }

  lemma {:induction false} KnownAfter(t: Table, op: Op, known: set<string>)
    requires t.jobs.Keys <= known && Takes(t, op)
    ensures known + {Id(op)} == Known(t, op, known)
  {
  }

  function Rank(s: Status): nat {
    match s
    case Starting => 0
    case Running => 1
    case _ => 2
  }

  /** Seen through GetJob, an operation changes its own job and no other. */
  lemma {:induction false} LookupMoved(t: Table, u: Table, id: string, j: ActiveJob, gone: set<string>,
                                       known: set<string>, v: string)
    requires Safe(t, known) && Moved(t, u, id, j, gone) && (id in t.jobs || id !in known)
    ensures Lookup(u, v) == if v == id then Some(j) else Lookup(t, v)
  {
    if v in gone {
      GoneAreDown(t, u, id, j, gone, known, v);
    }
  }

  lemma {:induction false} LookupAfter(t: Table, op: Op, known: set<string>, id: string)
    requires Safe(t, known) && Fresh(t, op, known) && Callable(t, op)
    ensures Lookup(Apply(t, op), id) == if Takes(t, op) && id == Id(op) then Some(Changed(t, op)) else Lookup(t, id)
  {
    if Takes(t, op) {
      ApplyMoves(t, op);
      LookupMoved(t, Apply(t, op), Id(op), Changed(t, op), Gone(t, op), known, id);
    }
  }

  /** The list of the app got the job in front, and lost its last one if it was full. */
  ghost predicate ListsPush(before: Lists, after: Lists, app: string, id: string) {
    var l := ListOf(before, app);
    && ListOf(after, app) == [id] + (if |l| < 25 then l else l[..24])
    && forall other | other != app :: ListOf(after, other) == ListOf(before, other)
  }

  /** The job at the last place of a full list went to the archive, and no other job but `id` changed. */
  ghost predicate LastGoes(t: Table, u: Table, app: string, id: string) {
    var l := ListOf(t.lists, app);
    forall v | v in t.jobs && v != id ::
      if |l| == 25 && v == l[24] then v !in u.jobs && v in u.archive && u.archive[v] == t.jobs[v]
      else v in u.jobs && u.jobs[v] == t.jobs[v]
  }

  lemma {:induction false} PushMoved(t: Table, u: Table, id: string, j: ActiveJob, gone: set<string>)
    requires Bounded(t.lists) && Moved(t, u, id, j, gone) && Down(j.status)
    ensures ListsPush(t.lists, u.lists, JobOf(j).app, id) && LastGoes(t, u, JobOf(j).app, id)
  {
    var l := ListOf(t.lists, JobOf(j).app);
    assert Front([id] + l) == [id] + (if |l| < 25 then l else l[..24]);
  }

  lemma {:induction false} UnlistedStays(t: Table, u: Table, id: string, j: ActiveJob, gone: set<string>,
                                         known: set<string>)
    requires Safe(t, known) && Moved(t, u, id, j, gone) && id in t.jobs && Active(t.jobs[id].status)
    ensures id in u.jobs && u.jobs[id] == j
  {
    if id in gone {
      GoneAreDown(t, u, id, j, gone, known, id);
    }
  }

  /** A job that goes down stays live, first in the list of its app; of a full list the last
      one goes to the archive, and nothing else goes anywhere. */
  lemma {:induction false} DownPushes(t: Table, op: Op, known: set<string>)
    requires Safe(t, known) && Callable(t, op) && (op.SetDone? || op.SetFailed?)
    requires op.id in t.jobs && Active(t.jobs[op.id].status)
    ensures var u, app := Apply(t, op), JobOf(t.jobs[op.id]).app;
            && op.id in u.jobs && Down(u.jobs[op.id].status)
            && ListsPush(t.lists, u.lists, app, op.id) && LastGoes(t, u, app, op.id)
  {
    ApplyMoves(t, op);
    PushMoved(t, Apply(t, op), op.id, Changed(t, op), Gone(t, op));
    UnlistedStays(t, Apply(t, op), op.id, Changed(t, op), Gone(t, op), known);
  }

  /** A job that is active is not pruned by an operation. */
  lemma {:induction false} ActiveStays(t: Table, op: Op, known: set<string>, id: string)
    requires Safe(t, known) && Callable(t, op) && id in t.jobs && Active(t.jobs[id].status)
    ensures id in Apply(t, op).jobs
  {
    if Takes(t, op) {
      ApplyMoves(t, op);
      if id in Gone(t, op) {
        GoneAreDown(t, Apply(t, op), Id(op), Changed(t, op), Gone(t, op), known, id);
      }
    }
  }

  /** What an operation does to a job that was added before: it stays retrievable, and its
      status only moves forward, and not at all once it is down. */
  lemma {:induction false} JobKept(t: Table, op: Op, known: set<string>, id: string)
    requires Safe(t, known) && Fresh(t, op, known) && Callable(t, op) && id in known
    ensures Lookup(t, id).Some? && Lookup(Apply(t, op), id).Some?
    ensures var was, now := Lookup(t, id).value, Lookup(Apply(t, op), id).value;
            && now.job == was.job && Rank(was.status) <= Rank(now.status)
            && (Down(was.status) ==> now.status == was.status)
  {
    LookupAfter(t, op, known, id);
  }

  /** The record agrees with itself: the job is done exactly if it exited with status 0,
      crashed exactly if it exited with another one, and failed exactly if there is an error. */
  predicate Coherent(j: ActiveJob) {
    && (j.status == Done <==> j.exitStatus == Some(0))
    && (j.status == Crashed <==> j.exitStatus.Some? && j.exitStatus.value != 0)
    && (j.status == Failed <==> j.error.Some?)
  }

  /** All live, archived and saved records are coherent. */
  ghost predicate AllCoherent(t: Table) {
    && (forall id | id in t.jobs :: Coherent(t.jobs[id]))
    && (forall id | id in t.archive :: Coherent(t.archive[id]))
    && (forall id | id in t.bucket && t.bucket[id].Some? :: Coherent(t.bucket[id].value))
  }

  lemma {:induction false} CoherentChange(t: Table, op: Op)
    requires Takes(t, op) && (Id(op) in t.jobs ==> Coherent(t.jobs[Id(op)]))
    ensures Coherent(Changed(t, op))
  {
  }

  lemma {:induction false} CoherentMoved(t: Table, u: Table, id: string, j: ActiveJob, gone: set<string>)
    requires AllCoherent(t) && Moved(t, u, id, j, gone) && Coherent(j)
    ensures AllCoherent(u)
  {
  }

  /** What a call makes of the record of its live job: each field that it is about, and no other. */
  ghost predicate Shows(was: ActiveJob, op: Op, now: ActiveJob) {
    match op
    case Add(_, _) => now == was
    case SetRunning(_, at) => now == if was.status == Starting then was.(status := Running, startedAt := at) else was
    case SetDone(_, exit, at) =>
      if was.status != Starting && was.status != Running then now == was
      else now == was.(status := now.status, exitStatus := Some(exit), endedAt := at, pid := None)
           && now.status == if exit == 0 then Done else Crashed
    case SetFailed(_, error, at) =>
      if was.status != Starting && was.status != Running then now == was
      else now == was.(status := Failed, error := Some(error), endedAt := at, pid := None)
    case SetForceStop(_) => now == was.(forceStop := true)
    case SetContainerIP(_, ip) => now == was.(internalIP := ip)
    case SetContainerPID(_, pid) => now == was.(pid := Some(pid))
  }

  /** A new record: starting now, and nothing else is known about it. */
  ghost predicate IsNew(j: Job, now: int, record: ActiveJob) {
    && record.job == Some(j) && record.status == Starting && record.createdAt == now
    && record.startedAt == 0 && record.endedAt == 0 && record.exitStatus == None && record.error == None
    && record.internalIP == "" && record.pid == None && !record.forceStop
  }

  /** No two starting or running jobs share a volume. */
  ghost predicate Exclusive(jobs: map<string, ActiveJob>) {
    forall a, b, v | a in jobs && b in jobs && a != b && Active(jobs[a].status) && Active(jobs[b].status)
                     && v in JobOf(jobs[a]).volumes :: v !in JobOf(jobs[b]).volumes
  }

  lemma {:induction false} ExclusiveKept(t: Table, op: Op)
    requires Keyed(t.jobs) && Bounded(t.lists) && Exclusive(t.jobs)
    ensures Exclusive(Apply(t, op).jobs)
  {
    if Takes(t, op) {
      ApplyMoves(t, op);
      ExclusiveUpdate(t, op);
    }
  }

  lemma {:induction false} ExclusiveUpdate(t: Table, op: Op)
    requires Takes(t, op) && Exclusive(t.jobs)
    ensures Exclusive(t.jobs[Id(op) := Changed(t, op)])
  {
    var jobs, id, j := t.jobs, Id(op), Changed(t, op);
    if !op.Add? {
      assert j.job == jobs[id].job && (Active(j.status) ==> Active(jobs[id].status));
    } else {
      forall b, v | b in jobs && Active(jobs[b].status) && v in JobOf(j).volumes
        ensures v !in JobOf(jobs[b]).volumes
      {
        assert !InUse(jobs, v);
      }
    }
  }

  /** The status of every job that was ever added. */
  ghost function Statuses(t: Table): map<string, Status> {
    map id | id in t.jobs.Keys + t.archive.Keys :: Lookup(t, id).value.status
  }

  /** Two views agree on an ID. */
  ghost predicate Agree(a: map<string, Status>, b: map<string, Status>, id: string) {
    (id in a <==> id in b) && (id in a && id in b ==> a[id] == b[id])
  }

  lemma {:induction false} StatusMoved(t: Table, u: Table, id: string, j: ActiveJob, gone: set<string>,
                                       known: set<string>, v: string)
    requires Safe(t, known) && Moved(t, u, id, j, gone) && (id in t.jobs || id !in known)
    ensures Agree(Statuses(u), Statuses(t)[id := j.status], v)
  {
    LookupMoved(t, u, id, j, gone, known, v);
  }

  lemma {:induction false} StatusesMoved(t: Table, u: Table, id: string, j: ActiveJob, gone: set<string>,
                                         known: set<string>)
    requires Safe(t, known) && Moved(t, u, id, j, gone) && (id in t.jobs || id !in known)
    ensures Statuses(u) == Statuses(t)[id := j.status]
  {
    var a, b := Statuses(u), Statuses(t)[id := j.status];
    forall v
      ensures Agree(a, b, v)
    {
      StatusMoved(t, u, id, j, gone, known, v);
    }
    SameViews(a, b);
  }

  lemma {:induction false} SameViews(a: map<string, Status>, b: map<string, Status>)
    requires forall v :: Agree(a, b, v)
    ensures a == b
  {
    forall v
      ensures (v in a <==> v in b) && (v in a ==> a[v] == b[v])
    {
      assert Agree(a, b, v);
    }
  }

  ghost predicate Is(view: map<string, Status>, id: string, s: Status) {
    id in view && view[id] == s
  }

  /** The log tells a job's story: it was created, it was started only if it has left its
      first status, and it was stopped or failed, and not both, exactly if it is down. */
  ghost predicate ToldOf(log: seq<Notice>, view: map<string, Status>, id: string) {
    && (Created(id) in log <==> id in view) && (Started(id) in log ==> id in view && view[id] != Starting)
    && (Stopped(id) in log <==> Is(view, id, Done) || Is(view, id, Crashed))
    && (Errored(id) in log <==> Is(view, id, Failed))
  }

  /** The log tells each job's story, and nothing twice. */
  ghost predicate Told(log: seq<Notice>, view: map<string, Status>) {
    (forall a, b | 0 <= a < b < |log| :: log[a] != log[b]) && forall id :: ToldOf(log, view, id)
  }

  /** The notice that a change of status calls for. */
  ghost predicate Due(view: map<string, Status>, n: Notice, s: Status) {
    match n
    case Created(id) => id !in view && s == Starting
    case Started(id) => Is(view, id, Starting) && s == Running
    case Stopped(id) => id in view && Active(view[id]) && (s == Done || s == Crashed)
    case Errored(id) => id in view && Active(view[id]) && s == Failed
  }

  lemma {:induction false} ToldOfMore(log: seq<Notice>, view: map<string, Status>, n: Notice, s: Status, id: string)
    requires ToldOf(log, view, id) && Due(view, n, s)
    ensures ToldOf(log + [n], view[n.id := s], id) && (n.id == id ==> n !in log)
  {
  }

  lemma {:induction false} ToldMore(log: seq<Notice>, view: map<string, Status>, n: Notice, s: Status)
    requires Told(log, view) && Due(view, n, s)
    ensures Told(log + [n], view[n.id := s])
  {
    assert ToldOf(log, view, n.id);
    ToldOfMore(log, view, n, s, n.id);
    var more, after := log + [n], view[n.id := s];
    forall id
      ensures ToldOf(more, after, id)
    {
      assert ToldOf(log, view, id);
      ToldOfMore(log, view, n, s, id);
    }
  }

  lemma {:induction false} ToldNext(log: seq<Notice>, view: map<string, Status>, t: Table, op: Op)
    requires Told(log, view) && Takes(t, op) && (Notices(t, op) != [] ==> JobOf(Changed(t, op)).id == Id(op))
    requires if op.Add? then op.job.id !in view else Is(view, op.id, t.jobs[op.id].status)
    ensures Told(log + Notices(t, op), view[Id(op) := Changed(t, op).status])
  {
    var s := Changed(t, op).status;
    if Notices(t, op) != [] {
      ToldMore(log, view, Notices(t, op)[0], s);
    } else {
      assert view[Id(op) := s] == view && log + [] == log;
    }
  }

  lemma {:induction false} ToldKept(t: Table, op: Op, known: set<string>)
    requires Safe(t, known) && Fresh(t, op, known) && Callable(t, op) && Told(t.log, Statuses(t))
    ensures Told(Apply(t, op).log, Statuses(Apply(t, op)))
  {
    if Takes(t, op) {
      ApplyMoves(t, op);
      StatusesMoved(t, Apply(t, op), Id(op), Changed(t, op), Gone(t, op), known);
      ToldNext(t.log, Statuses(t), t, op);
    }
  }

  ghost predicate DownIn(jobs: map<string, ActiveJob>, id: string, app: string) {
    id in jobs && Down(jobs[id].status) && JobOf(jobs[id]).app == app
  }

  /** The lists hold exactly the live down jobs, each once, under its app. */
  ghost predicate Tracked(jobs: map<string, ActiveJob>, lists: Lists) {
    && (forall app | app in lists :: Distinct(lists[app]))
    && (forall app, id :: id in ListOf(lists, app) <==> DownIn(jobs, id, app))
  }

  /** The bucket holds exactly the live jobs, as they are. */
  ghost predicate WrittenThrough(t: Table) {
    t.bucket.Keys == t.jobs.Keys && forall id | id in t.jobs :: t.bucket[id] == Some(t.jobs[id])
  }

  /** Pushing a new ID on a list of distinct ones drops the last one of a full list. */
  lemma {:induction false} FrontOf(l: seq<string>, id: string, v: string)
    requires |l| <= MAX_DOWN_JOBS_PER_APP && Distinct(l) && id !in l
    ensures Distinct(Front([id] + l))
    ensures v in Front([id] + l) <==> v == id || (v in l && v !in Last(l))
  {
    var f := Front([id] + l);
    assert forall k | 0 < k < |f| :: f[k] == l[k - 1];
    assert f[0] == id;
    if v in l {
      var k :| 0 <= k < |l| && l[k] == v;
      assert k + 1 < |f| ==> f[k + 1] == v;
    }
  }

  /** A job that was not down goes down. */
  lemma {:induction false} TrackedPush(jobs: map<string, ActiveJob>, lists: Lists, id: string, j: ActiveJob)
    requires Bounded(lists) && Tracked(jobs, lists) && (id in jobs ==> !Down(jobs[id].status)) && Down(j.status)
    ensures Tracked(jobs[id := j] - Victim(lists, JobOf(j).app),
                    lists[JobOf(j).app := Front([id] + ListOf(lists, JobOf(j).app))])
  {
    var app, l := JobOf(j).app, ListOf(lists, JobOf(j).app);
    var jobs', lists' := jobs[id := j] - Victim(lists, app), lists[app := Front([id] + l)];
    assert id in l <==> DownIn(jobs, id, app);
    FrontOf(l, id, id);
    forall at, v
      ensures v in ListOf(lists', at) <==> DownIn(jobs', v, at)
    {
      assert v in ListOf(lists, at) <==> DownIn(jobs, v, at);
      assert v in l <==> DownIn(jobs, v, app);
      FrontOf(l, id, v);
    }
  }

  /** A job that was not down goes on. */
  lemma {:induction false} TrackedOn(jobs: map<string, ActiveJob>, lists: Lists, id: string, j: ActiveJob)
    requires Tracked(jobs, lists) && (id in jobs ==> !Down(jobs[id].status)) && !Down(j.status)
    ensures Tracked(jobs[id := j], lists)
  {
    forall at, v
      ensures v in ListOf(lists, at) <==> DownIn(jobs[id := j], v, at)
    {
      assert v in ListOf(lists, at) <==> DownIn(jobs, v, at);
    }
  }

  lemma {:induction false} TrackedMoved(t: Table, u: Table, id: string, j: ActiveJob, gone: set<string>)
    requires Moved(t, u, id, j, gone) && Bounded(t.lists) && Tracked(t.jobs, t.lists)
    requires id in t.jobs ==> !Down(t.jobs[id].status)
    ensures Tracked(u.jobs, u.lists)
  {
    if Down(j.status) {
      TrackedPush(t.jobs, t.lists, id, j);
    } else {
      TrackedOn(t.jobs, t.lists, id, j);
      assert u.jobs == t.jobs[id := j];
    }
  }

  /** A job that is down already is tracked again: its list holds it twice, or the list
      is full and the job itself goes. */
  lemma {:induction false} RetrackedBreaks(t: Table, u: Table, id: string, j: ActiveJob, gone: set<string>)
    requires Moved(t, u, id, j, gone) && Bounded(t.lists) && Tracked(t.jobs, t.lists)
    requires id in t.jobs && Down(t.jobs[id].status) && Down(j.status) && j.job == t.jobs[id].job
    ensures !Tracked(u.jobs, u.lists)
  {
    var app, l := JobOf(j).app, ListOf(t.lists, JobOf(j).app);
    assert id in l <==> DownIn(t.jobs, id, app);
    var k :| 0 <= k < |l| && l[k] == id;
    var f := u.lists[app];
    assert f[0] == id;
    if k + 1 < |f| {
      assert f[k + 1] == id;
    } else {
      assert id in gone && id in ListOf(u.lists, app);
    }
  }

  lemma {:induction false} WrittenMovedIff(t: Table, u: Table, id: string, j: ActiveJob, gone: set<string>)
    requires Moved(t, u, id, j, gone) && WrittenThrough(t)
    ensures WrittenThrough(u) <==> id !in gone
  {
    if id in gone {
      assert id in u.bucket && id !in u.jobs;
    }
  }

  /** A job that is down is touched again, and so persisted in a down state again. */
  predicate Touches(t: Table, op: Op) {
    Takes(t, op) && !op.Add? && Down(t.jobs[op.id].status)
  }

  /** The lists go on holding exactly the live down jobs if and only if no job that is
      down is touched again. */
  lemma {:induction false} TrackedKeptIff(t: Table, op: Op)
    requires Keyed(t.jobs) && Bounded(t.lists) && Tracked(t.jobs, t.lists)
    ensures Tracked(Apply(t, op).jobs, Apply(t, op).lists) <==> !Touches(t, op)
  {
    if Takes(t, op) {
      ApplyMoves(t, op);
      if Touches(t, op) {
        RetrackedBreaks(t, Apply(t, op), Id(op), Changed(t, op), Gone(t, op));
      } else {
        TrackedMoved(t, Apply(t, op), Id(op), Changed(t, op), Gone(t, op));
      }
    }
  }

  /** The bucket goes on holding exactly the live jobs if and only if the job that is
      persisted does not push itself out of its full list. */
  lemma {:induction false} WrittenKeptIff(t: Table, op: Op)
    requires Keyed(t.jobs) && Bounded(t.lists) && WrittenThrough(t)
    ensures WrittenThrough(Apply(t, op)) <==> !(Takes(t, op) && Id(op) in Gone(t, op))
  {
    if Takes(t, op) {
      ApplyMoves(t, op);
      WrittenMovedIff(t, Apply(t, op), Id(op), Changed(t, op), Gone(t, op));
    }
  }

  /** Without touching down jobs again, lists and bucket both stay exact. */
  lemma {:induction false} ThroughKept(t: Table, op: Op)
    requires Keyed(t.jobs) && Bounded(t.lists) && Tracked(t.jobs, t.lists) && WrittenThrough(t) && !Touches(t, op)
    ensures Tracked(Apply(t, op).jobs, Apply(t, op).lists) && WrittenThrough(Apply(t, op))
  {
    TrackedKeptIff(t, op);
    WrittenKeptIff(t, op);
    if Takes(t, op) {
      var app := JobOf(Changed(t, op)).app;
      assert Id(op) in Gone(t, op) ==> Id(op) in ListOf(t.lists, app);
      assert Id(op) in ListOf(t.lists, app) <==> DownIn(t.jobs, Id(op), app);
    }
  }

  /** Force-stopping the least recent down job of a full list: the job is no longer live,
      and what is saved for it is null. */
  lemma {:induction false} ForceStopForgets(t: Table, id: string)
    requires AllFit(t.jobs) && Bounded(t.lists) && id in t.jobs && Down(t.jobs[id].status)
    requires id in Victim(t.lists, JobOf(t.jobs[id]).app)
    ensures var u := Apply(t, SetForceStop(id));
            id !in u.jobs && id in u.bucket && u.bucket[id] == None
  {
    ApplyMoves(t, SetForceStop(id));
  }

  /** The lists are the most recent part of all that was ever pushed. */
  ghost predicate Recent(lists: Lists, pushed: Lists) {
    forall app :: ListOf(lists, app) == Front(ListOf(pushed, app))
  }

  /** The IDs of jobs persisted in a down state, by app, most recent first. */
  ghost function Pushed(t: Table, op: Op, pushed: Lists): Lists {
    if Takes(t, op) && Down(Changed(t, op).status)
    then pushed[JobOf(Changed(t, op)).app := [Id(op)] + ListOf(pushed, JobOf(Changed(t, op)).app)] else pushed
  }

  lemma {:induction false} RecentPush(lists: Lists, pushed: Lists, app: string, id: string)
    requires Recent(lists, pushed)
    ensures Recent(lists[app := Front([id] + ListOf(lists, app))], pushed[app := [id] + ListOf(pushed, app)])
  {
    var lists', pushed' := lists[app := Front([id] + ListOf(lists, app))], pushed[app := [id] + ListOf(pushed, app)];
    forall at
      ensures ListOf(lists', at) == Front(ListOf(pushed', at))
    {
      assert ListOf(lists, at) == Front(ListOf(pushed, at));
      assert Front([id] + Front(ListOf(pushed, app))) == Front([id] + ListOf(pushed, app));
    }
  }

  lemma {:induction false} RecentKept(t: Table, op: Op, pushed: Lists)
    requires Keyed(t.jobs) && Bounded(t.lists) && Recent(t.lists, pushed)
    ensures Recent(Apply(t, op).lists, Pushed(t, op, pushed))
  {
    if Takes(t, op) {
      ApplyMoves(t, op);
      if Down(Changed(t, op).status) {
        RecentPush(t.lists, pushed, JobOf(Changed(t, op)).app, Id(op));
      }
    }
  }

  ghost function Run(t: Table, ops: seq<Op>): Table
    decreases |ops|
  {
    if ops == [] then t else Run(Apply(t, ops[0]), ops[1..])
  }

  ghost function AllKnown(t: Table, ops: seq<Op>, known: set<string>): set<string>
    decreases |ops|
  {
    if ops == [] then known else AllKnown(Apply(t, ops[0]), ops[1..], Known(t, ops[0], known))
  }

  ghost function AllPushed(t: Table, ops: seq<Op>, pushed: Lists): Lists
    decreases |ops|
  {
    if ops == [] then pushed else AllPushed(Apply(t, ops[0]), ops[1..], Pushed(t, ops[0], pushed))
  }

  ghost predicate AllFresh(t: Table, ops: seq<Op>, known: set<string>)
    decreases |ops|
  {
    ops == [] || (Fresh(t, ops[0], known) && AllFresh(Apply(t, ops[0]), ops[1..], Known(t, ops[0], known)))
  }

  ghost predicate NoneTouches(t: Table, ops: seq<Op>)
    decreases |ops|
  {
    ops == [] || (!Touches(t, ops[0]) && NoneTouches(Apply(t, ops[0]), ops[1..]))
  }

  /** What holds on every run with fresh IDs. */
  ghost predicate Sound(t: Table, known: set<string>, pushed: Lists) {
    && Safe(t, known) && Keyed(t.jobs) && Exclusive(t.jobs) && Told(t.log, Statuses(t))
    && Recent(t.lists, pushed)
  }

  lemma {:induction false} KeyedKept(t: Table, op: Op)
    requires Keyed(t.jobs) && Bounded(t.lists)
    ensures Keyed(Apply(t, op).jobs)
  {
    if Takes(t, op) {
      ApplyMoves(t, op);
    }
  }

  lemma {:induction false} RunSound(t: Table, ops: seq<Op>, known: set<string>, pushed: Lists)
    requires Sound(t, known, pushed) && AllFresh(t, ops, known)
    ensures Sound(Run(t, ops), AllKnown(t, ops, known), AllPushed(t, ops, pushed))
    decreases |ops|
  {
    if ops != [] {
      SafeKept(t, ops[0], known);
      KeyedKept(t, ops[0]);
      ExclusiveKept(t, ops[0]);
      ToldKept(t, ops[0], known);
      RecentKept(t, ops[0], pushed);
      RunSound(Apply(t, ops[0]), ops[1..], Known(t, ops[0], known), Pushed(t, ops[0], pushed));
    }
  }

  lemma {:induction false} RunThrough(t: Table, ops: seq<Op>)
    requires Keyed(t.jobs) && Bounded(t.lists) && NoneTouches(t, ops)
    requires Tracked(t.jobs, t.lists) && WrittenThrough(t)
    ensures Tracked(Run(t, ops).jobs, Run(t, ops).lists) && WrittenThrough(Run(t, ops))
    decreases |ops|
  {
    if ops != [] {
      KeyedKept(t, ops[0]);
      BoundedKept(t, ops[0]);
      ThroughKept(t, ops[0]);
      RunThrough(Apply(t, ops[0]), ops[1..]);
    }
  }

  lemma {:induction false} BoundedKept(t: Table, op: Op)
    requires Keyed(t.jobs) && Bounded(t.lists)
    ensures Bounded(Apply(t, op).lists)
  {
    if Takes(t, op) {
      ApplyMoves(t, op);
    }
  }

  lemma {:induction false} RunRecent(t: Table, ops: seq<Op>, pushed: Lists)
    requires Keyed(t.jobs) && Bounded(t.lists) && Recent(t.lists, pushed)
    ensures Recent(Run(t, ops).lists, AllPushed(t, ops, pushed))
    decreases |ops|
  {
    if ops != [] {
      KeyedKept(t, ops[0]);
      BoundedKept(t, ops[0]);
      RecentKept(t, ops[0], pushed);
      RunRecent(Apply(t, ops[0]), ops[1..], Pushed(t, ops[0], pushed));
    }
  }

  /** A new state. */
  function Empty(): Table {
    Table(map[], map[], map[], map[], [])
  }

  /** On every run with fresh IDs from a new state: every job ever added is retrievable, no
      two active jobs share a volume, the log tells each story once, and each app's list is
      the most recent part of what was pushed. If no job that is down is touched again, the
      bucket equals the live jobs, and an app's live down jobs are exactly the 25 that went
      down most recently. */
  lemma {:induction false} EveryRun(ops: seq<Op>)
    requires AllFresh(Empty(), ops, {})
    ensures Sound(Run(Empty(), ops), AllKnown(Empty(), ops, {}), AllPushed(Empty(), ops, map[]))
    ensures NoneTouches(Empty(), ops) ==>
              var t := Run(Empty(), ops);
              && WrittenThrough(t) && Tracked(t.jobs, t.lists)
              && forall app, id :: DownIn(t.jobs, id, app) <==> id in Front(ListOf(AllPushed(Empty(), ops, map[]), app))
    ensures forall app ::
              var l, pushed := ListOf(Run(Empty(), ops).lists, app), ListOf(AllPushed(Empty(), ops, map[]), app);
              l <= pushed && |l| == if |pushed| < 25 then |pushed| else 25
  {
    RunSound(Empty(), ops, {}, map[]);
    var t, pushed := Run(Empty(), ops), AllPushed(Empty(), ops, map[]);
    forall app
      ensures ListOf(t.lists, app) == Front(ListOf(pushed, app))
    {
    }
    if NoneTouches(Empty(), ops) {
      RunThrough(Empty(), ops);
      forall app, id
        ensures DownIn(t.jobs, id, app) <==> id in Front(ListOf(pushed, app))
      {
        assert ListOf(t.lists, app) == Front(ListOf(pushed, app));
        assert id in ListOf(t.lists, app) <==> DownIn(t.jobs, id, app);
      }
    }
  }
}
