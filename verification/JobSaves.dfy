// How the job store's records keep up with its jobs while many goroutines
// change them. A change holds mu; when it must be saved, its goroutine takes
// saveMu before it lets mu go, and writes the record holding saveMu only.
module JobSaves {
  import opened Common
  import opened JobStore

  // mu is free, or held by a goroutine that waits for saveMu to write job.
  datatype Mu = Free | WantsSave(job: Job)

  // writing is the record the goroutine that holds saveMu is writing. saved
  // and landed are histories: the changes to save in the order they were
  // made, and the record writes in the order they reached the disk. used are
  // the IDs ever given out, atClose the jobs at the moment of close.
  datatype World = World(
    jobs: map<JobId, Job>,
    closed: bool,
    mu: Mu,
    writing: Option<Job>,
    records: map<JobId, Record>,
    saved: seq<Job>,
    landed: seq<Job>,
    used: set<JobId>,
    atClose: map<JobId, Job>)

  datatype Action =
    | Add(job: Job)
    | Change(id: JobId, next: Job)
    | Remove(id: JobId)
    | Close
    | TakeSaveMu
    | WriteLands

  // What the runners and cancel do to a job: a finished one stays as it is,
  // and finishing is a change of status.
  predicate Lawful(j: Job, next: Job) {
    && next.id == j.id
    && (j.Finished() ==> next == j)
    && (!j.Finished() && next.Finished() ==> next.status != j.status)
  }

  // The end of a change under mu, which saves job unless the store is closed.
  function SaveLocked(w: World, job: Job): World {
    if w.closed then w else w.(mu := WantsSave(job), saved := w.saved + [job])
  }

  // A step that is not enabled changes nothing.
  function Step(w: World, a: Action): World {
    match a
    case Add(job) =>
      // A new job has a random ID and has not finished.
      if !w.mu.Free? || job.id in w.used || job.id == "" || job.Finished() then w
      else SaveLocked(w.(jobs := w.jobs[job.id := job], used := w.used + {job.id}), job)
    case Change(id, next) =>
      if !w.mu.Free? || id !in w.jobs || !Lawful(w.jobs[id], next) then w
      else
        var w' := w.(jobs := w.jobs[id := next]);
        if next.status == w.jobs[id].status then w' else SaveLocked(w', next)
    case Remove(id) =>
      if !w.mu.Free? || id !in w.jobs || !w.jobs[id].Finished() then w
      else w.(jobs := w.jobs - {id}, records := w.records - {id})
    case Close =>
      if !w.mu.Free? || w.closed then w else w.(closed := true, atClose := w.jobs)
    case TakeSaveMu =>
      if w.mu.WantsSave? && w.writing.None? then w.(mu := Free, writing := Some(w.mu.job)) else w
    case WriteLands =>
      if w.writing.None? then w
      else w.(writing := None, records := w.records[w.writing.value.id := Readable(w.writing.value)],
              landed := w.landed + [w.writing.value])
  }

  function Run(w: World, acts: seq<Action>): World
    decreases |acts|
  {
    if acts == [] then w else Run(Step(w, acts[0]), acts[1..])
  }

  // A store just opened on the records of an earlier run.
  function Opened(records: map<JobId, Record>, now: Time): World {
    World(Reopen(records, now), false, Free, None, Resaved(records, now), [], [], records.Keys, map[])
  }

  // The records once the writes under way have landed.
  function Settled(w: World): map<JobId, Record> {
    var r := if w.writing.Some? then w.records[w.writing.value.id := Readable(w.writing.value)] else w.records;
    if w.mu.WantsSave? then r[w.mu.job.id := Readable(w.mu.job)] else r
  }

  // r holds j as a restart needs it: a finished job whole.
  predicate Holds(r: Record, j: Job) {
    && r.Readable? && r.job.id == j.id && r.job.Finished() == j.Finished()
    && r.job.status == j.status
    && (j.Finished() ==> r.job.(position := 0) == j.(position := 0))
  }

  // The jobs the records must bring back.
  function Expected(w: World): map<JobId, Job> {
    if w.closed then map id | id in w.atClose && id in w.jobs :: w.atClose[id] else w.jobs
  }

  ghost predicate Inv(w: World) {
    && w.saved == w.landed + (if w.writing.Some? then [w.writing.value] else [])
      + (if w.mu.WantsSave? then [w.mu.job] else [])
    && (w.closed ==> w.mu.Free?)
    && w.jobs.Keys <= w.used && w.atClose.Keys <= w.used
    && (forall id <- w.jobs :: w.jobs[id].id == id)
    && (forall id <- Expected(w) ::
      Expected(w)[id].id == id && id != "" && id in Settled(w) && Holds(Settled(w)[id], Expected(w)[id]))
  }

  lemma ChangeKeepsInv(w: World, id: JobId, next: Job)
    requires Inv(w) && w.mu.Free? && id in w.jobs && Lawful(w.jobs[id], next)
    ensures Inv(Step(w, Change(id, next)))
  {
    var w' := Step(w, Change(id, next));
    if w.closed {
      assert Expected(w') == Expected(w) && Settled(w') == Settled(w);
    } else {
      assert id in Expected(w) && Holds(Settled(w)[id], w.jobs[id]);
      if next.status == w.jobs[id].status {
        assert Settled(w') == Settled(w);
      } else {
        assert Settled(w') == Settled(w)[id := Readable(next)];
      }
      forall i <- Expected(w')
        ensures Expected(w')[i].id == i && i != "" && i in Settled(w') && Holds(Settled(w')[i], Expected(w')[i])
      {
        if i != id {
          assert i in Expected(w);
        }
      }
    }
  }

  lemma AddKeepsInv(w: World, job: Job)
    requires Inv(w)
    ensures Inv(Step(w, Add(job)))
  {
    var w' := Step(w, Add(job));
    if w' != w {
      forall i <- Expected(w')
        ensures Expected(w')[i].id == i && i != "" && i in Settled(w') && Holds(Settled(w')[i], Expected(w')[i])
      {
        if i != job.id {
          assert i in Expected(w) && Expected(w')[i] == Expected(w)[i];
        }
      }
    }
  }

  lemma RemoveKeepsInv(w: World, id: JobId)
    requires Inv(w)
    ensures Inv(Step(w, Remove(id)))
  {
    var w' := Step(w, Remove(id));
    forall i <- Expected(w')
      ensures Expected(w')[i].id == i && i != "" && i in Settled(w') && Holds(Settled(w')[i], Expected(w')[i])
    {
      assert i in Expected(w) && Expected(w')[i] == Expected(w)[i];
    }
  }

  lemma StepKeepsInv(w: World, a: Action)
    requires Inv(w)
    ensures Inv(Step(w, a))
  {
    var w' := Step(w, a);
    match a
    case Add(job) =>
      AddKeepsInv(w, job);
    case Change(id, next) =>
      if w.mu.Free? && id in w.jobs && Lawful(w.jobs[id], next) {
        ChangeKeepsInv(w, id, next);
      }
    case Remove(id) =>
      RemoveKeepsInv(w, id);
    case Close =>
      assert w'.closed && !w.closed ==> Expected(w') == Expected(w);
    case TakeSaveMu =>
      assert Settled(w') == Settled(w);
    case WriteLands =>
      assert Settled(w') == Settled(w);
  }

  lemma {:induction false} RunKeepsInv(w: World, acts: seq<Action>)
    requires Inv(w)
    ensures Inv(Run(w, acts))
    decreases |acts|
  {
    if acts != [] {
      StepKeepsInv(w, acts[0]);
      RunKeepsInv(Step(w, acts[0]), acts[1..]);
    }
  }

  lemma OpenedInv(records: map<JobId, Record>, now: Time)
    requires WellNamed(records)
    ensures Inv(Opened(records, now))
  {}

  // --------------------------------------------------------------- theorems

  // Records reach the disk in the order of the changes they save, none
  // skipped: what has landed is what was saved but for the last two at most.
  lemma WritesLandInOrder(records: map<JobId, Record>, now: Time, acts: seq<Action>)
    requires WellNamed(records)
    ensures var w := Run(Opened(records, now), acts);
      w.landed <= w.saved && |w.saved| <= |w.landed| + 2
  {
    OpenedInv(records, now);
    RunKeepsInv(Opened(records, now), acts);
  }

  // What a restart makes of a job that had not finished.
  predicate IsFailedBy(j: Job, id: JobId, restart: Time) {
    && j.id == id && j.status == Failed && j.error == "the server restarted before the job finished"
    && j.phase == "" && j.position == 0 && j.finished == Some(restart)
  }

  // Reopening after close brings every job back that was in the store at
  // close and not removed since: a finished one as it was, any other failed
  // by the restart, whatever was done to it after close.
  lemma RestartIsExact(records: map<JobId, Record>, now: Time, acts: seq<Action>, restart: Time)
    requires WellNamed(records)
    ensures var w := Run(Opened(records, now), acts);
      w.closed && w.writing.None? ==>
        forall id <- w.atClose | id in w.jobs ::
          && id in Reopen(w.records, restart)
          && var j := Reopen(w.records, restart)[id];
          if w.atClose[id].finished.Some? then j == w.atClose[id].(position := 0)
          else IsFailedBy(j, id, restart)
  {
    OpenedInv(records, now);
    RunKeepsInv(Opened(records, now), acts);
    var w := Run(Opened(records, now), acts);
    if w.closed && w.writing.None? {
      forall id <- w.atClose | id in w.jobs
        ensures id in w.records && Holds(w.records[id], w.atClose[id]) && id != "" && w.atClose[id].id == id
      {
        assert id in Expected(w);
      }
    }
  }

  // The same for a crash without close, at any moment no save is under way.
  lemma CrashIsExact(records: map<JobId, Record>, now: Time, acts: seq<Action>, restart: Time)
    requires WellNamed(records)
    ensures var w := Run(Opened(records, now), acts);
      !w.closed && w.writing.None? && w.mu.Free? ==>
        forall id <- w.jobs ::
          && id in Reopen(w.records, restart)
          && var j := Reopen(w.records, restart)[id];
          if w.jobs[id].finished.Some? then j == w.jobs[id].(position := 0)
          else IsFailedBy(j, id, restart)
  {
    OpenedInv(records, now);
    RunKeepsInv(Opened(records, now), acts);
    var w := Run(Opened(records, now), acts);
    if !w.closed && w.writing.None? && w.mu.Free? {
      assert Settled(w) == w.records && Expected(w) == w.jobs;
    }
  }

  // At any moment of any run, once the writes under way end and close comes,
  // all that was to be saved is on disk, and the jobs are as they were.
  lemma CloseSettles(records: map<JobId, Record>, now: Time, acts: seq<Action>)
    requires WellNamed(records)
    ensures var w := Run(Opened(records, now), acts);
      var w' := Run(w, [WriteLands, TakeSaveMu, WriteLands, Close]);
      && w'.closed && w'.jobs == w.jobs && w'.atClose == (if w.closed then w.atClose else w.jobs)
      && w'.writing.None? && w'.landed == w'.saved == w.saved
  {
    OpenedInv(records, now);
    RunKeepsInv(Opened(records, now), acts);
    var w := Run(Opened(records, now), acts);
    hide Run;
    Closing(w);
  }

  lemma Closing(w: World)
    requires Inv(w)
    ensures var w' := Run(w, [WriteLands, TakeSaveMu, WriteLands, Close]);
      && w'.closed && w'.jobs == w.jobs && w'.atClose == (if w.closed then w.atClose else w.jobs)
      && w'.writing.None? && w'.landed == w'.saved == w.saved
  {
    var acts := [WriteLands, TakeSaveMu, WriteLands, Close];
    var w1 := Step(w, acts[0]);
    var w2 := Step(w1, acts[1]);
    var w3 := Step(w2, acts[2]);
    RunFrom(w, acts, 0);
    RunFrom(w1, acts, 1);
    RunFrom(w2, acts, 2);
    RunFrom(w3, acts, 3);
    hide Run;
    StepKeepsInv(w, acts[0]);
    StepKeepsInv(w1, acts[1]);
    StepKeepsInv(w2, acts[2]);
    assert w2.mu.Free? && w3.mu.Free? && w3.writing.None?;
  }

  // The steps of the runners and of cancel are lawful; start only because
  // its callers never use it on a job that succeeded or failed. A cancelled
  // job is not started, and says so; any other runs in the phase given, from
  // the first time it was started. Cancelling ends what had not finished.
  lemma JobStepsAreLawful(j: Job, phase: string, now: Time)
    requires j.Finished() <==> j.status in {Succeeded, JobStore.Failed, Cancelled}
    ensures Lawful(j, j.Cancel(now))
    ensures Lawful(j, j.Start(phase, now).0) <==> (j.Finished() ==> j.status == Cancelled)
    ensures var (s, started) := j.Start(phase, now);
      if j.status == Cancelled then s == j && !started
      else
        && started && s.status == Running && s.phase == phase
        && s.started == Some(match j.started case Some(at) => at case None => now)
        && s == j.(status := s.status, phase := s.phase, started := s.started)
    ensures var c := j.Cancel(now);
      if j.finished.Some? then c == j
      else
        && c.status == Cancelled && c.phase == "" && c.finished == Some(now)
        && c == j.(status := c.status, phase := c.phase, finished := c.finished)
  {}

  // The removed job id: it is in no job for good, nothing waits to save it, and
  // its record is gone until the write of it that was under way lands, if one
  // was.
  ghost predicate Gone(w: World, id: JobId, writing: bool) {
    && id in w.used && id !in w.jobs
    && (forall i <- w.jobs :: w.jobs[i].id == i)
    && (w.mu.WantsSave? ==> w.mu.job.id != id)
    && (if w.writing.Some? && w.writing.value.id == id then writing && id !in w.records
        else (id in w.records <==> writing))
  }

  lemma StaysGone(w: World, id: JobId, writing: bool, a: Action)
    requires Gone(w, id, writing)
    ensures Gone(Step(w, a), id, writing)
  {}

  lemma {:induction false} RunStaysGone(w: World, id: JobId, writing: bool, acts: seq<Action>)
    requires Gone(w, id, writing)
    ensures Gone(Run(w, acts), id, writing)
    decreases |acts|
  {
    if acts != [] {
      StaysGone(w, id, writing, acts[0]);
      hide Gone;
      RunStaysGone(Step(w, acts[0]), id, writing, acts[1..]);
    }
  }

  // Whatever happened before and happens after, a removed job never comes
  // back while the server runs; and its record does, once the writes under way
  // have landed, exactly when a write of it was under way at its removal, since
  // removing does not take saveMu. Until that write lands there is no record.
  lemma RemovedRecordComesBack(records: map<JobId, Record>, now: Time, before: seq<Action>, id: JobId,
                               later: seq<Action>)
    requires WellNamed(records)
    ensures var w := Run(Opened(records, now), before);
      w.mu.Free? && id in w.jobs && w.jobs[id].Finished() ==>
        var writing := w.writing.Some? && w.writing.value.id == id;
        var w' := Run(Step(w, Remove(id)), later);
        && id !in w'.jobs
        && (if w'.writing.Some? && w'.writing.value.id == id then writing && id !in w'.records
            else (id in w'.records <==> writing))
  {
    OpenedInv(records, now);
    RunKeepsInv(Opened(records, now), before);
    var w := Run(Opened(records, now), before);
    if w.mu.Free? && id in w.jobs && w.jobs[id].Finished() {
      RunStaysGone(Step(w, Remove(id)), id, w.writing.Some? && w.writing.value.id == id, later);
    }
  }

  // And a run gets there, with any job and any end of it.
  lemma RemovedJobIsReopened(job: Job, done: Job, restart: Time) returns (acts: seq<Action>)
    requires job.id != "" && !job.Finished() && done.Finished() && Lawful(job, done)
    ensures var w := Run(Opened(map[], 0), acts);
      job.id in w.used && job.id !in w.jobs && job.id in Reopen(w.records, restart) && w.mu.Free? && w.writing.None?
  {
    var added, finished := [Add(job), TakeSaveMu, WriteLands],
      [Change(job.id, done), TakeSaveMu, Remove(job.id), WriteLands];
    acts := added + finished;
    RunConcat(Opened(map[], 0), added, finished);
    AddedRun(job);
    var w := Run(Opened(map[], 0), added);
    hide Run;
    FinishedRun(w, job, done, restart);
  }

  lemma AddedRun(job: Job)
    requires job.id != "" && !job.Finished()
    ensures var w := Run(Opened(map[], 0), [Add(job), TakeSaveMu, WriteLands]);
      !w.closed && w.mu.Free? && w.writing.None? && w.used == {job.id} && job.id in w.jobs && w.jobs[job.id] == job
  {
    var acts := [Add(job), TakeSaveMu, WriteLands];
    var w0 := Opened(map[], 0);
    var w1 := Step(w0, acts[0]);
    var w2 := Step(w1, acts[1]);
    assert w1.mu == WantsSave(job) && w1.jobs[job.id] == job && !w1.closed && w1.writing.None?;
    RunFrom(w0, acts, 0);
    RunFrom(w1, acts, 1);
    RunFrom(w2, acts, 2);
    hide Run;
  }

  lemma FinishedRun(w: World, job: Job, done: Job, restart: Time)
    requires !w.closed && w.mu.Free? && w.writing.None? && job.id in w.used && job.id in w.jobs && w.jobs[job.id] == job
    requires job.id != "" && !job.Finished() && done.Finished() && Lawful(job, done)
    ensures var w' := Run(w, [Change(job.id, done), TakeSaveMu, Remove(job.id), WriteLands]);
      job.id in w'.used && job.id !in w'.jobs && job.id in Reopen(w'.records, restart) && w'.mu.Free?
        && w'.writing.None?
  {
    var id := job.id;
    var acts := [Change(id, done), TakeSaveMu, Remove(id), WriteLands];
    RunFrom(w, acts, 0);
    var w1 := Step(w, acts[0]);
    RunFrom(w1, acts, 1);
    var w2 := Step(w1, acts[1]);
    RunFrom(w2, acts, 2);
    var w3 := Step(w2, acts[2]);
    RunFrom(w3, acts, 3);
    hide Run;
    assert w1.mu == WantsSave(done) && w1.jobs[id] == done && w1.used == w.used && w1.writing.None?;
    assert w2.mu.Free? && w2.writing == Some(done) && w2.jobs[id] == done && w2.used == w.used;
    var w4 := Step(w3, acts[3]);
    assert w4.records[id] == Readable(done) && w4.used == w.used && w4.mu.Free? && w4.writing.None?;
  }

  lemma {:induction false} RunConcat(w: World, a: seq<Action>, b: seq<Action>)
    ensures Run(w, a + b) == Run(Run(w, a), b)
    decreases |a|
  {
    if a == [] {
      assert a + b == b;
    } else {
      assert (a + b)[1..] == a[1..] + b;
      RunConcat(Step(w, a[0]), a[1..], b);
    }
  }

  lemma RunFrom(w: World, acts: seq<Action>, i: nat)
    requires i < |acts|
    ensures Run(w, acts[i..]) == Run(Step(w, acts[i]), acts[i + 1..])
    ensures i + 1 == |acts| ==> Run(w, acts[i..]) == Step(w, acts[i])
    ensures acts[0..] == acts
  {
    assert acts[i..][1..] == acts[i + 1..];
  }
}
