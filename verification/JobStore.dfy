// The store of image, video and music jobs (jobStore): a map of jobs, the
// order they came in, a record file per job, and the output files.
module JobStore {
  import opened Common

  type JobId = string
  type FileName = string
  type Time = int

  datatype Status = Queued | Running | Succeeded | Failed | Cancelled

  // What the store and the clients see of a job (genJob). files are its
  // output files.
  datatype Job = Job(id: JobId, status: Status, phase: string, position: nat, error: string, submitted: Time,
                     started: Option<Time>, finished: Option<Time>, files: seq<FileName>)
  {
    predicate Finished() {
      finished.Some?
    }

    // A job read back from its record is in no queue, and fails if it had
    // not finished.
    function Restore(now: Time): Job {
      var j := this.(position := 0);
      if Finished() then j
      else j.(status := Failed, phase := "", error := RESTARTED, finished := Some(now))
    }

    // Marks the job running; a cancelled one is left as it is.
    function Start(inPhase: string, now: Time): (Job, bool) {
      if status == Cancelled then (this, false)
      else (this.(started := if started.None? then Some(now) else started, status := Running, phase := inPhase), true)
    }

    // Stops a job that has not finished.
    function Cancel(now: Time): Job {
      if Finished() then this else this.(status := Cancelled, phase := "", finished := Some(now))
    }
  }

  const RESTARTED := "the server restarted before the job finished"

  const JOB_MAX := 200
  const JOB_KEEP := 86_400 // 24 hours, in seconds

  // A record file: a job, or text that is not one.
  datatype Record = Readable(job: Job) | Broken

  predicate NoDuplicates<T(==)>(s: seq<T>) {
    forall i, j | 0 <= i < j < |s| :: s[i] != s[j]
  }

  // The order list is the map's keys, each once.
  ghost predicate Represents(order: seq<JobId>, jobs: map<JobId, Job>) {
    && NoDuplicates(order)
    && (forall id <- order :: id in jobs)
    && (forall id <- jobs :: id in order && jobs[id].id == id)
  }

  // ------------------------------------------------------------------ pruning

  predicate Expired(j: Job, now: Time) {
    j.Finished() && now - j.finished.value > JOB_KEEP
  }

  predicate Dropped(j: Job, excess: int, now: Time) {
    j.Finished() && (Expired(j, now) || excess > 0)
  }

  // What prune keeps of order when it may drop excess jobs for room.
  function Kept(order: seq<JobId>, jobs: map<JobId, Job>, excess: int, now: Time): (kept: seq<JobId>)
    requires forall id <- order :: id in jobs
    ensures |kept| <= |order| && forall id <- kept :: id in order
  {
    if order == [] then []
    else if Dropped(jobs[order[0]], excess, now) then Kept(order[1..], jobs, excess - 1, now)
    else [order[0]] + Kept(order[1..], jobs, excess, now)
  }

  // The ids of order that are in keep, in order.
  function Filter(order: seq<JobId>, keep: set<JobId>): seq<JobId> {
    if order == [] then []
    else if order[0] in keep then [order[0]] + Filter(order[1..], keep)
    else Filter(order[1..], keep)
  }

  // The unexpired jobs of order that are not in keep.
  function DroppedForRoom(order: seq<JobId>, jobs: map<JobId, Job>, keep: set<JobId>, now: Time): seq<JobId>
    requires forall id <- order :: id in jobs
  {
    if order == [] then []
    else if order[0] !in keep && !Expired(jobs[order[0]], now)
      then [order[0]] + DroppedForRoom(order[1..], jobs, keep, now)
    else DroppedForRoom(order[1..], jobs, keep, now)
  }

  function Positive(n: int): nat {
    if n > 0 then n else 0
  }

  function Elements(s: seq<JobId>): set<JobId> {
    set id <- s
  }

  // keep agrees with what prune keeps of order.
  ghost predicate Agrees(order: seq<JobId>, jobs: map<JobId, Job>, excess: int, now: Time, keep: set<JobId>)
    requires forall id <- order :: id in jobs
  {
    forall id <- order :: id in keep <==> id in Kept(order, jobs, excess, now)
  }

  lemma AgreesOnRest(order: seq<JobId>, jobs: map<JobId, Job>, excess: int, now: Time, keep: set<JobId>)
    requires NoDuplicates(order) && order != [] && forall id <- order :: id in jobs
    requires Agrees(order, jobs, excess, now, keep)
    ensures order[0] in keep <==> !Dropped(jobs[order[0]], excess, now)
    ensures Agrees(order[1..], jobs, if order[0] in keep then excess else excess - 1, now, keep)
    ensures NoDuplicates(order[1..])
  {
    assert order[0] !in order[1..];
    forall id <- order[1..]
      ensures id in order && id != order[0]
    {}
  }

  lemma {:induction false} KeptFacts(order: seq<JobId>, jobs: map<JobId, Job>, excess: int, now: Time, keep: set<JobId>)
    requires NoDuplicates(order) && forall id <- order :: id in jobs
    requires Agrees(order, jobs, excess, now, keep)
    ensures var kept := Kept(order, jobs, excess, now);
      && kept == Filter(order, keep)
      && (forall id <- order :: !jobs[id].Finished() ==> id in keep)
      && (forall id <- order :: Expired(jobs[id], now) ==> id !in keep)
      && |DroppedForRoom(order, jobs, keep, now)| <= Positive(excess)
      && (|order| - |kept| >= excess || forall id <- kept :: !jobs[id].Finished())
  {
    if order != [] {
      AgreesOnRest(order, jobs, excess, now, keep);
      KeptFacts(order[1..], jobs, if order[0] in keep then excess else excess - 1, now, keep);
      assert forall id <- order :: id == order[0] || id in order[1..];
    }
  }

  // Finished longer ago than a day, and no longer ago than that.
  ghost predicate OldJob(j: Job, now: Time) {
    match j.finished case Some(at) => at + 24 * 60 * 60 < now case None => false
  }

  ghost predicate FreshlyDone(j: Job, now: Time) {
    match j.finished case Some(at) => now <= at + 24 * 60 * 60 case None => false
  }

  // Prune keeps every job that is not finished and drops every one finished
  // longer ago than a day; it keeps the order; of the others it drops no
  // more than the store was over its limit, so none at all within the limit;
  // and it ends within the limit, or with nothing finished left.
  lemma PruneKeepsAndDrops(order: seq<JobId>, jobs: map<JobId, Job>, limit: nat, now: Time)
    requires NoDuplicates(order) && forall id <- order :: id in jobs
    ensures var kept := Kept(order, jobs, |order| - limit, now);
      && kept == Filter(order, Elements(kept))
      && (forall id <- order | jobs[id].finished.None? :: id in kept)
      && (forall id <- order | OldJob(jobs[id], now) :: id !in kept)
      && |set id <- order | id !in kept && FreshlyDone(jobs[id], now)| <= Positive(|order| - limit)
      && (|order| <= limit ==> forall id <- order :: id in kept <==> !OldJob(jobs[id], now))
      && (|kept| <= limit || forall id <- kept :: jobs[id].finished.None?)
  {
    var kept := Kept(order, jobs, |order| - limit, now);
    KeptFacts(order, jobs, |order| - limit, now, Elements(kept));
    DroppedAre(order, jobs, Elements(kept), now);
    var dropped := set id <- order | id !in kept && FreshlyDone(jobs[id], now);
    assert dropped == set id <- order | id !in Elements(kept) && FreshlyDone(jobs[id], now);
    hide Kept, Filter, DroppedForRoom, NoDuplicates;
    if |order| <= limit {
      assert dropped == {};
      forall id <- order | !OldJob(jobs[id], now)
        ensures id in kept
      {
        assert id !in dropped;
      }
    }
  }

  lemma {:induction false} DroppedAre(order: seq<JobId>, jobs: map<JobId, Job>, keep: set<JobId>, now: Time)
    requires NoDuplicates(order) && forall id <- order :: id in jobs
    requires forall id <- order | jobs[id].finished.None? :: id in keep
    ensures |set id <- order | id !in keep && FreshlyDone(jobs[id], now)| == |DroppedForRoom(order, jobs, keep, now)|
  {
    if order != [] {
      var first, rest := order[0], order[1..];
      DroppedAre(rest, jobs, keep, now);
      var all := set id <- order | id !in keep && FreshlyDone(jobs[id], now);
      var others := set id <- rest | id !in keep && FreshlyDone(jobs[id], now);
      assert first !in rest && order == [first] + rest;
      if first !in keep && FreshlyDone(jobs[first], now) {
        assert all == others + {first};
      } else {
        assert all == others;
      }
    }
  }

  // The oldest go first: before a dropped job that is not yet old, no finished
  // job is kept.
  lemma {:induction false} PruneDropsOldestFirst(order: seq<JobId>, jobs: map<JobId, Job>, excess: int, now: Time,
                                                 i: nat, j: nat)
    requires NoDuplicates(order) && forall id <- order :: id in jobs
    requires i < j < |order| && order[j] !in Kept(order, jobs, excess, now) && !OldJob(jobs[order[j]], now)
    ensures jobs[order[i]].finished.Some? ==> order[i] !in Kept(order, jobs, excess, now)
  {
    var keep := Elements(Kept(order, jobs, excess, now));
    if i == 0 {
      KeptFacts(order, jobs, excess, now, keep);
      NoneDroppedForRoom(order, jobs, keep, now, j);
      AgreesOnRest(order, jobs, excess, now, keep);
    } else {
      RestAgrees(order, jobs, excess, now, i);
      RestAgrees(order, jobs, excess, now, j);
      var left := if Dropped(jobs[order[0]], excess, now) then excess - 1 else excess;
      PruneDropsOldestFirst(order[1..], jobs, left, now, i - 1, j - 1);
    }
  }

  lemma RestAgrees(order: seq<JobId>, jobs: map<JobId, Job>, excess: int, now: Time, i: nat)
    requires NoDuplicates(order) && 0 < i < |order| && forall id <- order :: id in jobs
    ensures NoDuplicates(order[1..]) && order[i] == order[1..][i - 1]
    ensures order[i] in Kept(order, jobs, excess, now) <==>
      order[i] in Kept(order[1..], jobs, if Dropped(jobs[order[0]], excess, now) then excess - 1 else excess, now)
  {
    AgreesOnRest(order, jobs, excess, now, Elements(Kept(order, jobs, excess, now)));
  }

  lemma {:induction false} NoneDroppedForRoom(order: seq<JobId>, jobs: map<JobId, Job>, keep: set<JobId>, now: Time,
                                              k: nat)
    requires (forall id <- order :: id in jobs) && k < |order|
    requires order[k] !in keep && !Expired(jobs[order[k]], now)
    ensures |DroppedForRoom(order, jobs, keep, now)| > 0
  {
    if k > 0 {
      NoneDroppedForRoom(order[1..], jobs, keep, now, k - 1);
    }
  }

  // ------------------------------------------------------------------ opening

  predicate OldestFirst(s: seq<Job>) {
    forall i, j | 0 <= i < j < |s| :: s[i].submitted <= s[j].submitted
  }

  lemma NextIsYounger(s: seq<Job>, k: nat)
    requires OldestFirst(s)
    ensures k + 1 < |s| ==> s[k].submitted <= s[k + 1].submitted
  {}

  function Insert(j: Job, s: seq<Job>): (r: seq<Job>)
    requires OldestFirst(s)
    ensures OldestFirst(r) && (forall x :: x in r <==> x == j || x in s)
  {
    if s == [] || j.submitted <= s[0].submitted then [j] + s
    else
      var rest := Insert(j, s[1..]);
      assert forall x <- rest :: s[0].submitted <= x.submitted;
      [s[0]] + rest
  }

  // The jobs in s, oldest first.
  function BySubmitted(s: seq<Job>): (r: seq<Job>)
    ensures OldestFirst(r) && forall x :: x in r <==> x in s
  {
    if s == [] then []
    else Insert(s[0], BySubmitted(s[1..]))
  }

  // The order list has the jobs oldest first.
  ghost predicate InOrder(order: seq<JobId>, jobs: map<JobId, Job>) {
    && (forall id <- order :: id in jobs)
    && forall i, j | 0 <= i < j < |order| :: jobs[order[i]].submitted <= jobs[order[j]].submitted
  }

  lemma AddedLast(order: seq<JobId>, jobs: map<JobId, Job>, loaded: seq<JobId>, j: Job)
    requires Represents(order + loaded, jobs) && j.id !in jobs
    ensures Represents(order + (loaded + [j.id]), jobs[j.id := j])
    ensures InOrder(loaded, jobs) && (forall id <- loaded :: jobs[id].submitted <= j.submitted) ==>
      InOrder(loaded + [j.id], jobs[j.id := j])
  {
    assert j.id !in order + loaded && order + (loaded + [j.id]) == order + loaded + [j.id];
    assert forall id <- loaded :: id in order + loaded;
    RepresentsOneMore(order + loaded, jobs, j);
  }

  lemma RepresentsOneMore(order: seq<JobId>, jobs: map<JobId, Job>, j: Job)
    requires Represents(order, jobs) && j.id !in jobs
    ensures Represents(order + [j.id], jobs[j.id := j])
  {
    assert j.id !in order;
  }

  lemma OneMoreListed(order: seq<JobId>, jobs: map<JobId, Job>, j: Job)
    requires Represents(order, jobs)
    ensures Represents(order + [j.id], jobs[j.id := j]) <==> j.id !in jobs
  {
    if j.id in jobs {
      var i :| 0 <= i < |order| && order[i] == j.id;
      assert (order + [j.id])[i] == (order + [j.id])[|order|];
    } else {
      RepresentsOneMore(order, jobs, j);
    }
  }

  // The state of the loop of open before the k-th job it read: those added are
  // behind the ones there were, oldest first.
  ghost predicate Adding(order0: seq<JobId>, jobs0: map<JobId, Job>, order: seq<JobId>, jobs: map<JobId, Job>,
                         added: seq<JobId>, loaded: seq<Job>, k: nat)
  {
    && k <= |loaded| && OldestFirst(loaded)
    && Represents(order, jobs) && order == order0 + added
    && (forall id <- jobs0 :: id in jobs && jobs[id] == jobs0[id])
    && (forall id <- jobs | id !in jobs0 :: jobs[id] in loaded[..k])
    && (forall j <- loaded[..k] :: j.id in jobs)
    && InOrder(added, jobs)
    && (k < |loaded| ==> forall id <- added :: jobs[id].submitted <= loaded[k].submitted)
  }

  lemma AddingStarts(order: seq<JobId>, jobs: map<JobId, Job>, loaded: seq<Job>)
    requires Represents(order, jobs) && OldestFirst(loaded)
    ensures Adding(order, jobs, order, jobs, [], loaded, 0)
  {
    hide Represents, OldestFirst;
    assert order == order + [];
  }

  lemma AddingOne(order0: seq<JobId>, jobs0: map<JobId, Job>, order: seq<JobId>, jobs: map<JobId, Job>,
                  added: seq<JobId>, loaded: seq<Job>, k: nat)
    requires k < |loaded| && Adding(order0, jobs0, order, jobs, added, loaded, k)
    ensures var j := loaded[k];
      if j.id in jobs then Adding(order0, jobs0, order, jobs, added, loaded, k + 1)
      else Adding(order0, jobs0, order + [j.id], jobs[j.id := j], added + [j.id], loaded, k + 1)
  {
    hide Represents, OldestFirst, NoDuplicates;
    NextIsYounger(loaded, k);
    assert loaded[..k + 1] == loaded[..k] + [loaded[k]];
    if loaded[k].id !in jobs {
      AddedLast(order0, jobs, added, loaded[k]);
      assert order + [loaded[k].id] == order0 + (added + [loaded[k].id]);
    }
  }

  lemma AddingEnds(order0: seq<JobId>, jobs0: map<JobId, Job>, order: seq<JobId>, jobs: map<JobId, Job>,
                   added: seq<JobId>, loaded: seq<Job>)
    requires Adding(order0, jobs0, order, jobs, added, loaded, |loaded|)
    ensures Represents(order, jobs) && order0 <= order && InOrder(order[|order0|..], jobs)
    ensures forall id <- jobs0 :: id in jobs && jobs[id] == jobs0[id]
    ensures forall id <- jobs | id !in jobs0 :: jobs[id] in loaded
    ensures forall j <- loaded :: j.id in jobs
  {
    hide Represents, InOrder, OldestFirst;
    assert loaded[..|loaded|] == loaded;
    assert order[|order0|..] == added;
  }

  // A record that open reads a job from.
  predicate Loads(r: Record) {
    r.Readable? && r.job.id != ""
  }

  // The jobs a store finds in record files each named by its job's ID.
  function Reopen(records: map<JobId, Record>, now: Time): map<JobId, Job> {
    map id | id in records && Loads(records[id]) :: records[id].job.Restore(now)
  }

  // The record files after open has saved again the jobs it failed.
  function Resaved(records: map<JobId, Record>, now: Time): map<JobId, Record> {
    map id | id in records :: ResavedRecord(records[id], now)
  }

  function ResavedRecord(r: Record, now: Time): Record {
    if Loads(r) && !r.job.Finished() then Readable(r.job.Restore(now)) else r
  }

  ghost predicate WellNamed(records: map<JobId, Record>) {
    forall id <- records :: records[id].Readable? ==> records[id].job.id == id
  }

  // ---------------------------------------------------------------- the object

  // The job ID an output file's name starts with.
  function OutputJobId(name: FileName): JobId {
    if name == "" || name[0] == '-' || name[0] == '.' then "" else [name[0]] + OutputJobId(name[1..])
  }

  // The record files after job j is saved.
  function Saved(records: map<JobId, Record>, saving: bool, j: Job): map<JobId, Record> {
    if saving then records[j.id := Readable(j)] else records
  }

  function SavedAll(records: map<JobId, Record>, saving: bool, js: seq<Job>): map<JobId, Record>
    decreases |js|
  {
    if js == [] then records
    else SavedAll(Saved(records, saving, js[0]), saving, js[1..])
  }

  predicate Reads(r: Record, unfinishedOnly: bool) {
    Loads(r) && (unfinishedOnly ==> !r.job.Finished())
  }

  // The jobs read from the records in entries.
  function ReadFrom(entries: seq<JobId>, records: map<JobId, Record>, now: Time, unfinishedOnly: bool): set<Job> {
    set e | e in entries && e in records && Reads(records[e], unfinishedOnly) :: records[e].job.Restore(now)
  }

  lemma ReadOneMore(entries: seq<JobId>, records: map<JobId, Record>, now: Time, unfinishedOnly: bool, e: JobId)
    requires e in records
    ensures ReadFrom(entries + [e], records, now, unfinishedOnly) == ReadFrom(entries, records, now, unfinishedOnly) +
      if Reads(records[e], unfinishedOnly) then {records[e].job.Restore(now)} else {}
  {}

  lemma ReopenIs(entries: seq<JobId>, records: map<JobId, Record>, now: Time, before: map<JobId, Job>,
                 jobs: map<JobId, Job>)
    requires forall e :: e in entries <==> e in records
    requires forall id <- before :: id in jobs && jobs[id] == before[id]
    requires forall id <- jobs | id !in before ::
      jobs[id] in ReadFrom(entries, records, now, false) && jobs[id].id == id
    requires forall j <- ReadFrom(entries, records, now, false) :: j.id in jobs
    ensures WellNamed(records) ==> jobs == Reopen(records, now) + before
    ensures forall e <- records :: Loads(records[e]) ==> records[e].job.id in jobs
  {
    forall e <- records | Loads(records[e])
      ensures records[e].job.id in jobs
    {
      assert records[e].job.Restore(now) in ReadFrom(entries, records, now, false);
    }
  }

  // No two jobs of js have one ID.
  ghost predicate OnePerId(js: seq<Job>) {
    forall j, k | j in js && k in js && j.id == k.id :: j == k
  }

  lemma {:induction false} SavedAllFacts(records: map<JobId, Record>, js: seq<Job>)
    requires OnePerId(js)
    ensures forall j <- js :: j.id in SavedAll(records, true, js) && SavedAll(records, true, js)[j.id] == Readable(j)
    ensures forall id :: (forall j <- js :: j.id != id) ==>
      (id in SavedAll(records, true, js) <==> id in records)
        && (id in records ==> SavedAll(records, true, js)[id] == records[id])
    decreases |js|
  {
    if js != [] {
      var rest, saved := js[1..], Saved(records, true, js[0]);
      SavedAllFacts(saved, rest);
      assert forall j <- js :: j == js[0] || j in rest;
      if forall j <- rest :: j.id != js[0].id {
      }
    }
  }

  lemma {:induction false} SavedAllOff(records: map<JobId, Record>, js: seq<Job>)
    ensures SavedAll(records, false, js) == records
  {
    if js != [] {
      SavedAllOff(records, js[1..]);
    }
  }

  lemma FailedOncePerId(records: map<JobId, Record>, now: Time, failed: seq<Job>)
    requires forall j <- failed :: j.id in records && Reads(records[j.id], true) && j == records[j.id].job.Restore(now)
    ensures OnePerId(failed)
  {
    hide Reads;
  }

  lemma ResavedIs(entries: seq<JobId>, records: map<JobId, Record>, now: Time, failed: seq<Job>)
    requires forall e :: e in entries <==> e in records
    requires (set j | j in failed) == ReadFrom(entries, records, now, true) && WellNamed(records)
    ensures SavedAll(records, true, failed) == Resaved(records, now)
  {
    hide OnePerId, SavedAll;
    var read := ReadFrom(entries, records, now, true);
    assert forall j :: j in failed <==> j in read;
    assert forall j <- read :: j.id in records && Reads(records[j.id], true) && j == records[j.id].job.Restore(now);
    FailedOncePerId(records, now, failed);
    SavedAllFacts(records, failed);
    var r := SavedAll(records, true, failed);
    forall id
      ensures id in r <==> id in records
      ensures id in records ==> r[id] == ResavedRecord(records[id], now)
    {
      if id in records && Reads(records[id], true) {
        assert records[id].job.Restore(now) in read;
      }
    }
  }

  function FilesOf(j: Job): set<FileName> {
    set f | f in j.files && f != ""
  }

  // The output files of the jobs in ids.
  function FilesOfAll(jobs: map<JobId, Job>, ids: set<JobId>): set<FileName> {
    set id, f | id in ids && id in jobs && f in FilesOf(jobs[id]) :: f
  }

  lemma FilesOfOneMore(jobs: map<JobId, Job>, ids: set<JobId>, id: JobId)
    requires id in jobs
    ensures FilesOfAll(jobs, ids + {id}) == FilesOfAll(jobs, ids) + FilesOf(jobs[id])
  {}

  // The output files after those older than JOB_KEEP that no job owns go.
  function WithoutOrphans(outputs: map<FileName, Time>, jobs: map<JobId, Job>, now: Time): map<FileName, Time> {
    map f | f in outputs && (OutputJobId(f) in jobs || now - outputs[f] <= JOB_KEEP) :: outputs[f]
  }

  // Of the output files those go that no job owns and that are older than a
  // day, and no others.
  lemma OrphansGo(outputs: map<FileName, Time>, jobs: map<JobId, Job>, now: Time, f: FileName)
    ensures var left := WithoutOrphans(outputs, jobs, now);
      && (f in left <==> f in outputs && (OutputJobId(f) in jobs || now <= outputs[f] + 24 * 60 * 60))
      && (f in left ==> left[f] == outputs[f])
  {}

  class Store {
    var jobs: map<JobId, Job>
    var order: seq<JobId>
    var max: nat // 0 means JOB_MAX
    var hasDir: bool // a directory for record files is set
    var hasOutDir: bool
    var closed: bool
    var records: map<JobId, Record> // the record files on disk, by name
    var outputs: map<FileName, Time> // the output files on disk, with their age

    constructor (max: nat, records: map<JobId, Record>, outputs: map<FileName, Time>)
      ensures Valid() && jobs == map[] && order == [] && !hasDir && !hasOutDir && !closed
      ensures this.max == max && this.records == records && this.outputs == outputs
    {
      jobs, order, hasDir, hasOutDir, closed := map[], [], false, false, false;
      this.max, this.records, this.outputs := max, records, outputs;
    }

    ghost predicate Valid()
      reads this
    {
      Represents(order, jobs)
    }

    // Reads the records in entries, the listing of the record directory in
    // any order, and saves again as failed the jobs that had not finished. A
    // job that is in the store already stays as it is.
    method Open(entries: seq<JobId>, now: Time)
      requires Valid()
      requires forall e <- entries :: e in records
      requires forall e <- records :: e in entries
      modifies this
      ensures Valid() && hasDir && hasOutDir && closed == old(closed) && outputs == old(outputs) && max == old(max)
      ensures forall id <- old(jobs) :: id in jobs && jobs[id] == old(jobs)[id]
      ensures forall id <- jobs | id !in old(jobs) :: jobs[id] in ReadFrom(entries, old(records), now, false)
      ensures forall e <- old(records) :: Loads(old(records)[e]) ==> old(records)[e].job.id in jobs
      ensures old(order) <= order && InOrder(order[|old(order)|..], jobs)
      ensures WellNamed(old(records)) ==>
        && jobs == Reopen(old(records), now) + old(jobs)
        && records == if closed then old(records) else Resaved(old(records), now)
    {
      hide ReadFrom, InOrder, NoDuplicates, Reopen, Resaved, SavedAll, WellNamed, OldestFirst;
      hasDir, hasOutDir := true, true;
      var loaded, failed := ReadRecords(entries, now);
      assert forall j :: j in loaded <==> j in ReadFrom(entries, records, now, false);
      AddLoaded(BySubmitted(loaded));
      ghost var records0 := records;
      ReopenIs(entries, records0, now, old(jobs), jobs);
      SaveAll(failed);
      SavedAllOff(records0, failed);
      if WellNamed(records0) {
        ResavedIs(entries, records0, now, failed);
      }
    }

    method SaveAll(failed: seq<Job>)
      modifies this`records
      ensures records == SavedAll(old(records), hasDir && !closed, failed)
    {
      var k := 0;
      assert failed[0..] == failed;
      while k < |failed|
        modifies this`records
        invariant 0 <= k <= |failed|
        invariant SavedAll(old(records), hasDir && !closed, failed) == SavedAll(records, hasDir && !closed, failed[k..])
      {
        assert failed[k..][1..] == failed[k + 1..];
        Save(failed[k]);
        k := k + 1;
      }
    }

    method ReadRecords(entries: seq<JobId>, now: Time) returns (loaded: seq<Job>, failed: seq<Job>)
      requires forall e <- entries :: e in records
      ensures (set j | j in loaded) == ReadFrom(entries, records, now, false)
      ensures (set j | j in failed) == ReadFrom(entries, records, now, true)
    {
      loaded, failed := [], [];
      for i := 0 to |entries|
        invariant (set j | j in loaded) == ReadFrom(entries[..i], records, now, false)
        invariant (set j | j in failed) == ReadFrom(entries[..i], records, now, true)
      {
        var e := entries[i];
        assert entries[..i + 1] == entries[..i] + [e];
        ReadOneMore(entries[..i], records, now, false, e);
        ReadOneMore(entries[..i], records, now, true, e);
        if Loads(records[e]) {
          var j := records[e].job.Restore(now);
          loaded := loaded + [j];
          if !records[e].job.Finished() {
            failed := failed + [j];
          }
        }
      }
      assert entries[..|entries|] == entries;
    }

    method AddLoaded(loaded: seq<Job>)
      requires Valid() && OldestFirst(loaded)
      modifies this`jobs, this`order
      ensures Valid()
      ensures forall id <- old(jobs) :: id in jobs && jobs[id] == old(jobs)[id]
      ensures forall id <- jobs | id !in old(jobs) :: jobs[id] in loaded
      ensures forall j <- loaded :: j.id in jobs
      ensures old(order) <= order && InOrder(order[|old(order)|..], jobs)
    {
      hide Represents, InOrder, OldestFirst, Adding;
      ghost var jobs0, order0 := jobs, order;
      ghost var added: seq<JobId> := [];
      AddingStarts(order, jobs, loaded);
      for k := 0 to |loaded|
        invariant Adding(order0, jobs0, order, jobs, added, loaded, k)
      {
        AddingOne(order0, jobs0, order, jobs, added, loaded, k);
        var id := loaded[k].id;
        if id !in jobs {
          jobs := jobs[id := loaded[k]];
          order := order + [id];
          added := added + [id];
        }
      }
      AddingEnds(order0, jobs0, order, jobs, added, loaded);
    }

    method Close()
      modifies this`closed
      ensures closed
    {
      closed := true;
    }

    method Save(j: Job)
      modifies this`records
      ensures records == Saved(old(records), hasDir && !closed, j)
    {
      if !hasDir || closed {
        return;
      }
      records := records[j.id := Readable(j)];
    }

    // Job IDs are made at random for each job. One that is in the store already
    // is not noticed: its job is replaced, and listed twice.
    method Add(j: Job)
      modifies this`jobs, this`order, this`records
      ensures old(Valid()) ==> (Valid() <==> j.id !in old(jobs))
      ensures jobs == old(jobs)[j.id := j] && order == old(order) + [j.id]
      ensures records == Saved(old(records), hasDir && !closed, j)
    {
      if Represents(order, jobs) {
        OneMoreListed(order, jobs, j);
      }
      jobs := jobs[j.id := j];
      order := order + [j.id];
      Save(j);
    }

    // Only a change of status is saved.
    method Update(id: JobId, fn: Job -> Job) returns (found: bool)
      requires Valid() && forall j: Job :: fn(j).id == j.id
      modifies this`jobs, this`records
      ensures Valid() && found == (id in old(jobs))
      ensures !found ==> jobs == old(jobs) && records == old(records)
      ensures found ==>
        && jobs == old(jobs)[id := fn(old(jobs)[id])]
        && var j := fn(old(jobs)[id]);
        && records == Saved(old(records), hasDir && !closed && j.status != old(jobs)[id].status, j)
    {
      if id !in jobs {
        return false;
      }
      var before := jobs[id].status;
      jobs := jobs[id := fn(jobs[id])];
      if jobs[id].status != before {
        Save(jobs[id]);
      }
      found := true;
    }

    // The caller takes id out of order.
    method RemoveLocked(id: JobId)
      requires id in jobs
      modifies this`jobs, this`records, this`outputs
      ensures jobs == old(jobs) - {id}
      ensures outputs == old(outputs) - FilesOf(old(jobs)[id])
      ensures records == if hasDir then old(records) - {id} else old(records)
    {
      var files := jobs[id].files;
      for i := 0 to |files|
        modifies this`outputs
        invariant outputs == old(outputs) - (set f | f in files[..i] && f != "")
      {
        assert files[..i + 1] == files[..i] + [files[i]];
        if files[i] != "" {
          outputs := outputs - {files[i]};
        }
      }
      assert files[..|files|] == files;
      if hasDir {
        records := records - {id};
      }
      jobs := jobs - {id};
    }

    // Deletes a finished job; an unfinished one is left alone.
    method Remove(id: JobId) returns (removed: bool)
      requires Valid()
      modifies this`jobs, this`order, this`records, this`outputs
      ensures Valid() && removed == (id in old(jobs) && old(jobs)[id].Finished())
      ensures !removed ==>
        jobs == old(jobs) && order == old(order) && records == old(records) && outputs == old(outputs)
      ensures removed ==>
        && jobs == old(jobs) - {id}
        && order == Filter(old(order), old(jobs).Keys - {id})
        && records == (if hasDir then old(records) - {id} else old(records))
        && outputs == old(outputs) - FilesOf(old(jobs)[id])
    {
      if id !in jobs || !jobs[id].Finished() {
        return false;
      }
      var keep := jobs.Keys - {id};
      RemoveLocked(id);
      order := Filter(order, keep);
      FilterRepresents(old(order), old(jobs), keep);
      removed := true;
    }

    function Limit(): nat
      reads this`max
    {
      if max == 0 then JOB_MAX else max
    }

    // What is left of a store when the jobs in gone are removed.
    ghost predicate Left(jobs0: map<JobId, Job>, records0: map<JobId, Record>, outputs0: map<FileName, Time>,
                         gone: set<JobId>)
      reads this
    {
      && jobs == jobs0 - gone
      && records == (if hasDir then records0 - gone else records0)
      && outputs == outputs0 - FilesOfAll(jobs0, gone)
    }

    lemma NoneGone()
      ensures Left(jobs, records, outputs, {})
    {}

    lemma LeftIs(jobs0: map<JobId, Job>, records0: map<JobId, Record>, outputs0: map<FileName, Time>, gone: set<JobId>)
      requires Left(jobs0, records0, outputs0, gone)
      ensures jobs == jobs0 - gone && outputs == outputs0 - FilesOfAll(jobs0, gone)
      ensures records == if hasDir then records0 - gone else records0
    {}

    lemma StillThere(jobs0: map<JobId, Job>, records0: map<JobId, Record>, outputs0: map<FileName, Time>,
                     gone: set<JobId>, id: JobId)
      requires Left(jobs0, records0, outputs0, gone) && id in jobs0 && id !in gone
      ensures id in jobs && jobs[id] == jobs0[id]
    {}

    method RemoveMore(ghost jobs0: map<JobId, Job>, ghost records0: map<JobId, Record>,
                      ghost outputs0: map<FileName, Time>,
                      ghost gone: set<JobId>, id: JobId)
      requires Left(jobs0, records0, outputs0, gone) && id in jobs0 && id !in gone
      modifies this`jobs, this`records, this`outputs
      ensures Left(jobs0, records0, outputs0, gone + {id})
    {
      hide FilesOf, FilesOfAll;
      MinusTwice(jobs0, gone, {id});
      MinusTwice(records0, gone, {id});
      FilesOfOneMore(jobs0, gone, id);
      MinusTwice(outputs0, FilesOfAll(jobs0, gone), FilesOf(jobs0[id]));
      RemoveLocked(id);
    }

    // The loop of prune: it drops what is old or too much, and returns what
    // it keeps of order.
    method DropFinished(now: Time) returns (keep: seq<JobId>)
      requires Valid()
      modifies this`jobs, this`records, this`outputs
      ensures keep == Kept(order, old(jobs), |order| - Limit(), now)
      ensures jobs == old(jobs) - (old(jobs).Keys - Elements(keep))
      ensures records == if hasDir then old(records) - (old(jobs).Keys - Elements(keep)) else old(records)
      ensures outputs == old(outputs) - FilesOfAll(old(jobs), old(jobs).Keys - Elements(keep))
    {
      hide Pruning, Dropped, Limit, Kept, Elements, Represents, NoDuplicates, FilesOfAll, FilesOf, Gone, Left;
      var ids, excess := order, |order| - Limit();
      ghost var jobs0, records0, outputs0 := jobs, records, outputs;
      keep := [];
      var i := 0;
      NoneGone();
      PruningStarts(ids, jobs0, excess, now);
      ghost var all := Kept(ids, jobs0, excess, now);
      while i < |ids|
        modifies this`jobs, this`records, this`outputs
        invariant 0 <= i <= |ids|
        invariant Pruning(ids, jobs0, now, all, i, keep, excess)
        invariant Left(jobs0, records0, outputs0, Gone(ids, i, keep))
      {
        var id := ids[i];
        PruningStep(ids, jobs0, now, all, i, keep, excess);
        StillThere(jobs0, records0, outputs0, Gone(ids, i, keep), id);
        if Dropped(jobs[id], excess, now) {
          RemoveMore(jobs0, records0, outputs0, Gone(ids, i, keep), id);
          excess := excess - 1;
        } else {
          keep := keep + [id];
        }
        i := i + 1;
      }
      PruningEnds(ids, jobs0, now, all, keep, excess);
      LeftIs(jobs0, records0, outputs0, Gone(ids, i, keep));
    }

    method Prune(now: Time)
      requires Valid()
      modifies this`jobs, this`order, this`records, this`outputs
      ensures Valid()
      ensures order == Kept(old(order), old(jobs), |old(order)| - (if max > 0 then max else 200), now)
      ensures jobs == old(jobs) - (old(jobs).Keys - Elements(order))
      ensures records == if hasDir then old(records) - (old(jobs).Keys - Elements(order)) else old(records)
      ensures var left := old(outputs) - FilesOfAll(old(jobs), old(jobs).Keys - Elements(order));
        outputs == if hasOutDir then WithoutOrphans(left, jobs, now) else left
    {
      hide NoDuplicates, Kept, Elements, FilesOfAll, WithoutOrphans;
      var keep := DropFinished(now);
      KeptRepresents(order, old(jobs), |order| - Limit(), now);
      order := keep;
      if hasOutDir {
        outputs := WithoutOrphans(outputs, jobs, now);
      }
    }
  }

  lemma MinusTwice<K, V>(m: map<K, V>, a: set<K>, b: set<K>)
    ensures (m - a) - b == m - (a + b)
  {}

  // The jobs among the first i of order that are not in keep.
  function Gone(order: seq<JobId>, i: nat, keep: seq<JobId>): set<JobId>
    requires i <= |order|
  {
    Elements(order[..i]) - Elements(keep)
  }

  // The state of the loop of prune before the i-th job: all is what it keeps
  // in the end.
  ghost predicate Pruning(order: seq<JobId>, jobs: map<JobId, Job>, now: Time, all: seq<JobId>, i: nat,
                          keep: seq<JobId>, excess: int)
  {
    && Represents(order, jobs) && i <= |order|
    && Elements(keep) <= Elements(order[..i])
    && all == keep + Kept(order[i..], jobs, excess, now)
  }

  lemma PruningStarts(order: seq<JobId>, jobs: map<JobId, Job>, excess: int, now: Time)
    requires Represents(order, jobs)
    ensures forall id <- order :: id in jobs
    ensures Pruning(order, jobs, now, Kept(order, jobs, excess, now), 0, [], excess)
    ensures Gone(order, 0, []) == {}
  {
    assert order[0..] == order;
  }

  lemma PruningStep(order: seq<JobId>, jobs: map<JobId, Job>, now: Time, all: seq<JobId>, i: nat, keep: seq<JobId>,
                    excess: int)
    requires i < |order| && Pruning(order, jobs, now, all, i, keep, excess)
    ensures order[i] in jobs && order[i] !in Gone(order, i, keep)
    ensures Gone(order, i + 1, keep) == Gone(order, i, keep) + {order[i]}
    ensures Gone(order, i + 1, keep + [order[i]]) == Gone(order, i, keep)
    ensures if Dropped(jobs[order[i]], excess, now) then Pruning(order, jobs, now, all, i + 1, keep, excess - 1)
      else Pruning(order, jobs, now, all, i + 1, keep + [order[i]], excess)
  {
    var id, rest := order[i], order[i..];
    assert order[..i + 1] == order[..i] + [id];
    assert Elements(order[..i + 1]) == Elements(order[..i]) + {id};
    assert Elements(keep + [id]) == Elements(keep) + {id};
    assert rest[1..] == order[i + 1..];
    assert Gone(order, i + 1, keep) == Gone(order, i, keep) + {id};
    if !Dropped(jobs[id], excess, now) {
      assert keep + ([id] + Kept(rest[1..], jobs, excess, now)) == keep + [id] + Kept(rest[1..], jobs, excess, now);
    }
  }

  lemma PruningEnds(order: seq<JobId>, jobs: map<JobId, Job>, now: Time, all: seq<JobId>, keep: seq<JobId>, excess: int)
    requires Pruning(order, jobs, now, all, |order|, keep, excess)
    ensures keep == all && Gone(order, |order|, keep) == jobs.Keys - Elements(keep)
  {
    assert order[..|order|] == order;
  }

  lemma KeptRepresents(order: seq<JobId>, jobs: map<JobId, Job>, excess: int, now: Time)
    requires Represents(order, jobs)
    ensures var kept := Kept(order, jobs, excess, now); Represents(kept, jobs - (jobs.Keys - Elements(kept)))
  {
    var kept := Kept(order, jobs, excess, now);
    KeptFacts(order, jobs, excess, now, Elements(kept));
    FilterFacts(order, Elements(kept));
  }

  lemma {:induction false} FilterFacts(order: seq<JobId>, keep: set<JobId>)
    requires NoDuplicates(order)
    ensures NoDuplicates(Filter(order, keep))
    ensures forall id :: id in Filter(order, keep) <==> id in order && id in keep
  {
    if order != [] {
      assert order[0] !in order[1..];
      FilterFacts(order[1..], keep);
    }
  }

  lemma FilterRepresents(order: seq<JobId>, jobs: map<JobId, Job>, keep: set<JobId>)
    requires Represents(order, jobs) && keep <= jobs.Keys
    ensures Represents(Filter(order, keep), map id | id in keep :: jobs[id])
  {
    FilterFacts(order, keep);
  }
}
