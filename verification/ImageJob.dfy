// One image job from its submission: the goroutine that runs it
// (runImageJob), racing with clients that cancel and delete it and with
// prune. Each update of the store is one step, and so is each file operation.
module ImageJob {
  import opened Common
  import opened JobStore
  import JobSaves

  function Digits(n: nat): (s: string)
    ensures s != ""
  {
    if n < 10 then ["0123456789"[n]] else Digits(n / 10) + ["0123456789"[n % 10]]
  }

  // The n-th image of a job.
  function ImageFile(id: JobId, n: nat): FileName {
    id + "-" + Digits(n) + ".png"
  }

  // Where the runner is: before the step it takes next.
  datatype Pc =
    | WaitTurn
    | HasTurn
    | GetReady
    | Begin
    | Generating
    | Check(n: nat)
    | MarkSaving(n: nat)
    | MakeDir(n: nat)
    | Writing(n: nat, paths: seq<FileName>)
    | Undoing(rest: seq<FileName>)
    | Finishing(outcome: Status, error: string, paths: seq<FileName>)
    | Removing(rest: seq<FileName>)
    | Ended

  // job is the stored job, None once it is deleted. issued says that a
  // cancel has marked the job, and is about to end the runner's context;
  // ctxDone that it has. disk are the job's files on disk, and left the file
  // a failed write left behind there.
  datatype World = World(id: JobId, job: Option<Job>, issued: bool, ctxDone: bool, pc: Pc,
                         disk: set<FileName>, left: set<FileName>)

  // What the outside does at a step of the runner: whether it goes well, how
  // many images the backend answers with, and whether a failed write leaves
  // part of the file.
  datatype Luck = Luck(ok: bool, running: bool, images: nat, partial: bool)

  datatype Action =
    | Runner(luck: Luck, now: Time)
    | Cancel(now: Time) // cancelJob's update
    | EndContext // cancelJob's cancel
    | Delete // remove, or prune

  function Stored(w: World, fn: Job -> Job): Option<Job> {
    match w.job case Some(j) => Some(fn(j)) case None => None
  }

  // The update of finish.
  function FinishJob(j: Job, outcome: Status, error: string, paths: seq<FileName>, now: Time): Job {
    if j.status == Cancelled then j
    else j.(status := outcome, phase := "", error := error, finished := Some(now), files := paths)
  }

  function RunnerStep(w: World, luck: Luck, now: Time): World {
    match w.pc
    case WaitTurn =>
      if luck.ok then w.(pc := HasTurn)
      else if w.ctxDone then w.(pc := Finishing(Cancelled, "", []))
      else w
    case HasTurn =>
      if luck.running then w.(pc := GetReady)
      else w.(pc := GetReady, job := Stored(w, (j: Job) => j.Start("starting", now).0))
    case GetReady => w.(pc := if luck.ok then Begin else Finishing(Failed, "starting the backend", []))
    case Begin =>
      // A job that is gone is generated all the same.
      if w.job.Some? && !w.job.value.Start("generating", now).1 then w.(pc := Finishing(Cancelled, "", []))
      else w.(pc := Generating, job := Stored(w, (j: Job) => j.Start("generating", now).0))
    case Generating =>
      // An answer without images is an error.
      w.(pc := if luck.ok && luck.images > 0 then Check(luck.images) else Finishing(Failed, "generating", []))
    case Check(n) =>
      w.(pc := if w.job.Some? && w.job.value.status == Cancelled then Finishing(Cancelled, "", []) else MarkSaving(n))
    case MarkSaving(n) =>
      w.(pc := MakeDir(n), job := Stored(w, (j: Job) => if j.Finished() then j else j.(phase := "saving")))
    case MakeDir(n) => w.(pc := if luck.ok then Writing(n, []) else Finishing(Failed, "saving", []))
    case Writing(n, paths) =>
      var file := ImageFile(w.id, |paths|);
      if |paths| >= n then w.(pc := Finishing(Succeeded, "", paths))
      else if luck.ok then w.(pc := Writing(n, paths + [file]), disk := w.disk + {file})
      else if luck.partial then w.(pc := Undoing(paths), disk := w.disk + {file}, left := {file})
      else w.(pc := Undoing(paths))
    case Undoing(rest) =>
      if rest == [] then w.(pc := Finishing(Failed, "saving", []))
      else w.(pc := Undoing(rest[1..]), disk := w.disk - {rest[0]})
    case Finishing(outcome, error, paths) =>
      var late := w.job.None? || w.job.value.status == Cancelled;
      w.(pc := if late then Removing(paths) else Ended,
         job := Stored(w, (j: Job) => FinishJob(j, outcome, error, paths, now)))
    case Removing(rest) =>
      if rest == [] then w.(pc := Ended)
      else w.(pc := Removing(rest[1..]), disk := w.disk - {rest[0]})
    case Ended => w
  }

  // A step that is not enabled changes nothing.
  function Step(w: World, a: Action): World {
    match a
    case Runner(luck, now) => RunnerStep(w, luck, now)
    case Cancel(now) =>
      if w.job.None? || w.job.value.Finished() then w
      else w.(job := Some(w.job.value.Cancel(now)), issued := true)
    case EndContext => if w.issued then w.(ctxDone := true) else w
    case Delete =>
      if w.job.None? || !w.job.value.Finished() then w
      else w.(job := None, disk := w.disk - FilesOf(w.job.value))
  }

  function Run(w: World, acts: seq<Action>): World
    decreases |acts|
  {
    if acts == [] then w else Run(Step(w, acts[0]), acts[1..])
  }

  // A job just submitted: queued, or running when its GPU was free.
  predicate Submitted(w: World) {
    && w.job.Some? && w.job.value.id == w.id && w.job.value.status in {Queued, Running}
    && w.job.value.finished == None && w.job.value.files == []
    && !w.issued && !w.ctxDone && w.pc == WaitTurn && w.disk == {} && w.left == {}
  }

  predicate Terminal(s: Status) {
    s == Succeeded || s == Failed || s == Cancelled
  }

  // The first n image files of the job.
  function Images(id: JobId, n: nat): (s: seq<FileName>)
    ensures |s| == n && forall i | 0 <= i < n :: s[i] == ImageFile(id, i)
  {
    seq(n, i requires i >= 0 => ImageFile(id, i))
  }

  function Names(s: seq<FileName>): set<FileName> {
    set f <- s
  }

  // The job is as the runner needs it before it has finished it.
  predicate JobOpen(w: World) {
    w.job.Some? ==>
      && w.job.value.status in {Queued, Running, Cancelled}
      && w.job.value.files == []
  }

  // The files on disk, from where the runner is.
  ghost predicate DiskOk(w: World) {
    match w.pc
    case Writing(n, paths) => paths == Images(w.id, |paths|) && w.disk == Names(paths) && w.left == {}
    case Undoing(rest) => w.left <= w.disk <= Names(rest) + w.left && w.left !! Names(rest)
    case Finishing(outcome, error, paths) =>
      && w.disk == Names(paths) + w.left && "" !in paths
      && Terminal(outcome) && (outcome == Succeeded ==> w.left == {}) && (outcome != Succeeded ==> paths == [])
      && (outcome == Cancelled ==> w.job.Some? ==> w.job.value.status == Cancelled)
    case Removing(rest) => w.left <= w.disk <= Names(rest) + w.left && w.left !! Names(rest)
    case Ended =>
      if w.job.Some? && w.job.value.status == Succeeded then
        w.disk == Names(w.job.value.files) && "" !in w.job.value.files && w.left == {}
      else w.disk == w.left
    case _ => w.disk == {} && w.left == {}
  }

  ghost predicate Inv(w: World) {
    && (w.job.Some? ==> (w.job.value.Finished() <==> Terminal(w.job.value.status)))
    && (w.issued || w.ctxDone ==> w.job.Some? ==> w.job.value.Finished())
    && (w.ctxDone ==> w.issued)
    && (w.job.Some? && w.job.value.status != Succeeded ==> w.job.value.files == [])
    && (!w.pc.Ended? ==> JobOpen(w))
    && (w.issued && !w.pc.Ended? && w.job.Some? ==> w.job.value.status == Cancelled)
    && (w.pc.Ended? && w.job.Some? ==> w.job.value.Finished())
    && (w.pc.Removing? && w.job.Some? ==> w.job.value.status == Cancelled)
    && DiskOk(w)
  }

  // ------------------------------------------------------ files do not collide

  lemma {:induction false} DigitsDiffer(m: nat, n: nat)
    requires Digits(m) == Digits(n)
    ensures m == n
  {
    var a, b := Digits(m), Digits(n);
    assert "0123456789"[m % 10] == a[|a| - 1] == b[|b| - 1] == "0123456789"[n % 10];
    assert m % 10 == n % 10;
    if m >= 10 && n >= 10 {
      assert Digits(m / 10) == a[..|a| - 1] == Digits(n / 10);
      DigitsDiffer(m / 10, n / 10);
    } else {
      assert m < 10 <==> |a| == 1;
    }
  }

  lemma ImageFilesDiffer(id: JobId, m: nat, n: nat)
    requires ImageFile(id, m) == ImageFile(id, n)
    ensures m == n
  {
    var f, g := ImageFile(id, m), ImageFile(id, n);
    assert f == id + "-" + Digits(m) + ".png" && g == id + "-" + Digits(n) + ".png";
    assert Digits(m) == f[|id| + 1..|f| - 4] == g[|id| + 1..|g| - 4] == Digits(n);
    DigitsDiffer(m, n);
  }

  // Prune knows the job an image belongs to, and a song or video, whose name is
  // the job's ID with its format.
  lemma {:induction false} ImageIsOwned(id: JobId, n: nat, format: string)
    requires forall c <- id :: c != '-' && c != '.'
    ensures OutputJobId(ImageFile(id, n)) == id && OutputJobId(id + "." + format) == id
  {
    OwnerOf(id, "-" + Digits(n) + ".png");
    assert ImageFile(id, n) == id + ("-" + Digits(n) + ".png");
    OwnerOf(id, "." + format);
    assert id + "." + format == id + ("." + format);
  }

  lemma {:induction false} OwnerOf(id: JobId, rest: string)
    requires (forall c <- id :: c != '-' && c != '.') && rest != "" && (rest[0] == '-' || rest[0] == '.')
    ensures OutputJobId(id + rest) == id
  {
    if id == "" {
      assert id + rest == rest;
    } else {
      assert (id + rest)[1..] == id[1..] + rest && id[0] in id;
      forall c <- id[1..]
        ensures c in id
      {}
      OwnerOf(id[1..], rest);
    }
  }

  // ------------------------------------------------------------ the invariant

  lemma WriteKeepsInv(w: World, luck: Luck, now: Time)
    requires Inv(w) && w.pc.Writing?
    ensures Inv(RunnerStep(w, luck, now))
  {
    var paths := w.pc.paths;
    var file := ImageFile(w.id, |paths|);
    assert Images(w.id, |paths| + 1) == paths + [file];
    assert Names(paths + [file]) == Names(paths) + {file};
    if file in paths {
      var i :| 0 <= i < |paths| && paths[i] == file;
      ImageFilesDiffer(w.id, i, |paths|);
    }
  }

  lemma RemoveKeepsInv(w: World, luck: Luck, now: Time)
    requires Inv(w) && (w.pc.Removing? || w.pc.Undoing?)
    ensures Inv(RunnerStep(w, luck, now))
  {
    var rest := w.pc.rest;
    if rest != [] {
      assert Names(rest) == Names(rest[1..]) + {rest[0]};
    }
  }

  lemma FinishKeepsInv(w: World, luck: Luck, now: Time)
    requires Inv(w) && w.pc.Finishing?
    ensures Inv(RunnerStep(w, luck, now))
  {
    if w.pc.outcome != Succeeded {
      assert Names(w.pc.paths) == {};
    }
  }

  lemma MarkKeepsInv(w: World, luck: Luck, now: Time)
    requires Inv(w) && (w.pc.HasTurn? || w.pc.Begin? || w.pc.MarkSaving?)
    ensures Inv(RunnerStep(w, luck, now))
  {
    hide Names, ImageFile;
    NoneNamed();
  }

  lemma OtherKeepsInv(w: World, luck: Luck, now: Time)
    requires Inv(w) && !w.pc.Writing? && !w.pc.Removing? && !w.pc.Undoing? && !w.pc.Finishing?
    requires !w.pc.HasTurn? && !w.pc.Begin? && !w.pc.MarkSaving?
    ensures Inv(RunnerStep(w, luck, now))
  {
    hide Names, ImageFile;
    NoneNamed();
  }

  lemma NoneNamed()
    ensures Names([]) == {}
  {}

  lemma RunnerKeepsInv(w: World, luck: Luck, now: Time)
    requires Inv(w)
    ensures Inv(RunnerStep(w, luck, now))
  {
    hide Inv, RunnerStep;
    if w.pc.Writing? {
      WriteKeepsInv(w, luck, now);
    } else if w.pc.Removing? || w.pc.Undoing? {
      RemoveKeepsInv(w, luck, now);
    } else if w.pc.Finishing? {
      FinishKeepsInv(w, luck, now);
    } else if w.pc.HasTurn? || w.pc.Begin? || w.pc.MarkSaving? {
      MarkKeepsInv(w, luck, now);
    } else {
      OtherKeepsInv(w, luck, now);
    }
  }

  lemma StepKeepsInv(w: World, a: Action)
    requires Inv(w)
    ensures Inv(Step(w, a))
  {
    match a
    case Runner(luck, now) => RunnerKeepsInv(w, luck, now);
    case Cancel(now) =>
    case EndContext =>
    case Delete =>
      if w.job.Some? {
        assert "" !in w.job.value.files ==> FilesOf(w.job.value) == Names(w.job.value.files);
      }
  }

  lemma {:induction false} RunKeepsInv(w: World, acts: seq<Action>)
    requires Inv(w)
    ensures Inv(Run(w, acts))
    decreases |acts|
  {
    if acts != [] {
      StepKeepsInv(w, acts[0]);
      RunKeepsInv(Step(w, acts[0]), acts[1..]);
    }
  }

  // --------------------------------------------------------------- theorems

  // A write that fails and leaves part of its file.
  predicate WritesPart(w: World, a: Action) {
    a.Runner? && w.pc.Writing? && |w.pc.paths| < w.pc.n && !a.luck.ok && a.luck.partial
  }

  predicate SomeWriteLeavesPart(w: World, acts: seq<Action>)
    decreases |acts|
  {
    acts != [] && (WritesPart(w, acts[0]) || SomeWriteLeavesPart(Step(w, acts[0]), acts[1..]))
  }

  // The files the stored job lists, if it succeeded.
  function Listed(w: World): set<FileName> {
    if w.job.Some? && w.job.value.status == Succeeded then Names(w.job.value.files) else {}
  }

  // Once the runner has ended, however cancel, delete and prune raced with
  // it, the job's files on disk are those the stored job lists if it
  // succeeded, and none otherwise, exactly unless a failed write left part of
  // a file behind; then there is that part beside them.
  lemma FilesMatchTheJob(w0: World, acts: seq<Action>)
    requires Submitted(w0)
    ensures var w := Run(w0, acts);
      w.pc.Ended? ==> w.disk == Listed(w) + w.left && (w.disk == Listed(w) <==> !SomeWriteLeavesPart(w0, acts))
    ensures Run(w0, acts).left != {} <==> SomeWriteLeavesPart(w0, acts)
  {
    RunKeepsInv(w0, acts);
    LeftIs(w0, acts);
  }

  lemma {:induction false} LeftIs(w: World, acts: seq<Action>)
    ensures Run(w, acts).left != {} <==> w.left != {} || SomeWriteLeavesPart(w, acts)
    decreases |acts|
  {
    if acts != [] {
      LeftIs(Step(w, acts[0]), acts[1..]);
    }
  }

  // The images the backend answered with, once it has.
  function Answered(w: World, images: Option<nat>, acts: seq<Action>): Option<nat>
    decreases |acts|
  {
    if acts == [] then images
    else Answered(Step(w, acts[0]), AnsweredBy(w, images, acts[0]), acts[1..])
  }

  function AnsweredBy(w: World, images: Option<nat>, a: Action): Option<nat> {
    if a.Runner? && w.pc == Generating && a.luck.ok && a.luck.images > 0 then Some(a.luck.images) else images
  }

  // The runner carries the images it was answered with, until each is a file.
  ghost predicate Carries(w: World, images: Option<nat>) {
    && (w.job.Some? && w.job.value.status == Succeeded ==>
      images.Some? && w.job.value.files == Images(w.id, images.value))
    && match w.pc
       case Check(n) => images == Some(n)
       case MarkSaving(n) => images == Some(n)
       case MakeDir(n) => images == Some(n)
       case Writing(n, paths) => images == Some(n) && |paths| <= n && paths == Images(w.id, |paths|)
       case Finishing(outcome, _, paths) =>
         outcome == Succeeded ==> images.Some? && paths == Images(w.id, images.value)
       case _ => true
  }

  lemma {:induction false} RunCarries(w: World, images: Option<nat>, acts: seq<Action>)
    requires Inv(w) && Carries(w, images)
    ensures Carries(Run(w, acts), Answered(w, images, acts))
    decreases |acts|
  {
    if acts != [] {
      StepKeepsInv(w, acts[0]);
      StepCarries(w, images, acts[0]);
      hide Inv, Step, Carries, AnsweredBy;
      RunCarries(Step(w, acts[0]), AnsweredBy(w, images, acts[0]), acts[1..]);
    }
  }

  lemma StepCarries(w: World, images: Option<nat>, a: Action)
    requires Inv(w) && Carries(w, images)
    ensures Carries(Step(w, a), AnsweredBy(w, images, a))
  {
    hide DiskOk, Images, ImageFile, FilesOf, RunnerStep;
    if a.Runner? {
      RunnerCarries(w, images, a.luck, a.now);
    }
  }

  lemma RunnerCarries(w: World, images: Option<nat>, luck: Luck, now: Time)
    requires (w.pc.Ended? || JobOpen(w)) && Carries(w, images)
    ensures Carries(RunnerStep(w, luck, now), AnsweredBy(w, images, Runner(luck, now)))
  {
    hide RunnerStep, Carries, Images, ImageFile, AnsweredBy;
    if w.pc.HasTurn? || w.pc.Begin? || w.pc.MarkSaving? {
      MarkCarries(w, images, luck, now);
    } else if w.pc.Writing? || w.pc.Finishing? {
      WriteCarries(w, images, luck, now);
    } else {
      OtherCarries(w, images, luck, now);
    }
  }

  lemma OtherCarries(w: World, images: Option<nat>, luck: Luck, now: Time)
    requires !w.pc.HasTurn? && !w.pc.Begin? && !w.pc.MarkSaving? && !w.pc.Writing? && !w.pc.Finishing?
    requires (w.pc.Ended? || JobOpen(w)) && Carries(w, images)
    ensures Carries(RunnerStep(w, luck, now), AnsweredBy(w, images, Runner(luck, now)))
  {
    hide Images, ImageFile, FinishJob;
    NoImages(w.id);
  }

  lemma WriteCarries(w: World, images: Option<nat>, luck: Luck, now: Time)
    requires (w.pc.Writing? || w.pc.Finishing?) && JobOpen(w) && Carries(w, images)
    ensures Carries(RunnerStep(w, luck, now), AnsweredBy(w, images, Runner(luck, now)))
  {
    hide Images, ImageFile;
    if w.pc.Writing? {
      OneMoreImage(w.id, |w.pc.paths|);
    }
  }

  lemma MarkCarries(w: World, images: Option<nat>, luck: Luck, now: Time)
    requires (w.pc.HasTurn? || w.pc.Begin? || w.pc.MarkSaving?) && JobOpen(w) && Carries(w, images)
    ensures Carries(RunnerStep(w, luck, now), AnsweredBy(w, images, Runner(luck, now)))
  {
    hide Images;
  }

  lemma OneMoreImage(id: JobId, n: nat)
    ensures Images(id, n + 1) == Images(id, n) + [ImageFile(id, n)]
  {}

  lemma NoImages(id: JobId)
    ensures Images(id, 0) == []
  {}

  // A job that succeeded lists a file for each image it was answered with, in
  // order, and no other.
  lemma EveryImageIsListed(w0: World, acts: seq<Action>)
    requires Submitted(w0)
    ensures var w := Run(w0, acts);
      w.job.Some? && w.job.value.status == Succeeded ==>
        var images := Answered(w0, None, acts);
        && images.Some? && images.value > 0 && |w.job.value.files| == images.value
        && forall i | 0 <= i < images.value :: w.job.value.files[i] == w.id + "-" + Digits(i) + ".png"
  {
    RunCarries(w0, None, acts);
    AnsweredSome(w0, None, acts);
  }

  lemma {:induction false} AnsweredSome(w: World, images: Option<nat>, acts: seq<Action>)
    requires images.Some? ==> images.value > 0
    ensures var n := Answered(w, images, acts); n.Some? ==> n.value > 0
    decreases |acts|
  {
    if acts != [] {
      AnsweredSome(Step(w, acts[0]), AnsweredBy(w, images, acts[0]), acts[1..]);
    }
  }

  // What any step of the runner or of a client makes of the stored job is what
  // the store's records rely on (module JobSaves): a finished job stays as it
  // is, and finishing is a change of status.
  lemma StepsAreLawful(w: World, a: Action)
    requires Inv(w) && w.job.Some? && Step(w, a).job.Some?
    ensures JobSaves.Lawful(w.job.value, Step(w, a).job.value)
  {
    assert w.pc.Finishing? ==> Terminal(w.pc.outcome);
    hide DiskOk;
  }

  // A job is finished exactly when its status is terminal, and from then on
  // it stays as it is until it is deleted.
  lemma TerminalIsAbsorbing(w0: World, before: seq<Action>, after: seq<Action>)
    requires Submitted(w0)
    ensures var w, later := Run(w0, before), Run(Run(w0, before), after);
      && (w.job.Some? ==> (w.job.value.Finished() <==> Terminal(w.job.value.status)))
      && (w.job.Some? && w.job.value.Finished() ==> later.job.None? || later.job == w.job)
      && (w.job.None? ==> later.job.None?)
  {
    RunKeepsInv(w0, before);
    var w := Run(w0, before);
    if w.job.None? || w.job.value.Finished() {
      Absorbs(w, after);
    }
  }

  lemma {:induction false} Absorbs(w: World, acts: seq<Action>)
    requires Inv(w) && (w.job.Some? ==> w.job.value.Finished())
    ensures Run(w, acts).job.None? || Run(w, acts).job == w.job
    decreases |acts|
  {
    if acts != [] {
      StepKeepsInv(w, acts[0]);
      Absorbs(Step(w, acts[0]), acts[1..]);
    }
  }

  const SMOOTH := Runner(Luck(true, true, 1, false), 1)
  const DISK_FULL := Runner(Luck(false, true, 1, true), 1)

  // Where the runner is after k steps that go well.
  function SmoothPc(k: nat): Pc {
    if k == 0 then WaitTurn else if k == 1 then HasTurn else if k == 2 then GetReady else if k == 3 then Begin
    else if k == 4 then Generating else if k == 5 then Check(1) else if k == 6 then MarkSaving(1) else MakeDir(1)
  }

  predicate Unfinished(w: World) {
    w.job.Some? && w.job.value.status in {Queued, Running} && !w.job.value.Finished() && w.job.value.files == []
  }

  lemma SmoothStep(w: World, k: nat)
    requires k < 7 && w.pc == SmoothPc(k) && Unfinished(w)
    ensures var w' := Step(w, SMOOTH); w' == w.(pc := SmoothPc(k + 1), job := w'.job) && Unfinished(w')
  {}

  lemma {:induction false} SmoothRun(w: World, k: nat)
    requires k <= 7 && w.pc == SmoothPc(k) && Unfinished(w)
    ensures var w' := Run(w, seq(7 - k, i => SMOOTH)); w' == w.(pc := SmoothPc(7), job := w'.job) && Unfinished(w')
    decreases 7 - k
  {
    hide Step;
    if k < 7 {
      var acts := seq(7 - k, i => SMOOTH);
      SmoothStep(w, k);
      assert acts[1..] == seq(7 - (k + 1), i => SMOOTH);
      SmoothRun(Step(w, SMOOTH), k + 1);
    }
  }

  // The part of a file is no theory: a disk that fills up leaves it there,
  // with a failed job that lists no files.
  lemma PartialFileStays(w0: World) returns (acts: seq<Action>)
    requires Submitted(w0)
    ensures var w := Run(w0, acts);
      w.pc.Ended? && w.job.Some? && w.job.value.status == Failed && w.job.value.files == []
        && w.disk == {ImageFile(w0.id, 0)}
  {
    var first := seq(7 - 0, i => SMOOTH);
    var rest := [SMOOTH, DISK_FULL, SMOOTH, SMOOTH];
    acts := first + rest;
    RunConcat(w0, first, rest);
    SmoothRun(w0, 0);
    hide Run;
    var w := Run(w0, first);
    var w1 := Take(w, rest, 0);
    var w2 := Take(w1, rest, 1);
    assert w2.pc == Undoing([]) && w2.disk == {ImageFile(w0.id, 0)};
    var w3 := Take(w2, rest, 2);
    var w4 := Take(w3, rest, 3);
  }

  lemma {:induction false} RunConcat(w: World, a: seq<Action>, b: seq<Action>)
    ensures Run(w, a + b) == Run(Run(w, a), b)
    decreases |a|
  {
    if a == [] {
      assert a + b == b;
    } else {
      assert (a + b)[1..] == a[1..] + b;
      RunConcat(Step(w, a[0]), a[1..], b);
    }
  }

  lemma Take(w: World, acts: seq<Action>, i: nat) returns (w': World)
    requires i < |acts|
    ensures w' == Step(w, acts[i]) && Run(w, acts[i..]) == Run(w', acts[i + 1..])
    ensures i == 0 ==> acts[i..] == acts
    ensures i + 1 == |acts| ==> Run(w', acts[i + 1..]) == w'
  {
    assert acts[i..][1..] == acts[i + 1..];
    w' := Step(w, acts[i]);
  }
}
