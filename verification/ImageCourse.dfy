// The course of one image job: its runner ends, its outcome is settled by what
// went wrong and by who cancelled it, and what clients see of it meanwhile.
module ImageCourse {
  import opened Common
  import opened JobStore
  import opened ImageJob

  // ----- the runner ends -----

  // n steps of the runner alone, the k-th with luck(k).
  function Play(w: World, luck: nat -> Luck, now: Time, k: nat, n: nat): World
    decreases n
  {
    if n == 0 then w else Play(RunnerStep(w, luck(k), now), luck, now, k + 1, n - 1)
  }

  function Stage(pc: Pc): nat {
    match pc
    case WaitTurn => 5
    case HasTurn => 4
    case GetReady => 3
    case Begin => 2
    case Generating => 1
    case _ => 0
  }

  // Steps left at most, once the backend has answered.
  function Effort(pc: Pc): nat {
    match pc
    case Check(n) => 7 + 2 * n
    case MarkSaving(n) => 6 + 2 * n
    case MakeDir(n) => 5 + 2 * n
    case Writing(n, paths) => 4 + |paths| + if |paths| < n then 2 * (n - |paths|) else 0
    case Undoing(rest) => 4 + |rest|
    case Finishing(_, _, paths) => 3 + |paths|
    case Removing(rest) => 1 + |rest|
    case _ => 0
  }

  // Whatever goes wrong, a runner that gets its turn, or whose wait for it is
  // cancelled, ends.
  lemma {:induction false} RunnerEnds(w: World, luck: nat -> Luck, now: Time, k: nat) returns (n: nat)
    requires w.pc.WaitTurn? ==> luck(k).ok || w.ctxDone
    ensures Play(w, luck, now, k, n).pc == Ended
    decreases Stage(w.pc), Effort(w.pc)
  {
    if w.pc.Ended? {
      n := 0;
    } else {
      StepGetsOn(w, luck(k), now);
      hide RunnerStep, Stage, Effort;
      n := RunnerEnds(RunnerStep(w, luck(k), now), luck, now, k + 1);
      n := n + 1;
    }
  }

  lemma StepGetsOn(w: World, luck: Luck, now: Time)
    requires !w.pc.Ended? && (w.pc.WaitTurn? ==> luck.ok || w.ctxDone)
    ensures var pc := RunnerStep(w, luck, now).pc;
      !pc.WaitTurn? && (Stage(pc) < Stage(w.pc) || (Stage(pc) == Stage(w.pc) && Effort(pc) < Effort(w.pc)))
  {
    if w.pc.Writing? || w.pc.Undoing? || w.pc.Removing? || w.pc.Finishing? {
      hide *;
      FileStepGetsOn(w, luck, now);
    } else {
      hide ImageFile, Stored, FinishJob, Job.Start, FilesOf;
    }
  }

  lemma FileStepGetsOn(w: World, luck: Luck, now: Time)
    requires w.pc.Writing? || w.pc.Undoing? || w.pc.Removing? || w.pc.Finishing?
    ensures var pc := RunnerStep(w, luck, now).pc;
      !pc.WaitTurn? && Stage(pc) == Stage(w.pc) && Effort(pc) < Effort(w.pc)
  {
    hide ImageFile, Stored, FinishJob;
  }

  // A job cancelled while it waits for its turn leaves the queue, with nothing
  // made.
  lemma CancelledInQueueEnds(w: World, now: Time, luck: Luck)
    requires Submitted(w) && !luck.ok
    ensures var cancelled := Step(Step(w, Cancel(now)), EndContext);
      var ended := Play(cancelled, _ => luck, now, 0, 3);
      && ended.pc == Ended && ended.disk == {}
      && ended.job.Some? && ended.job.value.status == Cancelled && ended.job.value.finished == Some(now)
  {
    var cancelled := Step(Step(w, Cancel(now)), EndContext);
    var one := RunnerStep(cancelled, luck, now);
    var two := RunnerStep(one, luck, now);
    assert one.pc == Finishing(Cancelled, "", []) && two.pc == Removing([]) && two.job == cancelled.job;
    assert Play(cancelled, _ => luck, now, 0, 3) == Play(two, _ => luck, now, 2, 1) by {
      PlayOne(cancelled, _ => luck, now, 0, 3);
      PlayOne(one, _ => luck, now, 1, 2);
    }
    PlayOne(two, _ => luck, now, 2, 1);
  }

  lemma PlayOne(w: World, luck: nat -> Luck, now: Time, k: nat, n: nat)
    requires n > 0
    ensures Play(w, luck, now, k, n) == Play(RunnerStep(w, luck(k), now), luck, now, k + 1, n - 1)
  {}

  // ----- how it ends -----

  // The step at which something goes wrong: the backend does not come up or
  // does not answer with images, or the images cannot be saved.
  predicate Fault(w: World, a: Action) {
    a.Runner? && match w.pc
      case GetReady => !a.luck.ok
      case Generating => !a.luck.ok || a.luck.images == 0
      case MakeDir(_) => !a.luck.ok
      case Writing(n, paths) => |paths| < n && !a.luck.ok
      case _ => false
  }

  predicate Faulted(w: World, acts: seq<Action>)
    decreases |acts|
  {
    acts != [] && (Fault(w, acts[0]) || Faulted(Step(w, acts[0]), acts[1..]))
  }

  // A client cancels the job before it has finished.
  predicate Cancels(w: World, a: Action) {
    a.Cancel? && w.job.Some? && w.job.value.finished.None?
  }

  predicate WasCancelled(w: World, acts: seq<Action>)
    decreases |acts|
  {
    acts != [] && (Cancels(w, acts[0]) || WasCancelled(Step(w, acts[0]), acts[1..]))
  }

  ghost predicate OnCourse(w: World, cancelled: bool, faulted: bool) {
    && (w.job.Some? ==> (w.job.value.status == Cancelled <==> cancelled))
    && match w.pc
       case Undoing(_) => faulted
       case Finishing(Succeeded, _, _) => !faulted
       case Finishing(Failed, _, _) => faulted
       case Finishing(_, _, _) => w.job.Some? ==> cancelled
       case Removing(_) => true
       case Ended =>
         w.job.Some? && !cancelled ==> w.job.value.status == if faulted then Status.Failed else Succeeded
       case _ => !faulted
  }

  lemma StepStaysOnCourse(w: World, a: Action, cancelled: bool, faulted: bool)
    requires Inv(w) && OnCourse(w, cancelled, faulted)
    ensures OnCourse(Step(w, a), cancelled || Cancels(w, a), faulted || Fault(w, a))
  {
    hide DiskOk, ImageFile, FilesOf, RunnerStep, Fault;
    if a.Runner? {
      RunnerStaysOnCourse(w, a.luck, a.now, cancelled, faulted);
    } else {
      NoFault(w, a);
    }
  }

  lemma NoFault(w: World, a: Action)
    requires !a.Runner?
    ensures !Fault(w, a)
  {}

  lemma RunnerStaysOnCourse(w: World, luck: Luck, now: Time, cancelled: bool, faulted: bool)
    requires Inv(w) && OnCourse(w, cancelled, faulted)
    ensures OnCourse(RunnerStep(w, luck, now), cancelled, faulted || Fault(w, Runner(luck, now)))
  {
    hide ImageFile, Names, Images, DiskOk;
    if w.pc.Finishing? || w.pc.Undoing? || w.pc.Removing? {
      EndStaysOnCourse(w, luck, now, cancelled, faulted);
    } else {
      StartStaysOnCourse(w, luck, now, cancelled, faulted);
    }
  }

  lemma EndStaysOnCourse(w: World, luck: Luck, now: Time, cancelled: bool, faulted: bool)
    requires w.pc.Finishing? || w.pc.Undoing? || w.pc.Removing?
    requires Inv(w) && OnCourse(w, cancelled, faulted)
    ensures OnCourse(RunnerStep(w, luck, now), cancelled, faulted || Fault(w, Runner(luck, now)))
  {
    hide ImageFile, Names, Images;
  }

  lemma StartStaysOnCourse(w: World, luck: Luck, now: Time, cancelled: bool, faulted: bool)
    requires !w.pc.Finishing? && !w.pc.Undoing? && !w.pc.Removing?
    requires Inv(w) && OnCourse(w, cancelled, faulted)
    ensures OnCourse(RunnerStep(w, luck, now), cancelled, faulted || Fault(w, Runner(luck, now)))
  {
    hide ImageFile, Names, Images, DiskOk, FinishJob;
  }

  lemma {:induction false} RunStaysOnCourse(w: World, acts: seq<Action>, cancelled: bool, faulted: bool)
    requires Inv(w) && OnCourse(w, cancelled, faulted)
    ensures OnCourse(Run(w, acts), cancelled || WasCancelled(w, acts), faulted || Faulted(w, acts))
    decreases |acts|
  {
    if acts != [] {
      StepKeepsInv(w, acts[0]);
      StepStaysOnCourse(w, acts[0], cancelled, faulted);
      hide Inv, Step, OnCourse, Fault, Cancels;
      RunStaysOnCourse(Step(w, acts[0]), acts[1..], cancelled || Cancels(w, acts[0]), faulted || Fault(w, acts[0]));
    }
  }

  // A job that has ended was cancelled exactly if a client cancelled it before
  // it finished; otherwise it failed exactly if something went wrong.
  lemma OutcomeIsExact(w0: World, acts: seq<Action>)
    requires Submitted(w0)
    ensures var w := Run(w0, acts);
      w.pc.Ended? && w.job.Some? ==>
        w.job.value.status ==
          if WasCancelled(w0, acts) then Cancelled else if Faulted(w0, acts) then Status.Failed else Succeeded
  {
    RunStaysOnCourse(w0, acts, false, false);
  }

  // What a client's cancel and delete do, once: cancel marks a job that has not
  // finished, and delete takes one that has, with its files; neither does
  // anything else, or does anything later.
  lemma ClientsDo(w: World, now: Time)
    ensures var c := Step(w, Cancel(now));
      if w.job.None? || w.job.value.finished.Some? then c == w
      else
        && c.issued && c.job.Some? && c.job.value.status == Cancelled && c.job.value.finished == Some(now)
        && c.pc == w.pc && c.disk == w.disk && Step(c, Cancel(now + 1)) == c
    ensures var d := Step(w, Delete);
      if w.job.None? || w.job.value.finished.None? then d == w
      else
        && d.job.None? && d.pc == w.pc && Step(d, Delete) == d
        && forall f :: f in d.disk <==> f in w.disk && (f !in w.job.value.files || f == "")
  {}

  // ----- what clients see -----

  // What submitting sets besides: a phase, no error, and the start of a job
  // that need not wait.
  predicate JustSubmitted(w: World) {
    && Submitted(w) && w.job.value.phase != "" && w.job.value.error == ""
    && (w.job.value.status == Running ==> w.job.value.started.Some?)
  }

  ghost predicate Honest(w: World) {
    && (w.job.Some? ==>
      var j := w.job.value;
      && (j.finished.Some? <==> j.phase == "")
      && (j.status == Running || j.status == Succeeded ==> j.started.Some?)
      && (j.status == Status.Failed <==> j.error != "")
      && (j.finished.None? ==>
        match w.pc
        case Generating => j.status == Running && j.phase == "generating"
        case Check(_) => j.status == Running && j.phase == "generating"
        case MarkSaving(_) => j.status == Running && j.phase == "generating"
        case MakeDir(_) => j.status == Running && j.phase == "saving"
        case Writing(_, _) => j.status == Running && j.phase == "saving"
        case Undoing(_) => j.status == Running && j.phase == "saving"
        case Finishing(Succeeded, _, _) => j.started.Some?
        case _ => true))
    && match w.pc
       case Finishing(outcome, error, _) => outcome == Status.Failed <==> error != ""
       case _ => true
  }

  lemma StepStaysHonest(w: World, a: Action)
    requires Inv(w) && Honest(w)
    ensures Honest(Step(w, a))
  {
    hide DiskOk, ImageFile, FilesOf, RunnerStep;
    if a.Runner? {
      RunnerStaysHonest(w, a.luck, a.now);
    }
  }

  lemma RunnerStaysHonest(w: World, luck: Luck, now: Time)
    requires Inv(w) && Honest(w)
    ensures Honest(RunnerStep(w, luck, now))
  {
    hide Inv, Honest, RunnerStep;
    if w.pc.Finishing? || w.pc.Undoing? || w.pc.Removing? {
      EndStaysHonest(w, luck, now);
    } else if w.pc.HasTurn? || w.pc.Begin? || w.pc.MarkSaving? {
      MarkStaysHonest(w, luck, now);
    } else {
      OtherStaysHonest(w, luck, now);
    }
  }

  lemma EndStaysHonest(w: World, luck: Luck, now: Time)
    requires Inv(w) && Honest(w) && (w.pc.Finishing? || w.pc.Undoing? || w.pc.Removing?)
    ensures Honest(RunnerStep(w, luck, now))
  {
    hide ImageFile, Names, Images;
  }

  lemma MarkStaysHonest(w: World, luck: Luck, now: Time)
    requires Inv(w) && Honest(w) && (w.pc.HasTurn? || w.pc.Begin? || w.pc.MarkSaving?)
    ensures Honest(RunnerStep(w, luck, now))
  {
    hide ImageFile, Names, Images, DiskOk;
  }

  lemma OtherStaysHonest(w: World, luck: Luck, now: Time)
    requires !w.pc.Finishing? && !w.pc.Undoing? && !w.pc.Removing?
    requires !w.pc.HasTurn? && !w.pc.Begin? && !w.pc.MarkSaving?
    requires Inv(w) && Honest(w)
    ensures Honest(RunnerStep(w, luck, now))
  {
    hide ImageFile, Names, Images, DiskOk, Stored, FinishJob;
  }

  lemma {:induction false} RunStaysHonest(w: World, acts: seq<Action>)
    requires Inv(w) && Honest(w)
    ensures Honest(Run(w, acts))
    decreases |acts|
  {
    if acts != [] {
      StepKeepsInv(w, acts[0]);
      StepStaysHonest(w, acts[0]);
      hide Inv, Step, Honest;
      RunStaysHonest(Step(w, acts[0]), acts[1..]);
    }
  }

  // Clients see a phase exactly until the job has finished, the one its runner
  // is in once it generates; an error exactly if it failed; and when it started
  // unless it never ran.
  lemma ClientsSee(w0: World, acts: seq<Action>)
    requires JustSubmitted(w0)
    ensures var w := Run(w0, acts);
      w.job.Some? ==>
        var j := w.job.value;
        && (j.finished.Some? <==> j.phase == "")
        && (j.status == Status.Failed <==> j.error != "")
        && (j.status == Running || j.status == Succeeded ==> j.started.Some?)
        && (j.finished.None? && (w.pc.Generating? || w.pc.Check?) ==> j.phase == "generating")
        && (j.finished.None? && (w.pc.MakeDir? || w.pc.Writing?) ==> j.phase == "saving")
  {
    RunStaysHonest(w0, acts);
  }

  // A job is started once: the time stays as it is.
  lemma {:induction false} StartIsOnce(w: World, acts: seq<Action>)
    requires w.job.Some? && w.job.value.started.Some?
    ensures var later := Run(w, acts).job;
      later.Some? ==> later.value.started == w.job.value.started && later.value.submitted == w.job.value.submitted
    decreases |acts|
  {
    if acts != [] {
      var next := Step(w, acts[0]);
      StepKeepsStart(w, acts[0]);
      hide Step;
      if next.job.None? {
        GoneStaysGone(next, acts[1..]);
      } else {
        StartIsOnce(next, acts[1..]);
      }
    }
  }

  lemma StepKeepsStart(w: World, a: Action)
    requires w.job.Some? && w.job.value.started.Some?
    ensures var job := Step(w, a).job;
      job.Some? ==> job.value.started == w.job.value.started && job.value.submitted == w.job.value.submitted
  {
    hide ImageFile, FilesOf;
  }

  lemma {:induction false} GoneStaysGone(w: World, acts: seq<Action>)
    requires w.job.None?
    ensures Run(w, acts).job.None?
    decreases |acts|
  {
    if acts != [] {
      GoneStaysGone(Step(w, acts[0]), acts[1..]);
    }
  }

  // A job that has its turn starts its backend unless that runs, and says so.
  lemma StartingShows(w: World, luck: Luck, now: Time)
    requires w.pc.HasTurn? && w.job.Some? && w.job.value.status != Cancelled
    ensures var j, after := w.job.value, RunnerStep(w, luck, now);
      && after.pc == GetReady
      && after.job == Some(if luck.running then j
        else Job(j.id, Running, "starting", j.position, j.error, j.submitted,
                 if j.started.Some? then j.started else Some(now), j.finished, j.files))
  {}
}
