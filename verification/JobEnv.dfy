// Whose options the router runs under while a benchmark job drives it, and
// what the job's cleanup gives back.
module JobEnv {
  import opened Common

  type Build = string
  type Config = string

  // What the router was started with: the build (never ""), the substitute
  // config, and whether a job had taken the router over.
  datatype Options = Options(build: Build, config: Option<Config>, job: bool)

  // The supervised process. Only a router past its health check counts as
  // running; Start is refused while one is up or on its way. One that does not
  // get healthy in time counts as failed, but its process lives on (Hung).
  datatype Proc = Down | Starting(o: Options) | Up(o: Options) | Hung(o: Options) | Broken
  {
    predicate Alive() {
      Starting? || Up? || Hung?
    }
  }

  // lost are the processes that were hung when another was started: they run
  // on with nobody to stop them. starts and stops count the router's starts
  // and stops. userBuild is the build the user's own start runs.
  datatype World = World(
    proc: Proc,
    lost: multiset<Options>,
    jobBuild: Build,
    jobConfig: Option<Config>,
    owns: bool,
    stoppedForEval: bool,
    starts: nat,
    stops: nat,
    userBuild: Build)

  // How waiting for the router ends. It is cancelled also after two minutes,
  // when the router may still be on its way.
  datatype Wait = Ready | Cancelled | Dies | Hangs

  // What the process does in one restart.
  datatype Tries = Tries(stops: bool, starts: bool, wait: Wait)

  datatype Error = NotUsable | StopFailed | StartFailed | NotReady

  datatype Call =
    | EnsureBuild(build: Build, usable: bool, newModels: bool, configFollows: bool, tries: Tries)
    | ApplyConfig(config: Config, usable: bool, tries: Tries)
    | StopForEval(stops: bool)

  function JobOptions(w: World): Options {
    Options(if w.jobBuild == "" then w.userBuild else w.jobBuild, w.jobConfig, w.owns)
  }

  // The supervisor's start, over whatever process it had.
  function Started(w: World, o: Options): World {
    var lost := if w.proc.Hung? then w.lost + multiset{w.proc.o} else w.lost;
    w.(proc := Starting(o), lost := lost, starts := w.starts + 1)
  }

  function Waited(o: Options, wait: Wait): Proc {
    match wait
    case Ready => Up(o)
    case Cancelled => Starting(o)
    case Dies => Broken
    case Hangs => Hung(o)
  }

  // restartRouter.
  function Restart(w: World, tries: Tries): (World, Result<(), Error>) {
    if w.proc.Up? && !tries.stops then (w, Err(StopFailed))
    else
      var w1 := if w.proc.Up? then w.(proc := Down, stops := w.stops + 1) else w;
      if w1.proc.Starting? || !tries.starts then (w1, Err(StartFailed))
      else
        var o := JobOptions(w1);
        (Started(w1, o).(proc := Waited(o, tries.wait)), if tries.wait.Ready? then Ok(()) else Err(NotReady))
  }

  // The router serves build already, on the user's config, with all models.
  predicate AlreadyOn(w: World, build: Build, newModels: bool) {
    w.proc.Up? && w.proc.o.build == build && w.jobConfig.None? && !newModels
  }

  function Ensured(w: World, build: Build, usable: bool, newModels: bool, configFollows: bool, tries: Tries)
    : (World, Result<(), Error>)
  {
    if build == "" || !usable then (w, Err(NotUsable))
    else
      var w1 := w.(jobBuild := build);
      if AlreadyOn(w, build, newModels) || configFollows then (w1, Ok(()))
      else Restart(w1.(owns := true), tries)
  }

  function Applied(w: World, config: Config, usable: bool, tries: Tries): (World, Result<(), Error>) {
    if !usable then (w, Err(NotUsable))
    else Restart(w.(jobConfig := Some(config), owns := true), tries)
  }

  function StoppedForEval(w: World, stops: bool): (World, Result<(), Error>) {
    if w.stoppedForEval || !w.proc.Up? then (w, Ok(()))
    else
      var w1 := w.(stoppedForEval := true, owns := true);
      if stops then (w1.(proc := Down, stops := w.stops + 1), Ok(())) else (w1, Err(StopFailed))
  }

  // ClearEphemeralConfig.
  function Cleared(w: World, tries: Tries): (World, Result<(), Error>) {
    var w1 := w.(jobBuild := "", jobConfig := None, owns := false, stoppedForEval := false);
    if !w.owns && !w.stoppedForEval then (w1, Ok(()))
    else if !w.proc.Up? && !w.stoppedForEval then (w1, Ok(()))
    else Restart(w1, tries)
  }

  function Called(w: World, call: Call): (World, Result<(), Error>) {
    match call
    case EnsureBuild(build, usable, newModels, configFollows, tries) =>
      Ensured(w, build, usable, newModels, configFollows, tries)
    case ApplyConfig(config, usable, tries) => Applied(w, config, usable, tries)
    case StopForEval(stops) => StoppedForEval(w, stops)
  }

  // A job's calls, and what the user and the processes do meanwhile. The
  // user's start is refused while a job has the router.
  datatype Action =
    | Job(call: Call)
    | UserStart
    | UserStop
    | HealthPasses
    | HealthFails
    | Exits
    | LostExits(o: Options)

  function UserOptions(w: World): Options {
    Options(w.userBuild, None, false)
  }

  function Step(w: World, a: Action): World {
    match a
    case Job(call) => Called(w, call).0
    case UserStart => if w.owns || w.proc.Starting? || w.proc.Up? then w else Started(w, UserOptions(w))
    case UserStop => if w.proc.Down? then w else w.(proc := Down, stops := w.stops + 1)
    case HealthPasses => if w.proc.Starting? then w.(proc := Up(w.proc.o)) else w
    case HealthFails => if w.proc.Starting? then w.(proc := Hung(w.proc.o)) else w
    case Exits => if w.proc.Down? then w else w.(proc := Broken)
    case LostExits(o) => w.(lost := w.lost - multiset{o})
  }

  function Run(w: World, acts: seq<Action>): World
    decreases |acts|
  {
    if acts == [] then w else Run(Step(w, acts[0]), acts[1..])
  }

  // A router process runs, or is coming up, under the options o.
  predicate AliveUnder(w: World, o: Options) {
    (w.proc.Alive() && w.proc.o == o) || o in w.lost
  }

  predicate NoneAlive(w: World) {
    !w.proc.Alive() && w.lost == multiset{}
  }

  predicate LostForJob(lost: multiset<Options>) {
    exists o <- lost :: o.job
  }

  predicate AliveForJob(w: World) {
    (w.proc.Alive() && w.proc.o.job) || LostForJob(w.lost)
  }

  // A process lives that does not count as running.
  predicate Unseen(w: World) {
    w.proc.Starting? || w.proc.Hung? || w.lost != multiset{}
  }

  // One a job's restart left behind.
  predicate UnseenForJob(w: World) {
    ((w.proc.Starting? || w.proc.Hung?) && w.proc.o.job) || LostForJob(w.lost)
  }

  // No job has begun.
  predicate Fresh(w: World) {
    && !w.owns && !w.stoppedForEval && w.jobBuild == "" && w.jobConfig.None? && w.userBuild != ""
    && (w.proc.Alive() ==> w.proc.o == UserOptions(w))
    && (forall o <- w.lost :: o == UserOptions(w))
  }

  // A router that runs belongs to the job that has it, or runs as the user
  // would start it.
  predicate Accounted(w: World, o: Options) {
    o == UserOptions(w) || (o.job && w.owns)
  }

  predicate AllAccounted(w: World, lost: multiset<Options>) {
    forall o <- lost :: Accounted(w, o)
  }

  predicate Inv(w: World) {
    && w.userBuild != ""
    && (w.proc.Alive() ==> Accounted(w, w.proc.o))
    && AllAccounted(w, w.lost)
    && (w.stoppedForEval ==> w.owns)
    && (w.jobConfig.Some? ==> w.owns)
  }

  // Taking the router over, and losing and ending processes, leave what is
  // lost accounted for.
  lemma LostStayAccounted(w: World, w': World, o: Options)
    requires AllAccounted(w, w.lost) && w'.userBuild == w.userBuild && (w.owns ==> w'.owns)
    ensures AllAccounted(w', w.lost) && AllAccounted(w', w.lost - multiset{o})
    ensures Accounted(w, o) ==> AllAccounted(w', w.lost + multiset{o})
  {}

  lemma StartedKeepsInv(w: World, o: Options)
    requires Inv(w) && Accounted(w, o)
    ensures Inv(Started(w, o)) && Started(w, o).userBuild == w.userBuild
  {
    hide AllAccounted;
    LostStayAccounted(w, Started(w, o), if w.proc.Hung? then w.proc.o else o);
  }

  lemma RestartKeepsInv(w: World, tries: Tries)
    requires Inv(w) && w.owns
    ensures var w' := Restart(w, tries).0; Inv(w') && w'.owns && w'.userBuild == w.userBuild
  {
    hide AllAccounted;
    LostStayAccounted(w, Restart(w, tries).0, if w.proc.Hung? then w.proc.o else JobOptions(w));
  }

  lemma TakenKeepsInv(w: World, w': World)
    requires Inv(w) && w'.proc == w.proc && w'.lost == w.lost && w'.userBuild == w.userBuild
    requires w'.owns || (w' == w.(jobBuild := w'.jobBuild))
    ensures Inv(w')
  {
    hide AllAccounted;
    LostStayAccounted(w, w', JobOptions(w));
  }

  lemma CallKeepsInv(w: World, call: Call)
    requires Inv(w)
    ensures Inv(Called(w, call).0) && Called(w, call).0.userBuild == w.userBuild
  {
    hide Inv, AllAccounted, Restart;
    match call
    case EnsureBuild(build, usable, newModels, configFollows, tries) =>
      TakenKeepsInv(w, w.(jobBuild := build));
      TakenKeepsInv(w, w.(jobBuild := build, owns := true));
      RestartKeepsInv(w.(jobBuild := build, owns := true), tries);
    case ApplyConfig(config, usable, tries) =>
      TakenKeepsInv(w, w.(jobConfig := Some(config), owns := true));
      RestartKeepsInv(w.(jobConfig := Some(config), owns := true), tries);
    case StopForEval(stops) =>
      StopKeepsInv(w, stops);
  }

  lemma StopKeepsInv(w: World, stops: bool)
    requires Inv(w)
    ensures Inv(StoppedForEval(w, stops).0)
  {
    hide AllAccounted;
    LostStayAccounted(w, StoppedForEval(w, stops).0, JobOptions(w));
  }

  lemma StepKeepsInv(w: World, a: Action)
    requires Inv(w)
    ensures Inv(Step(w, a)) && Step(w, a).userBuild == w.userBuild
  {
    hide Called, Started, AllAccounted;
    match a
    case Job(call) => CallKeepsInv(w, call);
    case UserStart => StartedKeepsInv(w, UserOptions(w));
    case LostExits(o) => LostStayAccounted(w, Step(w, a), o);
    case _ => LostStayAccounted(w, Step(w, a), JobOptions(w));
  }

  lemma {:induction false} RunKeepsInv(w: World, acts: seq<Action>)
    requires Inv(w)
    ensures Inv(Run(w, acts)) && Run(w, acts).userBuild == w.userBuild
    decreases |acts|
  {
    if acts != [] {
      StepKeepsInv(w, acts[0]);
      hide Step, Inv;
      RunKeepsInv(Step(w, acts[0]), acts[1..]);
    }
  }

  // Until its cleanup, every router that runs under a job's options is owned
  // by the job, also after restarts that failed or were cancelled, whatever
  // the user does meanwhile; any other runs as the user would start it.
  lemma JobRouterIsOwned(w: World, acts: seq<Action>)
    requires Fresh(w)
    ensures var w' := Run(w, acts);
      forall o | AliveUnder(w', o) :: if o.job then w'.owns else o == Options(w.userBuild, None, false)
  {
    RunKeepsInv(w, acts);
  }

  // ----- what the job asked for -----

  // The build the job's calls chose last, and the config they applied last.
  ghost function LastBuild(acts: seq<Action>): Option<Build> {
    if acts == [] then None
    else
      var a, before := acts[|acts| - 1], LastBuild(acts[..|acts| - 1]);
      if a.Job? && a.call.EnsureBuild? && a.call.usable && a.call.build != "" then Some(a.call.build) else before
  }

  ghost function LastConfig(acts: seq<Action>): Option<Config> {
    if acts == [] then None
    else
      var a, before := acts[|acts| - 1], LastConfig(acts[..|acts| - 1]);
      if a.Job? && a.call.ApplyConfig? && a.call.usable then Some(a.call.config) else before
  }

  // The job's choices are the last ones made, and while it has no config of its
  // own no router runs under one.
  ghost predicate Intends(w: World, acts: seq<Action>) {
    && w.jobBuild == (match LastBuild(acts) case Some(build) => build case None => "")
    && w.jobConfig == LastConfig(acts)
    && PlainConfig(w)
  }

  lemma {:induction false} RunIntends(w: World, acts: seq<Action>)
    requires Fresh(w)
    ensures Intends(Run(w, acts), acts)
    decreases |acts|
  {
    if acts != [] {
      var n := |acts| - 1;
      var before := Run(w, acts[..n]);
      RunIntends(w, acts[..n]);
      assert acts == acts[..n] + [acts[n]];
      RunConcat(w, acts[..n], [acts[n]]);
      assert Run(before, [acts[n]]) == Step(before, acts[n]) by {
        assert [acts[n]][1..] == [];
      }
      hide Run, Fresh;
      StepIntends(before, acts, n);
    }
  }

  lemma StepIntends(w: World, acts: seq<Action>, n: nat)
    requires |acts| == n + 1 && Intends(w, acts[..n])
    ensures Intends(Step(w, acts[n]), acts)
  {
    hide Called, LastBuild, LastConfig, PlainConfig;
    LastOnes(acts, n);
    if acts[n].Job? {
      CallIntends(w, acts[n].call);
    } else {
      PlainMeanwhile(w, acts[n]);
    }
  }

  lemma LastOnes(acts: seq<Action>, n: nat)
    requires |acts| == n + 1
    ensures LastBuild(acts) ==
      if acts[n].Job? && acts[n].call.EnsureBuild? && acts[n].call.usable && acts[n].call.build != ""
      then Some(acts[n].call.build) else LastBuild(acts[..n])
    ensures LastConfig(acts) ==
      if acts[n].Job? && acts[n].call.ApplyConfig? && acts[n].call.usable
      then Some(acts[n].call.config) else LastConfig(acts[..n])
  {}

  lemma PlainMeanwhile(w: World, a: Action)
    requires PlainConfig(w) && !a.Job?
    ensures PlainConfig(Step(w, a))
  {}

  // No router runs under a config unless the job has one.
  predicate PlainConfig(w: World) {
    w.jobConfig.None? && w.proc.Alive() ==> w.proc.o.config == None
  }

  lemma RestartIntends(w: World, tries: Tries)
    requires PlainConfig(w)
    ensures var w' := Restart(w, tries).0;
      w'.jobBuild == w.jobBuild && w'.jobConfig == w.jobConfig && PlainConfig(w')
  {}

  lemma CallIntends(w: World, call: Call)
    requires PlainConfig(w)
    ensures var w' := Called(w, call).0;
      && w'.jobBuild == (if call.EnsureBuild? && call.usable && call.build != "" then call.build else w.jobBuild)
      && w'.jobConfig == (if call.ApplyConfig? && call.usable then Some(call.config) else w.jobConfig)
      && PlainConfig(w')
  {
    hide Restart;
    match call
    case EnsureBuild(build, usable, newModels, configFollows, tries) =>
      RestartIntends(w.(jobBuild := build, owns := true), tries);
    case ApplyConfig(config, usable, tries) =>
      RestartIntends(w.(jobConfig := Some(config), owns := true), tries);
    case StopForEval(stops) =>
  }

  lemma {:induction false} RunConcat(w: World, a: seq<Action>, b: seq<Action>)
    ensures Run(w, a + b) == Run(Run(w, a), b)
    decreases |a|
  {
    if a == [] {
      assert a + b == b;
    } else {
      assert (a + b)[1..] == a[1..] + b;
      RunConcat(Step(w, a[0]), a[1..], b);
    }
  }

  // A config that was applied without an error is the one the router runs
  // under, on the build the job chose last, or on the user's if it chose none.
  lemma AppliedConfigRuns(w: World, acts: seq<Action>, config: Config, usable: bool, tries: Tries)
    requires Fresh(w)
    ensures var (after, result) := Called(Run(w, acts), ApplyConfig(config, usable, tries));
      var build := match LastBuild(acts) case Some(build) => build case None => w.userBuild;
      result.Ok? ==>
        && after.proc == Up(Options(build, Some(config), true)) && after.owns
        && after.starts == Run(w, acts).starts + 1
        && after.stops == Run(w, acts).stops + if Run(w, acts).proc.Up? then 1 else 0
  {
    RunKeepsInv(w, acts);
    RunIntends(w, acts);
    LastBuildIsNamed(acts);
    hide Run, LastBuild, LastConfig;
  }

  // A build that was ensured without an error and with no config to follow is
  // the one the router runs, under the config the job applied last, if any.
  lemma EnsuredBuildRuns(w: World, acts: seq<Action>, build: Build, usable: bool, newModels: bool, tries: Tries)
    requires Fresh(w)
    ensures var job := Run(w, acts);
      var (after, result) := Called(job, EnsureBuild(build, usable, newModels, false, tries));
      result.Ok? ==>
        && after.proc.Up? && after.proc.o.build == build && after.proc.o.config == LastConfig(acts)
        && (!after.proc.o.job ==> after.proc == job.proc)
  {
    RunIntends(w, acts);
    hide Run, LastBuild, LastConfig, Called;
    EnsuredRuns(Run(w, acts), build, usable, newModels, tries);
  }

  lemma EnsuredRuns(job: World, build: Build, usable: bool, newModels: bool, tries: Tries)
    requires PlainConfig(job)
    ensures var (after, result) := Called(job, EnsureBuild(build, usable, newModels, false, tries));
      result.Ok? ==>
        && after.proc.Up? && after.proc.o.build == build && after.proc.o.config == job.jobConfig
        && (!after.proc.o.job ==> after.proc == job.proc)
  {}

  lemma {:induction false} LastBuildIsNamed(acts: seq<Action>)
    ensures LastBuild(acts) != Some("")
    decreases |acts|
  {
    if acts != [] {
      LastBuildIsNamed(acts[..|acts| - 1]);
    }
  }

  // ----- cleanup -----

  lemma OneMoreLost(lost: multiset<Options>, o: Options)
    ensures LostForJob(lost + multiset{o}) <==> LostForJob(lost) || o.job
  {
    if LostForJob(lost) {
      var x :| x in lost && x.job;
      assert x in lost + multiset{o};
    } else if o.job {
      assert o in lost + multiset{o};
    }
  }

  // Cleanup that reports success leaves every router that lives under the
  // user's build and config, exactly unless one started for the job was alive
  // without counting as running: on its way up, hung, or lost. Whatever it
  // reports, a router of the job outlives it exactly when there was such a one
  // or the running one did not stop.
  lemma CleanupGivesBack(w: World, acts: seq<Action>, tries: Tries)
    requires Fresh(w)
    ensures var job := Run(w, acts);
      var (after, result) := Cleared(job, tries);
      && !after.owns && !after.stoppedForEval && after.jobBuild == "" && after.jobConfig.None?
      && (forall o | AliveUnder(after, o) :: o.job || o == Options(w.userBuild, None, false))
      && (AliveForJob(after) <==> UnseenForJob(job) || (AliveForJob(job) && !tries.stops))
      && (result.Ok? ==> (AliveForJob(after) <==> UnseenForJob(job)))
  {
    RunKeepsInv(w, acts);
    hide *;
    ClearedAlive(Run(w, acts), tries);
    ClearedAccounted(Run(w, acts), tries);
    Released(Run(w, acts), tries);
  }

  lemma Released(job: World, tries: Tries)
    ensures var after := Cleared(job, tries).0;
      !after.owns && !after.stoppedForEval && after.jobBuild == "" && after.jobConfig.None?
  {}

  lemma ClearedAlive(job: World, tries: Tries)
    requires Inv(job)
    ensures var (after, result) := Cleared(job, tries);
      && (AliveForJob(after) <==> UnseenForJob(job) || (AliveForJob(job) && !tries.stops))
      && (result.Ok? ==> (AliveForJob(after) <==> UnseenForJob(job)))
  {
    hide LostForJob;
    if job.proc.Hung? {
      OneMoreLost(job.lost, job.proc.o);
    }
    if !job.owns {
      NoneLostForJob(job);
    }
  }

  lemma NoneLostForJob(job: World)
    requires Inv(job) && !job.owns
    ensures !LostForJob(job.lost)
  {}

  lemma ClearedAccounted(job: World, tries: Tries)
    requires Inv(job)
    ensures var after := Cleared(job, tries).0;
      forall o | AliveUnder(after, o) :: o.job || o == UserOptions(after)
  {}

  // One on its way up then serves under the job's options with no job to own
  // it, and the user's own start cannot replace it.
  lemma LeakedRouterServes(w: World, tries: Tries)
    requires w.owns && !w.stoppedForEval && w.proc.Starting? && w.proc.o.job
    ensures var (after, result) := Cleared(w, tries);
      var later := Step(Step(after, HealthPasses), UserStart);
      result.Ok? && Step(after, UserStart) == after && later.proc == Up(w.proc.o) && !later.owns
  {}

  // It takes one cell whose wait is cancelled.
  lemma CancelledWaitLeaks(w: World, build: Build, tries: Tries)
    requires Fresh(w) && w.proc.Up? && build != "" && build != w.userBuild
    requires tries.stops && tries.starts && tries.wait == Cancelled
    ensures var job := Step(w, Job(EnsureBuild(build, true, false, false, tries)));
      job.owns && !job.stoppedForEval && job.proc == Starting(Options(build, None, true))
  {}

  // One that hangs lives on beside the user's next router, which the
  // supervisor starts over it, until it exits by itself.
  lemma HungRouterIsLost(w: World, build: Build, tries: Tries, restore: Tries)
    requires Fresh(w) && w.proc.Up? && build != "" && build != w.userBuild
    requires tries.stops && tries.starts && (tries.wait == Hangs || tries.wait == Cancelled)
    ensures var job := Step(Step(w, Job(EnsureBuild(build, true, false, false, tries))), HealthFails);
      var (after, result) := Cleared(job, restore);
      var users := Step(Step(after, UserStart), HealthPasses);
      var stopped := Step(users, UserStop);
      && result.Ok? && users.proc == Up(UserOptions(users))
      && stopped.proc.Down? && stopped.stops == users.stops + 1
      && stopped.lost == w.lost + multiset{Options(build, None, true)}
      && Step(stopped, LostExits(Options(build, None, true))).lost == w.lost
  {
    var mine := Options(build, None, true);
    var job := Step(Step(w, Job(EnsureBuild(build, true, false, false, tries))), HealthFails);
    assert job == w.(proc := Hung(mine), jobBuild := build, owns := true, starts := job.starts, stops := job.stops);
    HungIsLost(job, restore, mine);
  }

  lemma HungIsLost(job: World, restore: Tries, mine: Options)
    requires job.owns && !job.stoppedForEval && job.proc == Hung(mine)
    ensures var (after, result) := Cleared(job, restore);
      var users := Step(Step(after, UserStart), HealthPasses);
      var stopped := Step(users, UserStop);
      && result.Ok? && users.proc == Up(UserOptions(users))
      && stopped.proc.Down? && stopped.stops == users.stops + 1
      && stopped.lost == job.lost + multiset{mine}
      && Step(stopped, LostExits(mine)).lost == job.lost
  {
    assert job.lost + multiset{mine} - multiset{mine} == job.lost;
  }

  // One that exits stays as it is: cleanup starts it again only after a stop
  // for an evaluation.
  lemma ExitedRouterIsLeft(w: World, build: Build, tries: Tries, restore: Tries)
    requires Fresh(w) && w.proc.Up? && build != "" && build != w.userBuild
    requires tries.stops && tries.starts && tries.wait == Ready
    ensures var job := Step(Step(w, Job(EnsureBuild(build, true, false, false, tries))), Exits);
      job.proc.Broken? && Cleared(job, restore) == (job.(jobBuild := "", owns := false), Ok(()))
  {}

  // A router the job stopped for an evaluation goes back up as the user's,
  // whenever it stops and starts as asked. One that is down at the job's end,
  // whoever stopped it last, stays down exactly unless the job had stopped it
  // for an evaluation, or the start fails; one that is not up otherwise is
  // left as it is.
  lemma CleanupRestores(w: World, acts: seq<Action>, tries: Tries)
    requires Fresh(w)
    ensures var job := Run(w, acts);
      var (after, result) := Cleared(job, tries);
      && (job.stoppedForEval && !job.proc.Starting? && tries == Tries(true, true, Ready) ==>
        result.Ok? && after.proc == Up(Options(w.userBuild, None, false)))
      && (job.proc.Down? ==> (after.proc.Down? <==> !job.stoppedForEval || !tries.starts))
      && (!job.stoppedForEval && !job.proc.Up? ==> result.Ok? && after.proc == job.proc && after.starts == job.starts)
  {
    RunKeepsInv(w, acts);
  }

  // So a user who stops the router in a later cell finds it started again.
  lemma UserStopIsUndone(w: World, build: Build)
    requires Fresh(w) && w.proc.Up? && build != ""
    ensures var good := Tries(true, true, Ready);
      var evaluated := Step(w, Job(StopForEval(true)));
      var benched := Step(evaluated, Job(EnsureBuild(build, true, false, false, good)));
      var stopped := Step(benched, UserStop);
      var (after, result) := Cleared(stopped, good);
      && benched.proc == Up(Options(build, None, true)) && stopped.proc.Down?
      && result.Ok? && after.proc == Up(UserOptions(after))
  {}

  // ----- jobs that need no restart -----

  // What the user and the processes do, without the job.
  function Others(acts: seq<Action>): seq<Action> {
    if acts == [] then []
    else if acts[0].Job? then Others(acts[1..])
    else [acts[0]] + Others(acts[1..])
  }

  // A cell takes the router over exactly when the router does not serve its
  // build as the user would have it, and no config is to follow.
  lemma CellTakesRouter(w: World, build: Build, newModels: bool, configFollows: bool, tries: Tries)
    requires build != ""
    ensures Called(w, EnsureBuild(build, true, newModels, configFollows, tries)).0.owns <==>
      || w.owns
      || !(configFollows || (w.proc.Up? && w.proc.o.build == build && w.jobConfig.None? && !newModels))
  {}

  lemma {:induction false} OnceTakenStaysTaken(w: World, acts: seq<Action>)
    requires w.owns
    ensures Run(w, acts).owns
    decreases |acts|
  {
    if acts != [] {
      OnceTakenStaysTaken(Step(w, acts[0]), acts[1..]);
    }
  }

  lemma StepIsInvisible(w: World, a: Action)
    requires !w.owns && w.jobConfig.None? && !w.stoppedForEval && !Step(w, a).owns
    ensures Step(w, a).jobConfig.None? && !Step(w, a).stoppedForEval
    ensures Step(w, a).(jobBuild := "") == if a.Job? then w.(jobBuild := "") else Step(w.(jobBuild := ""), a)
  {
    if a.Job? {
      RestartOwns(w, a.call);
      hide Restart;
    } else {
      hide Called;
    }
  }

  // A call that restarts the router owns it from then on.
  lemma RestartOwns(w: World, call: Call)
    ensures call.EnsureBuild? ==> Restart(w.(jobBuild := call.build, owns := true), call.tries).0.owns
    ensures call.ApplyConfig? ==> Restart(w.(jobConfig := Some(call.config), owns := true), call.tries).0.owns
  {}

  lemma {:induction false} JobIsInvisible(w: World, acts: seq<Action>)
    requires !w.owns && w.jobConfig.None? && !w.stoppedForEval && !Run(w, acts).owns
    ensures Run(w.(jobBuild := ""), Others(acts)) == Run(w, acts).(jobBuild := "")
    ensures Run(w, acts).jobConfig.None? && !Run(w, acts).stoppedForEval
    decreases |acts|
  {
    hide Step;
    if acts != [] {
      var next := Step(w, acts[0]);
      if next.owns {
        OnceTakenStaysTaken(next, acts[1..]);
      }
      StepIsInvisible(w, acts[0]);
      JobIsInvisible(next, acts[1..]);
      if !acts[0].Job? {
        assert Others(acts)[1..] == Others(acts[1..]);
      }
    }
  }

  // A job that never takes the router over has not been there: with cleanup
  // everything is as what the user and the processes did all along, and their
  // starts and stops, would have left it.
  lemma NothingToRestore(w: World, acts: seq<Action>, tries: Tries)
    requires Fresh(w) && !Run(w, acts).owns
    ensures Cleared(Run(w, acts), tries) == (Run(w, Others(acts)), Ok(()))
  {
    JobIsInvisible(w, acts);
    assert w.(jobBuild := "") == w;
  }

  // A cell that does restart the router owns it from then on.
  lemma RestartMeansOwned(w: World, call: Call)
    ensures var w' := Called(w, call).0; w'.starts + w'.stops > w.starts + w.stops ==> w'.owns
  {}

  // ----- evaluations -----

  // After StopRouterForEval succeeds no router process lives, exactly unless
  // one did without counting as running, or the router is up although the job
  // has recorded a stop for an evaluation before.
  lemma StoppedForEvalMeansStopped(w: World, stops: bool)
    ensures var (after, result) := StoppedForEval(w, stops);
      && (result.Ok? ==> (NoneAlive(after) <==> !Unseen(w) && !(w.stoppedForEval && w.proc.Up?)))
      && after.starts == w.starts
      && after.stops == w.stops + if w.proc.Up? && !w.stoppedForEval && stops then 1 else 0
  {}

  // A router the user has just started comes up during the evaluation.
  lemma EvalMeetsUsersStart(w: World, stops: bool)
    requires Fresh(w) && w.proc.Down?
    ensures var (after, result) := Called(Step(w, UserStart), StopForEval(stops));
      result.Ok? && !after.stoppedForEval && Step(after, HealthPasses).proc == Up(UserOptions(w))
  {}

  // So does the job's own, when the wait for it was given up.
  lemma EvalMeetsJobsStart(w: World, build: Build, stops: bool)
    requires Fresh(w) && w.proc.Up? && build != "" && build != w.userBuild
    ensures var benched := Called(w, EnsureBuild(build, true, false, false, Tries(true, true, Cancelled))).0;
      var (after, result) := Called(benched, StopForEval(stops));
      result.Ok? && Step(after, HealthPasses).proc == Up(Options(build, None, true))
  {}

  // A job that runs an evaluation, a benchmark on another build, and an
  // evaluation again finds the router up.
  lemma SecondEvalFindsRouterUp(w: World, build: Build, stops: bool)
    requires Fresh(w) && w.proc.Up? && build != "" && build != w.userBuild
    ensures var evaluated := Called(w, StopForEval(true)).0;
      var benched := Called(evaluated, EnsureBuild(build, true, false, false, Tries(true, true, Ready))).0;
      var (again, result) := Called(benched, StopForEval(stops));
      result.Ok? && again.proc == Up(Options(build, None, true))
  {}

  // A stop that failed counts as made: tried again, it succeeds at once.
  lemma FailedStopCountsAsMade(w: World, stops: bool)
    requires Fresh(w) && w.proc.Up?
    ensures var (failed, first) := Called(w, StopForEval(false));
      var (after, second) := Called(failed, StopForEval(stops));
      first == Err(StopFailed) && second.Ok? && after.proc == w.proc
  {}

  class Env {
    var proc: Proc
    var jobBuildId: Build
    var jobConfigs: Option<Config>
    var ownsRouter: bool
    var stoppedForEval: bool
    const userBuild: Build
    ghost var lost: multiset<Options>
    ghost var starts: nat
    ghost var stops: nat

    constructor (proc: Proc, userBuild: Build)
      ensures State() == World(proc, multiset{}, "", None, false, false, 0, 0, userBuild)
    {
      this.proc, this.userBuild := proc, userBuild;
      jobBuildId, jobConfigs, ownsRouter, stoppedForEval := "", None, false, false;
      lost, starts, stops := multiset{}, 0, 0;
    }

    ghost function State(): World
      reads this
    {
      World(proc, lost, jobBuildId, jobConfigs, ownsRouter, stoppedForEval, starts, stops, userBuild)
    }

    method Stop(ok: bool) returns (r: Result<(), Error>)
      modifies this`proc, this`stops
      ensures r == if ok then Ok(()) else Err(StopFailed)
      ensures State() == if ok then old(State()).(proc := Down, stops := old(stops) + 1) else old(State())
    {
      if !ok {
        return Err(StopFailed);
      }
      proc, stops := Down, stops + 1;
      return Ok(());
    }

    method Start(o: Options, ok: bool) returns (r: Result<(), Error>)
      modifies this`proc, this`lost, this`starts
      ensures r == if ok && !old(proc).Starting? && !old(proc).Up? then Ok(()) else Err(StartFailed)
      ensures State() == if r.Ok? then Started(old(State()), o) else old(State())
    {
      if proc.Starting? || proc.Up? || !ok {
        return Err(StartFailed);
      }
      if proc.Hung? {
        lost := lost + multiset{proc.o};
      }
      proc, starts := Starting(o), starts + 1;
      return Ok(());
    }

    method WaitRunning(wait: Wait) returns (r: Result<(), Error>)
      requires proc.Starting?
      modifies this`proc
      ensures r == if wait.Ready? then Ok(()) else Err(NotReady)
      ensures proc == Waited(old(proc).o, wait)
    {
      match wait {
        case Ready => proc := Up(proc.o);
        case Dies => proc := Broken;
        case Hangs => proc := Hung(proc.o);
        case Cancelled => {}
      }
      return if wait.Ready? then Ok(()) else Err(NotReady);
    }

    method RestartRouter(tries: Tries) returns (r: Result<(), Error>)
      modifies this`proc, this`lost, this`starts, this`stops
      ensures (State(), r) == Restart(old(State()), tries)
    {
      if proc.Up? {
        r := Stop(tries.stops);
        if r.Err? {
          return;
        }
      }
      var build := if jobBuildId == "" then userBuild else jobBuildId;
      r := Start(Options(build, jobConfigs, ownsRouter), tries.starts);
      if r.Err? {
        return;
      }
      r := WaitRunning(tries.wait);
    }

    method EnsureBuildActive(build: Build, usable: bool, newModels: bool, configFollows: bool, tries: Tries)
        returns (r: Result<(), Error>)
      modifies this
      ensures (State(), r) == Ensured(old(State()), build, usable, newModels, configFollows, tries)
    {
      if build == "" || !usable {
        return Err(NotUsable);
      }
      jobBuildId := build;
      var hasConfigs := jobConfigs.Some?;
      if proc.Up? && proc.o.build == build && !hasConfigs && !newModels {
        return Ok(());
      }
      if configFollows {
        return Ok(());
      }
      ownsRouter := true;
      r := RestartRouter(tries);
    }

    method ApplyEphemeralConfig(config: Config, usable: bool, tries: Tries) returns (r: Result<(), Error>)
      modifies this
      ensures (State(), r) == Applied(old(State()), config, usable, tries)
    {
      if !usable {
        return Err(NotUsable);
      }
      jobConfigs, ownsRouter := Some(config), true;
      r := RestartRouter(tries);
    }

    method StopRouterForEval(ok: bool) returns (r: Result<(), Error>)
      modifies this
      ensures (State(), r) == StoppedForEval(old(State()), ok)
    {
      if stoppedForEval {
        return Ok(());
      }
      var wasRunning := proc.Up?;
      if wasRunning {
        stoppedForEval, ownsRouter := true, true;
      }
      if !wasRunning {
        return Ok(());
      }
      r := Stop(ok);
    }

    method ClearEphemeralConfig(tries: Tries) returns (r: Result<(), Error>)
      modifies this
      ensures (State(), r) == Cleared(old(State()), tries)
    {
      var owned, forEval := ownsRouter, stoppedForEval;
      jobBuildId, jobConfigs, ownsRouter, stoppedForEval := "", None, false, false;
      if !owned && !forEval {
        return Ok(());
      }
      if !proc.Up? && !forEval {
        return Ok(());
      }
      r := RestartRouter(tries);
      ownsRouter := false;
    }
  }
}
