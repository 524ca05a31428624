// Max Loaded while any number of loads run at once: each loadLLMWithRoom as
// the steps it takes with and without the load mutex, interleaved at will.
module LoadRace {
  import opened Common

  type Model = string
  type Load = nat

  datatype Phase =
    | Outside             // not in loadLLMWithRoom
    | Counting            // holds the mutex; the count has yet to come out below the limit
    | Cleared             // holds the mutex; the last count was below the limit
    | Waiting             // let the mutex go while makeRoomForLLM waits for a job
    | Sending(m: Model)   // holds the mutex; the router accepted m and has yet to list it

  // What the router has is listed (loaded or loading) and pending (accepted
  // and not yet listed). A load in no phase is outside.
  datatype World = World(max: nat, mutex: Option<Load>, phase: map<Load, Phase>, listed: set<Model>,
    pending: set<Model>)
  {
    function Of(p: Load): Phase {
      if p in phase then phase[p] else Outside
    }

    predicate Holds(p: Load, at: Phase) {
      mutex == Some(p) && Of(p) == at
    }
  }

  datatype Action =
    | Lock(p: Load)                       // enter, or come back from makeRoomForLLM
    | Count(p: Load, answered: bool)      // loadedLLMCount; 0 when the router does not answer
    | Unload(p: Load, m: Model)           // an idle model is unloaded for p
    | LetGo(p: Load)                      // unlock around makeRoomForLLM
    | Send(p: Load, m: Model, accepted: bool)
    | See(p: Load)                        // p sees its model listed, and is done
    | GiveUp(p: Load)                     // any error: the deferred unlock
    | List(m: Model)                      // the router lists what it accepted
    | Drop(m: Model)                      // the router lets go of a model by itself

  function Move(w: World, p: Load, phase: Phase, mutex: Option<Load>): World {
    w.(phase := w.phase[p := phase], mutex := mutex)
  }

  // A step that is not enabled changes nothing.
  function Step(w: World, a: Action): World {
    match a
    case Lock(p) =>
      if w.mutex.Some? || !(w.Of(p).Outside? || w.Of(p).Waiting?) then w else Move(w, p, Counting, Some(p))
    case Count(p, answered) =>
      if !w.Holds(p, Counting) || (if answered then |w.listed| else 0) >= w.max then w else Move(w, p, Cleared, Some(p))
    case Unload(p, m) =>
      if !(w.Holds(p, Counting) || w.Holds(p, Cleared)) then w else w.(listed := w.listed - {m})
    case LetGo(p) =>
      if !w.Holds(p, Cleared) then w else Move(w, p, Waiting, None)
    case Send(p, m, accepted) =>
      if !w.Holds(p, Cleared) then w
      else if !accepted then Move(w, p, Outside, None)
      else Move(w, p, Sending(m), Some(p)).(pending := if m in w.listed then w.pending else w.pending + {m})
    case See(p) =>
      if !w.Of(p).Sending? || w.Of(p).m !in w.listed || w.mutex != Some(p) then w else Move(w, p, Outside, None)
    case GiveUp(p) =>
      if w.Of(p).Waiting? then Move(w, p, Outside, w.mutex)
      else if w.mutex != Some(p) then w else Move(w, p, Outside, None)
    case List(m) =>
      if m !in w.pending then w else w.(pending := w.pending - {m}, listed := w.listed + {m})
    case Drop(m) =>
      w.(pending := w.pending - {m}, listed := w.listed - {m})
  }

  function Run(w: World, acts: seq<Action>): World
    decreases |acts|
  {
    if acts == [] then w else Run(Step(w, acts[0]), acts[1..])
  }

  // What Max Loaded limits: the models loaded or loading.
  function InRouter(w: World): set<Model> {
    w.listed + w.pending
  }

  // A count at the limit is answered, and no load is given up between being
  // accepted and being listed.
  predicate Sound(w: World, a: Action) {
    && (a.Count? && w.Holds(a.p, Counting) ==> a.answered || |w.listed| < w.max)
    && (a.GiveUp? && w.mutex == Some(a.p) && w.Of(a.p).Sending? ==> w.Of(a.p).m !in w.pending)
  }

  predicate SoundRun(w: World, acts: seq<Action>)
    decreases |acts|
  {
    acts == [] || (Sound(w, acts[0]) && SoundRun(Step(w, acts[0]), acts[1..]))
  }

  predicate Inside(at: Phase) {
    at.Counting? || at.Cleared? || at.Sending?
  }

  // The mutex is held by the one load between its lock and its unlock.
  predicate MutexInv(w: World) {
    && (forall p <- w.phase | Inside(w.phase[p]) :: w.mutex == Some(p))
    && (w.mutex.Some? ==> Inside(w.Of(w.mutex.value)))
  }

  // A load that was cleared finds room, and only the load that holds the mutex
  // has a model pending.
  predicate RoomInv(w: World) {
    && (w.mutex.Some? && w.Of(w.mutex.value).Cleared? ==> |w.listed| < w.max)
    && (w.pending != {} ==> w.mutex.Some? && w.Of(w.mutex.value).Sending? && w.pending == {w.Of(w.mutex.value).m})
    && w.pending !! w.listed
    && |InRouter(w)| <= w.max && w.max > 0
  }

  predicate Inv(w: World) {
    MutexInv(w) && RoomInv(w)
  }

  // No load has begun. With no limit set (0) there is nothing to keep.
  predicate Fresh(w: World) {
    w.max > 0 && w.mutex == None && w.phase == map[] && w.pending == {} && |w.listed| <= w.max
  }

  lemma FewerModels(a: set<Model>, b: set<Model>)
    requires a <= b
    ensures |a| <= |b|
  {
    assert b == a + (b - a);
    assert |b| == |a| + |b - a|;
  }

  lemma StepKeepsMutex(w: World, a: Action)
    requires MutexInv(w)
    ensures MutexInv(Step(w, a))
  {}

  // The phase of the load that holds the mutex.
  function Holder(w: World): Phase {
    if w.mutex.Some? then w.Of(w.mutex.value) else Outside
  }

  // Fewer models, with nobody cleared anew and no model left adrift.
  lemma RoomFrame(w: World, w': World)
    requires RoomInv(w) && w'.max == w.max
    requires w'.listed <= w.listed && (w'.pending == {} || (w'.pending == w.pending && Holder(w') == Holder(w)))
    requires Holder(w').Cleared? ==> Holder(w).Cleared?
    ensures RoomInv(w')
  {
    FewerModels(InRouter(w'), InRouter(w));
    FewerModels(w'.listed, w.listed);
    hide InRouter;
  }

  // Steps that change neither the models nor clear a load.
  lemma QuietStep(w: World, a: Action)
    requires Inv(w) && Sound(w, a) && (a.Lock? || a.LetGo? || a.See? || a.GiveUp?)
    ensures RoomInv(Step(w, a))
  {
    hide InRouter;
    match a {
      case Lock(_) => RoomFrame(w, Step(w, a));
      case LetGo(_) => RoomFrame(w, Step(w, a));
      case See(_) => RoomFrame(w, Step(w, a));
      case GiveUp(_) => RoomFrame(w, Step(w, a));
    }
  }

  lemma CountStep(w: World, p: Load, answered: bool)
    requires Inv(w) && Sound(w, Count(p, answered))
    ensures RoomInv(Step(w, Count(p, answered)))
  {
    assert InRouter(Step(w, Count(p, answered))) == InRouter(w);
    hide InRouter;
  }

  lemma GoneStep(w: World, a: Action)
    requires Inv(w) && (a.Unload? || a.Drop?)
    ensures RoomInv(Step(w, a))
  {
    hide InRouter;
    var w' := Step(w, a);
    assert w'.pending == {} || w'.pending == w.pending;
    RoomFrame(w, w');
  }

  lemma ListStep(w: World, m: Model)
    requires Inv(w)
    ensures RoomInv(Step(w, List(m)))
  {
    var w' := Step(w, List(m));
    assert InRouter(w') == InRouter(w);
    hide InRouter;
  }

  lemma SendStep(w: World, p: Load, m: Model, accepted: bool)
    requires Inv(w)
    ensures RoomInv(Step(w, Send(p, m, accepted)))
  {
    var w' := Step(w, Send(p, m, accepted));
    if w.Holds(p, Cleared) {
      assert w.pending == {};
      assert InRouter(w) == w.listed;
      assert InRouter(w') == if accepted then w.listed + {m} else w.listed;
      hide InRouter;
    }
  }

  lemma StepKeepsInv(w: World, a: Action)
    requires Inv(w) && Sound(w, a)
    ensures Inv(Step(w, a))
  {
    StepKeepsMutex(w, a);
    hide Step, MutexInv, RoomInv;
    match a
    case Unload(_, _) => GoneStep(w, a);
    case Drop(_) => GoneStep(w, a);
    case List(m) => ListStep(w, m);
    case Send(p, m, accepted) => SendStep(w, p, m, accepted);
    case Count(p, answered) => CountStep(w, p, answered);
    case Lock(_) => QuietStep(w, a);
    case LetGo(_) => QuietStep(w, a);
    case See(_) => QuietStep(w, a);
    case GiveUp(_) => QuietStep(w, a);
  }

  lemma {:induction false} RunKeepsInv(w: World, acts: seq<Action>)
    requires Inv(w) && SoundRun(w, acts)
    ensures Inv(Run(w, acts))
    decreases |acts|
  {
    if acts != [] {
      StepKeepsInv(w, acts[0]);
      hide Inv, Step;
      RunKeepsInv(Step(w, acts[0]), acts[1..]);
    }
  }

  // However many loads run at once, and although each lets the mutex go while
  // it waits for generation jobs, the router never has more models than Max
  // Loaded, and at most one load is between its check and its listing.
  lemma MaxLoadedHolds(w: World, acts: seq<Action>)
    requires Fresh(w) && SoundRun(w, acts)
    ensures |InRouter(Run(w, acts))| <= w.max && |Run(w, acts).pending| <= 1
  {
    RunKeepsInv(w, acts);
    RunKeepsMax(w, acts);
  }

  lemma {:induction false} RunKeepsMax(w: World, acts: seq<Action>)
    ensures Run(w, acts).max == w.max
    decreases |acts|
  {
    if acts != [] {
      RunKeepsMax(Step(w, acts[0]), acts[1..]);
    }
  }

  lemma {:induction false} RunOne(w: World, a: Action, rest: seq<Action>)
    ensures Run(w, [a] + rest) == Run(Step(w, a), rest)
  {
    assert ([a] + rest)[0] == a && ([a] + rest)[1..] == rest;
  }

  lemma SoundOne(w: World, a: Action, rest: seq<Action>)
    ensures SoundRun(w, [a] + rest) <==> Sound(w, a) && SoundRun(Step(w, a), rest)
  {
    assert ([a] + rest)[0] == a && ([a] + rest)[1..] == rest;
  }

  // A load that finds the mutex free goes in, counts and sends n.
  function Enter(p: Load, n: Model): seq<Action> {
    [Lock(p), Count(p, true), Send(p, n, true)]
  }

  lemma Enters(w: World, p: Load, n: Model)
    requires w.mutex == None && w.Of(p).Outside? && |w.listed| < w.max
    ensures SoundRun(w, Enter(p, n))
    ensures var w' := Run(w, Enter(p, n));
      w' == w.(mutex := Some(p), phase := w.phase[p := Sending(n)],
               pending := if n in w.listed then w.pending else w.pending + {n})
  {
    var w1 := Step(w, Lock(p));
    var w2 := Step(w1, Count(p, true));
    var w3 := Step(w2, Send(p, n, true));
    RunOne(w, Lock(p), [Count(p, true), Send(p, n, true)]);
    RunOne(w1, Count(p, true), [Send(p, n, true)]);
    RunOne(w2, Send(p, n, true), []);
    SoundOne(w, Lock(p), [Count(p, true), Send(p, n, true)]);
    SoundOne(w1, Count(p, true), [Send(p, n, true)]);
    SoundOne(w2, Send(p, n, true), []);
    assert w.phase[p := Counting][p := Cleared][p := Sending(n)] == w.phase[p := Sending(n)];
    hide Run;
  }

  // ----- what goes past the limit -----

  // A name longer than any in use.
  lemma {:induction false} FreshName(used: set<Model>) returns (m: Model)
    ensures m !in used && forall u <- used :: |u| < |m|
    decreases |used|
  {
    if used == {} {
      m := "m";
    } else {
      var u :| u in used;
      var rest := FreshName(used - {u});
      m := if |u| < |rest| then rest else u + "m";
      assert forall x <- used :: x == u || x in used - {u};
    }
  }

  lemma {:induction false} FreshLoad(used: set<Load>) returns (p: Load)
    ensures forall u <- used :: u < p
    decreases |used|
  {
    if used == {} {
      p := 0;
    } else {
      var u :| u in used;
      var rest := FreshLoad(used - {u});
      p := if u < rest then rest else u + 1;
      assert forall x <- used :: x == u || x in used - {u};
    }
  }

  // An unlisted model that no load waits for.
  predicate Adrift(w: World, m: Model) {
    w.mutex == None && w.pending == {m} && m !in w.listed && |w.listed| < w.max
  }

  // One load more, all the way to its listing.
  function Through(p: Load, n: Model): seq<Action> {
    Enter(p, n) + [List(n), See(p)]
  }

  lemma {:induction false} RunConcat(w: World, a: seq<Action>, b: seq<Action>)
    ensures Run(w, a + b) == Run(Run(w, a), b)
    ensures SoundRun(w, a + b) <==> SoundRun(w, a) && SoundRun(Run(w, a), b)
    decreases |a|
  {
    if a == [] {
      assert a + b == b;
    } else {
      assert (a + b)[0] == a[0] && (a + b)[1..] == a[1..] + b;
      RunConcat(Step(w, a[0]), a[1..], b);
    }
  }

  lemma GoesThrough(w: World, m: Model, p: Load, n: Model)
    requires Adrift(w, m) && p !in w.phase && n !in w.listed && n != m
    ensures SoundRun(w, Through(p, n))
    ensures var w' := Run(w, Through(p, n));
      w'.max == w.max && w'.mutex == None && w'.pending == {m} && w'.listed == w.listed + {n}
  {
    var w1 := Run(w, Enter(p, n));
    Enters(w, p, n);
    RunConcat(w, Enter(p, n), [List(n), See(p)]);
    RunOne(w1, List(n), [See(p)]);
    RunOne(Step(w1, List(n)), See(p), []);
    SoundOne(w1, List(n), [See(p)]);
    SoundOne(Step(w1, List(n)), See(p), []);
    assert w1.pending - {n} == {m};
  }

  // With a model adrift the router can be filled to the limit beside it.
  lemma {:induction false} FillsUp(w: World, m: Model) returns (acts: seq<Action>)
    requires Adrift(w, m)
    ensures |InRouter(Run(w, acts))| > w.max && SoundRun(w, acts)
    decreases w.max - |w.listed|
  {
    var p := FreshLoad(w.phase.Keys);
    var n := FreshName(w.listed + {m});
    assert p !in w.phase && n !in w.listed && n != m;
    if |w.listed| + 1 == w.max {
      acts := Enter(p, n);
      Enters(w, p, n);
      hide Run;
      assert InRouter(Run(w, acts)) == w.listed + {m} + {n};
    } else {
      GoesThrough(w, m, p, n);
      hide Run;
      var rest := FillsUp(Run(w, Through(p, n)), m);
      acts := Through(p, n) + rest;
      RunConcat(w, Through(p, n), rest);
    }
  }

  // The condition is exact: a step that is not sound can always be gone on
  // from past the limit by sound steps alone.
  lemma UnsoundStepsGoPast(w: World, a: Action) returns (acts: seq<Action>)
    requires Inv(w) && !Sound(w, a)
    ensures |InRouter(Run(Step(w, a), acts))| > w.max && SoundRun(Step(w, a), acts)
  {
    var w1 := Step(w, a);
    if a.Count? {
      acts := OneTooMany(w, a.p);
    } else {
      var m := w.Of(a.p).m;
      assert w.pending == {m};
      assert InRouter(w) == w.listed + {m};
      assert Adrift(w1, m);
      acts := FillsUp(w1, m);
    }
  }

  lemma OneTooMany(w: World, p: Load) returns (acts: seq<Action>)
    requires Inv(w) && w.Holds(p, Counting) && |w.listed| >= w.max
    ensures |InRouter(Run(Step(w, Count(p, false)), acts))| > w.max && SoundRun(Step(w, Count(p, false)), acts)
  {
    var n := FreshName(w.listed);
    var w1 := Step(w, Count(p, false));
    acts := [Send(p, n, true)];
    assert w1 == Move(w, p, Cleared, Some(p));
    NonePending(w, p);
    assert InRouter(w1) == w.listed;
    hide Inv, InRouter;
    SendsNew(w1, p, n);
    hide Step, Sound;
    RunOne(w1, Send(p, n, true), []);
    SoundOne(w1, Send(p, n, true), []);
  }

  lemma NonePending(w: World, p: Load)
    requires Inv(w) && w.Holds(p, Counting)
    ensures w.pending == {}
  {}

  lemma SendsNew(w: World, p: Load, n: Model)
    requires w.Holds(p, Cleared) && n !in w.listed && n !in w.pending
    ensures |InRouter(Step(w, Send(p, n, true)))| == |InRouter(w)| + 1 && Sound(w, Send(p, n, true))
  {
    assert InRouter(Step(w, Send(p, n, true))) == InRouter(w) + {n};
  }

  // At the limit, unloading a model lets the load that counts in; so does a model
  // the router drops by itself.
  lemma UnloadingLetsIn(w: World, p: Load, m: Model, drops: bool)
    requires Inv(w) && w.Holds(p, Counting) && m in w.listed
    ensures var counted := Step(w, Count(p, true));
      var less := Step(w, if drops then Drop(m) else Unload(p, m));
      var again := Step(less, Count(p, true));
      && (|w.listed| == w.max ==> counted == w)
      && less.listed == w.listed - {m} && less.pending == {}
      && again.Holds(p, Cleared) && |again.listed| < w.max
  {
    assert w.pending == {};
    assert InRouter(w) == w.listed;
    assert |w.listed - {m}| == |w.listed| - 1;
  }

  // The limit holds after a step and every sound run that follows.
  ghost predicate StaysBelow(w: World) {
    forall acts | SoundRun(w, acts) :: |InRouter(Run(w, acts))| <= w.max
  }

  // So soundness of a step is exactly what keeps the limit from then on.
  lemma SoundIsExact(w: World, a: Action)
    requires Inv(w)
    ensures Sound(w, a) <==> StaysBelow(Step(w, a))
  {
    var w' := Step(w, a);
    if Sound(w, a) {
      StepKeepsInv(w, a);
      forall acts | SoundRun(w', acts)
        ensures |InRouter(Run(w', acts))| <= w'.max
      {
        RunKeepsInv(w', acts);
        RunKeepsMax(w', acts);
      }
    } else {
      var acts := UnsoundStepsGoPast(w, a);
      assert SoundRun(w', acts) && |InRouter(Run(w', acts))| > w'.max;
    }
  }
}
