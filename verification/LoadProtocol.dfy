// Loading an LLM in toolchest memory mode (loadLLMWithRoom, makeRoomForLLM):
// the load mutex and the hold on the GPUs' job queues on every path, and what
// is true of the cards when the load is sent.
module LoadProtocol {
  import opened Common
  import opened GpuPlan
  import opened LlmRoom
  import opened NeverFits
  import opened StopBackends

  // What the router makes of a load that was sent: m shows up as loading, or
  // the deadline passes or the caller gives up first.
  datatype Sight = Shown | GivenUp

  // The rest of the program: other loads and jobs while this one waits, the
  // job queue, the processes, the cards' readings, and the router.
  datatype Outside = Outside(
    meanwhileLlms: nat -> seq<Llm>,
    meanwhileBackends: nat -> seq<Backend>,
    holdGranted: nat -> bool,
    stops: Id -> bool,
    free: nat -> seq<(Gpu, int)>,
    loadAccepted: nat -> bool,
    sight: nat -> Sight,
    hasQueue: bool,
    measuring: seq<Gpu>,
    margin: Gpu -> nat)

  function LoadingOn(s: seq<Llm>, g: Gpu, except: Id): nat {
    if s == [] then 0
    else
      var first := if s[0].loading && s[0].id != except then Load(s[0].plan, g) else 0;
      first + LoadingOn(s[1..], g, except)
  }

  // The reading shows less free on its GPU than the load needs there.
  predicate ReadsShort(c: Setup, margin: Gpu -> nat, bs: seq<Backend>, s: seq<Llm>, reading: (Gpu, int)) {
    var (g, free) := reading;
    var v := VramOn(bs, c.forks, g, "", c.evict);
    && Load(c.m.plan, g) > 0
    && free < Load(c.m.plan, g) + LoadingOn(s, g, c.m.id) + margin(g) + Max(0, v.reserved - v.using)
  }

  // realFreeShortGPUs.
  function RealShort(c: Setup, margin: Gpu -> nat, bs: seq<Backend>, s: seq<Llm>, readings: seq<(Gpu, int)>): seq<Gpu> {
    if readings == [] then []
    else
      var first := if ReadsShort(c, margin, bs, s, readings[0]) then [readings[0].0] else [];
      first + RealShort(c, margin, bs, s, readings[1..])
  }

  // What a load needs free on g: its plan, the plans of the other models still
  // loading, the margin, and what is reserved beyond what is in use.
  ghost function NeededFree(c: Setup, margin: Gpu -> nat, bs: seq<Backend>, s: seq<Llm>, g: Gpu): int
    requires g in c.m.plan
  {
    var loading := SumOf(s, (x: Llm) => if x.loading && x.id != c.m.id && g in x.plan then x.plan[g] else 0);
    var v := VramOn(bs, c.forks, g, "", c.evict);
    c.m.plan[g] + loading + margin(g) + (if v.reserved > v.using then v.reserved - v.using else 0)
  }

  // Some reading of g shows less than that, and m is planned to use g.
  ghost predicate FallsShort(c: Setup, margin: Gpu -> nat, bs: seq<Backend>, s: seq<Llm>,
                             readings: seq<(Gpu, int)>, g: Gpu)
  {
    g in c.m.plan && c.m.plan[g] > 0
    && exists free: int :: (g, free) in readings && free < NeededFree(c, margin, bs, s, g)
  }

  lemma {:induction false} LoadingIs(s: seq<Llm>, g: Gpu, except: Id)
    ensures LoadingOn(s, g, except) ==
      SumOf(s, (x: Llm) => if x.loading && x.id != except && g in x.plan then x.plan[g] else 0)
  {
    if s != [] {
      LoadingIs(s[1..], g, except);
    }
  }

  // The GPUs short of real free memory are exactly those of m's plan of which
  // some reading shows less free than the load needs there.
  lemma {:induction false} RealShortIs(c: Setup, margin: Gpu -> nat, bs: seq<Backend>, s: seq<Llm>,
                                       readings: seq<(Gpu, int)>, g: Gpu)
    ensures g in RealShort(c, margin, bs, s, readings) <==> FallsShort(c, margin, bs, s, readings, g)
  {
    if readings != [] {
      var first, rest := readings[0], readings[1..];
      RealShortIs(c, margin, bs, s, rest, g);
      LoadingIs(s, first.0, c.m.id);
      hide VramOn, LoadingOn, SumOf;
      assert forall free: int :: (g, free) in readings <==> (g, free) == first || (g, free) in rest;
      assert g in RealShort(c, margin, bs, s, readings) <==>
        (ReadsShort(c, margin, bs, s, first) && g == first.0) || g in RealShort(c, margin, bs, s, rest);
      hide RealShort;
    }
  }

  // What llmReservationNeed counts beside m.
  function Beside(c: Setup, s: seq<Llm>): seq<Llm> {
    if c.modelsMax == 1 && !c.memory then [] else s
  }

  // The room left on GPU g beside r reserved is enough (the stop condition
  // makeRoomForLLM gives stopGenUntil).
  predicate FitsBeside(c: Setup, s: seq<Llm>, g: Gpu, r: nat) {
    forall card <- c.cards | card.index == g :: r == 0 || NeedOn(c.m, s, g) <= Budget(card, r)
  }

  // A GPU is short beside its reservations (reservationShortGPUs).
  predicate AnyFull(c: Setup, bs: seq<Backend>, s: seq<Llm>) {
    exists card <- c.cards :: IsFull(c, bs, s, card)
  }

  function GpusOf(s: seq<Llm>): set<Gpu> {
    if s == [] then {} else s[0].plan.Keys + GpusOf(s[1..])
  }

  // The GPUs with planned memory once m is loaded beside the models in s.
  function NeededGpus(c: Setup, s: seq<Llm>): set<Gpu> {
    set g | g in c.m.plan.Keys + GpusOf(s) && NeedOn(c.m, s, g) > 0
  }

  // The GPUs whose job queues a load holds: all it needs when a reservation is
  // in its way, those of its own plan when it only waits for a measurement.
  function HeldGpus(c: Setup, bs: seq<Backend>, s: seq<Llm>): set<Gpu> {
    if AnyFull(c, bs, s) then NeededGpus(c, s) else NeededGpus(c, [])
  }

  // With eviction on, a load waits for its GPUs' job queues: when a
  // reservation is in its way, or a measurement is on one of its GPUs.
  predicate MustHold(c: Setup, o: Outside, bs: seq<Backend>, s: seq<Llm>) {
    AnyFull(c, bs, s) || exists g <- o.measuring :: Load(c.m.plan, g) > 0
  }

  // What counts beside m is all the list, but for a router that keeps one model
  // at a time by itself.
  lemma CountsBeside(c: Setup, s: seq<Llm>, x: Llm)
    ensures x in Beside(c, s) <==> x in s && (c.memory || c.modelsMax != 1)
  {}

  // A load holds job queues exactly when some card is full, or a measurement is
  // on a GPU of its plan.
  lemma MustHoldIs(c: Setup, o: Outside, bs: seq<Backend>, s: seq<Llm>)
    ensures MustHold(c, o, bs, s) <==>
      (exists card <- c.cards :: IsFull(c, bs, s, card)) || exists g <- o.measuring :: g in c.m.plan && c.m.plan[g] > 0
  {
    hide IsFull;
    assert forall g <- o.measuring :: Load(c.m.plan, g) > 0 <==> g in c.m.plan && c.m.plan[g] > 0;
  }

  // They are, when a card is full, those of every GPU that has planned memory
  // of m or of another model; otherwise those of m's plan alone.
  lemma HeldGpusAre(c: Setup, bs: seq<Backend>, s: seq<Llm>, g: Gpu)
    ensures g in HeldGpus(c, bs, s) <==>
      || Planned(c.m, g) > 0
      || ((exists card <- c.cards :: IsFull(c, bs, s, card)) && exists x <- s :: x.id != c.m.id && Planned(x, g) > 0)
  {
    hide IsFull;
    OthersPlanned(s, g, c.m.id);
    OthersPlanned([], g, c.m.id);
    GpusOfAre(s, g);
    GpusOfAre([], g);
  }

  lemma {:induction false} OthersPlanned(s: seq<Llm>, g: Gpu, except: Id)
    ensures LoadOn(s, g, except) > 0 <==> exists x <- s :: x.id != except && Planned(x, g) > 0
  {
    if s != [] {
      OthersPlanned(s[1..], g, except);
    }
  }

  lemma {:induction false} GpusOfAre(s: seq<Llm>, g: Gpu)
    ensures g in GpusOf(s) <==> exists x <- s :: g in x.plan
  {
    if s != [] {
      GpusOfAre(s[1..], g);
    }
  }

  // Nothing on g that may be stopped stops when asked.
  predicate NoneToStop(bs: seq<Backend>, g: Gpu, stops: Id -> bool) {
    forall b <- bs | MayStop(b, g, "") :: !stops(b.id)
  }

  // What a look at the list at tick k counts beside m while the mutex is free:
  // other loads may have changed it since the last look.
  function LookAt(c: Setup, o: Outside, k: nat): seq<Llm> {
    Beside(c, Seen(c.w, o.meanwhileLlms(k), k))
  }

  // The stop condition on g, which looks again before each stop.
  function RoomFrom(c: Setup, o: Outside, g: Gpu, start: nat): (nat, nat) -> bool {
    (j: nat, r: nat) => FitsBeside(c, LookAt(c, o, start + j), g, r)
  }

  // The stops on one GPU: the tick of the first look, and how many backends
  // were asked.
  datatype Round = Round(start: nat, tried: nat)
  {
    function Last(): nat {
      start + tried
    }
  }

  function StoppedIn(o: Outside, bs: seq<Backend>, g: Gpu, round: Round): set<Id> {
    if round.tried > |Order(bs, g, "")| then {} else Taken(Order(bs, g, ""), o.stops, round.tried)
  }

  // All the backends stopped, on any GPU.
  ghost function All(o: Outside, bs: seq<Backend>, rounds: map<Gpu, Round>): set<Id> {
    set g, id | g in rounds && id in StoppedIn(o, bs, g, rounds[g]) :: id
  }

  ghost predicate OnlyStopsOn(bs: seq<Backend>, bs': seq<Backend>, gpus: set<Gpu>) {
    exists ids :: bs' == After(bs, ids) && forall b <- bs | b.id in ids :: b.gpu in gpus && MayStop(b, b.gpu, "")
  }

  ghost predicate ShowsRoom(c: Setup, bs: seq<Backend>, s: seq<Llm>, g: Gpu) {
    forall card <- c.cards | card.index == g :: !IsFull(c, bs, s, card)
  }

  // What can be done for g by stopping backends has been done.
  ghost predicate Settled(c: Setup, bs: seq<Backend>, s: seq<Llm>, g: Gpu, stops: Id -> bool) {
    ShowsRoom(c, bs, s, g) || NoneToStop(bs, g, stops)
  }

  // The round on g among the stops that made bs of bs0: each stop was needed by
  // the look before it, they were the least that makes room by the last of those,
  // and g is settled by the look after them.
  ghost predicate RoundOk(c: Setup, o: Outside, bs0: seq<Backend>, bs: seq<Backend>, g: Gpu, round: Round) {
    var fits := RoomFrom(c, o, g, round.start);
    && Needed(bs0, c.forks, g, "", fits, o.stops, round.tried)
    && Least(bs0, c.forks, g, "", fits, o.stops, round.tried)
    && Settled(c, bs, LookAt(c, o, round.Last()), g, o.stops)
  }

  // The rounds made bs of bs0, and nothing else did.
  ghost predicate Stops(c: Setup, o: Outside, bs0: seq<Backend>, bs: seq<Backend>, rounds: map<Gpu, Round>) {
    && UniqueIds(bs0) && c.evict && bs == After(bs0, All(o, bs0, rounds))
    && forall g <- rounds :: RoundOk(c, o, bs0, bs, g, rounds[g])
  }

  // The rounds looked between ticks lo and hi.
  ghost predicate Within(rounds: map<Gpu, Round>, lo: nat, hi: nat) {
    forall g <- rounds :: lo <= rounds[g].start && rounds[g].Last() < hi
  }

  // The free memory loop of loadLLMWithRoom.
  function FreeUp(c: Setup, o: Outside, bs: seq<Backend>, listed: seq<Llm>, t: nat): (r: Room)
    ensures r.t > t
    decreases |listed|
  {
    var short := RealShort(c, o.margin, bs, Seen(c.w, listed, t), o.free(t));
    if short == [] then Room(listed, t + 1, Ok([]), [])
    else match UnloadIdle(c, listed, t + 1, Some(short))
      case Failed(f, t') => Room(listed, t', Err(f), [])
      case NoneLeft(t') => Room(listed, t', Ok(short), [])
      case Unloaded(v, t') =>
        WithoutShrinks(listed, v);
        FreeUp(c, o, bs, Without(listed, v.id), t')
  }

  // The GPUs short of free memory are those of the last round, since lo.
  ghost predicate FreeRoundEnds(c: Setup, o: Outside, bs: seq<Backend>, s: seq<Llm>, lo: nat, hi: nat) {
    exists k: nat :: lo <= k < hi && FreeRound(c, o, bs, s, k, hi)
  }

  // Every reading of a GPU of m's plan shows what the load needs there.
  ghost predicate AllFree(c: Setup, margin: Gpu -> nat, bs: seq<Backend>, s: seq<Llm>, readings: seq<(Gpu, int)>) {
    forall r <- readings | r.0 in c.m.plan && c.m.plan[r.0] > 0 :: r.1 >= NeededFree(c, margin, bs, s, r.0)
  }

  // The round that looked at the list and the readings of tick k ended at hi:
  // at once, with enough free on every reading, or with all that was idle on
  // the GPUs that fell short in use.
  ghost predicate FreeRound(c: Setup, o: Outside, bs: seq<Backend>, s: seq<Llm>, k: nat, hi: nat) {
    var seen := Seen(c.w, s, k);
    || (hi == k + 1 && AllFree(c, o.margin, bs, seen, o.free(k)))
    || exists short: seq<Gpu> ::
      && short != [] && LastRound(c, s, short, k, hi)
      && forall g :: g in short <==> FallsShort(c, o.margin, bs, seen, o.free(k), g)
  }

  lemma FreeRoundIs(c: Setup, o: Outside, bs: seq<Backend>, s: seq<Llm>, k: nat, hi: nat)
    requires LastRound(c, s, RealShort(c, o.margin, bs, Seen(c.w, s, k), o.free(k)), k, hi)
    ensures FreeRound(c, o, bs, s, k, hi)
  {
    var seen, readings := Seen(c.w, s, k), o.free(k);
    var short := RealShort(c, o.margin, bs, seen, readings);
    forall g
      ensures g in short <==> FallsShort(c, o.margin, bs, seen, readings, g)
    {
      RealShortIs(c, o.margin, bs, seen, readings, g);
    }
    hide RealShort, UnloadIdle, AllInUse, NeededFree, Seen;
    if short == [] {
      forall r <- readings | r.0 in c.m.plan && c.m.plan[r.0] > 0
        ensures r.1 >= NeededFree(c, o.margin, bs, seen, r.0)
      {
        assert (r.0, r.1) in readings && !FallsShort(c, o.margin, bs, seen, readings, r.0);
      }
    }
  }

  // Everything a load that is sent rests on.
  ghost predicate Respected(c: Setup, bs: seq<Backend>, s: seq<Llm>) {
    forall card <- c.cards :: !IsFull(c, bs, s, card)
  }

  // The state and the tick in which a load was sent to the router, and whether
  // busy models had been found to block it.
  datatype Sent = Sent(listed: seq<Llm>, bs: seq<Backend>, busyBlocked: bool, at: nat)

  // A load that goes on from room: it fails if making room does; if that was
  // enough no backend is touched and no hold kept; and with busy models in the
  // way nothing more is unloaded.
  ghost predicate KeepsToRoom(room: Room, bs: seq<Backend>, r: Result<bool, Failure>, sent: Option<Sent>) {
    && (room.result.Err? ==> r == Err(room.result.error) && sent == None)
    && (room.result == Ok([]) && sent.Some? ==>
      r != Ok(true) && sent.value.bs == bs && |sent.value.listed| <= |room.listed|)
    && (sent.Some? && sent.value.busyBlocked ==> sent.value.listed == room.listed && sent.value.bs == bs)
  }

  ghost predicate SameRoom(a: Room, b: Room) {
    a.result == b.result && a.listed == b.listed && a.t == b.t
  }

  class Loader {
    const c: Setup
    const o: Outside
    const mgr: Manager
    var listed: seq<Llm>
    // Counts the calls made to the rest of the program.
    var t: nat
    // This load has the load mutex.
    var locked: bool
    // Holds on GPU job queues not yet ended.
    var holds: nat
    ghost var sent: Option<Sent>

    constructor (c: Setup, o: Outside, mgr: Manager, listed: seq<Llm>)
      requires mgr.forks == c.forks && UniqueIds(mgr.bs) && forall k :: UniqueIds(o.meanwhileBackends(k))
      ensures Valid() && !locked && holds == 0 && this.c == c && this.listed == listed && sent == None
    {
      this.c, this.o, this.mgr, this.listed := c, o, mgr, listed;
      t, locked, holds, sent := 0, false, 0, None;
    }

    ghost predicate Valid()
      reads this, mgr
    {
      mgr.forks == c.forks && UniqueIds(mgr.bs) && forall k :: UniqueIds(o.meanwhileBackends(k))
    }

    method Lock()
      requires !locked
      modifies this`locked
      ensures locked
    {
      locked := true;
    }

    method Unlock()
      requires locked
      modifies this`locked
      ensures !locked
    {
      locked := false;
    }

    // Other loads and jobs go on while this one waits.
    method Wait()
      requires Valid() && !locked
      modifies this`listed, this`t, mgr`bs
      ensures Valid() && t == old(t) + 1 && mgr.bs == o.meanwhileBackends(old(t))
    {
      listed, mgr.bs := o.meanwhileLlms(t), o.meanwhileBackends(t);
      t := t + 1;
    }

    method Ask() returns (s: seq<Llm>)
      modifies this`t
      ensures t == old(t) + 1 && s == Seen(c.w, listed, old(t))
    {
      s := Seen(c.w, listed, t);
      t := t + 1;
    }

    // A look with the mutex free.
    method LookAgain() returns (s: seq<Llm>)
      requires !locked
      modifies this`listed, this`t
      ensures t == old(t) + 1 && listed == o.meanwhileLlms(old(t)) && Beside(c, s) == LookAt(c, o, old(t))
    {
      listed := o.meanwhileLlms(t);
      s := Ask();
    }

    method UnloadIdleOn(gpus: Option<seq<Gpu>>) returns (r: Step)
      modifies this`listed, this`t
      ensures r == UnloadIdle(c, old(listed), old(t), gpus) && t == r.t
      ensures listed == if r.Unloaded? then Without(old(listed), r.victim.id) else old(listed)
    {
      var seen := Ask();
      var idle := ByLru(c.w, t - 1, Idle(c.w, t - 1, seen, c.m.id));
      ghost var t0 := t;
      for k := 0 to |idle|
        invariant listed == old(listed) && TryEach(c.w, idle[k..], t, gpus) == TryEach(c.w, idle, t0, gpus)
      {
        var x := idle[k];
        assert idle[k..][0] == x && idle[k..][1..] == idle[k + 1..];
        if !HoldsOn(x, gpus) {
          continue;
        }
        var tried := c.w.unload(t, x.id);
        t := t + 1;
        match tried {
          case Unknown => return Failed(ModelUnknown(x.id), t);
          case Stuck => return Failed(NotUnloaded(x.id), t);
          case InUse => {}
          case Gone => {
            listed := Without(listed, x.id);
            return Unloaded(x, t);
          }
        }
      }
      assert idle[|idle|..] == [];
      r := NoneLeft(t);
    }

    // Max Loaded.
    method UnloadToCount() returns (failed: Option<Failure>)
      requires c.modelsMax > 0
      modifies this`listed, this`t
      ensures var r := ByCount(c, old(listed), old(t));
        listed == r.listed && t == r.t && failed == if r.result.Err? then Some(r.result.error) else None
    {
      ghost var goal := ByCount(c, listed, t);
      while true
        invariant SameRoom(ByCount(c, listed, t), goal)
        decreases |listed|
      {
        ghost var before := listed;
        var seen := Ask();
        if |seen| < c.modelsMax {
          return None;
        }
        var step := UnloadIdleOn(None);
        hide UnloadIdle;
        match step {
          case Failed(f, _) => return Some(f);
          case NoneLeft(_) => return Some(AllAnswering);
          case Unloaded(v, _) => WithoutShrinks(before, v);
        }
      }
    }

    // Planned memory.
    method UnloadToFit() returns (result: Result<seq<Gpu>, Failure>)
      modifies this`listed, this`t
      ensures var r := ByVram(c, mgr.bs, old(listed), old(t));
        listed == r.listed && t == r.t && result == r.result
    {
      ghost var goal := ByVram(c, mgr.bs, listed, t);
      while true
        invariant SameRoom(ByVram(c, mgr.bs, listed, t), goal)
        decreases |listed|
      {
        ghost var before := listed;
        var seen := Ask();
        var short := ShortGpus(c, mgr.bs, seen, c.cards);
        if short == [] {
          return Ok([]);
        }
        var step := UnloadIdleOn(Some(short));
        hide UnloadIdle;
        match step {
          case Failed(f, _) => return Err(f);
          case NoneLeft(_) => return Ok(short);
          case Unloaded(v, _) => WithoutShrinks(before, v);
        }
      }
    }

    method MakeRoomByUnloading(byVram: bool) returns (result: Result<seq<Gpu>, Failure>)
      modifies this`listed, this`t
      ensures var r := MakeRoom(c, mgr.bs, old(listed), old(t), byVram);
        result == r.result && listed == r.listed && t == r.t
    {
      CountLeavesNothingShort(c, listed, t);
      if c.modelsMax > 0 {
        var failed := UnloadToCount();
        if failed.Some? {
          return Err(failed.value);
        }
      }
      hide ByCount, ByVram;
      if byVram {
        result := UnloadToFit();
      } else {
        result := Ok([]);
      }
    }

    // Ok(true) comes with a hold to end once the load is over. rounds are the
    // stops on the GPUs it held.
    method MakeRoomForLlm() returns (r: Result<bool, Failure>, ghost rounds: map<Gpu, Round>)
      requires Valid() && !locked
      modifies this`listed, this`t, this`holds, mgr`bs
      ensures Valid() && t >= old(t)
      ensures holds == old(holds) + if r == Ok(true) then 1 else 0
      ensures r == Ok(true) ==> t > 0 && Respected(c, mgr.bs, LookAt(c, o, t - 1))
      ensures !c.evict || !o.hasQueue ==> mgr.bs == old(mgr.bs) && listed == old(listed)
      ensures !c.evict ==>
        (r.Err? <==> AnyFull(c, mgr.bs, Beside(c, Seen(c.w, listed, old(t))))) && r != Ok(true)
      // With eviction on it takes a hold exactly when it must.
      ensures c.evict && o.hasQueue ==>
        var must := MustHold(c, o, old(mgr.bs), Beside(c, Seen(c.w, old(listed), old(t))));
        && (r == Ok(false) <==> !must)
        && (r == Err(HoldRefused) <==> must && !o.holdGranted(old(t) + 1))
      // It stops none but backends that may be stopped, on the GPUs it holds, and
      // of those only what the rounds there did.
      ensures c.evict && o.hasQueue && (r.Ok? ==> r.value) && r != Err(HoldRefused) ==>
        var bs0 := o.meanwhileBackends(old(t) + 1);
        && t > 0 && rounds.Keys == HeldGpus(c, old(mgr.bs), Beside(c, Seen(c.w, old(listed), old(t))))
        && Stops(c, o, bs0, mgr.bs, rounds) && Within(rounds, old(t), t - 1) && OnlyStopsOn(bs0, mgr.bs, rounds.Keys)
      // With eviction on, it refuses for the first GPU that the last look finds
      // full. If it held that one, nothing there is left to stop, or the last
      // look of its round showed room, and models listed since are in the way.
      ensures c.evict && o.hasQueue && r.Err? && r.error.ReservationFull? ==>
        && t > 0 && FirstFull(c, mgr.bs, LookAt(c, o, t - 1), c.cards) == Some(r.error.gpu)
        && (r.error.gpu in rounds ==>
          NoneToStop(mgr.bs, r.error.gpu, o.stops)
          || ShowsRoom(c, mgr.bs, LookAt(c, o, rounds[r.error.gpu].Last()), r.error.gpu))
    {
      hide IsFull, NeededGpus, NoneToStop, UniqueIds, GpusOf, Stops, Within, OnlyStopsOn, ShowsRoom, LookAt;
      rounds := map[];
      var seen := Ask();
      var others := Beside(c, seen);
      var gpus := NeededGpus(c, others);
      if !AnyFull(c, mgr.bs, others) {
        if !c.evict || !(exists g <- o.measuring :: Load(c.m.plan, g) > 0) {
          return Ok(false), rounds;
        }
        others, gpus := [], NeededGpus(c, []);
      }
      if !c.evict || !o.hasQueue {
        var full := FirstFull(c, mgr.bs, others, c.cards);
        return if full.Some? then Err(ReservationFull(full.value)) else Ok(false), rounds;
      }
      ghost var t1 := t;
      r, rounds := HoldAndStop(gpus);
      if r != Err(HoldRefused) {
        Wider(rounds, t1, old(t), t - 1);
      }
    }

    // Waits for the job queues of gpus, and stops backends there.
    method HoldAndStop(gpus: set<Gpu>) returns (r: Result<bool, Failure>, ghost rounds: map<Gpu, Round>)
      requires Valid() && !locked && c.evict
      modifies this`listed, this`t, this`holds, mgr`bs
      ensures Valid() && t >= old(t) && r != Ok(false)
      ensures holds == old(holds) + if r == Ok(true) then 1 else 0
      ensures r == Ok(true) ==> t > 0 && Respected(c, mgr.bs, LookAt(c, o, t - 1))
      ensures r == Err(HoldRefused) <==> !o.holdGranted(old(t))
      ensures r != Err(HoldRefused) ==>
        var bs0 := o.meanwhileBackends(old(t));
        && t > 0 && rounds.Keys == gpus
        && Stops(c, o, bs0, mgr.bs, rounds) && Within(rounds, old(t), t - 1) && OnlyStopsOn(bs0, mgr.bs, gpus)
      ensures r.Err? && r.error.ReservationFull? ==>
        && FirstFull(c, mgr.bs, LookAt(c, o, t - 1), c.cards) == Some(r.error.gpu)
        && (r.error.gpu in gpus ==>
          NoneToStop(mgr.bs, r.error.gpu, o.stops)
          || ShowsRoom(c, mgr.bs, LookAt(c, o, rounds[r.error.gpu].Last()), r.error.gpu))
    {
      hide IsFull, NoneToStop, UniqueIds, OnlyStopsOn, Stops, Within, LookAt, ShowsRoom;
      rounds := map[];
      if !o.holdGranted(t) {
        return Err(HoldRefused), rounds;
      }
      Wait();
      holds := holds + 1;
      ghost var waited, t0 := mgr.bs, t;
      rounds := StopOn(gpus);
      OnlyOnGpus(c, o, waited, mgr.bs, rounds);
      Wider(rounds, t0, old(t), t);
      StopsEnd(c, o, waited, mgr.bs, rounds);
      var seen := LookAgain();
      var full := FirstFull(c, mgr.bs, Beside(c, seen), c.cards);
      if full.Some? {
        holds := holds - 1;
        return Err(ReservationFull(full.value)), rounds;
      }
      return Ok(true), rounds;
    }

    // The job queues of gpus are held, so nothing else starts backends there;
    // the list of models may change from each look to the next.
    method StopOn(gpus: set<Gpu>) returns (ghost rounds: map<Gpu, Round>)
      requires Valid() && !locked && c.evict
      modifies this`listed, this`t, mgr`bs
      ensures Valid() && t >= old(t)
      ensures rounds.Keys == gpus && Stops(c, o, old(mgr.bs), mgr.bs, rounds) && Within(rounds, old(t), t)
    {
      ghost var bs0 := mgr.bs;
      var left := gpus;
      rounds := map[];
      hide UniqueIds, Stops, Taken, Order, Needed, RoomFrom;
      StopOnBegins(c, o, bs0);
      while left != {}
        invariant Valid() && t >= old(t) && left <= gpus && rounds.Keys == gpus - left
        invariant Stops(c, o, bs0, mgr.bs, rounds) && Within(rounds, old(t), t)
        decreases |left|
      {
        var g :| g in left;
        left := left - {g};
        var start := t;
        ghost var before := mgr.bs;
        var n, tried := mgr.StopUntil(g, "", RoomFrom(c, o, g, start), o.stops);
        listed := o.meanwhileLlms(start + tried);
        t := start + tried + 1;
        StopsOnOneMore(c, o, bs0, before, mgr.bs, rounds, g, Round(start, tried));
        rounds := rounds[g := Round(start, tried)];
      }
    }

    // Loads m. Ok(true) comes with a hold to end once the load is over. sent
    // is set when the router was asked to load m.
    method LoadWithRoom() returns (r: Result<bool, Failure>)
      requires Valid() && !locked && sent == None
      modifies this, mgr`bs
      // The mutex is free again and no hold is forgotten.
      ensures Valid() && !locked
      ensures holds == old(holds) + if r == Ok(true) then 1 else 0
      ensures r.Ok? ==> sent.Some? && listed == Without(sent.value.listed, c.m.id) + [c.m.(loading := true)]
      // With the router answering, a load is sent only below Max Loaded, and
      // beside every reservation unless busy models blocked it.
      ensures sent.Some? && Answered(c.w, old(t), t) ==>
        && (c.modelsMax > 0 ==> |sent.value.listed| < c.modelsMax)
        && (!sent.value.busyBlocked ==> Respected(c, sent.value.bs, sent.value.listed))
      // It is sent straight from the round in which the cards showed room for
      // it, or in which every model idle on those that did not was in use.
      ensures sent.Some? && !sent.value.busyBlocked ==>
        FreeRoundEnds(c, o, sent.value.bs, sent.value.listed, old(t), sent.value.at)
      // A load that can never fit is refused before anything is unloaded.
      ensures var v := VerdictOn(c, old(mgr.bs), Seen(c.w, old(listed), old(t)), old(t), c.cards);
        if v.Never? then r == Err(ReservationFull(v.gpu)) && sent == None && listed == old(listed)
          && mgr.bs == old(mgr.bs)
        else
          && (sent.Some? ==> sent.value.busyBlocked == v.busyBlocked)
          // Otherwise idle models are unloaded first, for Max Loaded only when
          // busy models block it, and only if that is not enough are backends
          // stopped and a hold taken.
          && KeepsToRoom(MakeRoom(c, old(mgr.bs), old(listed), old(t) + 1, !v.busyBlocked), old(mgr.bs), r, sent)
      // A blocked load keeps to the reservations exactly when the check that it
      // skips passes, on the models left by Max Loaded; that is on all of them
      // when the limit is not reached.
      ensures sent.Some? && sent.value.busyBlocked ==>
        && (Respected(c, sent.value.bs, sent.value.listed) <==>
          FirstFull(c, old(mgr.bs), ByCount(c, old(listed), old(t) + 1).listed, c.cards).None?)
        && (c.modelsMax == 0 || |Seen(c.w, old(listed), old(t) + 1)| < c.modelsMax ==>
          (Respected(c, sent.value.bs, sent.value.listed) <==> FirstFull(c, old(mgr.bs), old(listed), c.cards).None?))
    {
      Lock();
      var seen := Ask();
      var verdict := Check(c, mgr.bs, seen, t - 1);
      ghost var bs0, listed0, t0 := mgr.bs, listed, t;
      hide *;
      if verdict.Never? {
        Unlock();
        return Err(ReservationFull(verdict.gpu));
      }
      r := RoomThenLoad(verdict.busyBlocked);
      SkippedCheck(c, bs0, listed0, t0, r, sent);
    }

    // From the check that m may fit to the unlock.
    method RoomThenLoad(busyBlocked: bool) returns (r: Result<bool, Failure>)
      requires Valid() && locked && sent == None && t > 0
      modifies this, mgr`bs
      ensures Valid() && !locked && t >= old(t)
      ensures holds == old(holds) + if r == Ok(true) then 1 else 0
      ensures r.Ok? ==> sent.Some? && listed == Without(sent.value.listed, c.m.id) + [c.m.(loading := true)]
      ensures sent.Some? ==> sent.value.busyBlocked == busyBlocked
      ensures sent.Some? && Answered(c.w, old(t) - 1, t) ==>
        && (c.modelsMax > 0 ==> |sent.value.listed| < c.modelsMax)
        && (!busyBlocked ==> Respected(c, sent.value.bs, sent.value.listed))
      ensures sent.Some? && !busyBlocked ==>
        FreeRoundEnds(c, o, sent.value.bs, sent.value.listed, old(t) - 1, sent.value.at)
      ensures KeepsToRoom(MakeRoom(c, old(mgr.bs), old(listed), old(t), !busyBlocked), old(mgr.bs), r, sent)
    {
      hide MakeRoom, KeepsToRoom, FreeRoundEnds, Respected, Answered, UniqueIds;
      ghost var room := MakeRoom(c, mgr.bs, listed, t, !busyBlocked);
      ghost var bs0 := mgr.bs;
      var made, hold := MakeRoomNow(busyBlocked);
      if made.Err? {
        if locked {
          Unlock();
        }
        Keeps(room, bs0, Err(made.error), sent);
        return Err(made.error);
      }
      ghost var t1 := t;
      r := FreeThenLoad(busyBlocked, hold);
      Keeps(room, bs0, r, sent);
      if sent.Some? {
        Shorter(c.w, old(t) - 1, old(t), t1, t);
        if !busyBlocked {
          Later(c, o, sent.value.bs, sent.value.listed, t1, old(t) - 1, sent.value.at);
        }
      }
    }

    // From the room made to the unlock. hold says that a hold was taken.
    method FreeThenLoad(busyBlocked: bool, hold: bool) returns (r: Result<bool, Failure>)
      requires Valid() && locked && sent == None && (hold ==> holds > 0)
      modifies this
      ensures Valid() && !locked && t >= old(t)
      ensures holds == old(holds) - if hold && r.Err? then 1 else 0
      ensures r.Ok? ==>
        && r.value == hold && sent.Some?
        && listed == Without(sent.value.listed, c.m.id) + [c.m.(loading := true)]
      ensures sent.Some? ==>
        && sent.value.busyBlocked == busyBlocked && sent.value.bs == mgr.bs
        && |sent.value.listed| <= |old(listed)| && (busyBlocked ==> sent.value.listed == old(listed))
        && (Respected(c, mgr.bs, old(listed)) ==> Respected(c, mgr.bs, sent.value.listed))
        && (!busyBlocked ==> FreeRoundEnds(c, o, mgr.bs, sent.value.listed, old(t), sent.value.at))
    {
      FreeUpEnds(c, o, mgr.bs, listed, t);
      hide Respected, FreeUp, FreeRoundEnds, UniqueIds, Without;
      var free := FreeForReal(busyBlocked);
      if free.Some? {
        Release(hold);
        Unlock();
        return Err(free.value);
      }
      r := Send(busyBlocked);
      if r.Err? {
        Release(hold);
      }
      Unlock();
      r := if r.Err? then r else Ok(hold);
    }

    method Release(hold: bool)
      requires hold ==> holds > 0
      modifies this`holds
      ensures holds == old(holds) - if hold then 1 else 0
    {
      if hold {
        holds := holds - 1;
      }
    }

    // The planned room: unloading, and stopping backends with the mutex
    // released meanwhile. hold says that a hold was taken and not ended.
    method MakeRoomNow(busyBlocked: bool) returns (made: Result<(), Failure>, hold: bool)
      requires Valid() && locked
      modifies this`listed, this`t, this`locked, this`holds, mgr`bs
      ensures Valid() && t >= old(t)
      ensures holds == old(holds) + if hold then 1 else 0
      ensures made.Ok? ==> locked
      ensures made.Err? ==> !hold
      // Backends are looked at only when unloading was not enough.
      ensures var room := MakeRoom(c, old(mgr.bs), old(listed), old(t), !busyBlocked);
        && (room.result.Err? ==> made == Err(room.result.error))
        && (room.result == Ok([]) ==> made.Ok? && !hold && listed == room.listed && mgr.bs == old(mgr.bs))
        && (busyBlocked && room.result.Ok? ==> room.result == Ok([]))
      ensures made.Ok? && Answered(c.w, old(t), t) && c.modelsMax > 0 ==> |listed| < c.modelsMax
      ensures made.Ok? && Answered(c.w, old(t), t) && !busyBlocked ==> Respected(c, mgr.bs, listed)
    {
      hold := false;
      hide MakeRoom, PlannedRoundEnds, SubList, UniqueIds;
      RoomIsMade(c, mgr.bs, listed, t, !busyBlocked);
      var short := MakeRoomByUnloading(!busyBlocked);
      if short.Err? {
        return Err(short.error), false;
      }
      if short.value == [] {
        return Ok(()), false;
      }
      ghost var t1 := t;
      made, hold := MakeRoomByStopping();
      Shorter(c.w, old(t), t1, t, t);
    }

    // The mutex is free while backends are stopped, and then idle models are
    // unloaded again.
    method MakeRoomByStopping() returns (made: Result<(), Failure>, hold: bool)
      requires Valid() && locked
      modifies this`listed, this`t, this`locked, this`holds, mgr`bs
      ensures Valid() && t >= old(t)
      ensures holds == old(holds) + if hold then 1 else 0
      ensures made.Ok? ==> locked
      ensures made.Err? ==> !hold
      ensures made.Ok? && Answered(c.w, old(t), t) ==>
        (c.modelsMax > 0 ==> |listed| < c.modelsMax) && Respected(c, mgr.bs, listed)
    {
      hide MakeRoom, PlannedRoundEnds, SubList, UniqueIds;
      Unlock();
      Wait();
      var made0, _ := MakeRoomForLlm();
      if made0.Err? {
        return Err(made0.error), false;
      }
      hold := made0.value;
      Wait();
      Lock();
      RoomIsMade(c, mgr.bs, listed, t, true);
      var short := MakeRoomByUnloading(true);
      if short.Err? {
        Release(hold);
        return Err(short.error), false;
      }
      if short.value != [] {
        var seen := Ask();
        var full := FirstFull(c, mgr.bs, seen, c.cards);
        if full.Some? {
          Release(hold);
          return Err(ReservationFull(full.value)), false;
        }
      }
      return Ok(()), hold;
    }

    // The cards' real free memory: unloads idle models while it is short.
    method FreeForReal(busyBlocked: bool) returns (failed: Option<Failure>)
      requires Valid()
      modifies this`listed, this`t
      ensures busyBlocked ==> failed == None && listed == old(listed) && t == old(t)
      ensures !busyBlocked ==> var r := FreeUp(c, o, mgr.bs, old(listed), old(t));
        listed == r.listed && t == r.t && failed == if r.result.Err? then Some(r.result.error) else None
    {
      ghost var goal := FreeUp(c, o, mgr.bs, listed, t);
      while !busyBlocked
        invariant SameRoom(FreeUp(c, o, mgr.bs, listed, t), goal)
        invariant busyBlocked ==> listed == old(listed) && t == old(t)
        decreases |listed|
      {
        ghost var before := listed;
        var seen := Ask();
        var short := RealShort(c, o.margin, mgr.bs, seen, o.free(t - 1));
        if short == [] {
          break;
        }
        var step := UnloadIdleOn(Some(short));
        hide UnloadIdle, RealShort;
        match step {
          case Failed(f, _) => return Some(f);
          case NoneLeft(_) => return None;
          case Unloaded(v, _) => WithoutShrinks(before, v);
        }
      }
      return None;
    }

    method Send(busyBlocked: bool) returns (r: Result<bool, Failure>)
      requires locked
      modifies this`listed, this`t, this`sent
      ensures sent == Some(Sent(old(listed), mgr.bs, busyBlocked, old(t))) && t > old(t)
      ensures r.Ok? ==> listed == Without(old(listed), c.m.id) + [c.m.(loading := true)]
    {
      sent := Some(Sent(listed, mgr.bs, busyBlocked, t));
      t := t + 1;
      if !o.loadAccepted(t - 1) {
        return Err(LoadRefused);
      }
      t := t + 1;
      if o.sight(t - 1) == GivenUp {
        return Err(NotListed);
      }
      listed := Without(listed, c.m.id) + [c.m.(loading := true)];
      return Ok(true);
    }
  }

  // What a load sent with busy models in its way meets.
  lemma SkippedCheck(c: Setup, bs: seq<Backend>, listed: seq<Llm>, t: nat, r: Result<bool, Failure>, sent: Option<Sent>)
    requires sent.Some? && sent.value.busyBlocked ==> KeepsToRoom(MakeRoom(c, bs, listed, t, false), bs, r, sent)
    ensures sent.Some? && sent.value.busyBlocked ==>
      && (Respected(c, sent.value.bs, sent.value.listed) <==>
        FirstFull(c, bs, ByCount(c, listed, t).listed, c.cards).None?)
      && (c.modelsMax == 0 || |Seen(c.w, listed, t)| < c.modelsMax ==>
        (Respected(c, sent.value.bs, sent.value.listed) <==> FirstFull(c, bs, listed, c.cards).None?))
  {
    hide IsFull;
  }

  lemma Keeps(room: Room, bs: seq<Backend>, r: Result<bool, Failure>, sent: Option<Sent>)
    requires room.result.Err? ==> r == Err(room.result.error) && sent == None
    requires room.result == Ok([]) && sent.Some? ==>
      r != Ok(true) && sent.value.bs == bs && |sent.value.listed| <= |room.listed|
    requires sent.Some? && sent.value.busyBlocked ==> sent.value.listed == room.listed && sent.value.bs == bs
    ensures KeepsToRoom(room, bs, r, sent)
  {}

  lemma AnsweredSeen(w: World, listed: seq<Llm>, t: nat)
    ensures forall lo: nat, hi: nat | lo <= t < hi && Answered(w, lo, hi) :: Seen(w, listed, t) == listed
  {}

  lemma Shorter(w: World, lo: nat, lo': nat, hi': nat, hi: nat)
    requires lo <= lo' && hi' <= hi
    ensures Answered(w, lo, hi) ==> Answered(w, lo', hi')
  {}

  // Unloading keeps reservations respected.
  lemma StillRespected(c: Setup, bs: seq<Backend>, s: seq<Llm>, id: Id)
    ensures Respected(c, bs, s) ==> Respected(c, bs, Without(s, id))
  {
    forall card <- c.cards
      ensures IsFull(c, bs, Without(s, id), card) ==> IsFull(c, bs, s, card)
    {
      WithoutLoadsLess(s, id, card.index, c.m.id);
    }
  }

  // The stop condition of each look is one that less reserved never breaks, so
  // stopping largest first stops no more backends than needed.
  lemma FitsBesideIsMonotone(c: Setup, o: Outside, g: Gpu, start: nat, k: nat)
    ensures Monotone(Look(RoomFrom(c, o, g, start), k))
  {
    var s, look := LookAt(c, o, start + k), Look(RoomFrom(c, o, g, start), k);
    assert forall r: nat :: look(r) == FitsBeside(c, s, g, r);
    forall r: nat, r': nat | r <= r' && FitsBeside(c, s, g, r')
      ensures FitsBeside(c, s, g, r)
    {}
  }

  // And it says what the check that follows asks of the GPU.
  lemma FitsBesideMeansNotFull(c: Setup, bs: seq<Backend>, s: seq<Llm>, g: Gpu)
    ensures FitsBeside(c, s, g, ReservedBeside(c, bs, g)) <==>
      forall card <- c.cards | card.index == g :: !IsFull(c, bs, s, card)
  {}

  lemma {:induction false} AfterOnlyStops(bs: seq<Backend>, ids: set<Id>)
    ensures forall b <- After(bs, ids) | b.active :: b in bs && b.id !in ids
  {
    if bs != [] {
      AfterOnlyStops(bs[1..], ids);
      assert After(bs, ids)[1..] == After(bs[1..], ids);
    }
  }

  lemma StaysSettled(c: Setup, bs: seq<Backend>, s: seq<Llm>, g: Gpu, stops: Id -> bool, ids: set<Id>)
    requires Settled(c, bs, s, g, stops)
    ensures Settled(c, After(bs, ids), s, g, stops)
  {
    AfterReservesLess(bs, ids, g, "", c.evict);
    AfterOnlyStops(bs, ids);
  }

  // stopGenUntil leaves its GPU settled.
  lemma StopSettles(c: Setup, bs: seq<Backend>, s: seq<Llm>, g: Gpu, stops: Id -> bool, tried: nat)
    requires c.evict && tried <= |Order(bs, g, "")|
    requires var bs' := After(bs, Taken(Order(bs, g, ""), stops, tried));
      FitsBeside(c, s, g, Reserved(bs', c.forks, g, "")) || tried == |Order(bs, g, "")|
    ensures Settled(c, After(bs, Taken(Order(bs, g, ""), stops, tried)), s, g, stops)
  {
    var order := Order(bs, g, "");
    TakenAre(order, stops, tried);
    AfterOnlyStops(bs, Taken(order, stops, tried));
    if tried == |order| {
      assert order[..tried] == order;
    }
  }

  // Freeing memory ends with a look that shows room, or with a round that finds
  // every model idle on the short GPUs in use, and it only ever unloads.
  lemma {:induction false} FreeUpEnds(c: Setup, o: Outside, bs: seq<Backend>, listed: seq<Llm>, t: nat)
    ensures var r := FreeUp(c, o, bs, listed, t);
      && |r.listed| <= |listed|
      && (Respected(c, bs, listed) ==> Respected(c, bs, r.listed))
      && (r.result.Ok? ==> FreeRoundEnds(c, o, bs, r.listed, t, r.t))
    decreases |listed|
  {
    var short := RealShort(c, o.margin, bs, Seen(c.w, listed, t), o.free(t));
    var r := FreeUp(c, o, bs, listed, t);
    var step := UnloadIdle(c, listed, t + 1, Some(short));
    hide UnloadIdle, RealShort, Respected, AllInUse, FreeRound;
    if short == [] {
      FreeRoundIs(c, o, bs, listed, t, r.t);
    } else if step.NoneLeft? {
      NoneLeftIsLastRound(c, listed, short, t, step.t);
      FreeRoundIs(c, o, bs, listed, t, r.t);
    } else if step.Unloaded? {
      WithoutShrinks(listed, step.victim);
      var rest := FreeUp(c, o, bs, Without(listed, step.victim.id), step.t);
      assert r == rest;
      hide FreeUp, FreeRoundEnds;
      StillRespected(c, bs, listed, step.victim.id);
      FreeUpEnds(c, o, bs, Without(listed, step.victim.id), step.t);
      if r.result.Ok? {
        Later(c, o, bs, r.listed, step.t, t, r.t);
      }
    }
  }

  lemma Later(c: Setup, o: Outside, bs: seq<Backend>, s: seq<Llm>, lo: nat, lo': nat, hi: nat)
    requires FreeRoundEnds(c, o, bs, s, lo, hi) && lo' <= lo
    ensures FreeRoundEnds(c, o, bs, s, lo', hi)
  {
    hide FreeRound;
  }

  // ----- stopping backends on the GPUs held -----

  lemma StopOnBegins(c: Setup, o: Outside, bs: seq<Backend>)
    requires UniqueIds(bs) && c.evict
    ensures Stops(c, o, bs, bs, map[])
  {
    AfterNone(bs);
    assert All(o, bs, map[]) == {};
  }

  // Only backends that may be stopped are, each in the round of its GPU.
  lemma StoppedMayStop(c: Setup, o: Outside, bs: seq<Backend>, rounds: map<Gpu, Round>)
    requires UniqueIds(bs)
    ensures forall b | b in bs && b.id in All(o, bs, rounds) :: b.gpu in rounds && MayStop(b, b.gpu, "")
  {
    hide UniqueIds, Order, Taken;
    forall b | b in bs && b.id in All(o, bs, rounds)
      ensures b.gpu in rounds && MayStop(b, b.gpu, "")
    {
      var g :| g in rounds && b.id in StoppedIn(o, bs, g, rounds[g]);
      TakenMayStop(bs, g, "", o.stops, rounds[g].tried);
      assert MayStop(b, g, "");
    }
  }

  lemma StopsOnOneMore(c: Setup, o: Outside, bs0: seq<Backend>, bs: seq<Backend>, bs': seq<Backend>,
                       rounds: map<Gpu, Round>, g: Gpu, round: Round)
    requires Stops(c, o, bs0, bs, rounds) && g !in rounds
    requires Needed(bs, c.forks, g, "", RoomFrom(c, o, g, round.start), o.stops, round.tried)
    requires bs' == After(bs, Taken(Order(bs, g, ""), o.stops, round.tried))
    requires
      || RoomFrom(c, o, g, round.start)(round.tried, Reserved(bs', c.forks, g, ""))
      || round.tried == |Order(bs, g, "")|
    ensures Stops(c, o, bs0, bs', rounds[g := round]) && UniqueIds(bs')
  {
    hide RoundOk, All, StoppedIn, UniqueIds, Taken, Order, Reserved, FitsBeside, LookAt, Needed;
    NewRound(c, o, bs0, bs, bs', All(o, bs0, rounds), rounds, g, round);
    AllOfOneMore(o, bs0, rounds, g, round);
    forall h <- rounds
      ensures RoundOk(c, o, bs0, bs', h, rounds[h])
    {
      RoundStays(c, o, bs0, bs, Taken(Order(bs, g, ""), o.stops, round.tried), h, rounds[h]);
    }
  }

  // Stops on other GPUs leave a round as it was.
  lemma RoundStays(c: Setup, o: Outside, bs0: seq<Backend>, bs: seq<Backend>, ids: set<Id>, g: Gpu, round: Round)
    requires RoundOk(c, o, bs0, bs, g, round)
    ensures RoundOk(c, o, bs0, After(bs, ids), g, round)
  {
    hide Needed, Least, Settled, LookAt;
    StaysSettled(c, bs, LookAt(c, o, round.Last()), g, o.stops, ids);
  }

  lemma NewRound(c: Setup, o: Outside, bs0: seq<Backend>, bs: seq<Backend>, bs': seq<Backend>, before: set<Id>,
                 rounds: map<Gpu, Round>, g: Gpu, round: Round)
    requires UniqueIds(bs0) && c.evict && bs == After(bs0, before) && before == All(o, bs0, rounds) && g !in rounds
    requires Needed(bs, c.forks, g, "", RoomFrom(c, o, g, round.start), o.stops, round.tried)
    requires bs' == After(bs, Taken(Order(bs, g, ""), o.stops, round.tried))
    requires
      || RoomFrom(c, o, g, round.start)(round.tried, Reserved(bs', c.forks, g, ""))
      || round.tried == |Order(bs, g, "")|
    ensures RoundOk(c, o, bs0, bs', g, round) && round.tried <= |Order(bs, g, "")|
    ensures bs' == After(bs0, before + StoppedIn(o, bs0, g, round)) && UniqueIds(bs')
  {
    hide Settled, Least, UniqueIds, Taken, Order, MayStop, Reserved, FitsBeside, After, All, Monotone, LookAt;
    var fits := RoomFrom(c, o, g, round.start);
    StoppedMayStop(c, o, bs0, rounds);
    forall k
      ensures Monotone(Look(fits, k))
    {
      FitsBesideIsMonotone(c, o, g, round.start, k);
    }
    LeastAfterOthers(bs0, before, c.forks, g, "", fits, o.stops, round.tried);
    var ids := Taken(Order(bs0, g, ""), o.stops, round.tried);
    AfterUnique(bs0, before);
    AfterUnique(bs, ids);
    AfterTwice(bs0, before, ids);
    StopSettles(c, bs, LookAt(c, o, round.Last()), g, o.stops, round.tried);
  }

  lemma AllOfOneMore(o: Outside, bs: seq<Backend>, rounds: map<Gpu, Round>, g: Gpu, round: Round)
    requires g !in rounds
    ensures All(o, bs, rounds[g := round]) == All(o, bs, rounds) + StoppedIn(o, bs, g, round)
  {
    hide StoppedIn;
    var rounds' := rounds[g := round];
    forall id <- All(o, bs, rounds) + StoppedIn(o, bs, g, round)
      ensures id in All(o, bs, rounds')
    {
      if id in StoppedIn(o, bs, g, round) {
        assert g in rounds' && id in StoppedIn(o, bs, g, rounds'[g]);
      } else {
        var h :| h in rounds && id in StoppedIn(o, bs, h, rounds[h]);
        assert h in rounds' && id in StoppedIn(o, bs, h, rounds'[h]);
      }
    }
  }

  // A GPU held was settled by the last look of its round.
  lemma StopsEnd(c: Setup, o: Outside, bs0: seq<Backend>, bs: seq<Backend>, rounds: map<Gpu, Round>)
    requires Stops(c, o, bs0, bs, rounds)
    ensures forall g <- rounds :: ShowsRoom(c, bs, LookAt(c, o, rounds[g].Last()), g) || NoneToStop(bs, g, o.stops)
  {
    hide ShowsRoom, NoneToStop, Needed, Least;
  }

  lemma OnlyOnGpus(c: Setup, o: Outside, bs0: seq<Backend>, bs: seq<Backend>, rounds: map<Gpu, Round>)
    requires Stops(c, o, bs0, bs, rounds)
    ensures OnlyStopsOn(bs0, bs, rounds.Keys)
  {
    hide All, UniqueIds, RoundOk, MayStop;
    StoppedMayStop(c, o, bs0, rounds);
  }

  lemma Wider(rounds: map<Gpu, Round>, lo: nat, lo': nat, hi: nat)
    requires Within(rounds, lo, hi) && lo' <= lo
    ensures Within(rounds, lo', hi)
  {}
}
