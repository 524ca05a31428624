// GPU memory reservations as promises: what creating, editing, enabling,
// measuring and re-sizing instances and loading LLMs keep true of every card,
// so that an enabled instance can always start.
module Reservations {
  import opened Common
  import opened GpuPlan
  import opened LlmRoom
  import opened NeverFits
  import opened StopBackends

  // The models loaded or loading, the instances and their processes, and
  // whether jobs and loads may stop backends (auto-evict).
  datatype World = World(cards: seq<Card>, evict: bool, bs: seq<Backend>, llms: seq<Llm>)

  datatype Kind = Image | Video | Music

  // What a measurement found: its peak, the budget chosen for it, and the
  // reservation suggested for the peak alone.
  datatype Measured = Measured(kind: Kind, peak: nat, budget: nat, suggested: nat)

  // What is done to one instance. An edit is refused while the instance is
  // measured, and a start unless it is free to: not measured, and no model
  // files being moved. launches says whether its program starts then.
  datatype Change =
    | Edit(gpu: Gpu, differs: bool, measuring: bool)
    | Enable
    | Disable
    | KeepRunning
    | AllowStop
    | SetReservation(mib: nat)
    | ApplyMeasurement(found: Measured)
    | Start(free: bool, launches: bool)
    | Exit
    | Reading(reading: Option<nat>)

  datatype Action =
    | Create(id: Id, gpu: Gpu)
    | Delete(id: Id)
    | On(id: Id, change: Change)
    | LoadLlm(m: Llm, replacing: bool)
    | UnloadLlm(id: Id)

  // ----- instances by id -----

  function Find(bs: seq<Backend>, id: Id): (r: Option<Backend>)
    ensures r.Some? ==> r.value in bs && r.value.id == id
    ensures r.None? ==> forall b <- bs :: b.id != id
  {
    if bs == [] then None else if bs[0].id == id then Some(bs[0]) else Find(bs[1..], id)
  }

  function Put(bs: seq<Backend>, b: Backend): (r: seq<Backend>)
    ensures |r| == |bs| && forall i | 0 <= i < |bs| :: r[i] == if bs[i].id == b.id then b else bs[i]
  {
    if bs == [] then [] else [if bs[0].id == b.id then b else bs[0]] + Put(bs[1..], b)
  }

  function Cut(bs: seq<Backend>, id: Id): seq<Backend> {
    if bs == [] then [] else (if bs[0].id == id then [] else [bs[0]]) + Cut(bs[1..], id)
  }

  // ----- the checks -----

  function CardOf(cards: seq<Card>, g: Gpu): (r: Option<Card>)
    ensures r.Some? ==> r.value in cards && r.value.index == g
    ensures r.None? ==> forall card <- cards :: card.index != g
  {
    if cards == [] then None
    else
      var rest := CardOf(cards[1..], g);
      if rest.Some? then rest else if cards[0].index == g then Some(cards[0]) else None
  }

  // genFitCheck: inst with mib reserved fits beside the loaded LLMs and the
  // other instances.
  predicate FitCheck(w: World, b: Backend, mib: int) {
    mib <= 0
    || var card := CardOf(w.cards, b.gpu);
       card.Some? ==> LoadOn(w.llms, b.gpu, "") + mib <= Budget(card.value, ReservedOn(w.bs, b.gpu, b.id, w.evict))
  }

  // genRoomMiB: the most inst may have on its card.
  function RoomFor(w: World, b: Backend): Option<nat> {
    var card := CardOf(w.cards, b.gpu);
    if card.None? then None
    else Some(Max(0, Budget(card.value, ReservedOn(w.bs, b.gpu, b.id, w.evict)) - LoadOn(w.llms, b.gpu, "")))
  }

  const RESERVE_SLACK := 512
  const MEASURE_OVERHEAD := 1024

  function CapReservation(suggest: int, peak: int, room: int): (r: int) {
    if suggest <= room - RESERVE_SLACK then suggest else Max(room - RESERVE_SLACK, Min(peak, room))
  }

  // The reservation a measurement suggests.
  function Suggestion(w: World, b: Backend, found: Measured): (r: nat) {
    var suggest := Max(found.suggested, found.budget);
    var room := RoomFor(w, b);
    if !found.kind.Music? && room.Some? then CapReservation(suggest, found.peak, room.value) else suggest
  }

  // applyMeasurement, on the instance as it is with its process stopped.
  function Applied(w: World, b: Backend, found: Measured): Backend {
    var room := RoomFor(w, b);
    var refused := b.(enabled := b.enabled && b.reserved != 0);
    if found.kind.Video? && room.Some? && found.peak > room.value + MEASURE_OVERHEAD then refused
    else if b.reserved != 0 && !found.kind.Video? then b
    else if !FitCheck(w, b, Suggestion(w, b, found)) then refused
    else b.(reserved := Suggestion(w, b, found))
  }

  // The check a load passes (reservationFitError), replacing the loaded models
  // when the router keeps one at a time.
  predicate LoadPasses(w: World, m: Llm, replacing: bool) {
    FirstFull(Setup(m, w.cards, [], w.evict, 0, false, Idle0()), w.bs, if replacing then [] else w.llms, w.cards).None?
  }

  function Idle0(): LlmRoom.World {
    LlmRoom.World(_ => true, (_, _) => false, (_, _) => 0, (_, _) => Gone)
  }

  // ----- steps -----

  function New(id: Id, gpu: Gpu): Backend {
    Backend(id, gpu, 0, true, false, false, false, None, false)
  }

  // A step that is refused or not enabled changes nothing.
  function Step(w: World, a: Action): World {
    match a
    case Create(id, gpu) => if id == "" || Find(w.bs, id).Some? then w else w.(bs := w.bs + [New(id, gpu)])
    case LoadLlm(m, replacing) =>
      if m.id == "" || !LoadPasses(w, m, replacing) then w
      else w.(llms := (if replacing then [] else Without(w.llms, m.id)) + [m])
    case UnloadLlm(id) => w.(llms := Without(w.llms, id))
    case Delete(id) =>
      var b := Find(w.bs, id);
      if b.None? || b.value.active then w else w.(bs := Cut(w.bs, id))
    case On(id, change) => OnInstance(w, id, change)
  }

  function OnInstance(w: World, id: Id, change: Change): World {
    var b := Find(w.bs, id);
    if b.None? then w else w.(bs := Put(w.bs, Changed(w, b.value, change)))
  }

  // An instance after a change.
  function Changed(w: World, b: Backend, a: Change): Backend {
    match a
    case Edit(gpu, differs, measuring) =>
      if b.active || measuring then b else if differs || gpu != b.gpu then b.(gpu := gpu, reserved := 0) else b
    case Enable =>
      if (w.evict && !b.keepRunning) || FitCheck(w, b, b.reserved) then b.(enabled := true) else b
    case Disable => Stopped(b).(enabled := false)
    case KeepRunning =>
      if b.enabled && !b.active && !FitCheck(w, b, b.reserved) then b else b.(keepRunning := true)
    case AllowStop => b.(keepRunning := false)
    case SetReservation(mib) =>
      if b.enabled && (!w.evict || b.keepRunning) && !FitCheck(w, b, mib) then b else b.(reserved := mib)
    case ApplyMeasurement(found) => Applied(w.(bs := Put(w.bs, Stopped(b))), Stopped(b), found)
    case Start(free, launches) =>
      if !b.enabled || !free || b.reserved == 0 || b.active || !FitCheck(w, b, b.reserved) || !launches then b
      else b.(active := true, hasPid := true, reading := None)
    case Exit => Stopped(b)
    case Reading(reading) =>
      // A running backend stays within what is counted for it.
      if !b.hasPid || (reading.Some? && reading.value > b.Share()) then b else b.(reading := reading)
  }

  function Run(w: World, acts: seq<Action>): World
    decreases |acts|
  {
    if acts == [] then w else Run(Step(w, acts[0]), acts[1..])
  }

  // ----- what a change does -----

  // The instance with that id after a step.
  lemma ChangedIsFound(w: World, id: Id, change: Change)
    requires UniqueIds(w.bs) && Find(w.bs, id).Some?
    ensures var b, b' := Find(w.bs, id).value, Find(Step(w, On(id, change)).bs, id);
      b' == Some(Changed(w, b, change))
  {
    var b := Find(w.bs, id).value;
    ChangeKeepsId(w, b, change);
    FoundAgain(w.bs, Changed(w, b, change));
    hide Changed;
  }

  lemma ChangeKeepsId(w: World, b: Backend, change: Change)
    ensures Changed(w, b, change).id == b.id
  {
    hide FitCheck, RoomFor, Suggestion;
  }

  lemma {:induction false} FoundAgain(bs: seq<Backend>, b: Backend)
    requires Find(bs, b.id).Some?
    ensures Find(Put(bs, b), b.id) == Some(b)
  {
    if bs[0].id != b.id {
      FoundAgain(bs[1..], b);
      assert Put(bs, b)[1..] == Put(bs[1..], b);
    }
  }

  // An accepted edit leaves the instance on its GPU with the reservation it
  // had, or with none when it is to run differently.
  lemma EditDropsReservation(w: World, id: Id, gpu: Gpu, differs: bool, measuring: bool)
    requires UniqueIds(w.bs) && Find(w.bs, id).Some?
    ensures var b, b' := Find(w.bs, id).value, Find(Step(w, On(id, Edit(gpu, differs, measuring))).bs, id);
      b'.Some? && b'.value == if b.active || measuring then b
        else Backend(id, gpu, if differs || gpu != b.gpu then 0 else b.reserved, b.enabled, b.keepRunning,
                     b.active, b.hasPid, b.reading, b.hasTurn)
  {
    ChangedIsFound(w, id, Edit(gpu, differs, measuring));
    hide Find, Step;
  }

  // A new instance is enabled, on its GPU, with nothing reserved, so that it
  // counts for nothing until it is measured; the others stay as they are.
  lemma CreatedCountsForNothing(w: World, id: Id, gpu: Gpu, g: Gpu, activeOnly: bool)
    requires id != "" && Find(w.bs, id).None?
    ensures var w' := Step(w, Create(id, gpu));
      && w'.bs[..|w'.bs| - 1] == w.bs && w'.llms == w.llms
      && var b := w'.bs[|w'.bs| - 1];
         b.id == id && b.gpu == gpu && b.enabled && b.reserved == 0 && !b.keepRunning && !b.active && HeldBy(b) == 0
    ensures ReservedOn(Step(w, Create(id, gpu)).bs, g, "", activeOnly) == ReservedOn(w.bs, g, "", activeOnly)
  {
    var b := New(id, gpu);
    SumsOfConcat(w.bs, [b], g, "", activeOnly);
    assert [b][1..] == [];
  }

  // Only a stopped instance is deleted, and nothing else goes with it.
  lemma DeletedIsGone(w: World, id: Id, x: Backend)
    requires UniqueIds(w.bs)
    ensures x in Step(w, Delete(id)).bs <==> x in w.bs && (x.id != id || x.active)
  {
    CutIs(w.bs, id, x);
    if Find(w.bs, id).Some? && x in w.bs && x.id == id {
      SameById(w.bs, x, Find(w.bs, id).value);
    }
  }

  lemma {:induction false} CutIs(bs: seq<Backend>, id: Id, x: Backend)
    ensures x in Cut(bs, id) <==> x in bs && x.id != id
  {
    if bs != [] {
      CutIs(bs[1..], id, x);
    }
  }

  // On no card does m, with the other models planned there, go past what the
  // reservations leave of it.
  ghost predicate LeavesReserved(w: World, m: Llm, replacing: bool) {
    forall card <- w.cards ::
      var need := Planned(m, card.index) +
        SumOf(if replacing then [] else w.llms, (x: Llm) => if x.id == m.id then 0 else Planned(x, card.index));
      var reserved := VramOn(w.bs, [], card.index, "", w.evict).reserved;
      need == 0 || reserved == 0 || need <= card.base - reserved
  }

  lemma LoadPassesIs(w: World, m: Llm, replacing: bool)
    ensures LoadPasses(w, m, replacing) <==> LeavesReserved(w, m, replacing)
  {
    var c := Setup(m, w.cards, [], w.evict, 0, false, Idle0());
    var beside := if replacing then [] else w.llms;
    forall card <- w.cards
      ensures var need := Planned(m, card.index) +
          SumOf(beside, (x: Llm) => if x.id == m.id then 0 else Planned(x, card.index));
        var reserved := VramOn(w.bs, [], card.index, "", w.evict).reserved;
        IsFull(c, w.bs, beside, card) <==> need > 0 && need > card.base - reserved && reserved > 0
    {
      ShortIs(c, w.bs, beside, card);
    }
    hide IsFull, SumOf, VramOn, Planned;
  }

  // A load that passes is listed, once, and one refused changes nothing; an
  // unload takes the model off the list.
  lemma LoadsAreListed(w: World, m: Llm, replacing: bool, x: Llm)
    requires m.id != ""
    ensures var w' := Step(w, LoadLlm(m, replacing));
      if LeavesReserved(w, m, replacing) then x in w'.llms <==> x == m || (!replacing && x in w.llms && x.id != m.id)
      else w' == w
    ensures x in Step(w, UnloadLlm(m.id)).llms <==> x in w.llms && x.id != m.id
  {
    LoadPassesIs(w, m, replacing);
    hide LoadPasses, LeavesReserved;
  }

  // An instance allowed to stop is not kept running any more, and that is all.
  lemma AllowStopUnmarks(w: World, id: Id)
    requires UniqueIds(w.bs) && Find(w.bs, id).Some?
    ensures var b := Find(w.bs, id).value;
      Find(Step(w, On(id, AllowStop)).bs, id) == Some(Backend(id, b.gpu, b.reserved, b.enabled, false,
                                                              b.active, b.hasPid, b.reading, b.hasTurn))
  {
    ChangedIsFound(w, id, AllowStop);
    hide Find, Step, UniqueIds;
    AllowedIs(w, Find(w.bs, id).value);
    hide Changed;
  }

  lemma AllowedIs(w: World, b: Backend)
    ensures Changed(w, b, AllowStop) == b.(keepRunning := false)
  {
    hide FitCheck, Applied;
  }

  // What the monitor reads of a running backend, within what is counted for it,
  // is what it is taken to hold from then on.
  lemma ReadingIsHeld(w: World, id: Id, mib: nat)
    requires UniqueIds(w.bs) && Find(w.bs, id).Some?
    ensures var b := Find(w.bs, id).value;
      var b' := Find(Step(w, On(id, Reading(Some(mib)))).bs, id);
      b'.Some? && HeldBy(b'.value) == if b.hasPid && mib <= Larger(b.reserved, HeldBy(b)) then mib else HeldBy(b)
  {
    ChangedIsFound(w, id, Reading(Some(mib)));
    hide Find, Step, UniqueIds;
    ReadingHeld(w, Find(w.bs, id).value, mib);
    hide Changed, HeldBy;
  }

  lemma ReadingHeld(w: World, b: Backend, mib: nat)
    ensures HeldBy(Changed(w, b, Reading(Some(mib)))) ==
      if b.hasPid && mib <= Larger(b.reserved, HeldBy(b)) then mib else HeldBy(b)
  {
    hide FitCheck, Applied;
  }

  // A disabled instance runs no more, keeps its reservation, and counts for
  // nothing on any GPU.
  lemma DisableFrees(w: World, id: Id, g: Gpu, activeOnly: bool)
    requires UniqueIds(w.bs) && Find(w.bs, id).Some?
    ensures var b, b' := Find(w.bs, id).value, Find(Step(w, On(id, Disable)).bs, id);
      && b'.Some? && !b'.value.enabled && !b'.value.active && !b'.value.hasPid
      && b'.value.reserved == b.reserved && b'.value.gpu == b.gpu
      && !Weighs(b'.value, g, "", activeOnly)
  {
    ChangedIsFound(w, id, Disable);
    hide Find, Step;
  }

  // ----- what is kept -----

  // What b counts for on g.
  function Part(b: Backend, g: Gpu, activeOnly: bool): nat {
    if CountsOn(b, g, "", activeOnly) then b.Share() else 0
  }

  // Beside the planned LLMs, the card holds what is reserved on it.
  predicate Promised(card: Card, llm: nat, reserved: nat) {
    reserved > 0 ==> llm + reserved <= card.base
  }

  predicate Room(w: World) {
    forall card <- w.cards :: Promised(card, LoadOn(w.llms, card.index, ""), ReservedOn(w.bs, card.index, "", w.evict))
  }

  predicate Tidy(b: Backend) {
    b.id != "" && (b.hasPid ==> b.active) && (b.active ==> b.enabled) && !b.hasTurn
  }

  predicate Inv(w: World) {
    && UniqueIds(w.bs)
    && (forall b <- w.bs :: Tidy(b))
    && (forall x <- w.llms :: x.id != "")
    && (forall i, j | 0 <= i < j < |w.cards| :: w.cards[i].index != w.cards[j].index)
    && Room(w)
  }

  // With eviction on, raising the reservation of a running instance that may
  // be stopped goes unchecked; this says it was not raised past its room.
  predicate Checked(w: World, a: Action) {
    w.evict && a.On? && a.change.SetReservation? ==>
      var b := Find(w.bs, a.id);
      b.Some? ==> ChangeIsChecked(w, b.value, a.change)
  }

  predicate ChangeIsChecked(w: World, b: Backend, a: Change) {
    w.evict && a.SetReservation? ==> !b.active || b.keepRunning || FitCheck(w, b, a.mib)
  }

  predicate CheckedRun(w: World, acts: seq<Action>)
    decreases |acts|
  {
    acts == [] || (Checked(w, acts[0]) && CheckedRun(Step(w, acts[0]), acts[1..]))
  }

  // ----- sums over instances -----

  lemma {:induction false} SplitOff(bs: seq<Backend>, b: Backend, g: Gpu, activeOnly: bool)
    requires UniqueIds(bs) && b in bs && forall x <- bs :: x.id != ""
    ensures ReservedOn(bs, g, "", activeOnly) == ReservedOn(bs, g, b.id, activeOnly) + Part(b, g, activeOnly)
  {
    assert forall x <- bs[1..] :: x.id != bs[0].id;
    if bs[0] == b {
      NotThere(bs[1..], b.id, g, activeOnly);
    } else {
      SplitOff(bs[1..], b, g, activeOnly);
    }
  }

  lemma {:induction false} NotThere(bs: seq<Backend>, id: Id, g: Gpu, activeOnly: bool)
    requires forall x <- bs :: x.id != id && x.id != ""
    ensures ReservedOn(bs, g, id, activeOnly) == ReservedOn(bs, g, "", activeOnly)
  {
    if bs != [] {
      NotThere(bs[1..], id, g, activeOnly);
    }
  }

  lemma {:induction false} PutOthers(bs: seq<Backend>, b: Backend, g: Gpu, activeOnly: bool)
    ensures ReservedOn(Put(bs, b), g, b.id, activeOnly) == ReservedOn(bs, g, b.id, activeOnly)
  {
    if bs != [] {
      PutOthers(bs[1..], b, g, activeOnly);
      assert Put(bs, b)[1..] == Put(bs[1..], b);
    }
  }

  lemma {:induction false} CutOthers(bs: seq<Backend>, id: Id, g: Gpu, activeOnly: bool)
    requires id != "" && UniqueIds(bs)
    ensures ReservedOn(Cut(bs, id), g, "", activeOnly) <= ReservedOn(bs, g, "", activeOnly)
    ensures UniqueIds(Cut(bs, id)) && forall b <- Cut(bs, id) :: b in bs
  {
    hide UniqueIds;
    if bs != [] {
      RestUnique(bs);
      CutOthers(bs[1..], id, g, activeOnly);
      if bs[0].id == id {
        assert Cut(bs, id) == Cut(bs[1..], id);
      } else {
        assert Cut(bs, id)[1..] == Cut(bs[1..], id);
        OneMoreUnique(bs[0], Cut(bs[1..], id));
      }
    }
  }

  lemma PutIds(bs: seq<Backend>, b: Backend, b': Backend)
    requires UniqueIds(bs) && b in bs && b'.id == b.id
    ensures UniqueIds(Put(bs, b')) && b' in Put(bs, b') && forall x <- Put(bs, b') :: x == b' || x in bs
  {
    hide Put;
    var i :| 0 <= i < |bs| && bs[i] == b;
    var r := Put(bs, b');
    assert r[i] == b';
    forall j, k | 0 <= j < k < |r|
      ensures r[j].id != r[k].id
    {
      assert bs[j].id != bs[k].id;
    }
    hide UniqueIds;
    forall x <- r
      ensures x == b' || x in bs
    {
      var j :| 0 <= j < |r| && r[j] == x;
    }
  }

  // Changing one instance changes what is reserved by its own part.
  lemma PutReserves(bs: seq<Backend>, b: Backend, b': Backend, g: Gpu, activeOnly: bool)
    requires UniqueIds(bs) && b in bs && b'.id == b.id && b.id != "" && forall x <- bs :: x.id != ""
    ensures ReservedOn(Put(bs, b'), g, "", activeOnly) == ReservedOn(bs, g, b.id, activeOnly) + Part(b', g, activeOnly)
    ensures UniqueIds(Put(bs, b')) && b' in Put(bs, b') && forall x <- Put(bs, b') :: x == b' || x in bs
  {
    PutIds(bs, b, b');
    PutOthers(bs, b', g, activeOnly);
    hide Put, Part, ReservedOn, UniqueIds;
    SplitOff(Put(bs, b'), b', g, activeOnly);
  }

  // b's part after a change is no more than it was, or was checked.
  predicate MayBecome(w: World, b: Backend, b': Backend) {
    || Part(b', b'.gpu, w.evict) <= Part(b, b'.gpu, w.evict)
    || (Part(b', b'.gpu, w.evict) == b'.reserved && FitCheck(w, b', b'.reserved))
  }

  lemma CardKept(w: World, b: Backend, b': Backend, card: Card)
    requires Inv(w) && b'.id == b.id && MayBecome(w, b, b') && card in w.cards
    requires ReservedOn(w.bs, card.index, "", w.evict) ==
      ReservedOn(w.bs, card.index, b.id, w.evict) + Part(b, card.index, w.evict)
    ensures Promised(card, LoadOn(w.llms, card.index, ""),
      ReservedOn(w.bs, card.index, b.id, w.evict) + Part(b', card.index, w.evict))
  {
    assert Promised(card, LoadOn(w.llms, card.index, ""), ReservedOn(w.bs, card.index, "", w.evict));
    if card.index == b'.gpu {
      var found := CardOf(w.cards, card.index);
      assert found == Some(card);
    } else {
      assert Part(b', card.index, w.evict) == 0;
    }
    hide ReservedOn, LoadOn;
  }

  lemma PutKeepsRoom(w: World, b: Backend, b': Backend)
    requires Inv(w) && b in w.bs && b'.id == b.id && Tidy(b') && MayBecome(w, b, b')
    ensures Inv(w.(bs := Put(w.bs, b')))
  {
    hide ReservedOn, LoadOn, Put;
    PutReserves(w.bs, b, b', 0, w.evict);
    forall card <- w.cards
      ensures Promised(card, LoadOn(w.llms, card.index, ""), ReservedOn(Put(w.bs, b'), card.index, "", w.evict))
    {
      PutReserves(w.bs, b, b', card.index, w.evict);
      SplitOff(w.bs, b, card.index, w.evict);
      CardKept(w, b, b', card);
    }
  }

  // ----- each action -----

  lemma ChangedIsTidy(w: World, b: Backend, a: Change)
    requires Tidy(b)
    ensures Changed(w, b, a).id == b.id && Tidy(Changed(w, b, a))
  {
    hide FitCheck, Suggestion, RoomFor;
  }

  lemma ChangeMayBe(w: World, b: Backend, a: Change)
    requires Tidy(b) && ChangeIsChecked(w, b, a) && !a.ApplyMeasurement?
    ensures MayBecome(w, b, Changed(w, b, a))
  {
    assert FitCheck(w, b, b.reserved) ==>
      forall b': Backend | b'.gpu == b.gpu && b'.id == b.id && b'.reserved == b.reserved ::
        FitCheck(w, b', b'.reserved);
    assert a.SetReservation? && FitCheck(w, b, a.mib) ==> FitCheck(w, b.(reserved := a.mib), a.mib);
    hide FitCheck;
    if a.SetReservation? && FitCheck(w, b, a.mib) && a.mib < b.Using() {
      assert Part(b.(reserved := a.mib), b.gpu, w.evict) <= Part(b, b.gpu, w.evict);
    }
  }

  lemma StoppedMayBe(w: World, b: Backend)
    ensures MayBecome(w, b, Stopped(b))
  {}

  lemma AppliedMayBe(w: World, b: Backend, found: Measured)
    requires Stopped(b) == b
    ensures MayBecome(w, b, Applied(w, b, found))
  {
    var suggest := Suggestion(w, b, found);
    assert FitCheck(w, b, suggest) ==> FitCheck(w, b.(reserved := suggest), suggest);
    hide FitCheck, Suggestion, RoomFor;
  }

  lemma PutTwice(bs: seq<Backend>, b: Backend, b': Backend)
    requires b.id == b'.id
    ensures Put(Put(bs, b), b') == Put(bs, b')
  {}

  lemma InstanceStep(w: World, b: Backend, a: Change)
    requires Inv(w) && ChangeIsChecked(w, b, a) && b in w.bs
    ensures Inv(w.(bs := Put(w.bs, Changed(w, b, a))))
  {
    assert Tidy(b);
    ChangedIsTidy(w, b, a);
    hide Tidy, FitCheck, MayBecome, Put, Room, UniqueIds;
    if a.ApplyMeasurement? {
      hide Changed;
      MeasurementStep(w, b, a.found);
    } else {
      ChangeMayBe(w, b, a);
      hide Changed, Inv;
      PutKeepsRoom(w, b, Changed(w, b, a));
    }
  }

  lemma MeasurementStep(w: World, b: Backend, found: Measured)
    requires Inv(w) && b in w.bs
    ensures Inv(w.(bs := Put(w.bs, Changed(w, b, ApplyMeasurement(found)))))
  {
    assert Tidy(b);
    var s := Stopped(b);
    var w' := w.(bs := Put(w.bs, s));
    var next := Changed(w, b, ApplyMeasurement(found));
    assert next == Applied(w', s, found);
    ChangedIsTidy(w, b, ApplyMeasurement(found));
    StoppedMayBe(w, b);
    AppliedMayBe(w', s, found);
    PutIds(w.bs, b, s);
    PutTwice(w.bs, s, next);
    assert Tidy(s);
    hide Changed, Applied, Put, Stopped, Inv, Tidy, MayBecome, UniqueIds;
    PutKeepsRoom(w, b, s);
    PutKeepsRoom(w', s, next);
  }

  lemma CreateStep(w: World, id: Id, gpu: Gpu)
    requires Inv(w)
    ensures Inv(Step(w, Create(id, gpu)))
  {
    if id != "" && Find(w.bs, id).None? {
      var b := New(id, gpu);
      forall card <- w.cards
        ensures ReservedOn(w.bs + [b], card.index, "", w.evict) == ReservedOn(w.bs, card.index, "", w.evict)
      {
        SumsOfConcat(w.bs, [b], card.index, "", w.evict);
        assert ReservedOn([b], card.index, "", w.evict) == 0 by {
          assert [b][1..] == [];
        }
      }
      assert Room(w.(bs := w.bs + [b])) by {
        hide ReservedOn, LoadOn, Promised;
      }
    }
  }

  lemma {:induction false} WithoutLoad(s: seq<Llm>, id: Id, g: Gpu)
    requires forall x <- s :: x.id != ""
    ensures LoadOn(Without(s, id), g, "") == LoadOn(s, g, id) || id == ""
    ensures LoadOn(Without(s, id), g, "") <= LoadOn(s, g, "")
  {
    if s != [] {
      WithoutLoad(s[1..], id, g);
      if s[0].id == id {
        assert Without(s, id) == Without(s[1..], id);
      } else {
        assert Without(s, id)[1..] == Without(s[1..], id);
      }
    }
  }

  lemma NoLoad(g: Gpu, except: Id)
    ensures LoadOn([], g, except) == 0
  {}

  // A card after a load that passed the checks.
  lemma CardAfterLoad(w: World, m: Llm, replacing: bool, card: Card)
    requires Inv(w) && m.id != "" && LoadPasses(w, m, replacing) && card in w.cards
    ensures var others := if replacing then [] else Without(w.llms, m.id);
      Promised(card, LoadOn(others + [m], card.index, ""), ReservedOn(w.bs, card.index, "", w.evict))
  {
    hide LoadOn, ReservedOn, Without;
    NoLoad(card.index, m.id);
    NoLoad(card.index, "");
    var others := if replacing then [] else Without(w.llms, m.id);
    var beside := if replacing then [] else w.llms;
    var c := Setup(m, w.cards, [], w.evict, 0, false, Idle0());
    assert !IsFull(c, w.bs, beside, card);
    assert Promised(card, LoadOn(w.llms, card.index, ""), ReservedOn(w.bs, card.index, "", w.evict));
    LoadOfConcat(others, [m], card.index, "");
    OneLoad(m, card.index, "");
    WithoutLoad(w.llms, m.id, card.index);
    assert LoadOn(others + [m], card.index, "") == NeedOn(m, beside, card.index);
    assert ReservedBeside(c, w.bs, card.index) == ReservedOn(w.bs, card.index, "", w.evict);
  }

  lemma LoadStep(w: World, m: Llm, replacing: bool)
    requires Inv(w)
    ensures Inv(Step(w, LoadLlm(m, replacing)))
  {
    if m.id != "" && LoadPasses(w, m, replacing) {
      var others := if replacing then [] else Without(w.llms, m.id);
      var beside := if replacing then [] else w.llms;
      forall card <- w.cards
        ensures Promised(card, LoadOn(others + [m], card.index, ""), ReservedOn(w.bs, card.index, "", w.evict))
      {
        CardAfterLoad(w, m, replacing, card);
      }
    }
  }

  lemma LessKeepsRoom(w: World, w': World)
    requires Inv(w) && w'.cards == w.cards && w'.evict == w.evict
    requires forall g: Gpu :: LoadOn(w'.llms, g, "") <= LoadOn(w.llms, g, "")
    requires forall g: Gpu :: ReservedOn(w'.bs, g, "", w.evict) <= ReservedOn(w.bs, g, "", w.evict)
    ensures Room(w')
  {
    hide LoadOn, ReservedOn;
  }

  lemma GoneStep(w: World, a: Action)
    requires Inv(w) && (a.UnloadLlm? || a.Delete?)
    ensures Inv(Step(w, a))
  {
    var w' := Step(w, a);
    if a.Delete? && Find(w.bs, a.id).Some? {
      CutOthers(w.bs, a.id, 0, w.evict);
    }
    forall g: Gpu
      ensures LoadOn(w'.llms, g, "") <= LoadOn(w.llms, g, "")
      ensures ReservedOn(w'.bs, g, "", w.evict) <= ReservedOn(w.bs, g, "", w.evict)
    {
      if a.UnloadLlm? {
        WithoutLoad(w.llms, a.id, g);
      } else if Find(w.bs, a.id).Some? {
        CutOthers(w.bs, a.id, g, w.evict);
      }
    }
    LessKeepsRoom(w, w');
    hide Room, LoadOn, ReservedOn, Cut, UniqueIds, Without;
  }

  lemma StepKeepsInv(w: World, a: Action)
    requires Inv(w) && Checked(w, a)
    ensures Inv(Step(w, a)) && Step(w, a).evict == w.evict
  {
    match a
    case Create(id, gpu) => CreateStep(w, id, gpu);
    case LoadLlm(m, replacing) => LoadStep(w, m, replacing);
    case UnloadLlm(_) => GoneStep(w, a);
    case Delete(_) => GoneStep(w, a);
    case On(id, change) =>
      var b := Find(w.bs, id);
      if b.Some? {
        InstanceStep(w, b.value, change);
      }
      hide Inv, Changed, ChangeIsChecked;
  }

  lemma {:induction false} RunKeepsInv(w: World, acts: seq<Action>)
    requires Inv(w) && CheckedRun(w, acts)
    ensures Inv(Run(w, acts)) && Run(w, acts).evict == w.evict
    decreases |acts|
  {
    if acts != [] {
      StepKeepsInv(w, acts[0]);
      hide Inv, Step, Checked;
      RunKeepsInv(Step(w, acts[0]), acts[1..]);
    }
  }

  lemma {:induction false} WithoutEvictionAllIsChecked(w: World, acts: seq<Action>)
    requires !w.evict
    ensures CheckedRun(w, acts)
    decreases |acts|
  {
    if acts != [] {
      assert !Step(w, acts[0]).evict;
      WithoutEvictionAllIsChecked(Step(w, acts[0]), acts[1..]);
    }
  }

  // With eviction off, whatever has been done to instances and models, every
  // card has room for all that is reserved on it beside the planned LLMs, and
  // no enabled instance with a reservation is refused its start.
  lemma EnabledInstancesStart(w: World, acts: seq<Action>)
    requires Inv(w) && !w.evict
    ensures var w' := Run(w, acts);
      && Room(w')
      && forall b <- w'.bs | b.enabled && b.reserved > 0 ::
        FitCheck(w', b, b.reserved)
        && exists b' <- Step(w', On(b.id, Start(true, true))).bs :: b'.id == b.id && b'.active
  {
    WithoutEvictionAllIsChecked(w, acts);
    RunKeepsInv(w, acts);
    var w' := Run(w, acts);
    forall b <- w'.bs | b.enabled && b.reserved > 0
      ensures FitCheck(w', b, b.reserved)
        && exists b' <- Step(w', On(b.id, Start(true, true))).bs :: b'.id == b.id && b'.active
    {
      ItStarts(w', b);
    }
  }

  lemma ItFits(w: World, b: Backend)
    requires Inv(w) && !w.evict && b in w.bs && b.enabled && b.reserved > 0
    ensures FitCheck(w, b, b.reserved)
  {
    var card := CardOf(w.cards, b.gpu);
    SplitOff(w.bs, b, b.gpu, false);
    if card.Some? {
      assert Promised(card.value, LoadOn(w.llms, b.gpu, ""), ReservedOn(w.bs, b.gpu, "", false));
      hide ReservedOn, LoadOn;
    }
  }

  lemma ItStarts(w: World, b: Backend)
    requires Inv(w) && !w.evict && b in w.bs && b.enabled && b.reserved > 0
    ensures FitCheck(w, b, b.reserved)
    ensures exists b' <- Step(w, On(b.id, Start(true, true))).bs :: b'.id == b.id && b'.active
  {
    hide FitCheck, Find, Room;
    ItFits(w, b);
    FoundIsIt(w.bs, b);
    var b' := Changed(w, b, Start(true, true));
    PutIds(w.bs, b, b');
  }

  lemma FoundIsIt(bs: seq<Backend>, b: Backend)
    requires UniqueIds(bs) && b in bs
    ensures Find(bs, b.id) == Some(b)
  {
    var i :| 0 <= i < |bs| && bs[i] == b;
    assert forall j | 0 <= j < |bs| && j != i :: bs[j].id != b.id;
  }

  // With eviction on, setting the reservation of a running instance that may
  // be stopped goes through unchecked, and the card still has room for what
  // counts on it exactly when the check would have passed.
  lemma UncheckedRaise(w: World, b: Backend, mib: nat, card: Card)
    requires Inv(w) && w.evict && b in w.bs && b.active && !b.keepRunning && card in w.cards && card.index == b.gpu
    ensures var w' := Step(w, On(b.id, SetReservation(mib)));
      && Find(w'.bs, b.id) == Some(b.(reserved := mib))
      && (Room(w') <==> FitCheck(w, b, mib))
  {
    var b' := b.(reserved := mib);
    FoundIsIt(w.bs, b);
    RaiseIsSet(w, b, mib);
    PutIds(w.bs, b, b');
    FoundIsIt(Put(w.bs, b'), b');
    hide Step, Changed, Put, UniqueIds, Room, Tidy, FitCheck, Find;
    if FitCheck(w, b, mib) {
      StepKeepsInv(w, On(b.id, SetReservation(mib)));
    } else {
      NoRoomLeft(w, b, mib, card);
    }
  }

  lemma RaiseIsSet(w: World, b: Backend, mib: nat)
    requires w.evict && b.active && !b.keepRunning && Find(w.bs, b.id) == Some(b)
    ensures Step(w, On(b.id, SetReservation(mib))) == w.(bs := Put(w.bs, b.(reserved := mib)))
    ensures FitCheck(w, b, mib) ==> Checked(w, On(b.id, SetReservation(mib)))
  {
    hide Find, Put, FitCheck;
  }

  lemma NoRoomLeft(w: World, b: Backend, mib: nat, card: Card)
    requires Inv(w) && w.evict && b in w.bs && b.active && !FitCheck(w, b, mib) && card in w.cards
      && card.index == b.gpu
    ensures !Room(w.(bs := Put(w.bs, b.(reserved := mib))))
  {
    var b' := b.(reserved := mib);
    assert CardOf(w.cards, b.gpu) == Some(card);
    PutReserves(w.bs, b, b', b.gpu, true);
    hide ReservedOn, LoadOn, Put;
    assert Part(b', b.gpu, true) >= mib;
    assert !Promised(card, LoadOn(w.llms, b.gpu, ""), ReservedOn(Put(w.bs, b'), b.gpu, "", true));
  }

  // The check of one instance: it fits when nothing is to be reserved, when its
  // card is unknown, or when its reservation, the plans of the loaded models and
  // what the others count for are together within the card.
  lemma FitIs(w: World, b: Backend, mib: int)
    ensures FitCheck(w, b, mib) <==>
      mib <= 0 || (forall card <- w.cards :: card.index != b.gpu)
      || SumOf(w.llms, (x: Llm) => if x.id == "" then 0 else Planned(x, b.gpu)) + mib
           + VramOn(w.bs, [], b.gpu, b.id, w.evict).reserved <= CardOf(w.cards, b.gpu).value.base
  {
    LoadIs(w.llms, b.gpu, "");
  }

  // An sd-server reservation suggested by a measurement always fits where it
  // was measured, and covers the measured peak unless the card cannot. It is
  // what was found where that leaves the slack free, and otherwise the room less
  // the slack, or as much more as the peak needs.
  lemma SuggestionFits(w: World, b: Backend, found: Measured)
    requires !found.kind.Music? && RoomFor(w, b).Some?
    ensures FitCheck(w, b, Suggestion(w, b, found))
    ensures Suggestion(w, b, found) <= RoomFor(w, b).value
    ensures found.suggested >= found.peak ==> Suggestion(w, b, found) >= Min(found.peak, RoomFor(w, b).value)
    ensures var want := if found.suggested >= found.budget then found.suggested else found.budget;
      var s, room := Suggestion(w, b, found), RoomFor(w, b).value;
      if want + 512 <= room then s == want
      else s >= room - 512 && (s > room - 512 ==> s == if found.peak <= room then found.peak else room)
  {
    hide LoadOn, ReservedOn, CardOf;
  }

  // So a measurement of an sd-server instance is applied, or refused only for
  // a video whose peak is past the room and its allowance. A music instance
  // gets what was found for it, or nothing when that does not fit, and one on
  // no known card gets what was found. Only a video's changes a reservation.
  lemma MeasurementApplies(w: World, b: Backend, found: Measured)
    ensures var want := if found.suggested >= found.budget then found.suggested else found.budget;
      var refused := b.(enabled := b.enabled && b.reserved != 0);
      Applied(w, b, found) ==
        if b.reserved != 0 && !found.kind.Video? then b
        else if RoomFor(w, b).None? then b.(reserved := want)
        else if found.kind.Music? then if want <= RoomFor(w, b).value then b.(reserved := want) else refused
        else if found.kind.Video? && found.peak > RoomFor(w, b).value + 1024 then refused
        else b.(reserved := Suggestion(w, b, found))
  {
    hide CardOf, ReservedOn, LoadOn;
    if RoomFor(w, b).Some? && !found.kind.Music? {
      SuggestionFits(w, b, found);
      hide FitCheck, Suggestion, RoomFor;
    }
  }
}
