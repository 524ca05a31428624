// The handlers that change generation instances, as they run: each leaves the
// instances as the reservation machine (module Reservations) says.
module GenInstances {
  import opened Common
  import opened GpuPlan
  import opened LlmRoom
  import opened NeverFits
  import opened StopBackends
  import opened Reservations

  class Instances {
    const cards: seq<Card>
    const evict: bool
    var bs: seq<Backend>
    var llms: seq<Llm>

    constructor (cards: seq<Card>, evict: bool)
      ensures Valid() && State() == Reservations.World(cards, evict, [], [])
    {
      this.cards, this.evict := cards, evict;
      bs, llms := [], [];
    }

    ghost function State(): Reservations.World
      reads this
    {
      Reservations.World(cards, evict, bs, llms)
    }

    // Ids are unique and none is empty.
    ghost predicate Valid()
      reads this
    {
      UniqueIds(bs) && forall x <- llms :: x.id != ""
    }

    // loadedLLMMiB on one GPU.
    method LlmOn(g: Gpu) returns (mib: nat)
      requires Valid()
      ensures mib == LoadOn(llms, g, "")
    {
      mib := 0;
      for i := 0 to |llms|
        invariant mib == LoadOn(llms[..i], g, "")
      {
        assert llms[..i + 1] == llms[..i] + [llms[i]];
        LoadOfConcat(llms[..i], [llms[i]], g, "");
        OneLoad(llms[i], g, "");
        mib := mib + Load(llms[i].plan, g);
      }
      assert llms[..|llms|] == llms;
    }

    // What the card of GPU g leaves beside the others' reservations and the
    // loaded LLMs, if there is such a card.
    method LeftFor(b: Backend) returns (left: Option<int>)
      requires Valid()
      ensures left.Some? <==> CardOf(cards, b.gpu).Some?
      ensures left.Some? ==>
        var card := CardOf(cards, b.gpu).value;
        left.value == Budget(card, ReservedOn(bs, b.gpu, b.id, evict)) - LoadOn(llms, b.gpu, "")
    {
      var card := None;
      for i := 0 to |cards|
        invariant card == CardOf(cards[..i], b.gpu)
      {
        assert cards[..i + 1] == cards[..i] + [cards[i]];
        LastCard(cards[..i], cards[i], b.gpu);
        if cards[i].index == b.gpu {
          card := Some(cards[i]);
        }
      }
      assert cards[..|cards|] == cards;
      if card.None? {
        return None;
      }
      var others := GenVram(bs, [], b.id, evict);
      OthersReserve(others, bs, b, evict);
      var reserved := if b.gpu in others then others[b.gpu].reserved else 0;
      var llm := LlmOn(b.gpu);
      return Some(Budget(card.value, reserved) - llm);
    }

    method Fits(b: Backend, mib: int) returns (ok: bool)
      requires Valid()
      ensures ok == FitCheck(State(), b, mib)
    {
      if mib <= 0 {
        return true;
      }
      var left := LeftFor(b);
      return left.None? || mib <= left.value;
    }

    method Update(b: Backend)
      requires Valid() && Find(bs, b.id).Some?
      modifies this`bs
      ensures Valid() && bs == Put(old(bs), b)
    {
      PutIds(bs, Find(bs, b.id).value, b);
      bs := Put(bs, b);
    }

    method SetReservation(id: Id, mib: nat) returns (ok: bool)
      requires Valid()
      modifies this`bs
      ensures Valid() && State() == OnInstance(old(State()), id, Change.SetReservation(mib))
      ensures var b := Find(old(bs), id);
        && ok == (b.Some? &&
          (b.value.enabled && (!evict || b.value.keepRunning) ==> FitCheck(old(State()), b.value, mib)))
        && bs == if ok then Put(old(bs), b.value.(reserved := mib)) else old(bs)
    {
      hide FitCheck, Applied, Find, Put, UniqueIds, OnInstance;
      OnIs(State(), id, Change.SetReservation(mib));
      var b := Find(bs, id);
      if b.None? {
        return false;
      }
      ok := true;
      if b.value.enabled && (!evict || b.value.keepRunning) {
        ok := Fits(b.value, mib);
      }
      if ok {
        Update(b.value.(reserved := mib));
      }
    }

    method Enable(id: Id) returns (ok: bool)
      requires Valid()
      modifies this`bs
      ensures Valid() && State() == OnInstance(old(State()), id, Change.Enable)
      ensures var b := Find(old(bs), id);
        && ok == (b.Some? && ((evict && !b.value.keepRunning) || FitCheck(old(State()), b.value, b.value.reserved)))
        && bs == if ok then Put(old(bs), b.value.(enabled := true)) else old(bs)
    {
      hide FitCheck, Applied, Find, Put, UniqueIds, OnInstance;
      OnIs(State(), id, Change.Enable);
      var b := Find(bs, id);
      if b.None? {
        return false;
      }
      ok := true;
      if !evict || b.value.keepRunning {
        ok := Fits(b.value, b.value.reserved);
      }
      if ok {
        Update(b.value.(enabled := true));
      }
    }

    method KeepRunning(id: Id) returns (ok: bool)
      requires Valid()
      modifies this`bs
      ensures Valid() && State() == OnInstance(old(State()), id, Change.KeepRunning)
      ensures var b := Find(old(bs), id);
        && ok == (b.Some? && (b.value.enabled && !b.value.active ==> FitCheck(old(State()), b.value, b.value.reserved)))
        && bs == if ok then Put(old(bs), b.value.(keepRunning := true)) else old(bs)
    {
      hide FitCheck, Applied, Find, Put, UniqueIds, OnInstance;
      OnIs(State(), id, Change.KeepRunning);
      var b := Find(bs, id);
      if b.None? {
        return false;
      }
      ok := true;
      if b.value.enabled && !b.value.active {
        ok := Fits(b.value, b.value.reserved);
      }
      if ok {
        Update(b.value.(keepRunning := true));
      }
    }

    method Start(id: Id, free: bool, launches: bool) returns (ok: bool)
      requires Valid()
      modifies this`bs
      ensures Valid() && State() == OnInstance(old(State()), id, Change.Start(free, launches))
      ensures var b := Find(old(bs), id);
        && ok == (b.Some? && b.value.enabled && free && b.value.reserved != 0 && !b.value.active
          && FitCheck(old(State()), b.value, b.value.reserved) && launches)
        && bs == if ok then Put(old(bs), b.value.(active := true, hasPid := true, reading := None)) else old(bs)
    {
      hide FitCheck, Applied, Find, Put, UniqueIds, OnInstance;
      OnIs(State(), id, Change.Start(free, launches));
      var b := Find(bs, id);
      if b.None? {
        return false;
      }
      ok := false;
      if b.value.enabled && free && b.value.reserved != 0 && !b.value.active {
        ok := Fits(b.value, b.value.reserved);
      }
      ok := ok && launches;
      if ok {
        Update(b.value.(active := true, hasPid := true, reading := None));
      }
    }

    method Edit(id: Id, gpu: Gpu, differs: bool, measuring: bool) returns (ok: bool)
      requires Valid()
      modifies this`bs
      ensures Valid() && State() == OnInstance(old(State()), id, Change.Edit(gpu, differs, measuring))
      ensures var b := Find(old(bs), id); ok == (b.Some? && !b.value.active && !measuring)
    {
      hide FitCheck, Applied, Find, Put, UniqueIds, OnInstance;
      OnIs(State(), id, Change.Edit(gpu, differs, measuring));
      var b := Find(bs, id);
      if b.None? {
        return false;
      }
      ok := !b.value.active && !measuring;
      if ok && (differs || gpu != b.value.gpu) {
        Update(b.value.(gpu := gpu, reserved := 0));
      }
    }

    // The backend is stopped when its measurement is applied.
    method ApplyMeasurement(id: Id, found: Measured)
      requires Valid()
      modifies this`bs
      ensures Valid() && State() == OnInstance(old(State()), id, Change.ApplyMeasurement(found))
    {
      hide Applied, FitCheck, Find, Put, UniqueIds, OnInstance;
      OnIs(State(), id, Change.ApplyMeasurement(found));
      var inst := Find(bs, id);
      if inst.None? {
        return;
      }
      ghost var before, w := bs, State();
      var b := Stopped(inst.value);
      FoundAgain(before, b);
      hide Changed, Stopped;
      Update(b);
      assert State() == w.(bs := Put(before, b));
      var applied := Measure(b, found);
      PutTwice(before, b, applied);
      assert applied.id == b.id;
      Update(applied);
    }

    // applyMeasurement.
    method Measure(b: Backend, found: Measured) returns (r: Backend)
      requires Valid()
      ensures r == Applied(State(), b, found) && r.id == b.id
    {
      var left := LeftFor(b);
      LeftSays(State(), b, left, Suggestion(State(), b, found));
      hide CardOf, ReservedOn, LoadOn, UniqueIds, RoomFor, FitCheck, CapReservation;
      if found.kind.Video? && left.Some? && found.peak > Max(0, left.value) + MEASURE_OVERHEAD {
        return b.(enabled := b.enabled && b.reserved != 0);
      }
      if b.reserved != 0 && !found.kind.Video? {
        return b;
      }
      var suggest := Max(found.suggested, found.budget);
      if !found.kind.Music? && left.Some? {
        suggest := CapReservation(suggest, found.peak, Max(0, left.value));
      }
      if suggest <= 0 || left.None? || suggest <= left.value {
        return b.(reserved := suggest);
      }
      return b.(enabled := b.enabled && b.reserved != 0);
    }
  }

  // What is left for an instance says its room and whether mib fits.
  lemma LeftSays(w: Reservations.World, b: Backend, left: Option<int>, mib: int)
    requires left.Some? <==> CardOf(w.cards, b.gpu).Some?
    requires left.Some? ==>
      var card := CardOf(w.cards, b.gpu).value;
      left.value == Budget(card, ReservedOn(w.bs, b.gpu, b.id, w.evict)) - LoadOn(w.llms, b.gpu, "")
    ensures RoomFor(w, b) == if left.Some? then Some(Max(0, left.value)) else None
    ensures FitCheck(w, b, mib) <==> mib <= 0 || left.None? || mib <= left.value
  {
    hide CardOf, ReservedOn, LoadOn;
  }

  // What a step on one instance comes to, also when it changes nothing.
  lemma OnIs(w: Reservations.World, id: Id, change: Change)
    requires UniqueIds(w.bs)
    ensures var b := Find(w.bs, id);
      if b.None? then OnInstance(w, id, change) == w
      else
        && b.value.id == id && Put(w.bs, b.value) == w.bs
        && OnInstance(w, id, change) == w.(bs := Put(w.bs, Changed(w, b.value, change)))
  {
    hide Changed, Put;
    if Find(w.bs, id).Some? {
      SameAgain(w.bs, id);
    }
  }

  lemma {:induction false} LastCard(cards: seq<Card>, card: Card, g: Gpu)
    ensures CardOf(cards + [card], g) == if card.index == g then Some(card) else CardOf(cards, g)
  {
    if cards == [] {
      assert cards + [card] == [card] && [card][1..] == [];
    } else {
      assert (cards + [card])[1..] == cards[1..] + [card];
      LastCard(cards[1..], card, g);
    }
  }

  lemma OthersReserve(out: map<Gpu, Vram>, bs: seq<Backend>, b: Backend, activeOnly: bool)
    requires IsTable(out, bs, [], b.id, activeOnly)
    ensures (if b.gpu in out then out[b.gpu].reserved else 0) == ReservedOn(bs, b.gpu, b.id, activeOnly)
  {
    assert Entry(out, b.gpu) == Row(bs, [], b.gpu, b.id, activeOnly);
    NothingOn(bs, [], b.gpu, b.id, activeOnly);
  }

  // Writing an instance back unchanged changes nothing.
  lemma {:induction false} SameAgain(bs: seq<Backend>, id: Id)
    requires Find(bs, id).Some? && UniqueIds(bs)
    ensures Put(bs, Find(bs, id).value) == bs
  {
    var b := Find(bs, id).value;
    forall i | 0 <= i < |bs|
      ensures Put(bs, b)[i] == bs[i]
    {
      if bs[i].id == id {
        var j :| 0 <= j < |bs| && bs[j] == b;
      }
    }
  }
}
