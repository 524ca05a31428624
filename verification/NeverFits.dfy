// Refusing an LLM before anything is unloaded for it (neverFits), and what
// that promises about the checks that follow (reservationFitError).
module NeverFits {
  import opened Common
  import opened GpuPlan
  import opened LlmRoom
  import opened StopBackends

  datatype Verdict = Never(gpu: Gpu) | Maybe(busyBlocked: bool)

  // x answers a request or is loading, so it is not unloaded.
  predicate Stays(c: Setup, t: nat, x: Llm) {
    x.id != c.m.id && (x.loading || c.w.busy(t, x.id))
  }

  function Staying(c: Setup, t: nat, s: seq<Llm>): seq<Llm> {
    if s == [] then [] else (if Stays(c, t, s[0]) then [s[0]] else []) + Staying(c, t, s[1..])
  }

  // What stays is, beside the model to load, exactly what unloading idle models
  // cannot take at that moment.
  lemma {:induction false} StayingIsNotIdle(c: Setup, t: nat, s: seq<Llm>, x: Llm)
    requires c.w.answers(t)
    ensures x in Staying(c, t, s) <==> x in s && x.id != c.m.id && !Eligible(c, s, t, None, x)
  {
    if s != [] {
      StayingIsNotIdle(c, t, s[1..], x);
    }
  }

  // A model that stays is planned on g.
  predicate BusyOn(c: Setup, t: nat, s: seq<Llm>, g: Gpu) {
    exists x <- s :: Stays(c, t, x) && g in x.plan
  }

  // What counts against g and cannot be freed.
  function KeptOn(c: Setup, bs: seq<Backend>, g: Gpu): int {
    ReservedBeside(c, bs, g) - if c.evict then EvictableOn(bs, g, "", c.evict) else 0
  }

  // m's plan does not fit on card even with everything gone that may go.
  predicate Overrun(c: Setup, bs: seq<Backend>, s: seq<Llm>, t: nat, card: Card) {
    Load(c.m.plan, card.index) > 0
      && NeedOn(c.m, Staying(c, t, s), card.index) > Budget(card, KeptOn(c, bs, card.index))
  }

  predicate Refuses(c: Setup, bs: seq<Backend>, s: seq<Llm>, t: nat, card: Card) {
    Overrun(c, bs, s, t, card) && KeptOn(c, bs, card.index) > 0
  }

  predicate Blocks(c: Setup, bs: seq<Backend>, s: seq<Llm>, t: nat, card: Card) {
    Overrun(c, bs, s, t, card) && KeptOn(c, bs, card.index) <= 0 && BusyOn(c, t, s, card.index)
  }

  // neverFits, over the cards from the first.
  function VerdictOn(c: Setup, bs: seq<Backend>, s: seq<Llm>, t: nat, cards: seq<Card>): (v: Verdict)
    ensures v.Never? ==> exists card <- cards :: card.index == v.gpu && Refuses(c, bs, s, t, card)
    ensures v.Maybe? ==> forall card <- cards :: !Refuses(c, bs, s, t, card)
    ensures v.Maybe? ==> (v.busyBlocked <==> exists card <- cards :: Blocks(c, bs, s, t, card))
  {
    if cards == [] then Maybe(false)
    else if Refuses(c, bs, s, t, cards[0]) then Never(cards[0].index)
    else
      var rest := VerdictOn(c, bs, s, t, cards[1..]);
      assert forall card :: card in cards <==> card == cards[0] || card in cards[1..];
      if rest.Maybe? && Blocks(c, bs, s, t, cards[0]) then Maybe(true) else rest
  }

  // ----- the check as it runs -----

  // addLLMMiB.
  method AddPlan(before: Plan, plan: Plan) returns (after: Plan)
    ensures after.Keys == before.Keys + plan.Keys
    ensures forall g: Gpu :: Load(after, g) == Load(before, g) + Load(plan, g)
  {
    after := before;
    var left := plan.Keys;
    while left != {}
      invariant left <= plan.Keys && after.Keys == before.Keys + (plan.Keys - left)
      invariant forall g: Gpu :: Load(after, g) == Load(before, g) + if g in left then 0 else Load(plan, g)
    {
      var g :| g in left;
      after := after[g := Load(after, g) + plan[g]];
      left := left - {g};
    }
  }

  // seen is what the router listed at tick t.
  method Check(c: Setup, bs: seq<Backend>, seen: seq<Llm>, t: nat) returns (v: Verdict)
    ensures v == VerdictOn(c, bs, seen, t, c.cards)
  {
    var stay, busy := c.m.plan, {};
    for i := 0 to |seen|
      invariant forall g: Gpu :: Load(stay, g) == NeedOn(c.m, Staying(c, t, seen[..i]), g)
      invariant forall g: Gpu :: g in busy <==> BusyOn(c, t, seen[..i], g)
    {
      var x := seen[i];
      OneMoreStays(c, t, seen, i);
      if x.id == c.m.id {
        continue;
      }
      if !x.loading && !c.w.busy(t, x.id) {
        continue;
      }
      stay := AddPlan(stay, x.plan);
      busy := busy + x.plan.Keys;
    }
    assert seen[..|seen|] == seen;
    var byGpu := GenVram(bs, c.forks, "", c.evict);
    var blocked := false;
    hide IsTable, Entry, Row;
    for i := 0 to |c.cards|
      invariant VerdictOn(c, bs, seen, t, c.cards[..i]) == Maybe(blocked)
    {
      var card := c.cards[i];
      OneMoreCard(c, bs, seen, t, i);
      if Load(c.m.plan, card.index) == 0 {
        continue;
      }
      var kept := 0;
      RowIs(byGpu, c, bs, card.index);
      if card.index in byGpu {
        var v := byGpu[card.index];
        kept := v.reserved - if c.evict then v.evictable else 0;
      }
      if Load(stay, card.index) <= Budget(card, kept) {
        continue;
      }
      if kept <= 0 {
        if card.index in busy {
          blocked := true;
        }
        continue;
      }
      Earlier(c, bs, seen, t, i);
      return Never(card.index);
    }
    assert c.cards[..|c.cards|] == c.cards;
    return Maybe(blocked);
  }

  lemma RowIs(byGpu: map<Gpu, Vram>, c: Setup, bs: seq<Backend>, g: Gpu)
    requires IsTable(byGpu, bs, c.forks, "", c.evict)
    ensures if g in byGpu then KeptOn(c, bs, g) == byGpu[g].reserved - (if c.evict then byGpu[g].evictable else 0)
      else KeptOn(c, bs, g) == 0
  {
    assert Entry(byGpu, g) == Row(bs, c.forks, g, "", c.evict);
    NothingOn(bs, c.forks, g, "", c.evict);
  }

  lemma {:induction false} StayingOfConcat(c: Setup, t: nat, a: seq<Llm>, b: seq<Llm>)
    ensures Staying(c, t, a + b) == Staying(c, t, a) + Staying(c, t, b)
  {
    if a == [] {
      assert a + b == b;
    } else {
      assert (a + b)[1..] == a[1..] + b;
      StayingOfConcat(c, t, a[1..], b);
    }
  }

  lemma {:induction false} LoadOfConcat(a: seq<Llm>, b: seq<Llm>, g: Gpu, except: Id)
    ensures LoadOn(a + b, g, except) == LoadOn(a, g, except) + LoadOn(b, g, except)
  {
    if a == [] {
      assert a + b == b;
    } else {
      assert (a + b)[1..] == a[1..] + b;
      LoadOfConcat(a[1..], b, g, except);
    }
  }

  lemma OneMoreStays(c: Setup, t: nat, seen: seq<Llm>, i: nat)
    requires i < |seen|
    ensures forall g: Gpu ::
      NeedOn(c.m, Staying(c, t, seen[..i + 1]), g) ==
      NeedOn(c.m, Staying(c, t, seen[..i]), g) + if Stays(c, t, seen[i]) then Load(seen[i].plan, g) else 0
    ensures forall g: Gpu ::
      BusyOn(c, t, seen[..i + 1], g) <==> BusyOn(c, t, seen[..i], g) || (Stays(c, t, seen[i]) && g in seen[i].plan)
  {
    var x := seen[i];
    assert seen[..i + 1] == seen[..i] + [x];
    StayingOfConcat(c, t, seen[..i], [x]);
    assert Staying(c, t, [x]) == if Stays(c, t, x) then [x] else [];
    forall g: Gpu
      ensures NeedOn(c.m, Staying(c, t, seen[..i + 1]), g) ==
        NeedOn(c.m, Staying(c, t, seen[..i]), g) + if Stays(c, t, x) then Load(x.plan, g) else 0
    {
      LoadOfConcat(Staying(c, t, seen[..i]), Staying(c, t, [x]), g, c.m.id);
    }
  }

  // The verdict on a list of cards is the first refusal, or whether any blocks.
  lemma {:induction false} VerdictOfConcat(c: Setup, bs: seq<Backend>, s: seq<Llm>, t: nat, a: seq<Card>, b: seq<Card>)
    requires VerdictOn(c, bs, s, t, a).Maybe?
    ensures var va, vb := VerdictOn(c, bs, s, t, a), VerdictOn(c, bs, s, t, b);
      VerdictOn(c, bs, s, t, a + b) == if vb.Never? then vb else Maybe(va.busyBlocked || vb.busyBlocked)
  {
    if a == [] {
      assert a + b == b;
    } else {
      assert (a + b)[1..] == a[1..] + b;
      hide Refuses, Blocks;
      VerdictOfConcat(c, bs, s, t, a[1..], b);
    }
  }

  lemma OneMoreCard(c: Setup, bs: seq<Backend>, s: seq<Llm>, t: nat, i: nat)
    requires i < |c.cards| && VerdictOn(c, bs, s, t, c.cards[..i]).Maybe?
    ensures var v := VerdictOn(c, bs, s, t, c.cards[..i]);
      VerdictOn(c, bs, s, t, c.cards[..i + 1]) ==
      if Refuses(c, bs, s, t, c.cards[i]) then Never(c.cards[i].index)
      else Maybe(v.busyBlocked || Blocks(c, bs, s, t, c.cards[i]))
  {
    hide Refuses, Blocks;
    assert c.cards[..i + 1] == c.cards[..i] + [c.cards[i]];
    VerdictOfConcat(c, bs, s, t, c.cards[..i], [c.cards[i]]);
    assert VerdictOn(c, bs, s, t, []) == Maybe(false);
  }

  lemma Earlier(c: Setup, bs: seq<Backend>, s: seq<Llm>, t: nat, i: nat)
    requires i < |c.cards| && VerdictOn(c, bs, s, t, c.cards[..i]).Maybe? && Refuses(c, bs, s, t, c.cards[i])
    ensures VerdictOn(c, bs, s, t, c.cards) == Never(c.cards[i].index)
  {
    hide Refuses, Blocks;
    assert c.cards == c.cards[..i] + c.cards[i..];
    VerdictOfConcat(c, bs, s, t, c.cards[..i], c.cards[i..]);
  }

  // ----- what the verdict means -----

  function WithoutAll(s: seq<Llm>, gone: set<Id>): (r: seq<Llm>)
    ensures forall x :: x in r <==> x in s && x.id !in gone
  {
    if s == [] then [] else (if s[0].id in gone then [] else [s[0]]) + WithoutAll(s[1..], gone)
  }

  // No model that stays is unloaded, and only backends that may go are
  // stopped, and those only with eviction on.
  ghost predicate MayGo(c: Setup, bs: seq<Backend>, s: seq<Llm>, t: nat, gone: set<Id>, stopped: set<Id>) {
    && (forall x <- s | x.id in gone :: !Stays(c, t, x))
    && (forall b <- bs | b.id in stopped :: !b.keepRunning)
    && (stopped != {} ==> c.evict)
  }

  lemma {:induction false} StayersStay(c: Setup, t: nat, s: seq<Llm>, gone: set<Id>, g: Gpu)
    requires forall x <- s | x.id in gone :: !Stays(c, t, x)
    ensures LoadOn(Staying(c, t, s), g, c.m.id) <= LoadOn(WithoutAll(s, gone), g, c.m.id)
  {
    if s != [] {
      StayersStay(c, t, s[1..], gone, g);
      LoadOfConcat(if Stays(c, t, s[0]) then [s[0]] else [], Staying(c, t, s[1..]), g, c.m.id);
      LoadOfConcat(if s[0].id in gone then [] else [s[0]], WithoutAll(s[1..], gone), g, c.m.id);
    }
  }

  lemma {:induction false} KeptIsKept(bs: seq<Backend>, g: Gpu, activeOnly: bool, stopped: set<Id>)
    requires forall b <- bs | b.id in stopped :: !b.keepRunning
    ensures ReservedOn(bs, g, "", activeOnly) - EvictableOn(bs, g, "", activeOnly) <=
      ReservedOn(After(bs, stopped), g, "", activeOnly)
    ensures EvictableOn(bs, g, "", activeOnly) <= ReservedOn(bs, g, "", activeOnly)
  {
    if bs != [] {
      KeptIsKept(bs[1..], g, activeOnly, stopped);
      assert After(bs, stopped)[1..] == After(bs[1..], stopped);
    }
  }

  // An error is final: no idle models unloaded and no backends stopped, in any
  // combination, make the plan fit on the GPU it names.
  lemma NeverMeansNever(c: Setup, bs: seq<Backend>, s: seq<Llm>, t: nat, gone: set<Id>, stopped: set<Id>)
    requires VerdictOn(c, bs, s, t, c.cards).Never? && MayGo(c, bs, s, t, gone, stopped)
    ensures exists card <- c.cards ::
      && card.index == VerdictOn(c, bs, s, t, c.cards).gpu
      && IsFull(c, After(bs, stopped), WithoutAll(s, gone), card)
  {
    var g := VerdictOn(c, bs, s, t, c.cards).gpu;
    var card :| card in c.cards && card.index == g && Refuses(c, bs, s, t, card);
    StayersStay(c, t, s, gone, g);
    KeptIsKept(bs, g, c.evict, stopped);
    if !c.evict {
      AfterNone(bs);
    }
    assert ReservedBeside(c, After(bs, stopped), g) >= KeptOn(c, bs, g);
  }

  // Every backend that may be stopped.
  function Evictable(bs: seq<Backend>): set<Id> {
    set b | b in bs && !b.keepRunning :: b.id
  }

  // The jobs of backends that may be stopped have ended, as stopping waits for
  // them.
  function TurnsOver(bs: seq<Backend>): (r: seq<Backend>)
    ensures |r| == |bs|
    ensures forall i | 0 <= i < |bs| :: r[i] == if bs[i].keepRunning then bs[i] else bs[i].(hasTurn := false)
  {
    if bs == [] then [] else [if bs[0].keepRunning then bs[0] else bs[0].(hasTurn := false)] + TurnsOver(bs[1..])
  }

  lemma {:induction false} AllFreed(bs: seq<Backend>, stopped: set<Id>, g: Gpu)
    requires forall b <- bs :: b.id in stopped <==> !b.keepRunning
    ensures ReservedOn(After(TurnsOver(bs), stopped), g, "", true) ==
      ReservedOn(bs, g, "", true) - EvictableOn(bs, g, "", true)
  {
    if bs != [] {
      AllFreed(bs[1..], stopped, g);
      assert TurnsOver(bs)[1..] == TurnsOver(bs[1..]);
      assert After(TurnsOver(bs), stopped)[1..] == After(TurnsOver(bs[1..]), stopped);
    }
  }

  // What is left when everything that may go has gone.
  function Left(c: Setup, bs: seq<Backend>): seq<Backend> {
    if c.evict then After(TurnsOver(bs), Evictable(bs)) else bs
  }

  lemma LeftReserves(c: Setup, bs: seq<Backend>, g: Gpu)
    requires UniqueIds(bs)
    ensures ReservedBeside(c, Left(c, bs), g) == KeptOn(c, bs, g)
  {
    if c.evict {
      forall b <- bs
        ensures b.id in Evictable(bs) <==> !b.keepRunning
      {
        if b.id in Evictable(bs) {
          var b' :| b' in bs && !b'.keepRunning && b'.id == b.id;
          assert b' == b;
        }
      }
      AllFreed(bs, Evictable(bs), g);
    }
  }

  // No error means that once everything that may go has gone, no reservation
  // refuses the load on a GPU its plan uses; and the load is held to be blocked
  // by busy models exactly when, even so, they leave a used GPU short.
  lemma MaybeMeansItMay(c: Setup, bs: seq<Backend>, s: seq<Llm>, t: nat)
    requires UniqueIds(bs)
    requires VerdictOn(c, bs, s, t, c.cards).Maybe?
    ensures forall card <- c.cards | Load(c.m.plan, card.index) > 0 :: !IsFull(c, Left(c, bs), Staying(c, t, s), card)
    ensures VerdictOn(c, bs, s, t, c.cards).busyBlocked <==> exists card <- c.cards ::
      Load(c.m.plan, card.index) > 0 && BusyOn(c, t, s, card.index) && IsShort(c, Left(c, bs), Staying(c, t, s), card)
  {
    forall card <- c.cards
      ensures IsShort(c, Left(c, bs), Staying(c, t, s), card) && Load(c.m.plan, card.index) > 0 <==>
        Overrun(c, bs, s, t, card)
      ensures ReservedBeside(c, Left(c, bs), card.index) == KeptOn(c, bs, card.index)
    {
      LeftReserves(c, bs, card.index);
    }
    hide Overrun, IsShort, KeptOn, ReservedBeside, BusyOn;
  }

  // neverFits looks only at the GPUs the model uses, reservationFitError at
  // all: with everything gone the load is still refused exactly when what
  // stays overruns a reservation on a GPU the model does not use.
  lemma RefusedElsewhere(c: Setup, bs: seq<Backend>, s: seq<Llm>, t: nat)
    requires UniqueIds(bs)
    requires VerdictOn(c, bs, s, t, c.cards).Maybe?
    ensures FirstFull(c, Left(c, bs), Staying(c, t, s), c.cards).Some? <==> exists card <- c.cards ::
      Load(c.m.plan, card.index) == 0 && KeptOn(c, bs, card.index) > 0
        && LoadOn(Staying(c, t, s), card.index, c.m.id) > Budget(card, KeptOn(c, bs, card.index))
  {
    MaybeMeansItMay(c, bs, s, t);
    forall card <- c.cards
      ensures ReservedBeside(c, Left(c, bs), card.index) == KeptOn(c, bs, card.index)
    {
      LeftReserves(c, bs, card.index);
    }
    hide KeptOn, LoadOn, Staying, ReservedBeside, Left;
  }

  lemma OneLoad(x: Llm, g: Gpu, except: Id)
    ensures LoadOn([x], g, except) == if x.id != except then Load(x.plan, g) else 0
  {
    assert [x][1..] == [];
  }

  lemma OneFork(f: Fork, g: Gpu)
    ensures ForkReservedOn([f], g, "") == if f.gpu == g && f.id != "" then Max(f.total, f.using) else 0
  {
    assert [f][1..] == [];
  }

  // For any model planned on GPU 0 alone, another that answers a request on
  // GPU 1, and a fork that has since taken GPU 1.
  lemma RefusedThoughNeverFitsPasses(c: Setup, other: Llm, fork: Fork)
    requires c.m.plan == map[0 := 4] && other.plan == map[1 := 4] && other.id != c.m.id
    requires c.cards == [Card(0, 8), Card(1, 8)] && c.forks == [fork] && fork.gpu == 1 && fork.total == 8
      && fork.using <= 8 && fork.id != ""
    requires c.w.busy(0, other.id)
    ensures VerdictOn(c, [], [other], 0, c.cards) == Maybe(false)
    ensures FirstFull(c, [], Staying(c, 0, [other]), c.cards) == Some(1)
  {
    var near, far := c.cards[0], c.cards[1];
    assert Staying(c, 0, [other]) == [other] by {
      assert [other][1..] == [];
    }
    OneLoad(other, 0, c.m.id);
    OneLoad(other, 1, c.m.id);
    OneFork(fork, 0);
    OneFork(fork, 1);
    hide LoadOn, Staying, ForkReservedOn;
    assert !Overrun(c, [], [other], 0, near) && !Overrun(c, [], [other], 0, far);
    assert !IsFull(c, [], [other], near) && IsFull(c, [], [other], far);
    hide *;
    assert forall card <- c.cards :: card == near || card == far;
  }

  // A load found to be blocked by busy models is sent without the reservation
  // check: GPU 0 has no reservation and a busy model in the way, so nothing is
  // unloaded, and on GPU 1 the model crowds out a kept reservation beside an
  // idle model that would have been unloaded.
  lemma BusyBlockedLoadCrowdsOut(c: Setup, busy: Llm, idle: Llm, kept: Backend)
    requires c.m.plan == map[0 := 4, 1 := 4] && busy.plan == map[0 := 8] && idle.plan == map[1 := 4]
    requires c.m.id != busy.id && c.m.id != idle.id && busy.id != idle.id
    requires c.cards == [Card(0, 8), Card(1, 8)] && c.forks == []
    requires kept.id != "" && kept.gpu == 1 && kept.reserved == 4 && kept.enabled && kept.keepRunning && !kept.hasPid
    requires c.w.busy(0, busy.id) && !c.w.busy(0, idle.id) && !idle.loading
    ensures VerdictOn(c, [kept], [busy, idle], 0, c.cards) == Maybe(true)
    ensures FirstFull(c, [kept], [busy, idle], c.cards) == Some(1)
    // Without the idle model it would fit beside the reservation.
    ensures !IsFull(c, [kept], [busy], Card(1, 8))
  {
    var near, far, s := c.cards[0], c.cards[1], [busy, idle];
    assert Staying(c, 0, s) == [busy] by {
      assert s == [busy] + [idle] && [busy][1..] == [] && [idle][1..] == [];
      StayingOfConcat(c, 0, [busy], [idle]);
      assert Staying(c, 0, [idle]) == [];
    }
    forall g: Gpu
      ensures LoadOn([busy], g, c.m.id) == Load(busy.plan, g)
        && LoadOn(s, g, c.m.id) == Load(busy.plan, g) + Load(idle.plan, g)
    {
      OneLoad(busy, g, c.m.id);
      OneLoad(idle, g, c.m.id);
      assert s == [busy] + [idle];
      LoadOfConcat([busy], [idle], g, c.m.id);
    }
    forall g: Gpu
      ensures ReservedBeside(c, [kept], g) == KeptOn(c, [kept], g) == if g == 1 then 4 else 0
    {
      assert [kept][1..] == [];
      assert ReservedOn([kept], g, "", c.evict) ==
        (if CountsOn(kept, g, "", c.evict) then kept.Share() else 0) + ReservedOn([], g, "", c.evict);
      assert EvictableOn([kept], g, "", c.evict) == EvictableOn([], g, "", c.evict);
    }
    hide LoadOn, Staying, ReservedBeside, KeptOn;
    assert BusyOn(c, 0, s, 0) by {
      assert busy in s;
    }
    assert Blocks(c, [kept], s, 0, near) && !Refuses(c, [kept], s, 0, near) && !Refuses(c, [kept], s, 0, far);
    assert !IsFull(c, [kept], s, near) && IsFull(c, [kept], s, far) && !IsFull(c, [kept], [busy], far);
    hide *;
    assert forall card <- c.cards :: card == near || card == far;
    assert near in c.cards;
  }
}
