// Making room for an LLM by unloading idle ones, least recently used first
// (idleLLMsByLRU, unloadIdleOn, unloadForLLM, makeRoomByUnloading).
module LlmRoom {
  import opened Common
  import opened GpuPlan

  // A model the router lists as loaded or loading, with its planned memory.
  datatype Llm = Llm(id: Id, loading: bool, plan: Plan)

  // What unloading a model came to: it is gone, the registry does not know
  // it, a request began to use it first, or the router did not unload it.
  datatype Tried = Gone | Unknown | InUse | Stuck

  // What the rest of the program does, by the tick of each call made to it.
  // A router that does not answer (or does not run) is seen to list nothing.
  datatype World = World(answers: nat -> bool, busy: (nat, Id) -> bool, lastUse: (nat, Id) -> int,
    unload: (nat, Id) -> Tried)

  datatype Failure =
    | ModelUnknown(id: Id)
    | NotUnloaded(id: Id)
    | AllAnswering
    | ReservationFull(gpu: Gpu)
    | HoldRefused
    | LoadRefused
    | NotListed

  // m is the model to load. memory says that toolchest, not the router's own
  // limit, decides what is unloaded.
  datatype Setup = Setup(m: Llm, cards: seq<Card>, forks: seq<Fork>, evict: bool, modelsMax: nat, memory: bool,
    w: World)

  function Seen(w: World, listed: seq<Llm>, t: nat): seq<Llm> {
    if w.answers(t) then listed else []
  }

  // ----- least recently used first -----

  // strings.Compare(a, b) <= 0.
  predicate StringLeq(a: string, b: string) {
    a == "" || (b != "" && (a[0] < b[0] || (a[0] == b[0] && StringLeq(a[1..], b[1..]))))
  }

  // a comes before b as text: it is a beginning of b, or has the smaller
  // character at the first place where they differ.
  ghost predicate ComesFirst(a: string, b: string) {
    a <= b || exists k: nat :: k < |a| && k < |b| && a[..k] == b[..k] && a[k] < b[k]
  }

  lemma {:induction false} StringLeqIs(a: string, b: string)
    ensures StringLeq(a, b) <==> ComesFirst(a, b)
  {
    if a != "" && b != "" {
      var p, q := a[1..], b[1..];
      StringLeqIs(p, q);
      forall k: nat | 0 < k <= |a| && k <= |b| && a[..k] == b[..k]
        ensures a[0] == b[0]
      {
        assert a[..k][0] == b[..k][0];
      }
      if a[0] == b[0] {
        if ComesFirst(p, q) && !(p <= q) {
          var k: nat :| k < |p| && k < |q| && p[..k] == q[..k] && p[k] < q[k];
          assert a[..k + 1] == [a[0]] + p[..k] && b[..k + 1] == [b[0]] + q[..k];
          assert a[k + 1] < b[k + 1];
        }
        if ComesFirst(a, b) && !(a <= b) {
          var k: nat :| k < |a| && k < |b| && a[..k] == b[..k] && a[k] < b[k];
          assert k > 0 && p[..k - 1] == a[..k][1..] && q[..k - 1] == b[..k][1..];
          assert p[k - 1] < q[k - 1];
        }
      } else if a[0] < b[0] {
        assert a[..0] == b[..0] && a[0] < b[0];
      }
    }
  }

  // a is unloaded before b, or they may go in either order.
  predicate Leq(w: World, t: nat, a: Llm, b: Llm) {
    w.lastUse(t, a.id) < w.lastUse(t, b.id) || (w.lastUse(t, a.id) == w.lastUse(t, b.id) && StringLeq(a.id, b.id))
  }

  predicate IsIdle(w: World, t: nat, x: Llm, except: Id) {
    !x.loading && x.id != except && !w.busy(t, x.id)
  }

  function Idle(w: World, t: nat, s: seq<Llm>, except: Id): (r: seq<Llm>)
    ensures forall x :: x in r <==> x in s && IsIdle(w, t, x, except)
  {
    if s == [] then [] else (if IsIdle(w, t, s[0], except) then [s[0]] else []) + Idle(w, t, s[1..], except)
  }

  function Insert(w: World, t: nat, x: Llm, s: seq<Llm>): (r: seq<Llm>)
    ensures (forall y :: y in r <==> y == x || y in s) && multiset(r) == multiset(s) + multiset{x}
  {
    if s == [] || Leq(w, t, x, s[0]) then
      [x] + s
    else
      assert s == [s[0]] + s[1..];
      [s[0]] + Insert(w, t, x, s[1..])
  }

  function ByLru(w: World, t: nat, s: seq<Llm>): (r: seq<Llm>)
    ensures (forall y :: y in r <==> y in s) && multiset(r) == multiset(s)
  {
    if s == [] then
      []
    else
      assert s == [s[0]] + s[1..];
      Insert(w, t, s[0], ByLru(w, t, s[1..]))
  }

  predicate LruFirst(w: World, t: nat, s: seq<Llm>) {
    forall i, j | 0 <= i < j < |s| :: Leq(w, t, s[i], s[j])
  }

  lemma {:induction false} StringTotal(a: string, b: string)
    ensures StringLeq(a, b) || StringLeq(b, a)
  {
    if a != "" && b != "" && a[0] == b[0] {
      StringTotal(a[1..], b[1..]);
    }
  }

  lemma {:induction false} StringTransitive(a: string, b: string, c: string)
    requires StringLeq(a, b) && StringLeq(b, c)
    ensures StringLeq(a, c)
  {
    if a != "" && a[0] == b[0] && b[0] == c[0] {
      StringTransitive(a[1..], b[1..], c[1..]);
    }
  }

  lemma Transitive(w: World, t: nat, a: Llm, b: Llm, c: Llm)
    requires Leq(w, t, a, b) && Leq(w, t, b, c)
    ensures Leq(w, t, a, c)
  {
    if StringLeq(a.id, b.id) && StringLeq(b.id, c.id) {
      StringTransitive(a.id, b.id, c.id);
    }
  }

  lemma {:induction false} InsertSorts(w: World, t: nat, x: Llm, s: seq<Llm>)
    requires LruFirst(w, t, s)
    ensures LruFirst(w, t, Insert(w, t, x, s))
  {
    if s != [] {
      if Leq(w, t, x, s[0]) {
        forall y <- s
          ensures Leq(w, t, x, y)
        {
          if y != s[0] {
            Transitive(w, t, x, s[0], y);
          }
        }
      } else {
        StringTotal(x.id, s[0].id);
        InsertSorts(w, t, x, s[1..]);
        assert forall y <- s[1..] :: Leq(w, t, s[0], y);
      }
    }
  }

  lemma {:induction false} ByLruIsSorted(w: World, t: nat, s: seq<Llm>)
    ensures LruFirst(w, t, ByLru(w, t, s))
  {
    if s != [] {
      ByLruIsSorted(w, t, s[1..]);
      InsertSorts(w, t, s[0], ByLru(w, t, s[1..]));
    }
  }

  // The idle models come least recently used first, ties by id, each once.
  lemma ByLruSorts(w: World, t: nat, s: seq<Llm>)
    ensures multiset(ByLru(w, t, s)) == multiset(s)
    ensures var r := ByLru(w, t, s);
      forall i, j | 0 <= i < j < |r| ::
        || w.lastUse(t, r[i].id) < w.lastUse(t, r[j].id)
        || (w.lastUse(t, r[i].id) == w.lastUse(t, r[j].id) && ComesFirst(r[i].id, r[j].id))
  {
    ByLruIsSorted(w, t, s);
    var r := ByLru(w, t, s);
    forall i, j | 0 <= i < j < |r|
      ensures Leq(w, t, r[i], r[j]) && (StringLeq(r[i].id, r[j].id) <==> ComesFirst(r[i].id, r[j].id))
    {
      StringLeqIs(r[i].id, r[j].id);
    }
    hide ByLru, ComesFirst, StringLeq, LruFirst;
  }

  // ----- unloading one idle model -----

  // x holds planned memory on one of gpus; None stands for any model at all.
  predicate HoldsOn(x: Llm, gpus: Option<seq<Gpu>>) {
    gpus.None? || exists g <- gpus.value :: Load(x.plan, g) > 0
  }

  function Without(s: seq<Llm>, id: Id): (r: seq<Llm>)
    ensures |r| <= |s| && forall x :: x in r <==> x in s && x.id != id
  {
    if s == [] then [] else (if s[0].id != id then [s[0]] else []) + Without(s[1..], id)
  }

  lemma {:induction false} WithoutShrinks(s: seq<Llm>, x: Llm)
    requires x in s
    ensures |Without(s, x.id)| < |s|
  {
    if s[0].id != x.id {
      WithoutShrinks(s[1..], x);
    }
  }

  datatype Step =
    | Unloaded(victim: Llm, t: nat)
    | NoneLeft(t: nat)
    | Failed(failure: Failure, t: nat)

  // Asks for the candidates one after another, from tick t.
  function TryEach(w: World, cands: seq<Llm>, t: nat, gpus: Option<seq<Gpu>>): (r: Step)
    ensures r.t >= t && (r.Unloaded? ==> r.victim in cands)
  {
    if cands == [] then NoneLeft(t)
    else if !HoldsOn(cands[0], gpus) then TryEach(w, cands[1..], t, gpus)
    else match w.unload(t, cands[0].id)
      case Gone => Unloaded(cands[0], t + 1)
      case Unknown => Failed(ModelUnknown(cands[0].id), t + 1)
      case Stuck => Failed(NotUnloaded(cands[0].id), t + 1)
      case InUse => TryEach(w, cands[1..], t + 1, gpus)
  }

  // unloadIdleOn: the list is made at tick t, the attempts follow it.
  function UnloadIdle(c: Setup, listed: seq<Llm>, t: nat, gpus: Option<seq<Gpu>>): (r: Step)
    ensures r.t > t && (r.Unloaded? ==> r.victim in listed)
  {
    TryEach(c.w, ByLru(c.w, t, Idle(c.w, t, Seen(c.w, listed, t), c.m.id)), t + 1, gpus)
  }

  // x may be unloaded to make room on gpus, going by the list made at t: the
  // router lists it as loaded, no request uses it, it is not the model to load,
  // and it holds planned memory on one of the GPUs.
  predicate Eligible(c: Setup, listed: seq<Llm>, t: nat, gpus: Option<seq<Gpu>>, x: Llm) {
    && c.w.answers(t) && x in listed && !x.loading && !c.w.busy(t, x.id) && x.id != c.m.id
    && (gpus.Some? ==> exists g <- gpus.value :: g in x.plan && x.plan[g] > 0)
  }

  lemma EligibleIs(c: Setup, listed: seq<Llm>, t: nat, gpus: Option<seq<Gpu>>, x: Llm)
    ensures Eligible(c, listed, t, gpus, x) <==>
      x in Idle(c.w, t, Seen(c.w, listed, t), c.m.id) && HoldsOn(x, gpus)
  {
    assert gpus.Some? ==> forall g <- gpus.value :: Load(x.plan, g) > 0 <==> g in x.plan && x.plan[g] > 0;
  }

  // A request began to use x between the ticks lo and hi.
  predicate WasTaken(w: World, x: Llm, lo: nat, hi: nat) {
    exists k | lo <= k < hi :: w.unload(k, x.id) == InUse
  }

  // One of the models tried at tick t was unloaded or stopped the search, and
  // that is all that happened to it.
  predicate Answers(w: World, x: Llm, t: nat, r: Step) {
    match r
    case Unloaded(v, _) => v == x && w.unload(t, x.id) == Gone
    case NoneLeft(_) => false
    case Failed(f, _) =>
      || (f == ModelUnknown(x.id) && w.unload(t, x.id) == Unknown)
      || (f == NotUnloaded(x.id) && w.unload(t, x.id) == Stuck)
  }

  // v is asked for before x, by the idle list made at t.
  ghost predicate GoesFirst(w: World, t: nat, v: Llm, x: Llm) {
    || w.lastUse(t, v.id) < w.lastUse(t, x.id)
    || (w.lastUse(t, v.id) == w.lastUse(t, x.id) && ComesFirst(v.id, x.id))
  }

  lemma LeqIs(w: World, t: nat, v: Llm, x: Llm)
    ensures Leq(w, t, v, x) <==> GoesFirst(w, t, v, x)
  {
    StringLeqIs(v.id, x.id);
    hide StringLeq, ComesFirst;
  }

  // x is the last one asked, and each before it in line had been taken.
  ghost predicate LastAsked(w: World, cands: seq<Llm>, t0: nat, t: nat, gpus: Option<seq<Gpu>>, x: Llm, r: Step) {
    && x in cands && HoldsOn(x, gpus) && r.t > t && Answers(w, x, r.t - 1, r)
    && forall y <- cands | HoldsOn(y, gpus) :: Leq(w, t0, x, y) || y == x || WasTaken(w, y, t, r.t)
  }

  lemma {:induction false} TryEachInOrder(w: World, cands: seq<Llm>, t0: nat, t: nat, gpus: Option<seq<Gpu>>)
    requires LruFirst(w, t0, cands)
    ensures var r := TryEach(w, cands, t, gpus);
      if r.NoneLeft? then forall x <- cands | HoldsOn(x, gpus) :: WasTaken(w, x, t, r.t)
      else exists x :: LastAsked(w, cands, t0, t, gpus, x, r)
  {
    hide HoldsOn, Leq, WasTaken, LruFirst, LastAsked;
    if cands != [] {
      var first, rest := cands[0], cands[1..];
      var r := TryEach(w, cands, t, gpus);
      assert cands == [first] + rest;
      FirstIsLeast(w, t0, cands);
      if !HoldsOn(first, gpus) {
        TryEachInOrder(w, rest, t0, t, gpus);
        if !r.NoneLeft? {
          var x :| LastAsked(w, rest, t0, t, gpus, x, r);
          AskedLater(w, first, rest, t0, t, t, gpus, x, r);
        }
      } else if w.unload(t, first.id) == InUse {
        TryEachInOrder(w, rest, t0, t + 1, gpus);
        TakenSooner(w, first, t, r.t);
        if !r.NoneLeft? {
          var x :| LastAsked(w, rest, t0, t + 1, gpus, x, r);
          AskedLater(w, first, rest, t0, t, t + 1, gpus, x, r);
        }
      } else {
        AskedFirst(w, cands, t0, t, gpus);
      }
    }
  }

  lemma FirstIsLeast(w: World, t0: nat, cands: seq<Llm>)
    requires LruFirst(w, t0, cands) && cands != []
    ensures LruFirst(w, t0, cands[1..]) && forall y <- cands :: Leq(w, t0, cands[0], y) || y == cands[0]
  {
    hide Leq;
  }

  lemma AskedFirst(w: World, cands: seq<Llm>, t0: nat, t: nat, gpus: Option<seq<Gpu>>)
    requires cands != [] && HoldsOn(cands[0], gpus) && w.unload(t, cands[0].id) != InUse
    requires forall y <- cands :: Leq(w, t0, cands[0], y) || y == cands[0]
    ensures LastAsked(w, cands, t0, t, gpus, cands[0], TryEach(w, cands, t, gpus))
  {
    hide HoldsOn, Leq, WasTaken;
  }

  lemma AskedLater(w: World, first: Llm, rest: seq<Llm>, t0: nat, t: nat, t': nat,
                   gpus: Option<seq<Gpu>>, x: Llm, r: Step)
    requires LastAsked(w, rest, t0, t', gpus, x, r) && t <= t'
    requires HoldsOn(first, gpus) ==> WasTaken(w, first, t, r.t)
    requires forall y | WasTaken(w, y, t', r.t) :: WasTaken(w, y, t, r.t)
    ensures LastAsked(w, [first] + rest, t0, t, gpus, x, r)
  {
    hide HoldsOn, Leq, WasTaken;
  }

  lemma TakenSooner(w: World, first: Llm, t: nat, hi: nat)
    requires w.unload(t, first.id) == InUse && t < hi
    ensures WasTaken(w, first, t, hi) && forall x | WasTaken(w, x, t + 1, hi) :: WasTaken(w, x, t, hi)
  {}

  // The model unloaded is the least recently used of those that hold memory on
  // the GPUs and that no request took first, ties by id; so is the one that
  // stopped the search; and when none is left, all were taken.
  lemma VictimIsLeastRecentlyUsed(c: Setup, listed: seq<Llm>, t: nat, gpus: Option<seq<Gpu>>)
    ensures var r := UnloadIdle(c, listed, t, gpus);
      if r.NoneLeft? then forall x | Eligible(c, listed, t, gpus, x) :: WasTaken(c.w, x, t + 1, r.t)
      else exists v :: IsVictim(c, listed, t, gpus, v, r)
  {
    var idle := Idle(c.w, t, Seen(c.w, listed, t), c.m.id);
    var line, r := ByLru(c.w, t, idle), UnloadIdle(c, listed, t, gpus);
    ByLruIsSorted(c.w, t, idle);
    TryEachInOrder(c.w, line, t, t + 1, gpus);
    forall x
      ensures Eligible(c, listed, t, gpus, x) <==> x in line && HoldsOn(x, gpus)
    {
      EligibleIs(c, listed, t, gpus, x);
    }
    hide Eligible, HoldsOn, ByLru, Idle, WasTaken, LruFirst;
    if !r.NoneLeft? {
      var v :| LastAsked(c.w, line, t, t + 1, gpus, v, r);
      forall x | Eligible(c, listed, t, gpus, x)
        ensures GoesFirst(c.w, t, v, x) || x == v || WasTaken(c.w, x, t + 1, r.t)
      {
        LeqIs(c.w, t, v, x);
      }
      assert IsVictim(c, listed, t, gpus, v, r);
    }
  }

  // r is what came of asking v, which was its turn: everything that goes before
  // it had been taken by requests.
  ghost predicate IsVictim(c: Setup, listed: seq<Llm>, t: nat, gpus: Option<seq<Gpu>>, v: Llm, r: Step) {
    && Eligible(c, listed, t, gpus, v) && r.t > t + 1 && Answers(c.w, v, r.t - 1, r)
    && forall x | Eligible(c, listed, t, gpus, x) ::
      GoesFirst(c.w, t, v, x) || x == v || WasTaken(c.w, x, t + 1, r.t)
  }

  // ----- planned memory -----

  // Planned memory on g of the models in s, but for except.
  function LoadOn(s: seq<Llm>, g: Gpu, except: Id): nat {
    if s == [] then 0 else (if s[0].id != except then Load(s[0].plan, g) else 0) + LoadOn(s[1..], g, except)
  }

  // With m loaded beside the models in s (llmPlannedNeed).
  function NeedOn(m: Llm, s: seq<Llm>, g: Gpu): nat {
    Load(m.plan, g) + LoadOn(s, g, m.id)
  }

  function ReservedBeside(c: Setup, bs: seq<Backend>, g: Gpu): nat {
    ReservedOn(bs, g, "", c.evict) + ForkReservedOn(c.forks, g, "")
  }

  predicate IsShort(c: Setup, bs: seq<Backend>, s: seq<Llm>, card: Card) {
    NeedOn(c.m, s, card.index) > Budget(card, ReservedBeside(c, bs, card.index))
  }

  // llmShortGPUs, over the cards from the first.
  function ShortGpus(c: Setup, bs: seq<Backend>, s: seq<Llm>, cards: seq<Card>): (r: seq<Gpu>)
    ensures r == [] <==> forall card <- cards :: !IsShort(c, bs, s, card)
    ensures forall g :: g in r <==> exists card <- cards :: card.index == g && IsShort(c, bs, s, card)
  {
    if cards == [] then []
    else
      var rest := ShortGpus(c, bs, s, cards[1..]);
      assert forall card :: card in cards <==> card == cards[0] || card in cards[1..];
      if IsShort(c, bs, s, cards[0]) then [cards[0].index] + rest else rest
  }

  // reservationFitError counts only the cards with something reserved.
  predicate IsFull(c: Setup, bs: seq<Backend>, s: seq<Llm>, card: Card) {
    ReservedBeside(c, bs, card.index) != 0 && IsShort(c, bs, s, card)
  }

  ghost function Planned(x: Llm, g: Gpu): nat {
    if g in x.plan then x.plan[g] else 0
  }

  // What the planner has on g with m loaded: its own plan and that of every
  // other model, whatever m itself had there before.
  lemma {:induction false} LoadIs(s: seq<Llm>, g: Gpu, except: Id)
    ensures LoadOn(s, g, except) == SumOf(s, (x: Llm) => if x.id == except then 0 else Planned(x, g))
  {
    if s != [] {
      LoadIs(s[1..], g, except);
    }
  }

  // A card is short when that is more than is left of it beside the
  // reservations, and full when it is short and something is reserved on it.
  lemma ShortIs(c: Setup, bs: seq<Backend>, s: seq<Llm>, card: Card)
    ensures var need := Planned(c.m, card.index) +
        SumOf(s, (x: Llm) => if x.id == c.m.id then 0 else Planned(x, card.index));
      var reserved := VramOn(bs, c.forks, card.index, "", c.evict).reserved;
      && (IsShort(c, bs, s, card) <==> need > 0 && need > card.base - reserved)
      && (IsFull(c, bs, s, card) <==> need > 0 && need > card.base - reserved && reserved > 0)
  {
    LoadIs(s, card.index, c.m.id);
  }

  // The first full GPU, which refuses the load (reservationFitError).
  function FirstFull(c: Setup, bs: seq<Backend>, s: seq<Llm>, cards: seq<Card>): (r: Option<Gpu>)
    ensures r.None? <==> forall card <- cards :: !IsFull(c, bs, s, card)
    ensures r.Some? ==> exists i | 0 <= i < |cards| ::
      cards[i].index == r.value && IsFull(c, bs, s, cards[i]) && forall j | 0 <= j < i :: !IsFull(c, bs, s, cards[j])
  {
    if cards == [] then None
    else if IsFull(c, bs, s, cards[0]) then
      Some(cards[0].index)
    else
      assert forall card :: card in cards <==> card == cards[0] || card in cards[1..];
      FirstFull(c, bs, s, cards[1..])
  }

  lemma {:induction false} WithoutLoadsLess(s: seq<Llm>, id: Id, g: Gpu, except: Id)
    ensures LoadOn(Without(s, id), g, except) <= LoadOn(s, g, except)
  {
    if s != [] {
      WithoutLoadsLess(s[1..], id, g, except);
      if s[0].id != id {
        assert Without(s, id)[1..] == Without(s[1..], id);
      } else {
        assert Without(s, id) == Without(s[1..], id);
      }
    }
  }

  // ----- makeRoomByUnloading -----

  // One model unloaded: the list it was chosen from at tick t, and the GPUs
  // that were short then.
  datatype Event = Event(listed: seq<Llm>, t: nat, gpus: Option<seq<Gpu>>)

  datatype Room = Room(listed: seq<Llm>, t: nat, result: Result<seq<Gpu>, Failure>, log: seq<Event>)

  function Logged(e: Event, r: Room): Room {
    r.(log := [e] + r.log)
  }

  // Max Loaded: unloads while the limit is reached.
  function ByCount(c: Setup, listed: seq<Llm>, t: nat): (r: Room)
    ensures r.t >= t
    decreases |listed|
  {
    if c.modelsMax == 0 then Room(listed, t, Ok([]), [])
    else if |Seen(c.w, listed, t)| < c.modelsMax then Room(listed, t + 1, Ok([]), [])
    else match UnloadIdle(c, listed, t + 1, None)
      case Failed(f, t') => Room(listed, t', Err(f), [])
      case NoneLeft(t') => Room(listed, t', Err(AllAnswering), [])
      case Unloaded(v, t') =>
        WithoutShrinks(listed, v);
        Logged(Event(listed, t + 1, None), ByCount(c, Without(listed, v.id), t'))
  }

  // Planned memory: unloads while a GPU is short.
  function ByVram(c: Setup, bs: seq<Backend>, listed: seq<Llm>, t: nat): (r: Room)
    ensures r.t > t
    decreases |listed|
  {
    var short := ShortGpus(c, bs, Seen(c.w, listed, t), c.cards);
    if short == [] then Room(listed, t + 1, Ok([]), [])
    else match UnloadIdle(c, listed, t + 1, Some(short))
      case Failed(f, t') => Room(listed, t', Err(f), [])
      case NoneLeft(t') => Room(listed, t', Ok(short), [])
      case Unloaded(v, t') =>
        WithoutShrinks(listed, v);
        Logged(Event(listed, t + 1, Some(short)), ByVram(c, bs, Without(listed, v.id), t'))
  }

  function MakeRoom(c: Setup, bs: seq<Backend>, listed: seq<Llm>, t: nat, byVram: bool): (r: Room)
    ensures r.t >= t
  {
    var a := ByCount(c, listed, t);
    if a.result.Err? || !byVram then a
    else
      var b := ByVram(c, bs, a.listed, a.t);
      b.(log := a.log + b.log)
  }

  predicate Answered(w: World, lo: nat, hi: nat) {
    forall k | lo <= k < hi :: w.answers(k)
  }

  predicate SubList(a: seq<Llm>, b: seq<Llm>) {
    |a| <= |b| && forall x <- a :: x in b
  }

  // Every model that was idle on the short GPUs at tick lo was taken by a
  // request when asked for.
  ghost predicate AllInUse(c: Setup, listed: seq<Llm>, short: seq<Gpu>, lo: nat, t: nat) {
    forall x | Eligible(c, listed, lo, Some(short), x) :: WasTaken(c.w, x, lo + 1, t)
  }

  // The last round of unloading looked at tick k, and ended at hi: nothing was
  // short, or it tried all that was idle on the short GPUs and got nothing.
  ghost predicate LastRound(c: Setup, listed: seq<Llm>, short: seq<Gpu>, k: nat, hi: nat) {
    if short == [] then hi == k + 1
    else UnloadIdle(c, listed, k + 1, Some(short)) == NoneLeft(hi) && AllInUse(c, listed, short, k + 1, hi)
  }

  // The GPUs short of planned memory are those of the last round, since lo.
  ghost predicate PlannedRoundEnds(c: Setup, bs: seq<Backend>, listed: seq<Llm>, short: seq<Gpu>, lo: nat, hi: nat) {
    exists k: nat :: lo <= k < hi && PlannedRound(c, bs, listed, short, k, hi)
  }

  ghost predicate PlannedRound(c: Setup, bs: seq<Backend>, listed: seq<Llm>, short: seq<Gpu>, k: nat, hi: nat) {
    short == ShortGpus(c, bs, Seen(c.w, listed, k), c.cards) && LastRound(c, listed, short, k, hi)
  }

  lemma NoneLeftIsLastRound(c: Setup, listed: seq<Llm>, short: seq<Gpu>, k: nat, hi: nat)
    requires short != [] && UnloadIdle(c, listed, k + 1, Some(short)) == NoneLeft(hi)
    ensures LastRound(c, listed, short, k, hi)
  {
    VictimIsLeastRecentlyUsed(c, listed, k + 1, Some(short));
    hide UnloadIdle, Eligible, WasTaken;
  }

  lemma {:induction false} ByCountEnds(c: Setup, listed: seq<Llm>, t: nat)
    ensures var r := ByCount(c, listed, t);
      && SubList(r.listed, listed)
      && (r.result.Ok? && c.modelsMax > 0 && Answered(c.w, t, r.t) ==> |r.listed| < c.modelsMax)
    decreases |listed|
  {
    if c.modelsMax > 0 && |Seen(c.w, listed, t)| >= c.modelsMax {
      var step := UnloadIdle(c, listed, t + 1, None);
      if step.Unloaded? {
        WithoutShrinks(listed, step.victim);
        ByCountEnds(c, Without(listed, step.victim.id), step.t);
      }
    }
  }

  lemma {:induction false} ByVramEnds(c: Setup, bs: seq<Backend>, listed: seq<Llm>, t: nat)
    ensures var r := ByVram(c, bs, listed, t);
      && SubList(r.listed, listed)
      && (r.result.Ok? && Answered(c.w, t, r.t) ==> r.result.value == ShortGpus(c, bs, r.listed, c.cards))
      && (r.result.Ok? ==> PlannedRoundEnds(c, bs, r.listed, r.result.value, t, r.t))
    decreases |listed|
  {
    var short := ShortGpus(c, bs, Seen(c.w, listed, t), c.cards);
    var r := ByVram(c, bs, listed, t);
    var step := UnloadIdle(c, listed, t + 1, Some(short));
    hide UnloadIdle, IsShort, AllInUse;
    if short == [] {
      assert PlannedRound(c, bs, listed, short, t, r.t);
    } else if step.NoneLeft? {
      NoneLeftIsLastRound(c, listed, short, t, step.t);
      assert PlannedRound(c, bs, listed, short, t, r.t);
    } else if step.Unloaded? {
      WithoutShrinks(listed, step.victim);
      ByVramEnds(c, bs, Without(listed, step.victim.id), step.t);
      hide PlannedRound;
    }
  }

  // makeRoomByUnloading ends with room under Max Loaded; and its last look finds
  // no GPU short of planned memory, or its last round finds every model that is
  // idle on a short one in use when asked for.
  lemma RoomIsMade(c: Setup, bs: seq<Backend>, listed: seq<Llm>, t: nat, byVram: bool)
    ensures var r := MakeRoom(c, bs, listed, t, byVram);
      && SubList(r.listed, listed)
      && (r.result.Ok? && c.modelsMax > 0 && Answered(c.w, t, r.t) ==> |r.listed| < c.modelsMax)
      && (r.result.Ok? && byVram && Answered(c.w, t, r.t) ==> r.result.value == ShortGpus(c, bs, r.listed, c.cards))
      && (r.result.Ok? && byVram ==> PlannedRoundEnds(c, bs, r.listed, r.result.value, t, r.t))
      && (r.result.Ok? && !byVram ==> r.result.value == [])
  {
    ByCountEnds(c, listed, t);
    CountLeavesNothingShort(c, listed, t);
    var a := ByCount(c, listed, t);
    ByVramEnds(c, bs, a.listed, a.t);
    hide ByCount, ByVram, PlannedRound, ShortGpus;
  }

  lemma {:induction false} CountLeavesNothingShort(c: Setup, listed: seq<Llm>, t: nat)
    ensures ByCount(c, listed, t).result.Ok? ==> ByCount(c, listed, t).result.value == []
    decreases |listed|
  {
    if c.modelsMax > 0 && |Seen(c.w, listed, t)| >= c.modelsMax {
      var step := UnloadIdle(c, listed, t + 1, None);
      if step.Unloaded? {
        WithoutShrinks(listed, step.victim);
        CountLeavesNothingShort(c, Without(listed, step.victim.id), step.t);
      }
    }
  }

  // What an event says of the model unloaded: it was the least recently used
  // that could go, for the count limit or on a GPU short at that moment.
  ghost predicate Justified(c: Setup, bs: seq<Backend>, e: Event) {
    && e.t > 0
    && var before := Seen(c.w, e.listed, e.t - 1);
    && var r := UnloadIdle(c, e.listed, e.t, e.gpus);
    && r.Unloaded?
    && IsVictim(c, e.listed, e.t, e.gpus, r.victim, r)
    && (e.gpus.None? ==> c.modelsMax > 0 && |before| >= c.modelsMax)
    && (e.gpus.Some? ==> e.gpus.value == ShortGpus(c, bs, before, c.cards) != [])
  }

  // The events lead from the first list to the last.
  ghost predicate Chain(c: Setup, listed: seq<Llm>, log: seq<Event>, last: seq<Llm>)
    decreases |log|
  {
    if log == [] then listed == last
    else log[0].listed == listed && Chain(c, Next(c, log[0]), log[1..], last)
  }

  // The list once an event's model is gone.
  function Next(c: Setup, e: Event): seq<Llm> {
    var r := UnloadIdle(c, e.listed, e.t, e.gpus);
    if r.Unloaded? then Without(e.listed, r.victim.id) else e.listed
  }

  lemma {:induction false} ChainTogether(c: Setup, a: seq<Llm>, p: seq<Event>, b: seq<Llm>, q: seq<Event>,
                                         last: seq<Llm>)
    requires Chain(c, a, p, b) && Chain(c, b, q, last)
    ensures Chain(c, a, p + q, last)
    decreases |p|
  {
    hide Next;
    if p == [] {
      assert p + q == q;
    } else {
      assert (p + q)[1..] == p[1..] + q && (p + q)[0] == p[0];
      ChainTogether(c, Next(c, p[0]), p[1..], b, q, last);
    }
  }

  lemma EventIsJustified(c: Setup, bs: seq<Backend>, listed: seq<Llm>, t: nat, gpus: Option<seq<Gpu>>)
    requires UnloadIdle(c, listed, t + 1, gpus).Unloaded?
    requires gpus.None? ==> c.modelsMax > 0 && |Seen(c.w, listed, t)| >= c.modelsMax
    requires gpus.Some? ==> gpus.value == ShortGpus(c, bs, Seen(c.w, listed, t), c.cards) != []
    ensures Justified(c, bs, Event(listed, t + 1, gpus))
  {
    hide UnloadIdle, IsVictim, ShortGpus;
    VictimIsLeastRecentlyUsed(c, listed, t + 1, gpus);
    var r := UnloadIdle(c, listed, t + 1, gpus);
    var v :| IsVictim(c, listed, t + 1, gpus, v, r);
    VictimIs(c, listed, t + 1, gpus, v, r);
  }

  lemma VictimIs(c: Setup, listed: seq<Llm>, t: nat, gpus: Option<seq<Gpu>>, v: Llm, r: Step)
    requires IsVictim(c, listed, t, gpus, v, r) && r.Unloaded?
    ensures r.victim == v
  {
    hide Eligible, GoesFirst, WasTaken;
  }

  // A justified event before a chain of them makes a longer one.
  lemma EventLeads(c: Setup, bs: seq<Backend>, e: Event, log: seq<Event>, last: seq<Llm>)
    requires Justified(c, bs, e) && Chain(c, Next(c, e), log, last) && forall x <- log :: Justified(c, bs, x)
    ensures Chain(c, e.listed, [e] + log, last) && forall x <- [e] + log :: Justified(c, bs, x)
  {
    hide Justified, Next;
    assert ([e] + log)[1..] == log;
  }

  lemma NoEvents(c: Setup, listed: seq<Llm>)
    ensures Chain(c, listed, [], listed)
  {}

  lemma {:induction false} CountVictims(c: Setup, bs: seq<Backend>, listed: seq<Llm>, t: nat)
    ensures var r := ByCount(c, listed, t);
      Chain(c, listed, r.log, r.listed) && forall e <- r.log :: Justified(c, bs, e)
    decreases |listed|
  {
    hide UnloadIdle, Justified, Chain, Without;
    NoEvents(c, listed);
    if c.modelsMax > 0 && |Seen(c.w, listed, t)| >= c.modelsMax {
      var step := UnloadIdle(c, listed, t + 1, None);
      if step.Unloaded? {
        var e, after := Event(listed, t + 1, None), Without(listed, step.victim.id);
        WithoutShrinks(listed, step.victim);
        CountVictims(c, bs, after, step.t);
        EventIsJustified(c, bs, listed, t, None);
        assert Next(c, e) == after && ByCount(c, listed, t).log == [e] + ByCount(c, after, step.t).log;
        hide Next, ByCount;
        EventLeads(c, bs, e, ByCount(c, after, step.t).log, ByCount(c, after, step.t).listed);
      }
    }
  }

  lemma {:induction false} VramVictims(c: Setup, bs: seq<Backend>, listed: seq<Llm>, t: nat)
    ensures var r := ByVram(c, bs, listed, t);
      Chain(c, listed, r.log, r.listed) && forall e <- r.log :: Justified(c, bs, e)
    decreases |listed|
  {
    hide UnloadIdle, Justified, Chain, Without;
    NoEvents(c, listed);
    var short := ShortGpus(c, bs, Seen(c.w, listed, t), c.cards);
    if short != [] {
      var step := UnloadIdle(c, listed, t + 1, Some(short));
      if step.Unloaded? {
        var e, after := Event(listed, t + 1, Some(short)), Without(listed, step.victim.id);
        WithoutShrinks(listed, step.victim);
        VramVictims(c, bs, after, step.t);
        EventIsJustified(c, bs, listed, t, Some(short));
        assert Next(c, e) == after && ByVram(c, bs, listed, t).log == [e] + ByVram(c, bs, after, step.t).log;
        hide Next, ByVram;
        EventLeads(c, bs, e, ByVram(c, bs, after, step.t).log, ByVram(c, bs, after, step.t).listed);
      }
    }
  }

  // Every model makeRoomByUnloading unloads is the right one, and it unloads
  // nothing else.
  lemma EveryVictimIsJustified(c: Setup, bs: seq<Backend>, listed: seq<Llm>, t: nat, byVram: bool)
    ensures var r := MakeRoom(c, bs, listed, t, byVram);
      Chain(c, listed, r.log, r.listed) && forall e <- r.log :: Justified(c, bs, e)
  {
    var a := ByCount(c, listed, t);
    CountVictims(c, bs, listed, t);
    VramVictims(c, bs, a.listed, a.t);
    hide Justified, Chain, Next, ByCount, ByVram;
    if a.result.Ok? && byVram {
      var b := ByVram(c, bs, a.listed, a.t);
      ChainTogether(c, listed, a.log, a.listed, b.log, b.listed);
    }
  }
}
