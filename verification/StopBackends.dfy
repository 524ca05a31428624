// Stopping generation backends to make room on a GPU (stopGenUntil), and the
// order in which loaded LLMs are taken (loadedLLMsOn).
module StopBackends {
  import opened Common
  import opened GpuPlan

  function Stopped(b: Backend): Backend {
    b.(active := false, hasPid := false, reading := None)
  }

  // The instances once those in ids have stopped.
  function After(bs: seq<Backend>, ids: set<Id>): (r: seq<Backend>)
    ensures |r| == |bs|
  {
    if bs == [] then [] else [if bs[0].id in ids then Stopped(bs[0]) else bs[0]] + After(bs[1..], ids)
  }

  // A backend that may be stopped to make room on g.
  predicate MayStop(b: Backend, g: Gpu, except: Id) {
    b.gpu == g && b.id != except && !b.keepRunning && b.active
  }

  function Candidates(bs: seq<Backend>, g: Gpu, except: Id): (r: seq<Backend>)
    ensures forall b :: b in r <==> b in bs && MayStop(b, g, except)
  {
    if bs == [] then []
    else if MayStop(bs[0], g, except) then [bs[0]] + Candidates(bs[1..], g, except)
    else Candidates(bs[1..], g, except)
  }

  predicate LargestFirst(s: seq<Backend>) {
    forall i, j | 0 <= i < j < |s| :: s[i].Share() >= s[j].Share()
  }

  function Insert(b: Backend, s: seq<Backend>): (r: seq<Backend>)
    requires LargestFirst(s)
    ensures LargestFirst(r) && |r| == |s| + 1 && forall x :: x in r <==> x == b || x in s
  {
    if s == [] || b.Share() >= s[0].Share() then [b] + s
    else
      var rest := Insert(b, s[1..]);
      assert forall x <- rest :: s[0].Share() >= x.Share();
      [s[0]] + rest
  }

  // The stable sort of the candidates, largest share first.
  function BySize(s: seq<Backend>): (r: seq<Backend>)
    ensures LargestFirst(r) && |r| == |s| && forall x :: x in r <==> x in s
  {
    if s == [] then [] else Insert(s[0], BySize(s[1..]))
  }

  function Ids(s: seq<Backend>): set<Id> {
    set b | b in s :: b.id
  }

  predicate UniqueIds(s: seq<Backend>) {
    forall i, j | 0 <= i < j < |s| :: s[i].id != s[j].id
  }

  // What counts against g with the instances bs, but for except's own.
  function Reserved(bs: seq<Backend>, fs: seq<Fork>, g: Gpu, except: Id): nat {
    ReservedOn(bs, g, except, true) + ForkReservedOn(fs, g, except)
  }

  // Less reserved never stops fitting.
  ghost predicate Monotone(fits: nat -> bool) {
    forall r: nat, r': nat :: r <= r' && fits(r') ==> fits(r)
  }

  // Stopping a backend frees its share: it counted, and no job of it has the
  // GPU, which holding the GPU's queue ensures.
  ghost predicate FreesItsShare(b: Backend) {
    (b.enabled || b.Using() != 0) && !b.hasTurn
  }

  function Total(s: seq<Backend>): nat {
    if s == [] then 0 else s[0].Share() + Total(s[1..])
  }

  // The shares of those in s whose ids are in ids.
  function Weight(s: seq<Backend>, ids: set<Id>): nat {
    if s == [] then 0 else (if s[0].id in ids then s[0].Share() else 0) + Weight(s[1..], ids)
  }

  // Which of the first k candidates stop when asked.
  function Taken(s: seq<Backend>, stops: Id -> bool, k: nat): set<Id>
    requires k <= |s|
  {
    if k == 0 then {} else if stops(s[k - 1].id) then Taken(s, stops, k - 1) + {s[k - 1].id} else Taken(s, stops, k - 1)
  }

  // The order stopGenUntil asks the candidates in.
  function Order(bs: seq<Backend>, g: Gpu, except: Id): (r: seq<Backend>)
    ensures LargestFirst(r) && forall b :: b in r <==> b in bs && MayStop(b, g, except)
  {
    BySize(Candidates(bs, g, except))
  }

  // The stop condition is asked before each candidate and may change from one
  // to the next: fits(k, r) says that r reserved leaves room when k candidates
  // have been asked. Look is what it says at that point.
  function Look(fits: (nat, nat) -> bool, k: nat): nat -> bool {
    (r: nat) => fits(k, r)
  }

  // Room was still missing before each of the first tried candidates was asked.
  ghost predicate Needed(bs: seq<Backend>, fs: seq<Fork>, g: Gpu, except: Id,
                         fits: (nat, nat) -> bool, stops: Id -> bool, tried: nat)
  {
    var order := Order(bs, g, except);
    tried <= |order| && forall j: nat | j < tried ::
      !fits(j, Reserved(After(bs, Taken(order, stops, j)), fs, g, except))
  }

  class Manager {
    var bs: seq<Backend>
    const forks: seq<Fork>

    constructor (bs: seq<Backend>, forks: seq<Fork>)
      ensures this.bs == bs && this.forks == forks
    {
      this.bs, this.forks := bs, forks;
    }

    // ok says whether the process stops.
    method Stop(id: Id, ok: bool)
      modifies this`bs
      ensures bs == if ok then After(old(bs), {id}) else old(bs)
    {
      if ok {
        bs := After(bs, {id});
      }
    }

    // Stops backends on g other than except, largest first, until fits says
    // that what is still reserved leaves room. stops says which of them stop
    // when asked. tried is how many were asked.
    method StopUntil(g: Gpu, except: Id, fits: (nat, nat) -> bool, stops: Id -> bool)
        returns (stopped: nat, tried: nat)
      requires UniqueIds(bs)
      modifies this`bs
      ensures Needed(old(bs), forks, g, except, fits, stops, tried)
      ensures var ids := Taken(Order(old(bs), g, except), stops, tried);
        bs == After(old(bs), ids) && stopped == |ids|
      ensures fits(tried, Reserved(bs, forks, g, except)) || tried == |Order(old(bs), g, except)|
    {
      ghost var bs0 := bs;
      StopsBegin(bs, forks, g, except, fits, stops);
      hide *;
      var cands := BySize(Candidates(bs, g, except));
      stopped, tried := 0, 0;
      var k := 0;
      while k < |cands|
        invariant 0 <= k == tried <= |cands| && Needed(bs0, forks, g, except, fits, stops, k)
        invariant bs == After(bs0, Taken(cands, stops, k)) && stopped == |Taken(cands, stops, k)|
      {
        if fits(k, Reserved(bs, forks, g, except)) {
          break;
        }
        var c := cands[k];
        OneMoreNeeded(bs0, forks, g, except, fits, stops, k);
        TakenStep(cands, stops, k);
        AfterTwice(bs0, Taken(cands, stops, k), {c.id});
        OneLarger(Taken(cands, stops, k), c.id);
        Stop(c.id, stops(c.id));
        if stops(c.id) {
          stopped := stopped + 1;
        }
        k, tried := k + 1, tried + 1;
      }
    }
  }

  lemma StopsBegin(bs: seq<Backend>, fs: seq<Fork>, g: Gpu, except: Id, fits: (nat, nat) -> bool, stops: Id -> bool)
    requires UniqueIds(bs)
    ensures var order := Order(bs, g, except);
      order == BySize(Candidates(bs, g, except)) && UniqueIds(order) && Taken(order, stops, 0) == {}
    ensures Needed(bs, fs, g, except, fits, stops, 0) && After(bs, {}) == bs
  {
    AfterNone(bs);
    OrderUnique(bs, g, except);
  }

  lemma OneMoreNeeded(bs: seq<Backend>, fs: seq<Fork>, g: Gpu, except: Id,
                      fits: (nat, nat) -> bool, stops: Id -> bool, k: nat)
    requires k < |Order(bs, g, except)| && Needed(bs, fs, g, except, fits, stops, k)
    requires !fits(k, Reserved(After(bs, Taken(Order(bs, g, except), stops, k)), fs, g, except))
    ensures Needed(bs, fs, g, except, fits, stops, k + 1)
  {
    hide Taken, After, Reserved, Order;
  }

  // Asked to stop, only a candidate does, and each candidate is asked once.
  lemma {:induction false} TakenStep(s: seq<Backend>, stops: Id -> bool, k: nat)
    requires k < |s| && UniqueIds(s)
    ensures Taken(s, stops, k + 1) == if stops(s[k].id) then Taken(s, stops, k) + {s[k].id} else Taken(s, stops, k)
    ensures s[k].id !in Taken(s, stops, k)
  {
    TakenAre(s, stops, k);
    assert forall i | 0 <= i < k :: s[i].id != s[k].id;
  }

  lemma {:induction false} TakenAre(s: seq<Backend>, stops: Id -> bool, k: nat)
    requires k <= |s|
    ensures Taken(s, stops, k) == set b | b in s[..k] && stops(b.id) :: b.id
  {
    if k > 0 {
      TakenAre(s, stops, k - 1);
      assert s[..k] == s[..k - 1] + [s[k - 1]];
    }
  }

  // Stopping other makes the need fit.
  ghost predicate MakesRoom(bs: seq<Backend>, fs: seq<Fork>, g: Gpu, except: Id, fits: nat -> bool, other: set<Id>) {
    other <= Ids(Candidates(bs, g, except)) && fits(Reserved(After(bs, other), fs, g, except))
  }

  // When every stop succeeds and frees its share, stopping largest first never
  // stops more backends than any choice of them that makes room, by the last
  // look that found room missing.
  lemma GreedyIsMinimal(bs: seq<Backend>, fs: seq<Fork>, g: Gpu, except: Id,
                        fits: (nat, nat) -> bool, stops: Id -> bool, tried: nat, other: set<Id>)
    requires UniqueIds(bs) && tried > 0 && Monotone(Look(fits, tried - 1))
    requires forall b <- bs | MayStop(b, g, except) :: stops(b.id) && FreesItsShare(b)
    requires Needed(bs, fs, g, except, fits, stops, tried)
    requires MakesRoom(bs, fs, g, except, Look(fits, tried - 1), other)
    ensures |Taken(Order(bs, g, except), stops, tried)| <= |other|
  {
    hide After, Taken, Order, MayStop, Monotone, Needed, MakesRoom, UniqueIds, FreesItsShare;
    var order, last := Order(bs, g, except), Look(fits, tried - 1);
    WasNeeded(bs, fs, g, except, fits, stops, tried, tried - 1);
    OrderUnique(bs, g, except);
    AllTaken(order, stops, tried);
    if |other| < tried {
      LargestMakeRoom(bs, fs, g, except, last, stops, other);
      TakenGrows(order, stops, |other|, tried - 1);
      var few, more := Taken(order, stops, |other|), Taken(order, stops, tried - 1);
      MoreStopped(bs, few, more, g, except);
      LessFits(last, Reserved(After(bs, more), fs, g, except), Reserved(After(bs, few), fs, g, except));
      assert false;
    }
  }

  lemma LessFits(f: nat -> bool, r: nat, r': nat)
    requires Monotone(f) && r <= r' && f(r')
    ensures f(r)
  {}

  lemma WasNeeded(bs: seq<Backend>, fs: seq<Fork>, g: Gpu, except: Id,
                  fits: (nat, nat) -> bool, stops: Id -> bool, tried: nat, j: nat)
    requires Needed(bs, fs, g, except, fits, stops, tried) && j < tried
    ensures tried <= |Order(bs, g, except)|
    ensures !fits(j, Reserved(After(bs, Taken(Order(bs, g, except), stops, j)), fs, g, except))
  {}

  lemma {:induction false} TakenGrows(s: seq<Backend>, stops: Id -> bool, j: nat, k: nat)
    requires j <= k <= |s|
    ensures Taken(s, stops, j) <= Taken(s, stops, k)
  {
    if j < k {
      TakenGrows(s, stops, j, k - 1);
    }
  }

  lemma MoreStopped(bs: seq<Backend>, few: set<Id>, more: set<Id>, g: Gpu, except: Id)
    requires few <= more
    ensures ReservedOn(After(bs, more), g, except, true) <= ReservedOn(After(bs, few), g, except, true)
  {
    AfterTwice(bs, few, more);
    assert few + more == more;
    AfterReservesLess(After(bs, few), more, g, except, true);
  }

  // Stopping never reserves more.
  lemma {:induction false} AfterReservesLess(bs: seq<Backend>, ids: set<Id>, g: Gpu, except: Id, activeOnly: bool)
    ensures ReservedOn(After(bs, ids), g, except, activeOnly) <= ReservedOn(bs, g, except, activeOnly)
  {
    if bs != [] {
      AfterReservesLess(bs[1..], ids, g, except, activeOnly);
      assert After(bs, ids)[1..] == After(bs[1..], ids);
    }
  }

  // When n backends make room, so do the n largest.
  lemma LargestMakeRoom(bs: seq<Backend>, fs: seq<Fork>, g: Gpu, except: Id, fits: nat -> bool, stops: Id -> bool,
                        other: set<Id>)
    requires UniqueIds(bs) && Monotone(fits)
    requires forall b <- bs | MayStop(b, g, except) :: stops(b.id) && FreesItsShare(b)
    requires MakesRoom(bs, fs, g, except, fits, other) && |other| <= |Order(bs, g, except)|
    ensures fits(Reserved(After(bs, Taken(Order(bs, g, except), stops, |other|)), fs, g, except))
  {
    var order, n := Order(bs, g, except), |other|;
    var first := Taken(order, stops, n);
    OrderUnique(bs, g, except);
    TakenAre(order, stops, n);
    assert first == Ids(order[..n]);
    Chosen(bs, g, except, first);
    Chosen(bs, g, except, other);
    ReservedAfter(bs, g, except, first);
    ReservedAfter(bs, g, except, other);
    BySizeWeight(Candidates(bs, g, except), first);
    BySizeWeight(Candidates(bs, g, except), other);
    FirstWeigh(order, n);
    HeaviestFirst(order, other, n);
    assert Reserved(After(bs, first), fs, g, except) <= Reserved(After(bs, other), fs, g, except);
  }

  lemma OrderUnique(bs: seq<Backend>, g: Gpu, except: Id)
    requires UniqueIds(bs)
    ensures UniqueIds(Order(bs, g, except))
  {
    CandidatesUnique(bs, g, except);
    BySizeUnique(Candidates(bs, g, except));
  }

  lemma {:induction false} AllTaken(s: seq<Backend>, stops: Id -> bool, k: nat)
    requires k <= |s| && UniqueIds(s) && forall b <- s :: stops(b.id)
    ensures |Taken(s, stops, k)| == k
  {
    assert Taken(s, stops, 0) == {};
    hide UniqueIds, Taken;
    if k > 0 {
      AllTaken(s, stops, k - 1);
      TakenStep(s, stops, k - 1);
      OneLarger(Taken(s, stops, k - 1), s[k - 1].id);
    }
  }

  lemma OneLarger(ids: set<Id>, id: Id)
    requires id !in ids
    ensures |ids + {id}| == |ids| + 1
  {}

  // Ids of candidates name only backends that may be stopped.
  lemma Chosen(bs: seq<Backend>, g: Gpu, except: Id, ids: set<Id>)
    requires UniqueIds(bs) && ids <= Ids(Candidates(bs, g, except))
    ensures forall b <- bs | b.id in ids :: MayStop(b, g, except)
  {}

  // Stopping backends takes exactly their shares off what counts.
  lemma {:induction false} ReservedAfter(bs: seq<Backend>, g: Gpu, except: Id, ids: set<Id>)
    requires forall b <- bs | b.id in ids :: MayStop(b, g, except) && FreesItsShare(b)
    ensures ReservedOn(bs, g, except, true) ==
      ReservedOn(After(bs, ids), g, except, true) + Weight(Candidates(bs, g, except), ids)
  {
    if bs != [] {
      ReservedAfter(bs[1..], g, except, ids);
      assert After(bs, ids)[1..] == After(bs[1..], ids);
      if MayStop(bs[0], g, except) {
        assert Candidates(bs, g, except)[1..] == Candidates(bs[1..], g, except);
      }
    }
  }

  lemma {:induction false} InsertWeight(b: Backend, s: seq<Backend>, ids: set<Id>)
    requires LargestFirst(s)
    ensures Weight(Insert(b, s), ids) == Weight([b] + s, ids)
  {
    assert ([b] + s)[1..] == s;
    if s != [] && b.Share() < s[0].Share() {
      InsertWeight(b, s[1..], ids);
      assert ([b] + s[1..])[1..] == s[1..];
      assert Insert(b, s)[1..] == Insert(b, s[1..]);
    }
  }

  lemma {:induction false} BySizeWeight(s: seq<Backend>, ids: set<Id>)
    ensures Weight(BySize(s), ids) == Weight(s, ids)
  {
    if s != [] {
      BySizeWeight(s[1..], ids);
      InsertWeight(s[0], BySize(s[1..]), ids);
      assert ([s[0]] + BySize(s[1..]))[1..] == BySize(s[1..]);
    }
  }

  lemma {:induction false} WeightWithout(s: seq<Backend>, ids: set<Id>, id: Id)
    requires forall b <- s :: b.id != id
    ensures Weight(s, ids + {id}) == Weight(s, ids) == Weight(s, ids - {id})
  {
    if s != [] {
      WeightWithout(s[1..], ids, id);
    }
  }

  lemma {:induction false} FirstWeigh(s: seq<Backend>, n: nat)
    requires n <= |s| && UniqueIds(s)
    ensures Weight(s, Ids(s[..n])) == Total(s[..n])
  {
    if n > 0 {
      FirstWeigh(s[1..], n - 1);
      assert s[..n][1..] == s[1..][..n - 1] && s[..n] == [s[0]] + s[1..][..n - 1];
      assert Ids(s[..n]) == Ids(s[1..][..n - 1]) + {s[0].id};
      WeightWithout(s[1..], Ids(s[1..][..n - 1]), s[0].id);
    } else {
      NothingWeighs(s);
      assert Ids(s[..0]) == {};
    }
  }

  lemma {:induction false} NothingWeighs(s: seq<Backend>)
    ensures Weight(s, {}) == 0
  {
    if s != [] {
      NothingWeighs(s[1..]);
    }
  }

  // No n backends weigh more than the n largest.
  lemma {:induction false} HeaviestFirst(s: seq<Backend>, ids: set<Id>, n: nat)
    requires LargestFirst(s) && UniqueIds(s) && |ids| <= n <= |s|
    ensures Weight(s, ids) <= Total(s[..n])
  {
    if n == 0 {
      NothingWeighs(s);
    } else {
      var rest := s[1..];
      assert s[..n][1..] == rest[..n - 1];
      if s[0].id in ids {
        WeightWithout(rest, ids, s[0].id);
        HeaviestFirst(rest, ids - {s[0].id}, n - 1);
      } else if n == |s| {
        Lighter(rest, ids);
        assert s[..n] == s;
      } else {
        HeaviestFirst(rest, ids, n);
        Shift(s, n);
      }
    }
  }

  lemma {:induction false} Lighter(s: seq<Backend>, ids: set<Id>)
    ensures Weight(s, ids) <= Total(s)
  {
    if s != [] {
      Lighter(s[1..], ids);
    }
  }

  lemma {:induction false} Shift(s: seq<Backend>, n: nat)
    requires LargestFirst(s) && n < |s|
    ensures Total(s[1..][..n]) <= Total(s[..n])
  {
    if n > 0 {
      assert s[1..][..n][1..] == s[1..][1..][..n - 1] && s[..n][1..] == s[1..][..n - 1];
      Shift(s[1..], n - 1);
    }
  }

  lemma {:induction false} AfterNone(bs: seq<Backend>)
    ensures After(bs, {}) == bs
  {
    if bs != [] {
      AfterNone(bs[1..]);
    }
  }

  lemma {:induction false} AfterTwice(bs: seq<Backend>, a: set<Id>, b: set<Id>)
    ensures After(After(bs, a), b) == After(bs, a + b)
  {
    if bs != [] {
      AfterTwice(bs[1..], a, b);
      assert After(bs, a)[1..] == After(bs[1..], a);
    }
  }

  lemma RestUnique(s: seq<Backend>)
    requires UniqueIds(s) && s != []
    ensures UniqueIds(s[1..]) && forall b <- s[1..] :: b.id != s[0].id
  {}

  lemma OneMoreUnique(b: Backend, s: seq<Backend>)
    requires UniqueIds(s) && forall x <- s :: x.id != b.id
    ensures UniqueIds([b] + s)
  {}

  lemma {:induction false} CandidatesUnique(bs: seq<Backend>, g: Gpu, except: Id)
    requires UniqueIds(bs)
    ensures UniqueIds(Candidates(bs, g, except))
  {
    if bs != [] {
      RestUnique(bs);
      CandidatesUnique(bs[1..], g, except);
      if MayStop(bs[0], g, except) {
        OneMoreUnique(bs[0], Candidates(bs[1..], g, except));
      }
    }
  }

  lemma {:induction false} InsertUnique(b: Backend, s: seq<Backend>)
    requires UniqueIds(s) && LargestFirst(s) && forall x <- s :: x.id != b.id
    ensures UniqueIds(Insert(b, s))
  {
    hide UniqueIds;
    if s != [] && b.Share() < s[0].Share() {
      RestUnique(s);
      InsertUnique(b, s[1..]);
      OneMoreUnique(s[0], Insert(b, s[1..]));
    } else {
      OneMoreUnique(b, s);
    }
  }

  lemma {:induction false} BySizeUnique(s: seq<Backend>)
    requires UniqueIds(s)
    ensures UniqueIds(BySize(s))
  {
    if s != [] {
      RestUnique(s);
      BySizeUnique(s[1..]);
      InsertUnique(s[0], BySize(s[1..]));
    }
  }

  // Stopping changes no ids.
  lemma {:induction false} AfterUnique(bs: seq<Backend>, ids: set<Id>)
    ensures forall i | 0 <= i < |bs| :: After(bs, ids)[i].id == bs[i].id
    ensures UniqueIds(bs) ==> UniqueIds(After(bs, ids))
  {
    if bs != [] {
      AfterUnique(bs[1..], ids);
    }
  }

  // None of ids is a backend on g.
  predicate NoneOn(bs: seq<Backend>, ids: set<Id>, g: Gpu) {
    forall b <- bs | b.id in ids :: b.gpu != g
  }

  // Stopping backends on other GPUs changes nothing on g.
  lemma {:induction false} StopsElsewhere(bs: seq<Backend>, ids: set<Id>, g: Gpu, except: Id, more: set<Id>)
    requires NoneOn(bs, ids, g)
    ensures Candidates(After(bs, ids), g, except) == Candidates(bs, g, except)
    ensures ReservedOn(After(After(bs, ids), more), g, except, true) == ReservedOn(After(bs, more), g, except, true)
  {
    if bs != [] {
      StopsElsewhere(bs[1..], ids, g, except, more);
      assert After(bs, ids)[1..] == After(bs[1..], ids);
      assert After(After(bs, ids), more)[1..] == After(After(bs[1..], ids), more);
      assert After(bs, more)[1..] == After(bs[1..], more);
    }
  }

  // The backends stopped on g were the least that makes room there by the last
  // look that found room missing: where all that may be stopped do stop and
  // free their shares, no choice that makes room is smaller.
  ghost predicate Least(bs: seq<Backend>, fs: seq<Fork>, g: Gpu, except: Id,
                        fits: (nat, nat) -> bool, stops: Id -> bool, tried: nat)
    requires tried <= |Order(bs, g, except)|
  {
    tried > 0 && (forall b <- bs | MayStop(b, g, except) :: stops(b.id) && FreesItsShare(b)) ==>
      forall other | MakesRoom(bs, fs, g, except, Look(fits, tried - 1), other) ::
        |Taken(Order(bs, g, except), stops, tried)| <= |other|
  }

  // Stops on other GPUs change neither what stopGenUntil asks on g nor that
  // each was needed, nor that they are the least.
  lemma LeastAfterOthers(bs: seq<Backend>, before: set<Id>, fs: seq<Fork>, g: Gpu, except: Id,
                         fits: (nat, nat) -> bool, stops: Id -> bool, tried: nat)
    requires UniqueIds(bs) && NoneOn(bs, before, g) && forall k :: Monotone(Look(fits, k))
    requires Needed(After(bs, before), fs, g, except, fits, stops, tried)
    ensures Order(After(bs, before), g, except) == Order(bs, g, except)
    ensures Needed(bs, fs, g, except, fits, stops, tried) && Least(bs, fs, g, except, fits, stops, tried)
  {
    hide UniqueIds, Monotone, After, NoneOn, Order, Needed, Least;
    NeededElsewhere(bs, before, fs, g, except, fits, stops, tried);
    TriedFew(bs, fs, g, except, fits, stops, tried);
    NeededIsLeast(bs, fs, g, except, fits, stops, tried);
  }

  lemma NeededElsewhere(bs: seq<Backend>, before: set<Id>, fs: seq<Fork>, g: Gpu, except: Id,
                        fits: (nat, nat) -> bool, stops: Id -> bool, tried: nat)
    requires NoneOn(bs, before, g) && Needed(After(bs, before), fs, g, except, fits, stops, tried)
    ensures Order(After(bs, before), g, except) == Order(bs, g, except)
    ensures Needed(bs, fs, g, except, fits, stops, tried)
  {
    hide Taken, MayStop, After, NoneOn;
    var order := Order(bs, g, except);
    StopsElsewhere(bs, before, g, except, {});
    forall j: nat | j < tried
      ensures !fits(j, Reserved(After(bs, Taken(order, stops, j)), fs, g, except))
    {
      StopsElsewhere(bs, before, g, except, Taken(order, stops, j));
    }
  }

  lemma TriedFew(bs: seq<Backend>, fs: seq<Fork>, g: Gpu, except: Id,
                 fits: (nat, nat) -> bool, stops: Id -> bool, tried: nat)
    requires Needed(bs, fs, g, except, fits, stops, tried)
    ensures tried <= |Order(bs, g, except)|
  {}

  lemma NeededIsLeast(bs: seq<Backend>, fs: seq<Fork>, g: Gpu, except: Id,
                      fits: (nat, nat) -> bool, stops: Id -> bool, tried: nat)
    requires UniqueIds(bs) && Needed(bs, fs, g, except, fits, stops, tried) && tried <= |Order(bs, g, except)|
    requires forall k :: Monotone(Look(fits, k))
    ensures Least(bs, fs, g, except, fits, stops, tried)
  {
    hide Taken, MayStop, FreesItsShare, UniqueIds, Monotone, After, MakesRoom, Order, Needed, Look;
    if tried > 0 && forall b <- bs | MayStop(b, g, except) :: stops(b.id) && FreesItsShare(b) {
      forall other | MakesRoom(bs, fs, g, except, Look(fits, tried - 1), other)
        ensures |Taken(Order(bs, g, except), stops, tried)| <= |other|
      {
        GreedyIsMinimal(bs, fs, g, except, fits, stops, tried, other);
      }
    }
  }

  // Only backends that may be stopped are taken, and each is on g.
  lemma TakenMayStop(bs: seq<Backend>, g: Gpu, except: Id, stops: Id -> bool, tried: nat)
    requires UniqueIds(bs) && tried <= |Order(bs, g, except)|
    ensures forall b <- bs | b.id in Taken(Order(bs, g, except), stops, tried) :: MayStop(b, g, except)
  {
    var order := Order(bs, g, except);
    TakenAre(order, stops, tried);
    var ids := Taken(order, stops, tried);
    hide Taken, Order, LargestFirst, MayStop;
    forall b <- bs | b.id in ids
      ensures MayStop(b, g, except)
    {
      var x :| x in order[..tried] && x.id == b.id;
      assert x in order;
      SameById(bs, b, x);
    }
  }

  lemma SameById(bs: seq<Backend>, a: Backend, b: Backend)
    requires UniqueIds(bs) && a in bs && b in bs && a.id == b.id
    ensures a == b
  {}

  // Candidates of equal share are asked as the store lists them.
  lemma {:induction false} InsertIsStable(b: Backend, s: seq<Backend>, share: nat)
    requires LargestFirst(s)
    ensures OfShare(Insert(b, s), share) == OfShare([b] + s, share)
  {
    assert ([b] + s)[1..] == s;
    if s != [] && b.Share() < s[0].Share() {
      InsertIsStable(b, s[1..], share);
      assert ([b] + s[1..])[1..] == s[1..];
      assert Insert(b, s)[1..] == Insert(b, s[1..]);
    }
  }

  function OfShare(s: seq<Backend>, share: nat): seq<Backend> {
    if s == [] then [] else (if s[0].Share() == share then [s[0]] else []) + OfShare(s[1..], share)
  }

  lemma {:induction false} OfShareHas(s: seq<Backend>, share: nat)
    ensures forall b :: b in OfShare(s, share) <==> b in s && b.Share() == share
  {
    if s != [] {
      OfShareHas(s[1..], share);
      assert s == [s[0]] + s[1..];
    }
  }

  lemma {:induction false} BySizeIsStable(s: seq<Backend>, share: nat)
    ensures OfShare(BySize(s), share) == OfShare(s, share)
  {
    if s != [] {
      BySizeIsStable(s[1..], share);
      InsertIsStable(s[0], BySize(s[1..]), share);
      assert ([s[0]] + BySize(s[1..]))[1..] == BySize(s[1..]);
    }
  }

  // The order is exactly a stable sort: the candidates, each as often as it is
  // there, larger ones first, and those of one share as the store lists them.
  lemma OrderIsStable(bs: seq<Backend>, g: Gpu, except: Id, share: nat)
    ensures LargestFirst(Order(bs, g, except))
    ensures var alike := OfShare(Order(bs, g, except), share);
      && alike == OfShare(Candidates(bs, g, except), share)
      && forall b :: b in alike <==> b in bs && MayStop(b, g, except) && b.Share() == share
    ensures forall b :: b in Order(bs, g, except) <==> b in bs && MayStop(b, g, except)
  {
    OfShareHas(Order(bs, g, except), share);
    BySizeIsStable(Candidates(bs, g, except), share);
  }
}
