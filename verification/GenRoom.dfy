// Making room on a GPU for a generation job (makeRoomForGen): backends are
// stopped first, and LLMs unloaded only when that is not enough.
module GenRoom {
  import opened Common
  import opened GpuPlan
  import opened LoadedLlms
  import opened StopBackends

  datatype Error = NoRoom | UnloadFailed(id: Id)

  function HeldOn(s: seq<Listing>, g: Gpu): nat {
    if s == [] then 0 else (if IsOn(s[0], g) then Load(s[0].plan.value, g) else 0) + HeldOn(s[1..], g)
  }

  // mib more fits on the card beside held for LLMs and reserved for the others.
  predicate FitsIn(card: Option<Card>, held: nat, mib: nat, reserved: nat) {
    mib == 0 || card.None? || held + mib <= Budget(card.value, reserved)
  }

  function WithoutLlm(s: seq<Listing>, id: Id): (r: seq<Listing>)
    ensures forall x :: x in r <==> x in s && x.id != id
  {
    if s == [] then [] else (if s[0].id == id then [] else [s[0]]) + WithoutLlm(s[1..], id)
  }

  // The models left once the first k of ids are unloaded.
  function LeftOf(s: seq<Listing>, ids: seq<Id>, k: nat): (r: seq<Listing>)
    requires k <= |ids|
    ensures forall x :: x in r <==> x in s && x.id !in ids[..k]
  {
    if k == 0 then s
    else
      assert ids[..k] == ids[..k - 1] + [ids[k - 1]];
      WithoutLlm(LeftOf(s, ids, k - 1), ids[k - 1])
  }

  // It did not fit before each of the first k unloads.
  ghost predicate UnloadsNeeded(card: Option<Card>, s: seq<Listing>, ids: seq<Id>, k: nat, g: Gpu, mib: nat,
                                reserved: nat)
  {
    k <= |ids| && forall j: nat | j < k :: !FitsIn(card, HeldOn(LeftOf(s, ids, j), g), mib, reserved)
  }

  class Room {
    const mgr: Manager
    const card: Option<Card>
    var llms: seq<Listing>

    constructor (mgr: Manager, card: Option<Card>, llms: seq<Listing>)
      ensures this.mgr == mgr && this.card == card && this.llms == llms
    {
      this.mgr, this.card, this.llms := mgr, card, llms;
    }

    predicate Fits(g: Gpu, self: Id, mib: nat)
      reads this, mgr
    {
      FitsIn(card, HeldOn(llms, g), mib, Reserved(mgr.bs, mgr.forks, g, self))
    }

    // mib more fits on the card beside the LLMs' plans there and what the other
    // backends and the forks reserve, or there is nothing to check.
    ghost predicate HasRoom(g: Gpu, self: Id, mib: nat)
      reads this, mgr
    {
      mib == 0 || card.None?
      || SumOf(llms, (x: Listing) => HeldMib(x, g)) + mib + VramOn(mgr.bs, mgr.forks, g, self, true).reserved
        <= card.value.base
    }

    lemma FitsIs(g: Gpu, self: Id, mib: nat)
      ensures Fits(g, self, mib) <==> HasRoom(g, self, mib)
    {
      HeldIs(llms, g);
    }

    // Makes room for self, which reserves mib on g. stops and unloads say
    // which backends stop and which LLMs unload when asked; tried backends
    // and k LLMs went or refused to.
    method MakeRoomForGen(g: Gpu, self: Id, mib: nat, stops: Id -> bool, unloads: Id -> bool)
        returns (r: Result<(), Error>, ghost tried: nat, ghost ids: seq<Id>, ghost k: nat)
      requires UniqueIds(mgr.bs)
      modifies this`llms, mgr`bs
      ensures r.Ok? <==> HasRoom(g, self, mib)
      // Refused, everything that may go has been asked to go.
      ensures r == Err(NoRoom) ==>
        tried == |Order(old(mgr.bs), g, self)| && forall x <- llms :: HeldMib(x, g) == 0
      // The largest backends first, and none once it fits.
      ensures tried <= |Order(old(mgr.bs), g, self)|
        && mgr.bs == After(old(mgr.bs), Taken(Order(old(mgr.bs), g, self), stops, tried))
      ensures Needed(old(mgr.bs), mgr.forks, g, self,
        (_: nat, r: nat) => FitsIn(card, HeldOn(old(llms), g), mib, r), stops, tried)
      // Then the largest LLMs, only when backends are not enough, and none
      // once it fits.
      ensures k > 0 || r.Err? ==> tried == |Order(old(mgr.bs), g, self)|
      ensures k > 0 || r.Err? ==> NamesLargestFirst(ids, old(llms), g)
      ensures UnloadsNeeded(card, old(llms), ids, k, g, mib, Reserved(mgr.bs, mgr.forks, g, self))
        && llms == LeftOf(old(llms), ids, k)
      ensures r.Err? && r.error.UnloadFailed? ==> k < |ids| && ids[k] == r.error.id && !unloads(ids[k])
    {
      tried, k := 0, 0;
      ghost var bs0, llms0 := mgr.bs, llms;
      ids := [];
      AfterNone(mgr.bs);
      assert Taken(Order(mgr.bs, g, self), stops, 0) == {};
      hide UniqueIds, Order, Taken, After, EntriesOn, FitsIn, Reserved;
      FitsIs(g, self, mib);
      if Fits(g, self, mib) {
        return Ok(()), tried, ids, k;
      }
      var stopped;
      var held, room := HeldOn(llms, g), card;
      stopped, tried := mgr.StopUntil(g, self, (_: nat, r: nat) => FitsIn(room, held, mib, r), stops);
      NoneTaken(bs0, Taken(Order(bs0, g, self), stops, tried));
      if stopped > 0 {
        FitsIs(g, self, mib);
        if Fits(g, self, mib) {
          return Ok(()), tried, ids, k;
        }
      }
      var list := LlmsOn(llms, g);
      ids := list;
      r, k := UnloadUntil(g, self, mib, list, unloads);
      FitsIs(g, self, mib);
      if r == Err(NoRoom) {
        AllUnloaded(llms0, ids, g);
      }
    }

    // Unloads the models in list until it fits.
    method UnloadUntil(g: Gpu, self: Id, mib: nat, list: seq<Id>, unloads: Id -> bool)
        returns (r: Result<(), Error>, ghost k: nat)
      requires !Fits(g, self, mib)
      modifies this`llms
      ensures r.Ok? <==> Fits(g, self, mib)
      ensures UnloadsNeeded(card, old(llms), list, k, g, mib, Reserved(mgr.bs, mgr.forks, g, self))
        && llms == LeftOf(old(llms), list, k)
      ensures r == Err(NoRoom) ==> k == |list|
      ensures r.Err? && r.error.UnloadFailed? ==> k < |list| && list[k] == r.error.id && !unloads(list[k])
    {
      ghost var llms0, reserved := llms, Reserved(mgr.bs, mgr.forks, g, self);
      k := 0;
      assert LeftOf(llms0, list, 0) == llms0;
      assert UnloadsNeeded(card, llms0, list, 0, g, mib, reserved);
      hide FitsIn, HeldOn, Reserved, UnloadsNeeded, LeftOf, WithoutLlm;
      for i := 0 to |list|
        invariant k == i && llms == LeftOf(llms0, list, k) && !Fits(g, self, mib)
        invariant UnloadsNeeded(card, llms0, list, k, g, mib, reserved)
      {
        OneMoreUnload(card, llms0, list, k, g, mib, reserved);
        if !unloads(list[i]) {
          return Err(UnloadFailed(list[i])), k;
        }
        llms := WithoutLlm(llms, list[i]);
        k := k + 1;
        if Fits(g, self, mib) {
          return Ok(()), k;
        }
      }
      return Err(NoRoom), k;
    }
  }

  lemma {:induction false} HeldIs(s: seq<Listing>, g: Gpu)
    ensures HeldOn(s, g) == SumOf(s, (x: Listing) => HeldMib(x, g))
  {
    if s != [] {
      HeldIs(s[1..], g);
    }
  }

  lemma OneMoreUnload(card: Option<Card>, s: seq<Listing>, ids: seq<Id>, k: nat, g: Gpu, mib: nat, reserved: nat)
    requires k < |ids| && UnloadsNeeded(card, s, ids, k, g, mib, reserved)
      && !FitsIn(card, HeldOn(LeftOf(s, ids, k), g), mib, reserved)
    ensures UnloadsNeeded(card, s, ids, k + 1, g, mib, reserved)
    ensures LeftOf(s, ids, k + 1) == WithoutLlm(LeftOf(s, ids, k), ids[k])
  {
    hide FitsIn, HeldOn, WithoutLlm;
  }

  // Once all of them are gone no model is left on g.
  lemma AllUnloaded(s: seq<Listing>, ids: seq<Id>, g: Gpu)
    requires LargestOn(ids, s, g)
    ensures forall x <- LeftOf(s, ids, |ids|) :: !IsOn(x, g) && HeldMib(x, g) == 0
  {
    var order :| TakesAll(EntriesOn(s, g), order) && InOrder(ids, EntriesOn(s, g), order);
    OrderIsPermutation(EntriesOn(s, g), order);
    assert ids[..|ids|] == ids;
    forall x <- s | IsOn(x, g)
      ensures x.id in ids
    {
      HasEntry(s, x, g);
      var e: nat :| e < |EntriesOn(s, g)| && EntriesOn(s, g)[e].id == x.id;
      assert e in order;
      var k: nat :| k < |order| && order[k] == e;
    }
  }

  lemma {:induction false} HasEntry(s: seq<Listing>, x: Listing, g: Gpu)
    requires x in s && IsOn(x, g)
    ensures exists e: nat :: e < |EntriesOn(s, g)| && EntriesOn(s, g)[e].id == x.id
  {
    if s[0] == x {
      assert EntriesOn(s, g)[0].id == x.id;
    } else {
      HasEntry(s[1..], x, g);
      var e: nat :| e < |EntriesOn(s[1..], g)| && EntriesOn(s[1..], g)[e].id == x.id;
      var e' := if IsOn(s[0], g) then e + 1 else e;
      assert EntriesOn(s, g)[e'].id == x.id;
    }
  }

  lemma NoneTaken(bs: seq<Backend>, ids: set<Id>)
    ensures |ids| == 0 ==> After(bs, ids) == bs
  {
    AfterNone(bs);
  }
}
