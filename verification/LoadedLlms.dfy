// The loaded LLMs on a GPU, largest first, for a generation job that needs
// their memory (loadedLLMsOn).
module LoadedLlms {
  import opened Common
  import opened GpuPlan

  // A model the router lists, loaded, loading or neither; plan is None for one
  // the registry does not know.
  datatype Listing = Listing(id: Id, held: bool, plan: Option<Plan>)

  datatype Entry = Entry(id: Id, mib: nat)

  predicate IsOn(x: Listing, g: Gpu) {
    x.held && x.plan.Some? && Load(x.plan.value, g) > 0
  }

  function EntriesOn(s: seq<Listing>, g: Gpu): seq<Entry> {
    if s == [] then []
    else (if IsOn(s[0], g) then [Entry(s[0].id, Load(s[0].plan.value, g))] else []) + EntriesOn(s[1..], g)
  }

  // a is taken before b of the positions in s: it is larger, or as large and
  // listed earlier.
  predicate TakenBefore(s: seq<Entry>, a: nat, b: nat)
    requires a < |s| && b < |s|
  {
    s[a].mib > s[b].mib || (s[a].mib == s[b].mib && a < b)
  }

  // The positions order names are those of s, each once, in the order taken.
  ghost predicate TakesAll(s: seq<Entry>, order: seq<nat>) {
    && |order| == |s|
    && (forall i | 0 <= i < |order| :: order[i] < |s|)
    && (forall i, j | 0 <= i < j < |order| :: TakenBefore(s, order[i], order[j]))
  }

  // left holds what remains of s, at the positions at, when those in done have
  // been taken.
  ghost predicate Remains(s: seq<Entry>, done: seq<nat>, left: seq<Entry>, at: seq<nat>) {
    && |at| == |left| && |done| + |left| == |s|
    && (forall i | 0 <= i < |at| :: at[i] < |s| && left[i] == s[at[i]])
    && (forall i, j | 0 <= i < j < |at| :: at[i] < at[j])
    && (forall i | 0 <= i < |done| :: done[i] < |s|)
    && (forall i, j | 0 <= i < j < |done| :: TakenBefore(s, done[i], done[j]))
    && (forall i, j | 0 <= i < |done| && 0 <= j < |at| :: TakenBefore(s, done[i], at[j]))
  }

  // ids are those of the models on g, largest first.
  ghost predicate LargestOn(ids: seq<Id>, list: seq<Listing>, g: Gpu) {
    exists order :: TakesAll(EntriesOn(list, g), order) && InOrder(ids, EntriesOn(list, g), order)
  }

  predicate InOrder(ids: seq<Id>, s: seq<Entry>, order: seq<nat>) {
    |ids| == |order| && forall k | 0 <= k < |ids| :: order[k] < |s| && ids[k] == s[order[k]].id
  }

  // The planned memory of a listed model on g, if it is loaded or loading and
  // the registry knows it.
  ghost function HeldMib(x: Listing, g: Gpu): nat {
    match x.plan case Some(plan) => (if x.held && g in plan then plan[g] else 0) case None => 0
  }

  // ids names every model with memory on g once, by its place in the list, the
  // larger first and equal ones as listed.
  ghost predicate NamesLargestFirst(ids: seq<Id>, list: seq<Listing>, g: Gpu) {
    exists at: seq<nat> :: |at| == |ids| && PlacesOf(ids, list, g, at)
  }

  ghost predicate PlacesOf(ids: seq<Id>, list: seq<Listing>, g: Gpu, at: seq<nat>)
    requires |at| == |ids|
  {
    && (forall k | 0 <= k < |at| :: at[k] < |list| && ids[k] == list[at[k]].id && HeldMib(list[at[k]], g) > 0)
    && (forall i: nat | i < |list| && HeldMib(list[i], g) > 0 :: i in at)
    && (forall k, l | 0 <= k < l < |at| ::
      var (a, b) := (HeldMib(list[at[k]], g), HeldMib(list[at[l]], g));
      a > b || (a == b && at[k] < at[l]))
  }

  method LlmsOn(list: seq<Listing>, g: Gpu) returns (ids: seq<Id>)
    ensures LargestOn(ids, list, g) && NamesLargestFirst(ids, list, g)
  {
    hide Remains, InOrder, LargestOn, EntriesOn, TakesAll;
    var out: seq<Entry> := [];
    NoEntries(g);
    for i := 0 to |list|
      invariant out == EntriesOn(list[..i], g)
    {
      var x := list[i];
      OneMoreEntry(list, i, g);
      if !x.held || x.plan.None? {
        continue;
      }
      if Load(x.plan.value, g) > 0 {
        out := out + [Entry(x.id, Load(x.plan.value, g))];
      }
    }
    assert list[..|list|] == list;
    ghost var s := out;
    ghost var at: seq<nat> := seq(|out|, (i: nat) => i);
    ghost var order: seq<nat> := [];
    ids := [];
    AllRemains(s, at);
    while |out| > 0
      invariant Remains(s, order, out, at) && InOrder(ids, s, order)
      decreases |out|
    {
      var best := 0;
      for i := 0 to |out|
        invariant 0 <= best < |out|
        invariant forall j | 0 <= j < i :: out[j].mib <= out[best].mib
        invariant forall j | 0 <= j < best :: out[j].mib < out[best].mib
      {
        if out[i].mib > out[best].mib {
          best := i;
        }
      }
      BestIsListed(ids, s, order, out, at, best);
      BestIsNext(s, order, out, at, best);
      ids := ids + [out[best].id];
      order := order + [at[best]];
      at := at[..best] + at[best + 1..];
      out := out[..best] + out[best + 1..];
    }
    NothingRemains(s, order, out, at);
    LargestIs(ids, list, g, order);
    LargestMeans(ids, list, g);
  }

  // The places in the list of the entries.
  ghost function Places(list: seq<Listing>, g: Gpu): seq<nat> {
    if list == [] then []
    else
      var n := |list| - 1;
      Places(list[..n], g) + if HeldMib(list[n], g) > 0 then [n] else []
  }

  ghost predicate Placed(s: seq<Entry>, at: seq<nat>, list: seq<Listing>, g: Gpu) {
    && |at| == |s|
    && (forall k | 0 <= k < |s| ::
      at[k] < |list| && s[k] == Entry(list[at[k]].id, HeldMib(list[at[k]], g)) && s[k].mib > 0)
    && (forall k, l | 0 <= k < l < |s| :: at[k] < at[l])
    && (forall i: nat | i < |list| && HeldMib(list[i], g) > 0 :: i in at)
  }

  lemma {:induction false} EntriesArePlaced(list: seq<Listing>, g: Gpu)
    ensures Placed(EntriesOn(list, g), Places(list, g), list, g)
  {
    hide Placed, HeldMib, IsOn, EntriesOn;
    if list == [] {
      NoEntries(g);
      NonePlaced(g);
    } else {
      var n := |list| - 1;
      EntriesArePlaced(list[..n], g);
      assert list[..n + 1] == list;
      OneMoreEntry(list, n, g);
      HeldMeansOn(list[n], g);
      var s, at := EntriesOn(list[..n], g), Places(list[..n], g);
      OneMorePlaced(s, at, list, n, g);
      assert s + [] == s && at + [] == at;
    }
  }

  lemma NonePlaced(g: Gpu)
    ensures Placed([], [], [], g)
  {}

  lemma HeldMeansOn(x: Listing, g: Gpu)
    ensures IsOn(x, g) <==> HeldMib(x, g) > 0
    ensures IsOn(x, g) ==> HeldMib(x, g) == Load(x.plan.value, g)
  {}

  lemma OneMorePlaced(s: seq<Entry>, at: seq<nat>, list: seq<Listing>, n: nat, g: Gpu)
    requires n + 1 == |list| && Placed(s, at, list[..n], g)
    ensures var mib := HeldMib(list[n], g);
      if mib > 0 then Placed(s + [Entry(list[n].id, mib)], at + [n], list, g) else Placed(s, at, list, g)
  {
    hide HeldMib;
    assert forall i | 0 <= i < n :: list[..n][i] == list[i];
  }

  lemma LargestMeans(ids: seq<Id>, list: seq<Listing>, g: Gpu)
    requires LargestOn(ids, list, g)
    ensures NamesLargestFirst(ids, list, g)
  {
    var s, places := EntriesOn(list, g), Places(list, g);
    var order :| TakesAll(s, order) && InOrder(ids, s, order);
    hide EntriesOn, Places, TakesAll, InOrder, Placed, PlacesOf;
    EntriesArePlaced(list, g);
    OrderIsPermutation(s, order);
    var at := AtPlaces(s, places, list, g, order);
    OrderPlaces(ids, s, places, list, g, order, at);
  }

  lemma AtPlaces(s: seq<Entry>, places: seq<nat>, list: seq<Listing>, g: Gpu, order: seq<nat>) returns (at: seq<nat>)
    requires Placed(s, places, list, g) && TakesAll(s, order)
    ensures |at| == |order| == |places| == |s|
    ensures forall k | 0 <= k < |at| :: order[k] < |places| && at[k] == places[order[k]]
  {
    hide HeldMib;
    at := seq(|order|, k requires 0 <= k < |order| => places[order[k]]);
  }

  lemma OrderPlaces(ids: seq<Id>, s: seq<Entry>, places: seq<nat>, list: seq<Listing>, g: Gpu,
                    order: seq<nat>, at: seq<nat>)
    requires Placed(s, places, list, g) && TakesAll(s, order) && InOrder(ids, s, order)
    requires forall k: nat | k < |s| :: k in order
    requires |at| == |order| && forall k | 0 <= k < |at| :: at[k] == places[order[k]]
    ensures |at| == |ids| && PlacesOf(ids, list, g, at)
  {
    hide HeldMib;
    forall i: nat | i < |list| && HeldMib(list[i], g) > 0
      ensures i in at
    {
      var p: nat :| p < |places| && places[p] == i;
      assert p in order;
      var k: nat :| k < |order| && order[k] == p;
      assert at[k] == i;
    }
    forall k, l | 0 <= k < l < |at|
      ensures var (a, b) := (HeldMib(list[at[k]], g), HeldMib(list[at[l]], g));
        a > b || (a == b && at[k] < at[l])
    {
      assert TakenBefore(s, order[k], order[l]);
    }
  }

  lemma NoEntries(g: Gpu)
    ensures EntriesOn([], g) == []
  {}

  lemma OneMoreEntry(list: seq<Listing>, i: nat, g: Gpu)
    requires i < |list|
    ensures EntriesOn(list[..i + 1], g) == EntriesOn(list[..i], g) +
      if IsOn(list[i], g) then [Entry(list[i].id, Load(list[i].plan.value, g))] else []
  {
    assert list[..i + 1] == list[..i] + [list[i]];
    EntriesOfConcat(list[..i], [list[i]], g);
    assert [list[i]][1..] == [];
  }

  lemma AllRemains(s: seq<Entry>, at: seq<nat>)
    requires |at| == |s| && forall i | 0 <= i < |at| :: at[i] == i
    ensures Remains(s, [], s, at) && InOrder([], s, [])
  {}

  lemma BestIsListed(ids: seq<Id>, s: seq<Entry>, order: seq<nat>, left: seq<Entry>, at: seq<nat>, best: nat)
    requires InOrder(ids, s, order) && Remains(s, order, left, at) && best < |left|
    ensures |at| == |left| && InOrder(ids + [left[best].id], s, order + [at[best]])
  {}

  lemma NothingRemains(s: seq<Entry>, order: seq<nat>, left: seq<Entry>, at: seq<nat>)
    requires Remains(s, order, left, at) && |left| == 0
    ensures TakesAll(s, order)
  {}

  lemma LargestIs(ids: seq<Id>, list: seq<Listing>, g: Gpu, order: seq<nat>)
    requires TakesAll(EntriesOn(list, g), order) && InOrder(ids, EntriesOn(list, g), order)
    ensures LargestOn(ids, list, g)
  {}

  // Taking the first of the largest keeps the order.
  lemma BestIsNext(s: seq<Entry>, done: seq<nat>, left: seq<Entry>, at: seq<nat>, best: nat)
    requires Remains(s, done, left, at) && best < |left| == |at|
    requires forall j | 0 <= j < |left| :: left[j].mib <= left[best].mib
    requires forall j | 0 <= j < best :: left[j].mib < left[best].mib
    ensures Remains(s, done + [at[best]], left[..best] + left[best + 1..], at[..best] + at[best + 1..])
  {
    var at', left' := at[..best] + at[best + 1..], left[..best] + left[best + 1..];
    forall j | 0 <= j < |at'|
      ensures at'[j] < |s| && left'[j] == s[at'[j]] && TakenBefore(s, at[best], at'[j])
    {
      var k := if j < best then j else j + 1;
      assert at'[j] == at[k] && left'[j] == left[k];
    }
  }

  lemma {:induction false} EntriesOfConcat(a: seq<Listing>, b: seq<Listing>, g: Gpu)
    ensures EntriesOn(a + b, g) == EntriesOn(a, g) + EntriesOn(b, g)
  {
    hide IsOn;
    if a == [] {
      assert a + b == b;
    } else {
      assert (a + b)[0] == a[0] && (a + b)[1..] == a[1..] + b;
      EntriesOfConcat(a[1..], b, g);
    }
  }

  // Nothing is listed twice and nothing left out: the order is a permutation.
  lemma OrderIsPermutation(s: seq<Entry>, order: seq<nat>)
    requires TakesAll(s, order)
    ensures forall i, j | 0 <= i < j < |order| :: order[i] != order[j]
    ensures forall k: nat | k < |s| :: k in order
  {
    assert forall i, j | 0 <= i < j < |order| :: TakenBefore(s, order[i], order[j]);
    forall k: nat | k < |s|
      ensures k in order
    {
      hide TakesAll, TakenBefore;
      if k !in order {
        Distinct(order);
        UpTo(|s|);
        Fewer(Named(order), Below(|s|), k);
        assert false;
      }
    }
  }

  function Named(order: seq<nat>): set<nat> {
    set k | k in order
  }

  function Below(n: nat): (r: set<nat>)
    ensures forall k: nat :: k in r <==> k < n
  {
    if n == 0 then {} else Below(n - 1) + {n - 1}
  }

  lemma {:induction false} Distinct(order: seq<nat>)
    requires forall i, j | 0 <= i < j < |order| :: order[i] != order[j]
    ensures |Named(order)| == |order|
  {
    if order != [] {
      var n := |order| - 1;
      Distinct(order[..n]);
      assert order == order[..n] + [order[n]];
      assert Named(order) == Named(order[..n]) + {order[n]};
    }
  }

  lemma {:induction false} UpTo(n: nat)
    ensures |Below(n)| == n
  {
    if n > 0 {
      UpTo(n - 1);
    }
  }

  lemma Fewer(a: set<nat>, b: set<nat>, k: nat)
    requires a <= b && k in b && k !in a
    ensures |a| < |b|
  {
    var rest := b - (a + {k});
    assert b == a + {k} + rest;
    assert |b| == |a + {k}| + |rest|;
  }
}
