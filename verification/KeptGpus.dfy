// The GPUs a benchmark job keeps between its cells (keepGPUs, ReleaseGPUs):
// every keep taken is in the ledger or was given back, exactly once.
module KeptGpus {
  import opened Common

  type Gpu = nat
  type Owner = string
  // A keep is known by its number: they are taken one after another.
  type Keep = nat

  datatype Taken = Taken(gpu: Gpu, owner: Owner)

  // owner and kept are the ledger; taken and released are the history of the
  // job queue's Keep calls and of the calls that gave them back.
  datatype Ledger = Ledger(owner: Owner, kept: map<Gpu, Keep>, taken: seq<Taken>, released: set<Keep>)

  function ReleaseAll(l: Ledger): Ledger {
    Ledger("", map[], l.taken, l.released + l.kept.Values)
  }

  function KeepOne(l: Ledger, gpu: Gpu): Ledger {
    if gpu in l.kept then l
    else l.(kept := l.kept[gpu := |l.taken|], taken := l.taken + [Taken(gpu, l.owner)])
  }

  function KeepEach(l: Ledger, gpus: seq<Gpu>): Ledger {
    if gpus == [] then l else KeepOne(KeepEach(l, gpus[..|gpus| - 1]), gpus[|gpus| - 1])
  }

  // keepGPUs.
  function Claimed(l: Ledger, owner: Owner, gpus: seq<Gpu>): Ledger {
    KeepEach(if l.owner != owner then ReleaseAll(l).(owner := owner) else l, gpus)
  }

  // ReleaseGPUs.
  function Released(l: Ledger, owner: Owner): Ledger {
    if l.owner == owner then ReleaseAll(l) else l
  }

  function Set(gpus: seq<Gpu>): set<Gpu> {
    set g | g in gpus
  }

  // Each keep is outstanding for one GPU and for the current owner, or given
  // back, never both and never neither.
  ghost predicate Inv(l: Ledger) {
    && (forall g <- l.kept ::
      l.kept[g] < |l.taken| && l.taken[l.kept[g]] == Taken(g, l.owner) && l.kept[g] !in l.released)
    && (forall k <- l.released :: k < |l.taken|)
    && (forall k: Keep | k < |l.taken| && k !in l.released :: l.taken[k].gpu in l.kept && l.kept[l.taken[k].gpu] == k)
  }

  datatype Call = Claim(owner: Owner, gpus: seq<Gpu>) | Release(owner: Owner)

  function Step(l: Ledger, call: Call): Ledger {
    match call
    case Claim(owner, gpus) => Claimed(l, owner, gpus)
    case Release(owner) => Released(l, owner)
  }

  function Run(l: Ledger, calls: seq<Call>): Ledger
    decreases |calls|
  {
    if calls == [] then l else Run(Step(l, calls[0]), calls[1..])
  }

  const EMPTY := Ledger("", map[], [], {})

  lemma ReleaseAllKeeps(l: Ledger)
    requires Inv(l)
    ensures Inv(ReleaseAll(l)) && ReleaseAll(l).kept == map[]
    ensures forall k: Keep | k < |l.taken| :: k in ReleaseAll(l).released
  {
    forall k: Keep | k < |l.taken|
      ensures k in ReleaseAll(l).released
    {
      if k !in l.released {
        assert l.kept[l.taken[k].gpu] == k;
      }
    }
  }

  lemma KeepOneKeeps(l: Ledger, gpu: Gpu)
    requires Inv(l)
    ensures Inv(KeepOne(l, gpu)) && KeepOne(l, gpu).owner == l.owner
    ensures KeepOne(l, gpu).kept.Keys == l.kept.Keys + {gpu} && KeepOne(l, gpu).released == l.released
  {
    var l' := KeepOne(l, gpu);
    if gpu !in l.kept {
      assert forall k: Keep | k < |l.taken| :: l'.taken[k] == l.taken[k];
      forall k: Keep | k < |l'.taken| && k !in l'.released
        ensures l'.taken[k].gpu in l'.kept && l'.kept[l'.taken[k].gpu] == k
      {
        if k < |l.taken| {
          assert l.kept[l.taken[k].gpu] == k;
        }
      }
    }
  }

  lemma {:induction false} KeepEachKeeps(l: Ledger, gpus: seq<Gpu>)
    requires Inv(l)
    ensures Inv(KeepEach(l, gpus)) && KeepEach(l, gpus).owner == l.owner
    ensures KeepEach(l, gpus).kept.Keys == l.kept.Keys + Set(gpus) && KeepEach(l, gpus).released == l.released
  {
    hide Inv, KeepOne;
    if gpus != [] {
      var last := |gpus| - 1;
      KeepEachKeeps(l, gpus[..last]);
      KeepOneKeeps(KeepEach(l, gpus[..last]), gpus[last]);
      assert gpus == gpus[..last] + [gpus[last]];
      assert Set(gpus) == Set(gpus[..last]) + {gpus[last]};
      var before := KeepEach(l, gpus[..last]);
      assert KeepEach(l, gpus) == KeepOne(before, gpus[last]);
      hide Set, KeepEach;
    }
  }

  // A claim keeps all its GPUs for its owner, and another owner's keeps are
  // given back first.
  lemma ClaimKeeps(l: Ledger, owner: Owner, gpus: seq<Gpu>)
    requires Inv(l)
    ensures var l' := Claimed(l, owner, gpus);
      && Inv(l') && l'.owner == owner
      && Set(gpus) <= l'.kept.Keys
      && (l.owner != owner ==> l'.kept.Keys == Set(gpus) && forall k: Keep | k < |l.taken| :: k in l'.released)
  {
    ReleaseAllKeeps(l);
    var start := if l.owner != owner then ReleaseAll(l).(owner := owner) else l;
    assert Inv(start);
    KeepEachKeeps(start, gpus);
    hide Inv;
  }

  lemma {:induction false} RunKeepsInv(l: Ledger, calls: seq<Call>)
    requires Inv(l)
    ensures Inv(Run(l, calls))
    decreases |calls|
  {
    if calls != [] {
      match calls[0] {
        case Claim(owner, gpus) => ClaimKeeps(l, owner, gpus);
        case Release(owner) => ReleaseAllKeeps(l);
      }
      hide Inv, Claimed;
      RunKeepsInv(Step(l, calls[0]), calls[1..]);
    }
  }

  // Over any claims and releases by any owners: at most one keep is out for a
  // GPU, all of them are the current owner's, and every keep ever taken is
  // either out or was given back.
  lemma KeepsAreConserved(calls: seq<Call>)
    ensures var l := Run(EMPTY, calls);
      && (forall i: Keep, j: Keep | i < j < |l.taken| && i !in l.released && j !in l.released ::
        l.taken[i].gpu != l.taken[j].gpu)
      && (forall k: Keep | k < |l.taken| && k !in l.released :: l.taken[k].owner == l.owner)
      && (forall k: Keep | k < |l.taken| :: k in l.released <==> k !in l.kept.Values)
      && |l.taken| == |l.kept| + |l.released|
  {
    RunKeepsInv(EMPTY, calls);
    var l := Run(EMPTY, calls);
    hide Run;
    forall k: Keep | k < |l.taken|
      ensures k in l.released <==> k !in l.kept.Values
    {
      if k !in l.released {
        assert l.kept[l.taken[k].gpu] == k;
      }
    }
    Count(l);
  }

  // Who made the last claim, unless that owner has released since.
  ghost function Holder(calls: seq<Call>): (h: Option<Owner>)
    decreases |calls|
  {
    if calls == [] then None
    else
      var before := Holder(calls[..|calls| - 1]);
      match calls[|calls| - 1]
      case Claim(owner, _) => Some(owner)
      case Release(owner) => if before == Some(owner) then None else before
  }

  lemma {:induction false} HolderIs(calls: seq<Call>)
    ensures var l := Run(EMPTY, calls);
      match Holder(calls)
      case Some(owner) => l.owner == owner
      case None => l.owner == "" && l.kept == map[]
    decreases |calls|
  {
    if calls != [] {
      var n := |calls| - 1;
      var last := calls[n];
      var before := Run(EMPTY, calls[..n]);
      HolderIs(calls[..n]);
      assert calls == calls[..n] + [last];
      RunConcat(EMPTY, calls[..n], [last]);
      assert Run(before, [last]) == Step(before, last) by {
        assert [last][1..] == [];
      }
      if last.Claim? {
        RunKeepsInv(EMPTY, calls[..n]);
        ClaimKeeps(before, last.owner, last.gpus);
      }
      hide Run, Inv, Claimed;
    }
  }

  lemma {:induction false} RunConcat(l: Ledger, a: seq<Call>, b: seq<Call>)
    ensures Run(l, a + b) == Run(Run(l, a), b)
    decreases |a|
  {
    if a == [] {
      assert a + b == b;
    } else {
      assert (a + b)[1..] == a[1..] + b;
      RunConcat(Step(l, a[0]), a[1..], b);
    }
  }

  // Over every run: after the release by the owner of the keeps none is out and
  // each ever taken has been given back; a release by anyone else changes
  // nothing. The owner is the one of the last claim not released since.
  lemma ReleaseGivesBack(calls: seq<Call>, owner: Owner)
    ensures var l, l' := Run(EMPTY, calls), Run(EMPTY, calls + [Release(owner)]);
      if Holder(calls) == Some(owner) then
        && l'.kept == map[] && l'.taken == l.taken
        && forall k: Keep | k < |l.taken| :: k in l'.released
      else l' == l
  {
    RunConcat(EMPTY, calls, [Release(owner)]);
    RunKeepsInv(EMPTY, calls);
    HolderIs(calls);
    var l := Run(EMPTY, calls);
    assert Run(l, [Release(owner)]) == Step(l, Release(owner)) by {
      assert [Release(owner)][1..] == [];
    }
    ReleaseAllKeeps(l);
  }

  function Below(n: nat): (r: set<Keep>)
    ensures |r| == n && forall k: Keep :: k in r <==> k < n
  {
    if n == 0 then {} else Below(n - 1) + {n - 1}
  }

  lemma Count(l: Ledger)
    requires Inv(l)
    ensures |l.taken| == |l.kept| + |l.released|
  {
    OneEach(l.kept);
    var all := Below(|l.taken|);
    forall k <- all
      ensures k in l.kept.Values + l.released
    {
      if k !in l.released {
        assert l.kept[l.taken[k].gpu] == k;
      }
    }
    assert all == l.kept.Values + l.released;
  }

  // A map whose values differ has as many values as keys.
  lemma {:induction false} OneEach(m: map<Gpu, Keep>)
    requires forall g, h | g in m && h in m && g != h :: m[g] != m[h]
    ensures |m.Values| == |m|
    decreases |m|
  {
    if m != map[] {
      var g :| g in m;
      var rest := m - {g};
      assert |rest| == |m| - 1 by {
        assert rest.Keys == m.Keys - {g};
      }
      OneEach(rest);
      forall k <- m.Values - {m[g]}
        ensures k in rest.Values
      {
        var h :| h in m && m[h] == k;
        assert h in rest;
      }
      forall k <- rest.Values
        ensures k in m.Values - {m[g]}
      {
        var h :| h in rest && rest[h] == k;
        assert m[h] == k;
      }
      assert m.Values == rest.Values + {m[g]} && m[g] !in rest.Values;
    }
  }

  class GpuKeeper {
    var kept: map<Gpu, Keep>
    var keepOwner: Owner
    ghost var taken: seq<Taken>
    ghost var released: set<Keep>
    // The queue's count of keeps.
    var next: Keep

    constructor ()
      ensures Valid() && State() == EMPTY
    {
      kept, keepOwner, taken, released, next := map[], "", [], {}, 0;
    }

    ghost function State(): Ledger
      reads this
    {
      Ledger(keepOwner, kept, taken, released)
    }

    ghost predicate Valid()
      reads this
    {
      next == |taken| && Inv(State())
    }

    // genQueue.Keep.
    method Keep(gpu: Gpu) returns (k: Keep)
      requires next == |taken|
      modifies this`next, this`taken
      ensures k == old(next) && taken == old(taken) + [Taken(gpu, keepOwner)] && next == |taken|
    {
      k := next;
      next := next + 1;
      taken := taken + [Taken(gpu, keepOwner)];
    }

    // A keep's own release, which may be called once.
    method GiveBack(k: Keep)
      requires k !in released && k < |taken|
      modifies this`released
      ensures released == old(released) + {k}
    {
      released := released + {k};
    }

    method ReleaseKeptLocked()
      requires Valid()
      modifies this`kept, this`keepOwner, this`released
      ensures Valid() && State() == ReleaseAll(old(State()))
    {
      ReleaseAllKeeps(State());
      ghost var before := released;
      var left := kept.Keys;
      while left != {}
        invariant left <= kept.Keys && kept == old(kept)
        invariant forall g <- left :: kept[g] !in released
        invariant released == before + (set g | g in kept.Keys - left :: kept[g])
      {
        var g :| g in left;
        Apart(old(State()), left, g);
        GiveBack(kept[g]);
        left := left - {g};
      }
      assert kept.Keys - left == kept.Keys;
      assert released == before + kept.Values;
      kept, keepOwner := map[], "";
    }

    method KeepGpus(owner: Owner, gpus: seq<Gpu>)
      requires Valid()
      modifies this
      ensures Valid() && State() == Claimed(old(State()), owner, gpus)
    {
      ClaimKeeps(State(), owner, gpus);
      if keepOwner != owner {
        ReleaseKeptLocked();
        keepOwner := owner;
      }
      ghost var start := State();
      hide Inv;
      for i := 0 to |gpus|
        invariant State() == KeepEach(start, gpus[..i]) && next == |taken|
      {
        assert gpus[..i + 1][..i] == gpus[..i];
        if gpus[i] !in kept {
          var k := Keep(gpus[i]);
          kept := kept[gpus[i] := k];
        }
      }
      assert gpus[..|gpus|] == gpus;
    }

    method ReleaseGpus(owner: Owner)
      requires Valid()
      modifies this`kept, this`keepOwner, this`released
      ensures Valid() && State() == Released(old(State()), owner)
    {
      if keepOwner == owner {
        ReleaseKeptLocked();
      }
    }
  }

  lemma Apart(l: Ledger, left: set<Gpu>, g: Gpu)
    requires Inv(l) && g in left && left <= l.kept.Keys
    ensures forall h <- left - {g} :: l.kept[h] != l.kept[g]
  {
    forall h <- left - {g}
      ensures l.kept[h] != l.kept[g]
    {
      assert l.taken[l.kept[h]].gpu == h && l.taken[l.kept[g]].gpu == g;
    }
  }
}
