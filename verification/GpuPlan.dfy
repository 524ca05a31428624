// GPU memory as the arbiter counts it: cards, what LLMs are planned to hold
// on them, and what generation backends and forks reserve (genVRAM).
module GpuPlan {
  import opened Common

  type Gpu = nat
  type Id = string

  // base is what the planner may use of a card with nothing reserved: its
  // total less other programs' use and the margin kept free.
  datatype Card = Card(index: Gpu, base: int)

  // Planned memory per GPU.
  type Plan = map<Gpu, nat>

  function Load(plan: Plan, g: Gpu): nat {
    if g in plan then plan[g] else 0
  }

  // What the planner lets models use of a card beside a reservation.
  function Budget(card: Card, reserved: int): nat {
    Max(0, card.base - reserved)
  }

  // A generation backend instance and its process. reading is what the
  // monitor says its process holds, when it can tell; hasTurn says that a job
  // for it has its GPU's turn.
  datatype Backend = Backend(id: Id, gpu: Gpu, reserved: nat, enabled: bool, keepRunning: bool,
                             active: bool, hasPid: bool, reading: Option<nat>, hasTurn: bool)
  {
    function Using(): nat {
      if !hasPid then 0 else if reading.Some? then reading.value else reserved
    }

    function Share(): nat {
      Max(reserved, Using())
    }

    // The instance's share counts against its GPU; with activeOnly, not while
    // it is stopped and may stay so.
    predicate Counts(activeOnly: bool) {
      && (enabled || Using() != 0)
      && (activeOnly ==> Using() != 0 || active || keepRunning || hasTurn)
    }
  }

  // A running fork instance, which reserves its whole GPU.
  datatype Fork = Fork(id: Id, gpu: Gpu, total: nat, using: nat)

  datatype Vram = Vram(reserved: nat, using: nat, evictable: nat)

  predicate CountsOn(b: Backend, g: Gpu, exclude: Id, activeOnly: bool) {
    b.gpu == g && b.id != exclude && b.Counts(activeOnly)
  }

  function ReservedOn(bs: seq<Backend>, g: Gpu, exclude: Id, activeOnly: bool): nat {
    if bs == [] then 0
    else
      var first := if CountsOn(bs[0], g, exclude, activeOnly) then bs[0].Share() else 0;
      first + ReservedOn(bs[1..], g, exclude, activeOnly)
  }

  function UsingOn(bs: seq<Backend>, g: Gpu, exclude: Id, activeOnly: bool): nat {
    if bs == [] then 0
    else
      var first := if CountsOn(bs[0], g, exclude, activeOnly) then bs[0].Using() else 0;
      first + UsingOn(bs[1..], g, exclude, activeOnly)
  }

  function EvictableOn(bs: seq<Backend>, g: Gpu, exclude: Id, activeOnly: bool): nat {
    if bs == [] then 0
    else
      var first := if CountsOn(bs[0], g, exclude, activeOnly) && !bs[0].keepRunning then bs[0].Share() else 0;
      first + EvictableOn(bs[1..], g, exclude, activeOnly)
  }

  function ForkReservedOn(fs: seq<Fork>, g: Gpu, exclude: Id): nat {
    if fs == [] then 0
    else
      var first := if fs[0].gpu == g && fs[0].id != exclude then Max(fs[0].total, fs[0].using) else 0;
      first + ForkReservedOn(fs[1..], g, exclude)
  }

  function ForkUsingOn(fs: seq<Fork>, g: Gpu, exclude: Id): nat {
    if fs == [] then 0
    else (if fs[0].gpu == g && fs[0].id != exclude then fs[0].using else 0) + ForkUsingOn(fs[1..], g, exclude)
  }

  // Some instance or fork counts on g.
  predicate AnyOn(bs: seq<Backend>, fs: seq<Fork>, g: Gpu, exclude: Id, activeOnly: bool) {
    || (exists b <- bs :: CountsOn(b, g, exclude, activeOnly))
    || (exists f <- fs :: f.gpu == g && f.id != exclude)
  }

  function VramOn(bs: seq<Backend>, fs: seq<Fork>, g: Gpu, exclude: Id, activeOnly: bool): Vram {
    Vram(ReservedOn(bs, g, exclude, activeOnly) + ForkReservedOn(fs, g, exclude),
         UsingOn(bs, g, exclude, activeOnly) + ForkUsingOn(fs, g, exclude),
         EvictableOn(bs, g, exclude, activeOnly))
  }

  // What genVRAM says of GPU g, if anything.
  function Row(bs: seq<Backend>, fs: seq<Fork>, g: Gpu, exclude: Id, activeOnly: bool): Option<Vram> {
    if AnyOn(bs, fs, g, exclude, activeOnly) then Some(VramOn(bs, fs, g, exclude, activeOnly)) else None
  }

  function Entry(out: map<Gpu, Vram>, g: Gpu): Option<Vram> {
    if g in out then Some(out[g]) else None
  }

  function Plus(row: Option<Vram>, reserved: nat, using: nat, evictable: nat): Vram {
    var v := if row.Some? then row.value else Vram(0, 0, 0);
    Vram(v.reserved + reserved, v.using + using, v.evictable + evictable)
  }

  // out is the table genVRAM makes.
  ghost predicate IsTable(out: map<Gpu, Vram>, bs: seq<Backend>, fs: seq<Fork>, exclude: Id, activeOnly: bool) {
    forall g: Gpu :: Entry(out, g) == Row(bs, fs, g, exclude, activeOnly)
  }

  method GenVram(bs: seq<Backend>, fs: seq<Fork>, exclude: Id, activeOnly: bool) returns (out: map<Gpu, Vram>)
    ensures IsTable(out, bs, fs, exclude, activeOnly)
  {
    out := ForkVram(fs, exclude, activeOnly);
    hide IsTable, Entry;
    for i := 0 to |bs|
      invariant IsTable(out, bs[..i], fs, exclude, activeOnly)
    {
      var b := bs[i];
      TableGrows(out, bs, i, fs, exclude, activeOnly);
      if b.id == exclude {
        continue;
      }
      var using := b.Using();
      if !b.enabled && using == 0 {
        continue;
      }
      if activeOnly && using == 0 && !b.active && !b.keepRunning && !b.hasTurn {
        continue;
      }
      var share := Max(b.reserved, using);
      out := out[b.gpu := Plus(Entry(out, b.gpu), share, using, if b.keepRunning then 0 else share)];
    }
    assert bs[..|bs|] == bs;
  }

  method ForkVram(fs: seq<Fork>, exclude: Id, ghost activeOnly: bool) returns (out: map<Gpu, Vram>)
    ensures IsTable(out, [], fs, exclude, activeOnly)
  {
    out := map[];
    assert IsTable(out, [], [], exclude, activeOnly);
    hide IsTable, Entry;
    for i := 0 to |fs|
      invariant IsTable(out, [], fs[..i], exclude, activeOnly)
    {
      var f := fs[i];
      ForkTableGrows(out, fs, i, exclude, activeOnly);
      if f.id == exclude {
        continue;
      }
      out := out[f.gpu := Plus(Entry(out, f.gpu), Max(f.total, f.using), f.using, 0)];
    }
    assert fs[..|fs|] == fs;
  }

  // One instance more makes its row of the table grow, if it counts.
  lemma TableGrows(out: map<Gpu, Vram>, bs: seq<Backend>, i: nat, fs: seq<Fork>, exclude: Id, activeOnly: bool)
    requires i < |bs| && IsTable(out, bs[..i], fs, exclude, activeOnly)
    ensures var b := bs[i];
      IsTable(if !CountsOn(b, b.gpu, exclude, activeOnly) then out
        else out[b.gpu := Plus(Entry(out, b.gpu), b.Share(), b.Using(), if b.keepRunning then 0 else b.Share())],
        bs[..i + 1], fs, exclude, activeOnly)
  {
    var b := bs[i];
    var out' := if !CountsOn(b, b.gpu, exclude, activeOnly) then out
        else out[b.gpu := Plus(Entry(out, b.gpu), b.Share(), b.Using(), if b.keepRunning then 0 else b.Share())];
    forall g: Gpu
      ensures Entry(out', g) == Row(bs[..i + 1], fs, g, exclude, activeOnly)
    {
      assert Entry(out, g) == Row(bs[..i], fs, g, exclude, activeOnly);
      hide Row;
      RowStep(bs, i, fs, g, exclude, activeOnly);
    }
  }

  lemma ForkTableGrows(out: map<Gpu, Vram>, fs: seq<Fork>, i: nat, exclude: Id, activeOnly: bool)
    requires i < |fs| && IsTable(out, [], fs[..i], exclude, activeOnly)
    ensures var f := fs[i];
      IsTable(if f.id == exclude then out else out[f.gpu := Plus(Entry(out, f.gpu), Max(f.total, f.using), f.using, 0)],
        [], fs[..i + 1], exclude, activeOnly)
  {
    var f := fs[i];
    var out' := if f.id == exclude then out
      else out[f.gpu := Plus(Entry(out, f.gpu), Max(f.total, f.using), f.using, 0)];
    forall g: Gpu
      ensures Entry(out', g) == Row([], fs[..i + 1], g, exclude, activeOnly)
    {
      assert Entry(out, g) == Row([], fs[..i], g, exclude, activeOnly);
      hide Row;
      ForkRowStep(fs, i, g, exclude, activeOnly);
    }
  }

  lemma {:induction false} SumsOfConcat(a: seq<Backend>, b: seq<Backend>, g: Gpu, exclude: Id, activeOnly: bool)
    ensures ReservedOn(a + b, g, exclude, activeOnly) ==
      ReservedOn(a, g, exclude, activeOnly) + ReservedOn(b, g, exclude, activeOnly)
    ensures UsingOn(a + b, g, exclude, activeOnly) ==
      UsingOn(a, g, exclude, activeOnly) + UsingOn(b, g, exclude, activeOnly)
    ensures EvictableOn(a + b, g, exclude, activeOnly) ==
      EvictableOn(a, g, exclude, activeOnly) + EvictableOn(b, g, exclude, activeOnly)
  {
    if a == [] {
      assert a + b == b;
    } else {
      assert (a + b)[1..] == a[1..] + b;
      SumsOfConcat(a[1..], b, g, exclude, activeOnly);
    }
  }

  lemma RowStep(bs: seq<Backend>, i: nat, fs: seq<Fork>, g: Gpu, exclude: Id, activeOnly: bool)
    requires i < |bs|
    ensures Row(bs[..i + 1], fs, g, exclude, activeOnly) ==
      if CountsOn(bs[i], g, exclude, activeOnly)
      then Some(Plus(Row(bs[..i], fs, g, exclude, activeOnly), bs[i].Share(), bs[i].Using(),
                     if bs[i].keepRunning then 0 else bs[i].Share()))
      else Row(bs[..i], fs, g, exclude, activeOnly)
  {
    var b, before := bs[i], bs[..i];
    assert bs[..i + 1] == before + [b];
    hide CountsOn, AnyOn;
    VramStep(before, b, fs, g, exclude, activeOnly);
    NothingOn(before, fs, g, exclude, activeOnly);
    OneMoreOn(before, b, fs, g, exclude, activeOnly);
    hide VramOn;
  }

  lemma VramStep(before: seq<Backend>, b: Backend, fs: seq<Fork>, g: Gpu, exclude: Id, activeOnly: bool)
    ensures VramOn(before + [b], fs, g, exclude, activeOnly) ==
      var v := VramOn(before, fs, g, exclude, activeOnly);
      if CountsOn(b, g, exclude, activeOnly)
      then Vram(v.reserved + b.Share(), v.using + b.Using(), v.evictable + if b.keepRunning then 0 else b.Share())
      else v
  {
    hide CountsOn;
    SumsOfConcat(before, [b], g, exclude, activeOnly);
    assert [b][1..] == [];
  }

  lemma OneMoreOn(before: seq<Backend>, b: Backend, fs: seq<Fork>, g: Gpu, exclude: Id, activeOnly: bool)
    ensures AnyOn(before + [b], fs, g, exclude, activeOnly) <==>
      CountsOn(b, g, exclude, activeOnly) || AnyOn(before, fs, g, exclude, activeOnly)
  {
    hide CountsOn;
    assert forall x :: x in before + [b] <==> x in before || x == b;
  }

  lemma {:induction false} NothingOn(bs: seq<Backend>, fs: seq<Fork>, g: Gpu, exclude: Id, activeOnly: bool)
    ensures !AnyOn(bs, fs, g, exclude, activeOnly) ==> VramOn(bs, fs, g, exclude, activeOnly) == Vram(0, 0, 0)
    decreases |bs| + |fs|
  {
    if bs != [] {
      NothingOn(bs[1..], fs, g, exclude, activeOnly);
    } else if fs != [] {
      NothingOn(bs, fs[1..], g, exclude, activeOnly);
    }
  }

  lemma {:induction false} ForkSumsOfConcat(a: seq<Fork>, b: seq<Fork>, g: Gpu, exclude: Id)
    ensures ForkReservedOn(a + b, g, exclude) == ForkReservedOn(a, g, exclude) + ForkReservedOn(b, g, exclude)
    ensures ForkUsingOn(a + b, g, exclude) == ForkUsingOn(a, g, exclude) + ForkUsingOn(b, g, exclude)
  {
    if a == [] {
      assert a + b == b;
    } else {
      assert (a + b)[1..] == a[1..] + b;
      ForkSumsOfConcat(a[1..], b, g, exclude);
    }
  }

  lemma ForkRowStep(fs: seq<Fork>, i: nat, g: Gpu, exclude: Id, activeOnly: bool)
    requires i < |fs|
    ensures Row([], fs[..i + 1], g, exclude, activeOnly) ==
      if fs[i].gpu == g && fs[i].id != exclude
      then Some(Plus(Row([], fs[..i], g, exclude, activeOnly), Max(fs[i].total, fs[i].using), fs[i].using, 0))
      else Row([], fs[..i], g, exclude, activeOnly)
  {
    assert fs[..i + 1] == fs[..i] + [fs[i]];
    ForkSumsOfConcat(fs[..i], [fs[i]], g, exclude);
    NothingOn([], fs[..i], g, exclude, activeOnly);
  }

  // ----- what the sums are -----

  // What b's process holds: what the monitor reads for it, or its reservation
  // when it cannot tell.
  ghost function HeldBy(b: Backend): nat {
    match (b.hasPid, b.reading)
    case (false, _) => 0
    case (true, Some(mib)) => mib
    case (true, None) => b.reserved
  }

  // b counts on g: it is enabled or holds memory there, and if only what is in
  // the way now counts, it holds memory, runs, is kept running or has its turn.
  ghost predicate Weighs(b: Backend, g: Gpu, exclude: Id, activeOnly: bool) {
    && b.gpu == g && b.id != exclude
    && (HeldBy(b) > 0 || (b.enabled && (activeOnly ==> b.active || b.keepRunning || b.hasTurn)))
  }

  ghost function Larger(a: nat, b: nat): nat {
    if a >= b then a else b
  }

  // What counts against g: of each backend that counts there the larger of its
  // reservation and what it holds, and of each fork its whole GPU or what it
  // uses; of that what is in use; and what could be freed by stopping backends
  // that are not kept running.
  lemma VramIs(bs: seq<Backend>, fs: seq<Fork>, g: Gpu, exclude: Id, activeOnly: bool)
    ensures var v := VramOn(bs, fs, g, exclude, activeOnly);
      && v.reserved ==
        SumOf(bs, (b: Backend) => if Weighs(b, g, exclude, activeOnly) then Larger(b.reserved, HeldBy(b)) else 0) +
        SumOf(fs, (f: Fork) => if f.gpu == g && f.id != exclude then Larger(f.total, f.using) else 0)
      && v.using ==
        SumOf(bs, (b: Backend) => if Weighs(b, g, exclude, activeOnly) then HeldBy(b) else 0) +
        SumOf(fs, (f: Fork) => if f.gpu == g && f.id != exclude then f.using else 0)
      && v.evictable == SumOf(bs, (b: Backend) =>
        if Weighs(b, g, exclude, activeOnly) && !b.keepRunning then Larger(b.reserved, HeldBy(b)) else 0)
  {
    SharesAre(bs, g, exclude, activeOnly);
    ForksAre(fs, g, exclude);
  }

  lemma {:induction false} SharesAre(bs: seq<Backend>, g: Gpu, exclude: Id, activeOnly: bool)
    ensures ReservedOn(bs, g, exclude, activeOnly) ==
      SumOf(bs, (b: Backend) => if Weighs(b, g, exclude, activeOnly) then Larger(b.reserved, HeldBy(b)) else 0)
    ensures UsingOn(bs, g, exclude, activeOnly) ==
      SumOf(bs, (b: Backend) => if Weighs(b, g, exclude, activeOnly) then HeldBy(b) else 0)
    ensures EvictableOn(bs, g, exclude, activeOnly) == SumOf(bs, (b: Backend) =>
      if Weighs(b, g, exclude, activeOnly) && !b.keepRunning then Larger(b.reserved, HeldBy(b)) else 0)
  {
    if bs != [] {
      SharesAre(bs[1..], g, exclude, activeOnly);
    }
  }

  lemma {:induction false} ForksAre(fs: seq<Fork>, g: Gpu, exclude: Id)
    ensures ForkReservedOn(fs, g, exclude) ==
      SumOf(fs, (f: Fork) => if f.gpu == g && f.id != exclude then Larger(f.total, f.using) else 0)
    ensures ForkUsingOn(fs, g, exclude) == SumOf(fs, (f: Fork) => if f.gpu == g && f.id != exclude then f.using else 0)
  {
    if fs != [] {
      ForksAre(fs[1..], g, exclude);
    }
  }

  // The table has a row for exactly the GPUs something counts on.
  lemma RowMeans(bs: seq<Backend>, fs: seq<Fork>, g: Gpu, exclude: Id, activeOnly: bool)
    ensures Row(bs, fs, g, exclude, activeOnly) ==
      if (exists b <- bs :: Weighs(b, g, exclude, activeOnly)) || (exists f <- fs :: f.gpu == g && f.id != exclude)
      then Some(VramOn(bs, fs, g, exclude, activeOnly)) else None
  {
    assert forall b: Backend :: Weighs(b, g, exclude, activeOnly) <==> CountsOn(b, g, exclude, activeOnly);
  }
}
