// The startup move of catalog model files into the models directory. A crash
// may come between any two of its steps on the disk or in the model set
// store; the next start goes on from what it finds.
module GenMove {
  import opened Common

  type Path = string
  type Content = string
  type Disk = map<Path, Content>

  // path is where a file was last recorded ("" before it is downloaded),
  // target where the models directory puts it, bytes its recorded size (0
  // when unknown).
  datatype Component = Component(path: Path, target: Path, bytes: nat)

  datatype ModelSet = ModelSet(catalog: bool, components: seq<Component>)

  datatype Move = Move(from: Path, target: Path, bytes: nat)

  // What becomes of one step: done, refused by the system, or never taken
  // because the program died.
  datatype Outcome = Done | Failed | Died

  // Copies go through this file beside the target.
  function Part(target: Path): Path {
    target + ".part"
  }

  // The components that the move looks after: those of catalog sets, once
  // their file is there.
  ghost function Uses(sets: seq<ModelSet>): set<Component> {
    set s, c | s in sets && s.catalog && c in s.components && c.path != "" :: c
  }

  // ----- what a run keeps -----

  predicate At(disk: Disk, path: Path, content: Content) {
    path in disk && disk[path] == content
  }

  // Stat finds a file of the recorded size.
  predicate Looks(disk: Disk, path: Path, bytes: nat) {
    path in disk && (bytes == 0 || |disk[path]| == bytes)
  }

  // The file is at its target, or still where it was, and then nothing at its
  // target could be taken for it.
  predicate Safe(disk: Disk, c: Component, content: Content) {
    || At(disk, c.target, content)
    || (c.path != c.target && At(disk, c.path, content) && !Looks(disk, c.target, c.bytes))
  }

  // want is the content each target is to have. A path holds one file, whose
  // recorded size, if any, is right, and the paths to leave are no targets.
  ghost predicate Inv(disk: Disk, cs: set<Component>, want: map<Path, Content>) {
    && (forall c <- cs :: Kept(disk, c, want))
    && Paths(cs)
  }

  ghost predicate Kept(disk: Disk, c: Component, want: map<Path, Content>) {
    && c.path != "" && c.target != ""
    && c.target in want
    && (c.bytes == 0 || |want[c.target]| == c.bytes)
    && Safe(disk, c, want[c.target])
  }

  ghost predicate Paths(cs: set<Component>) {
    forall c, d | c in cs && d in cs :: Apart(c, d)
  }

  ghost predicate Apart(c: Component, d: Component) {
    && (c.path == d.path ==> c.target == d.target)
    && (c.path != c.target ==> c.path != d.target)
    && Part(c.target) != d.target
    && Part(c.target) != d.path
  }

  // Nothing but paths is changed in the sets, and none comes or goes.
  predicate SameSets(a: seq<ModelSet>, b: seq<ModelSet>) {
    |a| == |b| && forall i | 0 <= i < |a| :: SameSet(a[i], b[i])
  }

  predicate SameSet(a: ModelSet, b: ModelSet) {
    && a.catalog == b.catalog
    && |a.components| == |b.components|
    && forall j | 0 <= j < |a.components| :: SameComponent(a.components[j], b.components[j])
  }

  predicate SameComponent(a: Component, b: Component) {
    a.target == b.target && a.bytes == b.bytes && (a.path == "" <==> b.path == "")
  }

  // Every component of a catalog set is where it belongs, with its content.
  ghost predicate AllMoved(disk: Disk, cs: set<Component>, want: map<Path, Content>) {
    forall c <- cs :: c.path == c.target && c.target in want && At(disk, c.target, want[c.target])
  }

  // ----- each step on the disk -----

  lemma RemoveKeeps(disk: Disk, cs: set<Component>, want: map<Path, Content>, c: Component)
    requires Inv(disk, cs, want) && c in cs && c.path != c.target && At(disk, c.target, want[c.target])
    ensures Inv(disk - {c.path}, cs, want) && At(disk - {c.path}, c.target, want[c.target])
  {
    forall d <- cs
      ensures Kept(disk - {c.path}, d, want)
    {
      assert Kept(disk, d, want) && Kept(disk, c, want) && Apart(c, d) && Apart(d, c);
    }
    assert Apart(c, c);
  }

  lemma ArrivalKeeps(disk: Disk, cs: set<Component>, want: map<Path, Content>, c: Component)
    requires Inv(disk, cs, want) && c in cs
    ensures Inv(disk[c.target := want[c.target]], cs, want)
  {
    forall d <- cs
      ensures Kept(disk[c.target := want[c.target]], d, want)
    {
      assert Kept(disk, d, want) && Apart(d, c);
    }
  }

  // A rename takes the file from its path to its target at once.
  lemma RenameKeeps(disk: Disk, cs: set<Component>, want: map<Path, Content>, c: Component)
    requires Inv(disk, cs, want) && c in cs && c.path != c.target && At(disk, c.path, want[c.target])
    ensures var disk' := disk[c.target := disk[c.path]] - {c.path};
      Inv(disk', cs, want) && At(disk', c.target, want[c.target])
  {
    ArrivalKeeps(disk, cs, want, c);
    RemoveKeeps(disk[c.target := want[c.target]], cs, want, c);
  }

  // What is copied is not looked at before it is complete.
  lemma PartKeeps(disk: Disk, disk': Disk, cs: set<Component>, want: map<Path, Content>, c: Component)
    requires Inv(disk, cs, want) && c in cs && disk' - {Part(c.target)} == disk - {Part(c.target)}
    ensures Inv(disk', cs, want)
  {
    forall d <- cs
      ensures Kept(disk', d, want)
    {
      assert Kept(disk, d, want) && Apart(c, d);
      Elsewhere(disk, disk', Part(c.target), d.path);
      Elsewhere(disk, disk', Part(c.target), d.target);
    }
  }

  lemma Elsewhere(disk: Disk, disk': Disk, part: Path, p: Path)
    requires disk' - {part} == disk - {part} && p != part
    ensures p in disk' <==> p in disk
    ensures p in disk ==> disk'[p] == disk[p]
  {
    assert p in disk' <==> p in disk' - {part};
    assert p in disk <==> p in disk - {part};
    if p in disk {
      assert disk'[p] == (disk' - {part})[p] && disk[p] == (disk - {part})[p];
    }
  }

  // ----- the sets -----

  function Repoint(c: Component, from: Path, target: Path): Component {
    if c.path == from then c.(path := target) else c
  }

  function RepointEach(cs: seq<Component>, from: Path, target: Path): (r: seq<Component>)
    ensures |r| == |cs| && forall j | 0 <= j < |cs| :: r[j] == Repoint(cs[j], from, target)
  {
    if cs == [] then [] else [Repoint(cs[0], from, target)] + RepointEach(cs[1..], from, target)
  }

  // A set with the new path recorded in each component that had the old one.
  function Pointed(s: ModelSet, from: Path, target: Path): ModelSet {
    s.(components := RepointEach(s.components, from, target))
  }

  // Recording the new path in one set.
  function RepointSet(sets: seq<ModelSet>, k: nat, from: Path, target: Path): seq<ModelSet>
    requires k < |sets|
  {
    sets[k := Pointed(sets[k], from, target)]
  }

  // What pointing the sets at a moved file does to them, set by set, to all of
  // them when nothing goes wrong.
  predicate SetsPointed(was: seq<ModelSet>, now: seq<ModelSet>, from: Path, target: Path, all: bool) {
    && |now| == |was|
    && forall i | 0 <= i < |was| :: now[i] == Pointed(was[i], from, target) || (!all && now[i] == was[i])
  }

  lemma RepointedUses(sets: seq<ModelSet>, k: nat, from: Path, target: Path)
    requires k < |sets| && from != ""
    ensures forall c <- Uses(RepointSet(sets, k, from, target)) ::
      c in Uses(sets) || exists d <- Uses(sets) :: d.path == from && c == d.(path := target)
    ensures forall d <- Uses(sets) | d.path != from :: d in Uses(RepointSet(sets, k, from, target))
    ensures target != "" ==> SameSets(sets, RepointSet(sets, k, from, target))
  {
    var sets' := RepointSet(sets, k, from, target);
    forall c <- Uses(sets')
      ensures c in Uses(sets) || exists d <- Uses(sets) :: d.path == from && c == d.(path := target)
    {
      var i, j :| 0 <= i < |sets'| && sets'[i].catalog && 0 <= j < |sets'[i].components| && sets'[i].components[j] == c;
      var d := sets[i].components[j];
      assert sets[i] in sets && d in sets[i].components;
      if c != d {
        assert d in Uses(sets);
      }
    }
    forall d <- Uses(sets) | d.path != from
      ensures d in Uses(sets')
    {
      var i, j :| 0 <= i < |sets| && sets[i].catalog && 0 <= j < |sets[i].components| && sets[i].components[j] == d;
      assert sets'[i] in sets' && sets'[i].components[j] == d;
    }
  }

  // Once the file is at its target its sets may be pointed there one by one.
  lemma RepointKeeps(disk: Disk, sets: seq<ModelSet>, want: map<Path, Content>, k: nat, c: Component)
    requires Inv(disk, Uses(sets), want) && k < |sets|
    requires c.path != c.target && c.path != "" && c.target in want && At(disk, c.target, want[c.target])
    requires forall d <- Uses(sets) | d.path == c.path :: d.target == c.target
    requires forall d <- Uses(sets) | d.path == c.target :: d.target == c.target
    ensures Inv(disk, Uses(RepointSet(sets, k, c.path, c.target)), want)
  {
    var cs, cs' := Uses(sets), Uses(RepointSet(sets, k, c.path, c.target));
    RepointedUses(sets, k, c.path, c.target);
    hide Uses, RepointSet;
    forall e <- cs'
      ensures Kept(disk, e, want) && Origin(cs, c, e)
    {
      if e in cs {
        assert Kept(disk, e, want) && IsOrigin(c, e, e);
      } else {
        var d :| d in cs && d.path == c.path && e == d.(path := c.target);
        assert Kept(disk, d, want) && IsOrigin(c, d, e);
      }
    }
    hide Kept, Origin;
    forall e, f | e in cs' && f in cs'
      ensures Apart(e, f)
    {
      StillApart(cs, c, e, f);
    }
  }

  // d is what e was before c's file was recorded at its target.
  predicate IsOrigin(c: Component, d: Component, e: Component) {
    e == d || (d.path == c.path && d.target == c.target && e == d.(path := d.target))
  }

  ghost predicate Origin(cs: set<Component>, c: Component, e: Component) {
    exists d <- cs :: IsOrigin(c, d, e)
  }

  lemma StillApart(cs: set<Component>, c: Component, e: Component, f: Component)
    requires Paths(cs) && Origin(cs, c, e) && Origin(cs, c, f)
    ensures Apart(e, f)
  {
    var d :| d in cs && IsOrigin(c, d, e);
    var g :| g in cs && IsOrigin(c, g, f);
    assert Apart(d, g) && Apart(g, d) && Apart(d, d) && Apart(g, g);
    hide Paths, Origin;
  }

  // ----- the move -----

  // A move for a component in cs that is not where it belongs.
  ghost predicate IsFor(m: Move, cs: set<Component>) {
    exists c <- cs :: Moves(m, c)
  }

  predicate Moves(m: Move, c: Component) {
    c.path != "" && c.path != c.target && m == Move(c.path, c.target, c.bytes)
  }

  // One move for every path that catalog components are to leave.
  ghost predicate IsPending(moves: seq<Move>, cs: set<Component>) {
    && (forall m <- moves :: IsFor(m, cs))
    && (forall c <- cs | c.path != c.target :: exists m <- moves :: m.from == c.path)
    && (forall i, j | 0 <= i < j < |moves| :: moves[i].from != moves[j].from)
  }

  // ----- what a run left alone does to every set -----

  // Where the first n moves leave a component recorded at path p.
  function Renamed(moves: seq<Move>, n: nat, p: Path): Path
    requires n <= |moves|
  {
    if n == 0 then p
    else if Renamed(moves, n - 1, p) == moves[n - 1].from then moves[n - 1].target
    else Renamed(moves, n - 1, p)
  }

  function FollowEach(cs: seq<Component>, moves: seq<Move>, n: nat): (r: seq<Component>)
    requires n <= |moves|
    ensures |r| == |cs| && forall j | 0 <= j < |cs| :: r[j] == cs[j].(path := Renamed(moves, n, cs[j].path))
  {
    if cs == [] then [] else [cs[0].(path := Renamed(moves, n, cs[0].path))] + FollowEach(cs[1..], moves, n)
  }

  // A set, of the catalog or not, once the first n moves are through.
  function Followed(s: ModelSet, moves: seq<Move>, n: nat): ModelSet
    requires n <= |moves|
  {
    s.(components := FollowEach(s.components, moves, n))
  }

  predicate SetsFollow(was: seq<ModelSet>, now: seq<ModelSet>, moves: seq<Move>, n: nat)
    requires n <= |moves|
  {
    |now| == |was| && forall i | 0 <= i < |was| :: now[i] == Followed(was[i], moves, n)
  }

  // The file is no longer at its old path but at its target; nothing else comes
  // or goes but the copy beside the target.
  ghost predicate Arrived(disk: Disk, disk': Disk, m: Move) {
    && (forall p | p != Part(m.target) :: p in disk' <==> (p in disk || p == m.target) && p != m.from)
    && (forall p <- disk' :: p in disk || p == m.target)
  }

  predicate IsTarget(moves: seq<Move>, n: nat, p: Path)
    requires n <= |moves|
  {
    exists m <- moves[..n] :: m.target == p
  }

  predicate IsSource(moves: seq<Move>, n: nat, p: Path)
    requires n <= |moves|
  {
    exists m <- moves[..n] :: m.from == p
  }

  predicate IsPart(moves: seq<Move>, p: Path) {
    exists m <- moves :: Part(m.target) == p
  }

  ghost predicate DiskFollows(disk: Disk, disk': Disk, moves: seq<Move>, n: nat)
    requires n <= |moves|
  {
    && (forall p | !IsPart(moves, p) :: p in disk' <==> (p in disk || IsTarget(moves, n, p)) && !IsSource(moves, n, p))
    && (forall p <- disk' :: p in disk || IsTarget(moves, n, p))
  }

  // No move leaves a path another one goes to, and none leaves a path twice.
  predicate Separate(moves: seq<Move>) {
    && (forall m, n | m in moves && n in moves :: m.target != n.from && Part(m.target) != n.target)
    && (forall i, j | 0 <= i < j < |moves| :: moves[i].from != moves[j].from)
  }

  // A run that was left alone: everything that was pending has been moved.
  ghost predicate LeftAlone(disk: Disk, sets: seq<ModelSet>, disk': Disk, sets': seq<ModelSet>, moves: seq<Move>) {
    && IsPending(moves, Uses(sets))
    && Separate(moves)
    && SetsFollow(sets, sets', moves, |moves|)
    && DiskFollows(disk, disk', moves, |moves|)
  }

  lemma PendingIsSeparate(disk: Disk, cs: set<Component>, want: map<Path, Content>, moves: seq<Move>)
    requires Inv(disk, cs, want) && IsPending(moves, cs)
    ensures Separate(moves)
  {
    forall m, n | m in moves && n in moves
      ensures m.target != n.from && Part(m.target) != n.target
    {
      assert IsFor(m, cs) && IsFor(n, cs);
      var c :| c in cs && Moves(m, c);
      var d :| d in cs && Moves(n, d);
      assert Apart(d, c) && Apart(c, d);
    }
  }

  lemma RunBegins(disk: Disk, sets: seq<ModelSet>, moves: seq<Move>)
    ensures SetsFollow(sets, sets, moves, 0) && DiskFollows(disk, disk, moves, 0)
  {
    forall i | 0 <= i < |sets|
      ensures sets[i] == Followed(sets[i], moves, 0)
    {
      FollowNone(sets[i], moves);
    }
  }

  lemma FollowOne(s: ModelSet, moves: seq<Move>, n: nat)
    requires n < |moves|
    ensures Pointed(Followed(s, moves, n), moves[n].from, moves[n].target) == Followed(s, moves, n + 1)
  {}

  lemma {:induction false} FollowNone(s: ModelSet, moves: seq<Move>)
    ensures Followed(s, moves, 0) == s
  {}

  lemma SetsFollowOne(was: seq<ModelSet>, now: seq<ModelSet>, next: seq<ModelSet>, moves: seq<Move>, n: nat)
    requires n < |moves| && SetsFollow(was, now, moves, n)
      && SetsPointed(now, next, moves[n].from, moves[n].target, true)
    ensures SetsFollow(was, next, moves, n + 1)
  {
    forall i | 0 <= i < |was|
      ensures next[i] == Followed(was[i], moves, n + 1)
    {
      FollowOne(was[i], moves, n);
    }
  }

  lemma OneMoreMove(moves: seq<Move>, n: nat, p: Path)
    requires n < |moves|
    ensures IsTarget(moves, n + 1, p) <==> IsTarget(moves, n, p) || p == moves[n].target
    ensures IsSource(moves, n + 1, p) <==> IsSource(moves, n, p) || p == moves[n].from
  {
    assert moves[..n + 1] == moves[..n] + [moves[n]];
    assert forall m :: m in moves[..n + 1] <==> m in moves[..n] || m == moves[n];
  }

  lemma DiskFollowsOne(disk: Disk, disk': Disk, disk'': Disk, moves: seq<Move>, n: nat)
    requires n < |moves| && Separate(moves) && DiskFollows(disk, disk', moves, n) && Arrived(disk', disk'', moves[n])
    ensures DiskFollows(disk, disk'', moves, n + 1)
  {
    forall p
      ensures !IsPart(moves, p) ==>
        (p in disk'' <==> (p in disk || IsTarget(moves, n + 1, p)) && !IsSource(moves, n + 1, p))
      ensures p in disk'' ==> p in disk || IsTarget(moves, n + 1, p)
    {
      DiskFollowsAt(disk, disk', disk'', moves, n, p);
    }
  }

  lemma DiskFollowsAt(disk: Disk, disk': Disk, disk'': Disk, moves: seq<Move>, n: nat, p: Path)
    requires n < |moves| && Separate(moves) && DiskFollows(disk, disk', moves, n) && Arrived(disk', disk'', moves[n])
    ensures !IsPart(moves, p) ==>
      (p in disk'' <==> (p in disk || IsTarget(moves, n + 1, p)) && !IsSource(moves, n + 1, p))
    ensures p in disk'' ==> p in disk || IsTarget(moves, n + 1, p)
  {
    var m := moves[n];
    assert m in moves;
    OneMoreMove(moves, n, p);
    assert p == m.target ==> !IsSource(moves, n, p) by {
      assert forall x <- moves[..n] :: x in moves;
    }
    assert !IsPart(moves, p) ==> p != Part(m.target);
    hide Separate, IsPart, IsTarget, IsSource;
  }

  // Where a path ends up: at the target of the move that leaves it, if any.
  lemma MovesApart(moves: seq<Move>, j: nat, k: nat)
    requires Separate(moves) && j < k < |moves|
    ensures moves[j].target != moves[k].from && moves[j].from != moves[k].from
  {
    assert moves[j] in moves && moves[k] in moves;
  }

  lemma {:induction false} RenamedIs(moves: seq<Move>, n: nat, p: Path)
    requires n <= |moves| && Separate(moves)
    ensures !IsSource(moves, n, p) ==> Renamed(moves, n, p) == p
    ensures forall k | 0 <= k < n && moves[k].from == p :: Renamed(moves, n, p) == moves[k].target
  {
    hide Separate;
    if n > 0 {
      RenamedIs(moves, n - 1, p);
      OneMoreMove(moves, n - 1, p);
      forall k | 0 <= k < n - 1
        ensures moves[k].target != moves[n - 1].from && moves[k].from != moves[n - 1].from
      {
        MovesApart(moves, k, n - 1);
      }
    }
  }

  // crossMount says which renames need a copy instead. steps left until the
  // program dies (None: it does not), and which steps fail.
  datatype Luck = Luck(steps: Option<nat>, fails: nat -> bool, crossMount: (Path, Path) -> bool)

  class Mover {
    var disk: Disk
    var sets: seq<ModelSet>
    var luck: Luck
    var t: nat

    constructor (disk: Disk, sets: seq<ModelSet>)
      ensures this.disk == disk && this.sets == sets
    {
      this.disk, this.sets := disk, sets;
      luck, t := Luck(None, (k: nat) => false, (a: Path, b: Path) => false), 0;
    }

    // Nothing goes wrong.
    ghost predicate Calm()
      reads this
    {
      luck.steps.None? && forall k :: !luck.fails(k)
    }

    method Step() returns (o: Outcome)
      modifies this`luck, this`t
      ensures old(Calm()) ==> Calm() && o == Done
      ensures luck.crossMount == old(luck).crossMount
    {
      if luck.steps == Some(0) {
        return Died;
      }
      if luck.steps.Some? {
        luck := luck.(steps := Some(luck.steps.value - 1));
      }
      t := t + 1;
      return if luck.fails(t) then Failed else Done;
    }

    method Remove(path: Path) returns (o: Outcome)
      modifies this`luck, this`t, this`disk
      ensures old(Calm()) ==> Calm() && o == Done
      ensures disk == if o.Done? then old(disk) - {path} else old(disk)
    {
      o := Step();
      if o.Done? {
        disk := disk - {path};
      }
    }

    method Write(path: Path, content: Content) returns (o: Outcome)
      modifies this`luck, this`t, this`disk
      ensures old(Calm()) ==> Calm() && o == Done
      ensures disk == if o.Done? then old(disk)[path := content] else old(disk)
    {
      o := Step();
      if o.Done? {
        disk := disk[path := content];
      }
    }

    method Rename(from: Path, target: Path) returns (o: Outcome)
      requires from in disk
      modifies this`luck, this`t, this`disk
      ensures old(Calm()) ==> Calm() && o == Done
      ensures disk == if o.Done? then old(disk)[target := old(disk)[from]] - {from} else old(disk)
    {
      o := Step();
      if o.Done? {
        disk := disk[target := disk[from]] - {from};
      }
    }

    // atomicfile.Copy: written beside the target in any number of pieces (one
    // here stands for what a crash leaves of it) and renamed into place.
    method Copy(ghost cs: set<Component>, ghost want: map<Path, Content>, ghost c: Component, from: Path, target: Path)
        returns (o: Outcome)
      requires Inv(disk, cs, want) && c in cs && c.path == from != target == c.target && At(disk, from, want[target])
      modifies this`luck, this`t, this`disk
      ensures old(Calm()) ==> Calm() && o == Done
      ensures Inv(disk, cs, want)
      ensures o.Done? ==> At(disk, target, want[target])
      ensures o.Done? ==> disk.Keys == old(disk).Keys + {target} - {Part(target)}
    {
      var part := Part(target);
      assert Apart(c, c);
      var content := disk[from];
      ghost var disk0 := disk;
      o := Write(part, "");
      PartKeeps(disk0, disk, cs, want, c);
      if o.Done? {
        o := Write(part, content);
        PartKeeps(disk0, disk, cs, want, c);
      }
      if o.Done? {
        o := Step();
      }
      if o.Done? {
        ghost var before := disk;
        o := Rename(part, target);
        if o.Done? {
          ArrivalKeeps(before, cs, want, c);
          PartKeeps(before[target := want[target]], disk, cs, want, c);
          return;
        }
      }
      if o.Failed? {
        ghost var before := disk;
        var _ := Remove(part);
        PartKeeps(before, disk, cs, want, c);
      }
    }

    method MoveGenFile(ghost cs: set<Component>, ghost want: map<Path, Content>, ghost c: Component, m: Move)
        returns (o: Outcome)
      requires Inv(disk, cs, want) && c in cs && Moves(m, c)
      modifies this`luck, this`t, this`disk
      ensures old(Calm()) ==> Calm() && o == Done
      ensures Inv(disk, cs, want)
      ensures o.Done? ==> At(disk, m.target, want[m.target]) && Arrived(old(disk), disk, m)
    {
      assert Kept(disk, c, want);
      assert Apart(c, c);
      hide Inv;
      if Looks(disk, m.target, m.bytes) {
        RemoveKeeps(disk, cs, want, c);
        o := Remove(m.from);
        return;
      }
      if m.from !in disk {
        return Failed;
      }
      o := Step();
      if !o.Done? {
        return;
      }
      if !luck.crossMount(m.from, m.target) {
        RenameKeeps(disk, cs, want, c);
        o := Rename(m.from, m.target);
        return;
      }
      o := Step();
      if !o.Done? {
        return;
      }
      o := Copy(cs, want, c, m.from, m.target);
      if o.Done? {
        RemoveKeeps(disk, cs, want, c);
        o := Remove(m.from);
      }
    }

    method UpdateModelSet(k: nat, s: ModelSet) returns (o: Outcome)
      requires k < |sets|
      modifies this`luck, this`t, this`sets
      ensures old(Calm()) ==> Calm() && o == Done
      ensures sets == if o.Done? then old(sets)[k := s] else old(sets)
    {
      o := Step();
      if o.Done? {
        sets := sets[k := s];
      }
    }

    // Points every set component that used m.from at its target.
    method RepointGenFile(ghost want: map<Path, Content>, m: Move, ghost c: Component) returns (o: Outcome)
      requires Inv(disk, Uses(sets), want) && Moves(m, c) && c in Uses(sets) && At(disk, m.target, want[m.target])
      modifies this`luck, this`t, this`sets
      ensures old(Calm()) ==> Calm() && o == Done
      ensures Inv(disk, Uses(sets), want) && SameSets(old(sets), sets)
      // In every set, of the catalog or not, the components that had the old
      // path get the new one and no other changes.
      ensures SetsPointed(old(sets), sets, m.from, m.target, old(Calm()))
      ensures old(Calm()) ==> forall d <- Uses(sets) :: d.path != m.from
      ensures OnlyFrom(Uses(old(sets)), Uses(sets), m.from)
    {
      ghost var was, calm := sets, Calm();
      PointingStarts(disk, sets, want, c, calm);
      assert c.target != "" by {
        assert Kept(disk, c, want);
      }
      hide *;
      for k := 0 to |sets|
        invariant |sets| == |was| && Pointing(disk, was, sets, want, c, k, calm) && (calm ==> Calm())
      {
        ghost var before := sets;
        if NoneAt(sets[k], m.from) {
          PointNone(disk, was, sets, want, c, k, calm);
          continue;
        }
        o := UpdateModelSet(k, Pointed(sets[k], m.from, m.target));
        if o.Died? {
          PointingEnds(disk, was, sets, want, c, k, false);
          return;
        }
        PointNext(disk, was, before, sets, want, c, k, calm, o);
      }
      PointingEnds(disk, was, sets, want, c, |sets|, calm);
      o := Done;
    }

    // pendingGenMoves.
    method Pending() returns (moves: seq<Move>)
      requires forall c <- Uses(sets) :: c.path != ""
      ensures IsPending(moves, Uses(sets))
    {
      moves := [];
      var seen: set<Path> := {};
      ghost var cs := Uses(sets);
      for i := 0 to |sets|
        invariant Found(moves, seen, cs)
        invariant forall a, b | 0 <= a < i && sets[a].catalog && 0 <= b < |sets[a].components| ::
          IsListed(sets[a].components[b], seen)
      {
        var s := sets[i];
        if !s.catalog {
          continue;
        }
        for j := 0 to |s.components|
          invariant Found(moves, seen, cs)
          invariant forall a, b | 0 <= a < i && sets[a].catalog && 0 <= b < |sets[a].components| ::
            IsListed(sets[a].components[b], seen)
          invariant forall b | 0 <= b < j :: IsListed(s.components[b], seen)
        {
          var c := s.components[j];
          if c.path == "" || c.path == c.target || c.path in seen {
            continue;
          }
          assert s in sets && c in s.components && c in cs;
          var m := Move(c.path, c.target, c.bytes);
          OneMoreFound(moves, seen, cs, c);
          seen := seen + {c.path};
          moves := moves + [m];
        }
      }
      AllFound(moves, seen, sets);
    }

    // One turn of moveGenModels.
    method MoveOne(ghost want: map<Path, Content>, m: Move, ghost c: Component) returns (died: bool)
      requires Inv(disk, Uses(sets), want) && Moves(m, c) && c in Uses(sets)
      modifies this`luck, this`t, this`disk, this`sets
      ensures Inv(disk, Uses(sets), want) && SameSets(old(sets), sets)
      ensures !died ==> OnlyFrom(Uses(old(sets)), Uses(sets), m.from)
      ensures old(Calm()) ==>
        && Calm() && !died && SetsPointed(old(sets), sets, m.from, m.target, true) && Arrived(old(disk), disk, m)
        && forall d <- Uses(sets) :: d.path != m.from
    {
      Untouched(sets, m.from);
      hide *;
      var o := MoveGenFile(Uses(sets), want, c, m);
      if o.Done? {
        o := RepointGenFile(want, m, c);
      }
      died := o.Died?;
    }

    // moveGenModels, from its list of moves to the end or the crash.
    method MoveGenModels(ghost want: map<Path, Content>) returns (ghost pending: seq<Move>)
      requires Inv(disk, Uses(sets), want)
      modifies this`luck, this`t, this`disk, this`sets
      ensures Inv(disk, Uses(sets), want) && SameSets(old(sets), sets)
      ensures old(Calm()) ==> AllMoved(disk, Uses(sets), want) && LeftAlone(old(disk), old(sets), disk, sets, pending)
    {
      ghost var was, disk0, calm := sets, disk, Calm();
      KeptPaths(disk, Uses(sets), want);
      hide *;
      var moves := Pending();
      pending := moves;
      Sets0(disk, sets, want, moves, calm);
      for i := 0 to |moves|
        invariant Going(disk0, was, disk, sets, want, moves, i, calm) && (calm ==> Calm())
      {
        ghost var c := HasComponent(disk0, was, disk, sets, want, moves, i, calm);
        ghost var disk1, sets1 := disk, sets;
        var died := MoveOne(want, moves[i], c);
        if died {
          GoingEnds(disk0, was, disk1, sets1, disk, sets, want, moves, i, calm);
          return;
        }
        GoOn(disk0, was, disk1, sets1, disk, sets, want, moves, i, calm);
      }
      GoingIsOver(disk0, was, disk, sets, want, moves, calm);
    }

    // A run at every start: those of lucks end in crashes and failures at any
    // of their steps, and the last one is left alone.
    method Starts(lucks: seq<Luck>, crossMount: (Path, Path) -> bool, ghost want: map<Path, Content>)
        returns (ghost disk0: Disk, ghost sets0: seq<ModelSet>, ghost moves: seq<Move>)
      requires Inv(disk, Uses(sets), want)
      modifies this
      ensures AllMoved(disk, Uses(sets), want) && SameSets(old(sets), sets)
      // disk0 and sets0 are what the crashes left to the last run.
      ensures Inv(disk0, Uses(sets0), want) && SameSets(old(sets), sets0) && LeftAlone(disk0, sets0, disk, sets, moves)
    {
      ghost var was := sets;
      SameSetsSelf(sets);
      hide Inv, Uses, SameSets, AllMoved, LeftAlone;
      for i := 0 to |lucks|
        invariant Inv(disk, Uses(sets), want) && SameSets(was, sets)
      {
        luck, t := lucks[i], 0;
        ghost var before := sets;
        moves := MoveGenModels(want);
        SameSetsTwice(was, before, sets);
      }
      luck, t := Luck(None, (k: nat) => false, crossMount), 0;
      disk0, sets0 := disk, sets;
      moves := MoveGenModels(want);
      SameSetsTwice(was, sets0, sets);
    }
  }

  // ----- the list of moves -----

  predicate IsListed(c: Component, seen: set<Path>) {
    c.path == "" || c.path == c.target || c.path in seen
  }

  ghost predicate Found(moves: seq<Move>, seen: set<Path>, cs: set<Component>) {
    && (forall m <- moves :: IsFor(m, cs))
    && (forall p <- seen :: exists m <- moves :: m.from == p)
    && (forall m <- moves :: m.from in seen)
    && (forall i, j | 0 <= i < j < |moves| :: moves[i].from != moves[j].from)
  }

  lemma OneMoreFound(moves: seq<Move>, seen: set<Path>, cs: set<Component>, c: Component)
    requires Found(moves, seen, cs) && c in cs && c.path != "" && c.path != c.target && c.path !in seen
    ensures Found(moves + [Move(c.path, c.target, c.bytes)], seen + {c.path}, cs)
  {
    var m := Move(c.path, c.target, c.bytes);
    var moves' := moves + [m];
    assert Moves(m, c);
    assert moves'[|moves|] == m && forall x <- moves :: x in moves';
    forall p <- seen + {c.path}
      ensures exists x <- moves' :: x.from == p
    {
      if p != c.path {
        var x :| x in moves && x.from == p;
        assert x in moves';
      }
    }
  }

  lemma AllFound(moves: seq<Move>, seen: set<Path>, sets: seq<ModelSet>)
    requires Found(moves, seen, Uses(sets))
    requires forall a, b | 0 <= a < |sets| && sets[a].catalog && 0 <= b < |sets[a].components| ::
      IsListed(sets[a].components[b], seen)
    ensures IsPending(moves, Uses(sets))
  {
    forall c <- Uses(sets) | c.path != c.target
      ensures exists m <- moves :: m.from == c.path
    {
      var a, b :| 0 <= a < |sets| && sets[a].catalog && 0 <= b < |sets[a].components| && sets[a].components[b] == c;
      assert IsListed(sets[a].components[b], seen);
    }
  }

  // The moves from i on are each still for some component.
  ghost predicate ToGo(moves: seq<Move>, i: nat, cs: set<Component>) {
    && (forall k | i <= k < |moves| :: IsFor(moves[k], cs))
    && (forall j, k | 0 <= j < k < |moves| :: moves[j].from != moves[k].from)
  }

  // And every component not where it belongs has one of them.
  ghost predicate AllToGo(moves: seq<Move>, i: nat, cs: set<Component>) {
    forall c <- cs | c.path != c.target :: exists k :: i <= k < |moves| && moves[k].from == c.path
  }

  // What pointing the sets at a moved file does to the components.
  ghost predicate OnlyFrom(cs: set<Component>, cs': set<Component>, from: Path) {
    && (forall d <- cs | d.path != from :: d in cs')
    && (forall d <- cs' :: d in cs || d.path == d.target)
  }

  lemma StillToGo(done: Move, m: Move, cs: set<Component>, cs': set<Component>)
    requires OnlyFrom(cs, cs', done.from) && IsFor(m, cs) && m.from != done.from
    ensures IsFor(m, cs')
  {
    var c :| c in cs && Moves(m, c);
    assert c in cs';
  }

  lemma MoveIsOver(moves: seq<Move>, i: nat, cs: set<Component>, cs': set<Component>, calm: bool)
    requires i < |moves| && ToGo(moves, i, cs) && (calm ==> AllToGo(moves, i, cs))
    requires OnlyFrom(cs, cs', moves[i].from)
    requires calm ==> forall d <- cs' :: d.path != moves[i].from
    ensures ToGo(moves, i + 1, cs') && (calm ==> AllToGo(moves, i + 1, cs'))
  {
    hide IsFor;
    forall k | i + 1 <= k < |moves|
      ensures IsFor(moves[k], cs')
    {
      StillToGo(moves[i], moves[k], cs, cs');
    }
    if calm {
      forall c <- cs' | c.path != c.target
        ensures exists k :: i + 1 <= k < |moves| && moves[k].from == c.path
      {
        assert c in cs;
        var k :| i <= k < |moves| && moves[k].from == c.path;
        assert i + 1 <= k;
      }
    }
  }

  lemma KeptPaths(disk: Disk, cs: set<Component>, want: map<Path, Content>)
    requires Inv(disk, cs, want)
    ensures forall c <- cs :: c.path != ""
  {
    forall c <- cs
      ensures c.path != ""
    {
      assert Kept(disk, c, want);
    }
  }

  // A run is at its move i, having begun with disk0 and was.
  ghost predicate Going(disk0: Disk, was: seq<ModelSet>, disk: Disk, sets: seq<ModelSet>, want: map<Path, Content>,
                        moves: seq<Move>, i: nat, calm: bool)
  {
    && i <= |moves| && Separate(moves)
    && IsPending(moves, Uses(was))
    && Inv(disk, Uses(sets), want) && SameSets(was, sets)
    && ToGo(moves, i, Uses(sets))
    && (calm ==> AllToGo(moves, i, Uses(sets)) && SetsFollow(was, sets, moves, i) && DiskFollows(disk0, disk, moves, i))
  }

  lemma Sets0(disk: Disk, sets: seq<ModelSet>, want: map<Path, Content>, moves: seq<Move>, calm: bool)
    requires Inv(disk, Uses(sets), want) && IsPending(moves, Uses(sets))
    ensures Going(disk, sets, disk, sets, want, moves, 0, calm)
  {
    SameSetsSelf(sets);
    PendingIsSeparate(disk, Uses(sets), want, moves);
    RunBegins(disk, sets, moves);
    hide Inv, Uses, SameSets, SetsFollow, DiskFollows, Separate;
  }

  lemma HasComponent(disk0: Disk, was: seq<ModelSet>, disk: Disk, sets: seq<ModelSet>, want: map<Path, Content>,
                     moves: seq<Move>, i: nat, calm: bool) returns (c: Component)
    requires Going(disk0, was, disk, sets, want, moves, i, calm) && i < |moves|
    ensures c in Uses(sets) && Moves(moves[i], c) && Inv(disk, Uses(sets), want)
  {
    hide Inv, Uses, SameSets, SetsFollow, DiskFollows, Separate, IsPending;
    assert IsFor(moves[i], Uses(sets));
    c :| c in Uses(sets) && Moves(moves[i], c);
  }

  // The move changed nothing in the sets.
  lemma Untouched(sets: seq<ModelSet>, from: Path)
    ensures SameSets(sets, sets) && OnlyFrom(Uses(sets), Uses(sets), from)
  {
    hide Uses;
  }

  lemma GoOn(disk0: Disk, was: seq<ModelSet>, disk1: Disk, sets1: seq<ModelSet>, disk: Disk, sets: seq<ModelSet>,
             want: map<Path, Content>, moves: seq<Move>, i: nat, calm: bool)
    requires Going(disk0, was, disk1, sets1, want, moves, i, calm) && i < |moves|
    requires Inv(disk, Uses(sets), want) && SameSets(sets1, sets) && OnlyFrom(Uses(sets1), Uses(sets), moves[i].from)
    requires calm ==> SetsPointed(sets1, sets, moves[i].from, moves[i].target, true) && Arrived(disk1, disk, moves[i])
    requires calm ==> forall d <- Uses(sets) :: d.path != moves[i].from
    ensures Going(disk0, was, disk, sets, want, moves, i + 1, calm)
  {
    hide Inv, Uses, SameSets, SetsFollow, DiskFollows, Separate, SetsPointed, Arrived, OnlyFrom, ToGo, AllToGo,
      IsPending;
    SameSetsTwice(was, sets1, sets);
    MoveIsOver(moves, i, Uses(sets1), Uses(sets), calm);
    if calm {
      SetsFollowOne(was, sets1, sets, moves, i);
      DiskFollowsOne(disk0, disk1, disk, moves, i);
    }
  }

  // A run that dies keeps what matters.
  lemma GoingEnds(disk0: Disk, was: seq<ModelSet>, disk1: Disk, sets1: seq<ModelSet>, disk: Disk, sets: seq<ModelSet>,
                  want: map<Path, Content>, moves: seq<Move>, i: nat, calm: bool)
    requires Going(disk0, was, disk1, sets1, want, moves, i, calm) && SameSets(sets1, sets)
    ensures SameSets(was, sets)
  {
    hide Inv, Uses, SameSets, SetsFollow, DiskFollows, Separate, ToGo, AllToGo, IsPending;
    SameSetsTwice(was, sets1, sets);
  }

  lemma GoingIsOver(disk0: Disk, was: seq<ModelSet>, disk: Disk, sets: seq<ModelSet>, want: map<Path, Content>,
                    moves: seq<Move>, calm: bool)
    requires Going(disk0, was, disk, sets, want, moves, |moves|, calm)
    ensures Inv(disk, Uses(sets), want) && SameSets(was, sets)
    ensures calm ==> AllMoved(disk, Uses(sets), want) && LeftAlone(disk0, was, disk, sets, moves)
  {
    hide Inv, Uses, SameSets, SetsFollow, DiskFollows, Separate, ToGo, AllToGo, IsPending, AllMoved;
    AllAtTarget(disk, moves, Uses(sets), want, calm);
  }

  lemma AllAtTarget(disk: Disk, moves: seq<Move>, cs: set<Component>, want: map<Path, Content>, calm: bool)
    requires Inv(disk, cs, want) && (calm ==> AllToGo(moves, |moves|, cs))
    ensures calm ==> AllMoved(disk, cs, want)
  {
    if calm {
      forall c <- cs
        ensures c.path == c.target && c.target in want && At(disk, c.target, want[c.target])
      {
        assert Kept(disk, c, want);
      }
    }
  }

  // The sets up to k have been pointed at c's target, unless something failed.
  ghost predicate Pointing(disk: Disk, was: seq<ModelSet>, now: seq<ModelSet>, want: map<Path, Content>, c: Component,
                           k: nat, calm: bool)
  {
    && |now| == |was| && k <= |now|
    && SameSets(was, now)
    && Inv(disk, Uses(now), want)
    && Same(Uses(now), c)
    && OnlyFrom(Uses(was), Uses(now), c.path)
    && PointedTo(was, now, c, k, calm)
  }

  predicate PointedTo(was: seq<ModelSet>, now: seq<ModelSet>, c: Component, k: nat, calm: bool) {
    && |now| == |was| && k <= |now|
    && (forall i | 0 <= i < k ::
      (now[i] == Pointed(was[i], c.path, c.target) && NoneAt(now[i], c.path)) || (!calm && now[i] == was[i]))
    && (forall i | k <= i < |was| :: now[i] == was[i])
  }

  lemma PointedToOne(was: seq<ModelSet>, now: seq<ModelSet>, c: Component, k: nat, calm: bool)
    requires PointedTo(was, now, c, k, calm) && k < |now| && c.path != c.target
    ensures PointedTo(was, RepointSet(now, k, c.path, c.target), c, k + 1, calm)
  {
    NoneAtNow(now, k, c.path, c.target);
    hide Pointed, NoneAt;
  }

  lemma PointingStarts(disk: Disk, sets: seq<ModelSet>, want: map<Path, Content>, c: Component, calm: bool)
    requires Inv(disk, Uses(sets), want) && c in Uses(sets)
    ensures Pointing(disk, sets, sets, want, c, 0, calm)
  {
    Together(disk, Uses(sets), want, c);
    SameSetsSelf(sets);
  }

  lemma PointNone(disk: Disk, was: seq<ModelSet>, now: seq<ModelSet>, want: map<Path, Content>, c: Component, k: nat,
                  calm: bool)
    requires Pointing(disk, was, now, want, c, k, calm) && k < |now| && (calm ==> NoneAt(now[k], c.path))
    ensures Pointing(disk, was, now, want, c, k + 1, calm)
  {
    if NoneAt(now[k], c.path) {
      NothingToPoint(now[k], c.path, c.target);
    }
    hide SameSets, Inv, Uses, Same, OnlyFrom, NoneAt, Pointed;
  }

  lemma NothingToPoint(s: ModelSet, from: Path, target: Path)
    requires NoneAt(s, from)
    ensures Pointed(s, from, target) == s
  {
    assert RepointEach(s.components, from, target) == s.components;
  }

  lemma PointOne(disk: Disk, was: seq<ModelSet>, now: seq<ModelSet>, want: map<Path, Content>, c: Component, k: nat,
                 calm: bool)
    requires Pointing(disk, was, now, want, c, k, calm) && k < |now|
    requires c.path != c.target && c.path != "" && c.target != "" && c.target in want
      && At(disk, c.target, want[c.target])
    ensures Pointing(disk, was, RepointSet(now, k, c.path, c.target), want, c, k + 1, calm)
  {
    var next := RepointSet(now, k, c.path, c.target);
    hide SameSets, Inv, Uses, NoneAt, OnlyFrom, At, Pointed, PointedTo;
    PointedToOne(was, now, c, k, calm);
    assert Same(Uses(now), c);
    RepointKeeps(disk, now, want, k, c);
    RepointedUses(now, k, c.path, c.target);
    hide Same;
    SameSetsTwice(was, now, next);
    StillOnlyFrom(was, now, next, c);
  }

  lemma PointNext(disk: Disk, was: seq<ModelSet>, before: seq<ModelSet>, now: seq<ModelSet>, want: map<Path, Content>,
                  c: Component, k: nat, calm: bool, o: Outcome)
    requires Pointing(disk, was, before, want, c, k, calm) && k < |before| && (calm ==> o.Done?)
    requires now == if o.Done? then before[k := Pointed(before[k], c.path, c.target)] else before
    requires c.path != c.target && c.path != "" && c.target != "" && c.target in want
      && At(disk, c.target, want[c.target])
    ensures Pointing(disk, was, now, want, c, k + 1, calm)
  {
    assert o.Done? ==> now == RepointSet(before, k, c.path, c.target);
    hide Pointing, RepointSet, Pointed, At;
    if o.Done? {
      PointOne(disk, was, before, want, c, k, calm);
    } else {
      PointNone(disk, was, before, want, c, k, calm);
    }
  }

  lemma PointingEnds(disk: Disk, was: seq<ModelSet>, now: seq<ModelSet>, want: map<Path, Content>, c: Component, k: nat,
                     calm: bool)
    requires |now| == |was| && (exists calm' :: Pointing(disk, was, now, want, c, k, calm'))
    requires calm ==> k == |now| && Pointing(disk, was, now, want, c, k, calm)
    ensures SetsPointed(was, now, c.path, c.target, calm)
    ensures Inv(disk, Uses(now), want) && SameSets(was, now) && OnlyFrom(Uses(was), Uses(now), c.path)
    ensures calm ==> forall d <- Uses(now) :: d.path != c.path
  {
    NoneUses(now, c.path);
    hide Inv, Uses, SameSets, OnlyFrom, NoneAt, Same, Pointed;
  }

  // No component of s uses path.
  predicate NoneAt(s: ModelSet, path: Path) {
    forall d <- s.components :: d.path != path
  }

  lemma NoneAtNow(sets: seq<ModelSet>, k: nat, from: Path, target: Path)
    requires k < |sets| && from != target
    ensures NoneAt(RepointSet(sets, k, from, target)[k], from)
    ensures forall i | 0 <= i < |sets| && i != k :: RepointSet(sets, k, from, target)[i] == sets[i]
  {}

  lemma NoneUses(sets: seq<ModelSet>, path: Path)
    ensures (forall i | 0 <= i < |sets| :: NoneAt(sets[i], path)) ==> forall d <- Uses(sets) :: d.path != path
  {}

  lemma StillOnlyFrom(was: seq<ModelSet>, before: seq<ModelSet>, now: seq<ModelSet>, c: Component)
    requires OnlyFrom(Uses(was), Uses(before), c.path) && Same(Uses(before), c)
    requires forall d <- Uses(now) ::
      d in Uses(before) || exists e <- Uses(before) :: e.path == c.path && d == e.(path := c.target)
    requires forall d <- Uses(before) | d.path != c.path :: d in Uses(now)
    ensures OnlyFrom(Uses(was), Uses(now), c.path) && Same(Uses(now), c)
  {
    hide Uses;
  }

  // Components that share c's old or new path share its target.
  ghost predicate Same(cs: set<Component>, c: Component) {
    && (forall d <- cs | d.path == c.path :: d.target == c.target)
    && (forall d <- cs | d.path == c.target :: d.target == c.target)
  }

  lemma Together(disk: Disk, cs: set<Component>, want: map<Path, Content>, c: Component)
    requires Inv(disk, cs, want) && c in cs
    ensures Same(cs, c)
  {
    forall d <- cs
      ensures d.path == c.path || d.path == c.target ==> d.target == c.target
    {
      assert Apart(c, d) && Apart(d, c);
    }
  }

  lemma SameSetsSelf(a: seq<ModelSet>)
    ensures SameSets(a, a)
  {}

  lemma SameSetsTwice(a: seq<ModelSet>, b: seq<ModelSet>, c: seq<ModelSet>)
    requires SameSets(a, b) && SameSets(b, c)
    ensures SameSets(a, c)
  {
    forall i | 0 <= i < |a|
      ensures SameSet(a[i], c[i])
    {
      assert SameSet(a[i], b[i]) && SameSet(b[i], c[i]);
      forall j | 0 <= j < |a[i].components|
        ensures SameComponent(a[i].components[j], c[i].components[j])
      {
        assert SameComponent(a[i].components[j], b[i].components[j])
          && SameComponent(b[i].components[j], c[i].components[j]);
      }
    }
  }

  // ----- where the recovery ends -----

  // A later start finds no file where the move looks, nor one at the target it
  // would take for it: moveGenFile fails, and its sets keep a path that is gone.
  predicate Stuck(disk: Disk, m: Move) {
    !Looks(disk, m.target, m.bytes) && m.from !in disk
  }

  // A crash right after the rename leaves a component stuck exactly when its
  // recorded size is wrong.
  lemma WrongSizeStrands(disk: Disk, c: Component)
    requires c.path in disk && c.path != c.target
    ensures var after := disk[c.target := disk[c.path]] - {c.path};
      Stuck(after, Move(c.path, c.target, c.bytes)) <==> c.bytes != 0 && c.bytes != |disk[c.path]|
  {}

  // Once all catalog components are where they belong a start moves nothing,
  // whatever custom sets say.
  lemma NothingPending(disk: Disk, cs: set<Component>, want: map<Path, Content>, moves: seq<Move>)
    requires AllMoved(disk, cs, want) && IsPending(moves, cs)
    ensures forall m :: m !in moves
  {
    assert forall m :: !IsFor(m, cs);
  }

  // What a run left alone, after whatever crashes, makes of any component of
  // any set, of the catalog or not: it follows the file of a catalog component
  // that still has its path, and is otherwise left as it is. So a component
  // whose file is gone from its path finds one again exactly when some catalog
  // component still has that path, or has it as its target.
  lemma WhoIsFound(disk: Disk, sets: seq<ModelSet>, disk': Disk, sets': seq<ModelSet>, moves: seq<Move>,
                   want: map<Path, Content>, i: nat, j: nat)
    requires Inv(disk, Uses(sets), want) && AllMoved(disk', Uses(sets'), want)
    requires LeftAlone(disk, sets, disk', sets', moves)
    requires i < |sets| && j < |sets[i].components|
    ensures |sets'| == |sets| && |sets'[i].components| == |sets[i].components|
    ensures var d, d' := sets[i].components[j], sets'[i].components[j];
      && d' == d.(path := d'.path)
      && (forall c <- Uses(sets) | c.path == d.path :: d'.path == c.target && At(disk', d'.path, want[c.target]))
      && ((forall c <- Uses(sets) :: c.path != d.path) ==> d' == d)
      && (d.path !in disk ==> (d'.path in disk' <==> exists c <- Uses(sets) :: c.path == d.path || c.target == d.path))
  {
    hide Uses, Inv, AllMoved, Separate;
    var d, cs := sets[i].components[j], Uses(sets);
    assert sets'[i] == Followed(sets[i], moves, |moves|);
    var d' := sets'[i].components[j];
    assert d'.path == Renamed(moves, |moves|, d.path);
    assert moves[..|moves|] == moves;
    RenamedIs(moves, |moves|, d.path);
    forall c <- cs
      ensures c.path == d.path ==> d'.path == c.target
      ensures c.target in want && At(disk', c.target, want[c.target])
    {
      Arrives(disk, sets, disk', sets', moves, want, c);
    }
    if forall c <- cs :: c.path != d.path {
      NoSource(moves, cs, d.path);
    }
    if IsTarget(moves, |moves|, d.path) {
      var m :| m in moves && m.target == d.path;
      assert IsFor(m, cs);
    }
    hide SetsFollow, Followed;
  }

  lemma NoSource(moves: seq<Move>, cs: set<Component>, p: Path)
    requires IsPending(moves, cs) && forall c <- cs :: c.path != p
    ensures !IsSource(moves, |moves|, p)
  {
    assert moves[..|moves|] == moves;
    forall m <- moves
      ensures m.from != p
    {
      assert IsFor(m, cs);
    }
  }

  // A catalog component's path leads to its target, where its file is.
  lemma IsAmong(sets: seq<ModelSet>, c: Component) returns (i: nat, j: nat)
    requires c in Uses(sets)
    ensures i < |sets| && sets[i].catalog && j < |sets[i].components| && sets[i].components[j] == c
  {
    i, j :| 0 <= i < |sets| && sets[i].catalog && 0 <= j < |sets[i].components| && sets[i].components[j] == c;
  }

  // Where the moves leave a catalog component's path.
  lemma LeadsToTarget(disk: Disk, cs: set<Component>, moves: seq<Move>, want: map<Path, Content>, c: Component)
    requires Inv(disk, cs, want) && IsPending(moves, cs) && Separate(moves) && c in cs
    ensures Renamed(moves, |moves|, c.path) == c.target
  {
    RenamedIs(moves, |moves|, c.path);
    if c.path != c.target {
      var m :| m in moves && m.from == c.path;
      assert IsFor(m, cs);
      var e :| e in cs && Moves(m, e);
      assert Apart(e, c);
    } else {
      StaysPut(moves, cs, c);
    }
  }

  lemma Arrives(disk: Disk, sets: seq<ModelSet>, disk': Disk, sets': seq<ModelSet>, moves: seq<Move>,
                want: map<Path, Content>, c: Component)
    requires Inv(disk, Uses(sets), want) && AllMoved(disk', Uses(sets'), want)
    requires LeftAlone(disk, sets, disk', sets', moves) && c in Uses(sets)
    ensures Renamed(moves, |moves|, c.path) == c.target && c.target in want && At(disk', c.target, want[c.target])
  {
    var cs := Uses(sets);
    LeadsToTarget(disk, cs, moves, want, c);
    assert Kept(disk, c, want);
    var i, j := IsAmong(sets, c);
    assert sets'[i] == Followed(sets[i], moves, |moves|);
    hide Renamed, Inv, Kept, IsPending, Separate, DiskFollows, SetsFollow;
    var c' := sets'[i].components[j];
    assert c' == c.(path := c.target) && sets'[i] in sets' && c' in Uses(sets');
  }

  lemma StaysPut(moves: seq<Move>, cs: set<Component>, c: Component)
    requires Paths(cs) && IsPending(moves, cs) && c in cs && c.path == c.target
    ensures !IsSource(moves, |moves|, c.path)
  {
    assert moves[..|moves|] == moves;
    forall m <- moves
      ensures m.from != c.path
    {
      assert IsFor(m, cs);
      var e :| e in cs && Moves(m, e);
      assert Apart(e, c);
    }
  }

  // So a crash after the catalog set and before a custom set that shares the
  // file is pointed at its new path strands the custom set for good.
  lemma CrashStrandsCustomSet(from: Path, target: Path, content: Content)
    requires from != "" && target != "" && from != target
    ensures var sets := [ModelSet(true, [Component(from, target, 0)]), ModelSet(false, [Component(from, "", 0)])];
      var disk := map[from := content][target := content] - {from};
      var after := RepointSet(sets, 0, from, target);
      && AllMoved(disk, Uses(after), map[target := content])
      && after[1].components[0].path !in disk
      && forall moves, m | IsPending(moves, Uses(after)) :: m !in moves
  {
    var sets := [ModelSet(true, [Component(from, target, 0)]), ModelSet(false, [Component(from, "", 0)])];
    var disk := map[from := content][target := content] - {from};
    var after := RepointSet(sets, 0, from, target);
    forall c <- Uses(after)
      ensures c == Component(target, target, 0)
    {
      var i, j :| 0 <= i < |after| && after[i].catalog && 0 <= j < |after[i].components| && after[i].components[j] == c;
      assert i == 0 && j == 0;
    }
    forall moves, m | IsPending(moves, Uses(after))
      ensures m !in moves
    {
      NothingPending(disk, Uses(after), map[target := content], moves);
    }
  }
}
