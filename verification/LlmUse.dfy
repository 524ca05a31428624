// The lock that orders chat requests and unloads of LLMs (llmUse). A mutex
// guards per-model request counts and eviction marks; a caller that must wait
// sleeps on a channel that every count or eviction that ends closes and
// replaces.
module LlmUse {
  import opened Common


  type ModelId = string

  // Channels are numbered in the order they are made; 0 is the nil channel of
  // a lock nobody has used yet.
  type Chan = nat

  // What u.mu guards. evicting is the map[string]bool of the source, whose
  // entries are only ever set to true or deleted.
  datatype Lock = Lock(
    n: map<ModelId, int>,
    evicting: set<ModelId>,
    lastUsed: map<ModelId, int>,
    changed: Chan,
    closed: set<Chan>,
    waiters: int)

  const FRESH := Lock(map[], {}, map[], 0, {}, 0)

  // The two calls that may wait.
  datatype Call = Begin(id: ModelId) | Evict(id: ModelId)

  datatype Outcome = Granted | Sleeping(on: Chan)

  function Count(l: Lock, id: ModelId): int {
    if id in l.n then l.n[id] else 0
  }

  // The condition a waiting call waits for.
  predicate Ready(l: Lock, call: Call) {
    call.id !in l.evicting && (call.Evict? ==> Count(l, call.id) == 0)
  }

  function InitLocked(l: Lock): Lock {
    if l.changed == 0 then l.(changed := 1) else l
  }

  function NotifyLocked(l: Lock): Lock {
    l.(closed := l.closed + {l.changed}, changed := l.changed + 1)
  }

  function Grant(l: Lock, call: Call, now: int): Lock {
    match call
    case Begin(id) => l.(n := l.n[id := Count(l, id) + 1], lastUsed := l.lastUsed[id := now])
    case Evict(id) => l.(evicting := l.evicting + {id})
  }

  // One turn of the wait loop, from the check to the grant or to the unlock
  // before the select.
  function Attempt(l: Lock, call: Call, now: int): (Lock, Outcome) {
    if Ready(l, call) then (Grant(l, call, now), Granted)
    else (l.(waiters := l.waiters + 1), Sleeping(l.changed))
  }

  // What the func returned by a granted call does the first time it runs.
  function Release(l: Lock, call: Call, now: int): Lock {
    match call
    case Begin(id) =>
      var left := Count(l, id) - 1;
      NotifyLocked(l.(lastUsed := l.lastUsed[id := now], n := if left <= 0 then l.n - {id} else l.n[id := left]))
    case Evict(id) => NotifyLocked(l.(evicting := l.evicting - {id}))
  }

  // ---------------------------------------------------------------- the object

  // The lock as the server holds it. Each method is one critical section of
  // the source: what runs between a Lock and the next Unlock.
  class Use {
    var n: map<ModelId, int>
    var evicting: set<ModelId>
    var lastUsed: map<ModelId, int>
    var changed: Chan
    var closed: set<Chan>
    var waiters: int

    constructor ()
      ensures State() == FRESH
    {
      n, evicting, lastUsed, changed, closed, waiters := map[], {}, map[], 0, {}, 0;
    }

    function State(): Lock
      reads this
    {
      Lock(n, evicting, lastUsed, changed, closed, waiters)
    }

    // Closing a closed or nil channel panics, so both are ruled out here.
    method Notify()
      requires changed != 0 && changed !in closed
      modifies this
      ensures State() == NotifyLocked(old(State()))
    {
      closed := closed + {changed};
      changed := changed + 1;
    }

    // From a call's lock to its grant or to its unlock before it sleeps.
    method Enter(call: Call, now: int) returns (out: Outcome)
      modifies this
      ensures (State(), out) == Attempt(InitLocked(old(State())), call, now)
    {
      if changed == 0 {
        changed := 1;
      }
      out := WaitTurn(call, now);
    }

    // From the lock after a select to a return or to the next sleep. The
    // error is the context's, whether or not the condition now holds.
    method Resume(call: Call, cancelled: bool, now: int) returns (err: bool, out: Outcome)
      modifies this
      ensures err == cancelled
      ensures cancelled ==> State() == old(State()).(waiters := old(waiters) - 1)
      ensures !cancelled ==> (State(), out) == Attempt(old(State()).(waiters := old(waiters) - 1), call, now)
    {
      waiters := waiters - 1;
      err := cancelled;
      out := Granted;
      if !cancelled {
        out := WaitTurn(call, now);
      }
    }

    method WaitTurn(call: Call, now: int) returns (out: Outcome)
      modifies this
      ensures (State(), out) == Attempt(old(State()), call, now)
    {
      var held := if call.id in n then n[call.id] else 0;
      if call.id in evicting || (call.Evict? && held != 0) {
        out := Sleeping(changed);
        waiters := waiters + 1;
        return;
      }
      match call {
        case Begin(id) =>
          n := n[id := held + 1];
          lastUsed := lastUsed[id := now];
        case Evict(id) =>
          evicting := evicting + {id};
      }
      out := Granted;
    }

    // ok is false at once when a request or another unload is in the way.
    method TryEvict(id: ModelId) returns (ok: bool)
      modifies this
      ensures ok <==> old(Count(State(), id)) <= 0 && id !in old(evicting)
      ensures State() == if ok then Grant(InitLocked(old(State())), Evict(id), 0) else InitLocked(old(State()))
    {
      if changed == 0 {
        changed := 1;
      }
      var held := if id in n then n[id] else 0;
      ok := !(held > 0 || id in evicting);
      if ok {
        evicting := evicting + {id};
      }
    }

    // A load counts as a use, so a model just loaded is not the first to go.
    method Touch(id: ModelId, now: int)
      modifies this
      ensures State() == InitLocked(old(State())).(lastUsed := old(lastUsed)[id := now])
    {
      if changed == 0 {
        changed := 1;
      }
      lastUsed := lastUsed[id := now];
    }

    method Busy(id: ModelId) returns (busy: bool)
      ensures busy <==> Count(State(), id) > 0 || id in evicting
    {
      busy := (id in n && n[id] > 0) || id in evicting;
    }

    // The body of the once in the func a granted call returned.
    method Finish(call: Call, now: int)
      requires changed != 0 && changed !in closed
      modifies this
      ensures State() == Release(old(State()), call, now)
    {
      match call {
        case Begin(id) =>
          lastUsed := lastUsed[id := now];
          var left := (if id in n then n[id] else 0) - 1;
          n := n[id := left];
          if left <= 0 {
            n := n - {id};
          }
          Notify();
          assert n == if left <= 0 then old(n) - {id} else old(n)[id := left];
        case Evict(id) =>
          evicting := evicting - {id};
          Notify();
      }
    }
  }

  // -------------------------------------------------------------- the machine

  type Tid = nat
  type Hid = nat

  // Where a goroutine inside begin or evict is: in the select with the mutex
  // released, or past the select and waiting to lock the mutex again.
  datatype Thread =
    | Asleep(call: Call, on: Chan)
    | Waking(call: Call, cancelled: bool)

  // The func a granted call returned; open until it runs the first time.
  datatype Handle = Handle(call: Call, open: bool)

  datatype World = World(lock: Lock, threads: map<Tid, Thread>, handles: map<Hid, Handle>)

  const START := World(FRESH, map[], map[])

  // One atomic step of any goroutine. A thread or handle number is fresh
  // where the step makes a new one. now is the clock's reading.
  datatype Action =
    | Enter(t: Tid, h: Hid, call: Call, now: int)
    | Woken(t: Tid)
    | Cancelled(t: Tid)
    | Relock(t: Tid, h: Hid, now: int)
    | TryEvict(h: Hid, id: ModelId)
    | Finish(h: Hid, now: int)
    | Touch(id: ModelId, now: int)

  function Settle(w: World, attempt: (Lock, Outcome), t: Tid, h: Hid, call: Call): World {
    match attempt.1
    case Granted => World(attempt.0, w.threads - {t}, w.handles[h := Handle(call, true)])
    case Sleeping(on) => World(attempt.0, w.threads[t := Asleep(call, on)], w.handles)
  }

  // A step that is not enabled changes nothing, so that every sequence of
  // actions is a run.
  function Step(w: World, a: Action): World {
    match a
    case Enter(t, h, call, now) =>
      if t in w.threads || h in w.handles then w
      else Settle(w, Attempt(InitLocked(w.lock), call, now), t, h, call)
    case Woken(t) =>
      if t in w.threads && w.threads[t].Asleep? && w.threads[t].on in w.lock.closed
      then w.(threads := w.threads[t := Waking(w.threads[t].call, false)]) else w
    case Cancelled(t) =>
      if t in w.threads && w.threads[t].Asleep?
      then w.(threads := w.threads[t := Waking(w.threads[t].call, true)]) else w
    case Relock(t, h, now) =>
      if t !in w.threads || !w.threads[t].Waking? || h in w.handles then w
      else
        var locked := w.lock.(waiters := w.lock.waiters - 1);
        if w.threads[t].cancelled then w.(lock := locked, threads := w.threads - {t})
        else Settle(w, Attempt(locked, w.threads[t].call, now), t, h, w.threads[t].call)
    case TryEvict(h, id) =>
      if h in w.handles then w
      else
        var l := InitLocked(w.lock);
        if Count(l, id) > 0 || id in l.evicting then w.(lock := l)
        else w.(lock := Grant(l, Evict(id), 0), handles := w.handles[h := Handle(Evict(id), true)])
    case Finish(h, now) =>
      if h in w.handles && w.handles[h].open
      then w.(lock := Release(w.lock, w.handles[h].call, now), handles := w.handles[h := w.handles[h].(open := false)])
      else w
    case Touch(id, now) =>
      var l := InitLocked(w.lock);
      w.(lock := l.(lastUsed := l.lastUsed[id := now]))
  }

  function Run(w: World, acts: seq<Action>): World
    decreases |acts|
  {
    if acts == [] then w else Run(Step(w, acts[0]), acts[1..])
  }

  // The handles of calls that have been granted and not given back.
  function Open(w: World, call: Call): set<Hid> {
    set h | h in w.handles && w.handles[h] == Handle(call, true)
  }

  // No sleeper is on a channel that is still open while it could go on.
  ghost predicate Sound(w: World) {
    && (w.lock.changed == 0 ==> w == START)
    && (forall c <- w.lock.closed :: c < w.lock.changed)
    && w.lock.waiters == |w.threads|
    && SleepersOk(w.lock, w.threads)
  }

  ghost predicate SleepersOk(l: Lock, threads: map<Tid, Thread>) {
    forall t <- threads | threads[t].Asleep? :: SleeperOk(l, threads[t])
  }

  ghost predicate SleeperOk(l: Lock, s: Thread)
    requires s.Asleep?
  {
    (s.on in l.closed) || (s.on == l.changed && !Ready(l, s.call))
  }

  // The counts and marks say what the handles given out say.
  ghost predicate Counted(w: World) {
    && (forall id :: Count(w.lock, id) == |Open(w, Begin(id))|)
    && (forall id <- w.lock.n :: w.lock.n[id] > 0)
    && (forall id :: |Open(w, Evict(id))| == if id in w.lock.evicting then 1 else 0)
    && (forall id <- w.lock.evicting :: Count(w.lock, id) == 0)
  }

  ghost predicate Inv(w: World) {
    Sound(w) && Counted(w)
  }

  lemma GrantKeepsCounted(w: World, call: Call, h: Hid, now: int)
    requires Counted(w) && h !in w.handles && Ready(w.lock, call)
    ensures Counted(World(Grant(w.lock, call, now), w.threads, w.handles[h := Handle(call, true)]))
  {
    var w' := World(Grant(w.lock, call, now), w.threads, w.handles[h := Handle(call, true)]);
    assert Open(w', call) == Open(w, call) + {h};
    forall c: Call | c != call
      ensures Open(w', c) == Open(w, c)
    {}
    forall id
      ensures Count(w'.lock, id) == |Open(w', Begin(id))|
      ensures |Open(w', Evict(id))| == if id in w'.lock.evicting then 1 else 0
    {
      assert Begin(id) == call || Open(w', Begin(id)) == Open(w, Begin(id));
      assert Evict(id) == call || Open(w', Evict(id)) == Open(w, Evict(id));
    }
  }

  lemma ReleaseKeepsCounted(w: World, h: Hid, now: int)
    requires Counted(w) && h in w.handles && w.handles[h].open
    ensures Counted(Step(w, Finish(h, now)))
  {
    var w' := Step(w, Finish(h, now));
    var call := w.handles[h].call;
    assert Open(w', call) == Open(w, call) - {h};
    assert h in Open(w, call);
    forall c: Call | c != call
      ensures Open(w', c) == Open(w, c)
    {}
    forall id
      ensures Count(w'.lock, id) == |Open(w', Begin(id))|
      ensures |Open(w', Evict(id))| == if id in w'.lock.evicting then 1 else 0
    {
      assert Begin(id) == call || Open(w', Begin(id)) == Open(w, Begin(id));
      assert Evict(id) == call || Open(w', Evict(id)) == Open(w, Evict(id));
    }
  }

  // Counted looks at the counts, the marks and the handles only.
  lemma CountedFrame(w: World, w': World)
    requires Counted(w) && w'.handles == w.handles
    requires w'.lock.n == w.lock.n && w'.lock.evicting == w.lock.evicting
    ensures Counted(w')
  {
    forall c: Call
      ensures Open(w', c) == Open(w, c)
    {}
    forall id
      ensures Count(w'.lock, id) == |Open(w', Begin(id))|
      ensures |Open(w', Evict(id))| == if id in w'.lock.evicting then 1 else 0
    {
      assert Open(w', Begin(id)) == Open(w, Begin(id));
      assert Open(w', Evict(id)) == Open(w, Evict(id));
    }
  }

  lemma SettleKeepsCounted(w: World, t: Tid, h: Hid, call: Call, now: int)
    requires Counted(w) && h !in w.handles
    ensures Counted(Settle(w, Attempt(w.lock, call, now), t, h, call))
  {
    var w' := Settle(w, Attempt(w.lock, call, now), t, h, call);
    if Ready(w.lock, call) {
      GrantKeepsCounted(w, call, h, now);
      CountedFrame(World(Grant(w.lock, call, now), w.threads, w.handles[h := Handle(call, true)]), w');
    } else {
      CountedFrame(w, w');
    }
  }

  // l' wakes every sleeper it lets go on: it closed their channel, or it lets
  // nobody go on that l did not.
  ghost predicate Fair(l: Lock, l': Lock) {
    && l.closed <= l'.closed
    && (l.changed in l'.closed || (l'.changed == l.changed && forall c: Call :: Ready(l', c) ==> Ready(l, c)))
  }

  lemma FairKeepsSleepers(l: Lock, l': Lock, threads: map<Tid, Thread>, threads': map<Tid, Thread>)
    requires SleepersOk(l, threads) && Fair(l, l')
    requires forall t <- threads' | threads'[t].Asleep? :: t in threads && threads[t] == threads'[t]
    ensures SleepersOk(l', threads')
  {
    forall t <- threads' | threads'[t].Asleep?
      ensures SleeperOk(l', threads'[t])
    {
      assert SleeperOk(l, threads[t]);
    }
  }

  lemma GrantIsFair(l: Lock, call: Call, now: int)
    requires forall id <- l.n :: l.n[id] > 0
    ensures Fair(l, Grant(l, call, now))
  {
    forall c: Call | Ready(Grant(l, call, now), c)
      ensures Ready(l, c)
    {}
  }

  lemma SettleKeepsSound(w: World, t: Tid, h: Hid, call: Call, now: int)
    requires w.lock.changed != 0
    requires forall id <- w.lock.n :: w.lock.n[id] > 0
    requires forall c <- w.lock.closed :: c < w.lock.changed
    requires SleepersOk(w.lock, w.threads - {t})
    requires w.lock.waiters == |w.threads.Keys - {t}|
    ensures Sound(Settle(w, Attempt(w.lock, call, now), t, h, call))
  {
    var w' := Settle(w, Attempt(w.lock, call, now), t, h, call);
    var others := w.threads - {t};
    if Ready(w.lock, call) {
      GrantIsFair(w.lock, call, now);
      FairKeepsSleepers(w.lock, w'.lock, others, others);
      assert w'.threads.Keys == w.threads.Keys - {t};
    } else {
      assert w'.threads.Keys == (w.threads.Keys - {t}) + {t};
      forall u <- w'.threads | w'.threads[u].Asleep?
        ensures SleeperOk(w'.lock, w'.threads[u])
      {
        if u != t {
          assert u in others && SleeperOk(w.lock, others[u]);
        }
      }
    }
  }

  lemma StepKeepsCounted(w: World, a: Action)
    requires Counted(w)
    ensures Counted(Step(w, a))
  {
    hide Counted;
    var i := w.(lock := InitLocked(w.lock));
    CountedFrame(w, i);
    match a
    case Enter(t, h, call, now) =>
      if t !in w.threads && h !in w.handles {
        SettleKeepsCounted(i, t, h, call, now);
      }
    case Woken(t) => CountedFrame(w, Step(w, a));
    case Cancelled(t) => CountedFrame(w, Step(w, a));
    case Relock(t, h, now) =>
      if t in w.threads && w.threads[t].Waking? && h !in w.handles {
        var locked := w.(lock := w.lock.(waiters := w.lock.waiters - 1));
        CountedFrame(w, locked);
        if w.threads[t].cancelled {
          CountedFrame(locked, Step(w, a));
        } else {
          SettleKeepsCounted(locked, t, h, w.threads[t].call, now);
        }
      }
    case TryEvict(h, id) =>
      if h !in w.handles && !(Count(i.lock, id) > 0 || id in i.lock.evicting) {
        GrantKeepsCounted(i, Evict(id), h, 0);
      }
    case Finish(h, now) =>
      if h in w.handles && w.handles[h].open {
        ReleaseKeepsCounted(w, h, now);
      }
    case Touch(id, now) => CountedFrame(i, Step(w, a));
  }

  lemma EnterIs(w: World, t: Tid, h: Hid, call: Call, now: int)
    requires t !in w.threads && h !in w.handles
    ensures var l := InitLocked(w.lock);
      Step(w, Enter(t, h, call, now)) == Settle(w.(lock := l), Attempt(l, call, now), t, h, call)
  {}

  lemma EnterKeepsSound(w: World, t: Tid, h: Hid, call: Call, now: int)
    requires Inv(w) && t !in w.threads && h !in w.handles
    ensures Sound(Step(w, Enter(t, h, call, now)))
  {
    hide Step, Counted, InitLocked, Settle, Attempt;
    InitKeepsSound(w);
    EnterIs(w, t, h, call, now);
    assert w.threads.Keys - {t} == w.threads.Keys;
    assert w.threads - {t} == w.threads;
    SettleKeepsSound(w.(lock := InitLocked(w.lock)), t, h, call, now);
  }

  lemma SelectKeepsSound(w: World, t: Tid, cancelled: bool)
    requires Inv(w) && t in w.threads
    ensures Sound(w.(threads := w.threads[t := Waking(w.threads[t].call, cancelled)]))
  {
    var threads := w.threads[t := Waking(w.threads[t].call, cancelled)];
    assert threads.Keys == w.threads.Keys;
    FairKeepsSleepers(w.lock, w.lock, w.threads, threads);
  }

  lemma RelockKeepsSound(w: World, t: Tid, h: Hid, now: int)
    requires Inv(w) && t in w.threads && w.threads[t].Waking? && h !in w.handles
    ensures Sound(Step(w, Relock(t, h, now)))
  {
    var locked := w.(lock := w.lock.(waiters := w.lock.waiters - 1));
    var others := w.threads - {t};
    assert others.Keys == w.threads.Keys - {t};
    assert |w.threads.Keys - {t}| == |w.threads| - 1;
    FairKeepsSleepers(w.lock, locked.lock, w.threads, others);
    if !w.threads[t].cancelled {
      SettleKeepsSound(locked, t, h, w.threads[t].call, now);
    }
  }

  lemma LockStepKeepsSound(w: World, w': World)
    requires w'.threads == w.threads && w.lock.waiters == |w.threads| && SleepersOk(w.lock, w.threads)
    requires w == w' || (w'.lock.changed != 0 && Fair(w.lock, w'.lock))
    requires w.lock.changed == 0 ==> w == START
    requires w'.lock.waiters == w.lock.waiters && forall c <- w'.lock.closed :: c < w'.lock.changed
    ensures Sound(w')
  {
    if w != w' {
      FairKeepsSleepers(w.lock, w'.lock, w.threads, w.threads);
    }
  }

  // A channel closed before is not the one that is open after a call ends.
  lemma ReleaseIsFair(l: Lock, call: Call, now: int)
    requires l.changed != 0 && forall c <- l.closed :: c < l.changed
    ensures var l' := Release(l, call, now);
      && Fair(l, l') && l'.changed != 0 && l'.waiters == l.waiters
      && forall c <- l'.closed :: c < l'.changed
  {}

  lemma FinishKeepsSound(w: World, h: Hid, now: int)
    requires Inv(w) && h in w.handles && w.handles[h].open
    ensures Sound(Step(w, Finish(h, now)))
  {
    hide Release, Fair, Counted;
    ReleaseIsFair(w.lock, w.handles[h].call, now);
    LockStepKeepsSound(w, Step(w, Finish(h, now)));
  }

  lemma InitKeepsSound(w: World)
    requires Inv(w)
    ensures var l := InitLocked(w.lock);
      && Sound(w.(lock := l)) && l.changed != 0 && forall id <- l.n :: l.n[id] > 0
  {}

  lemma TryEvictKeepsSound(w: World, h: Hid, id: ModelId)
    requires Inv(w)
    ensures Sound(Step(w, TryEvict(h, id)))
  {
    hide Counted, SleepersOk, InitLocked, Fair;
    InitKeepsSound(w);
    GrantIsFair(InitLocked(w.lock), Evict(id), 0);
    if h !in w.handles {
      LockStepKeepsSound(w.(lock := InitLocked(w.lock)), Step(w, TryEvict(h, id)));
    }
  }

  lemma TouchKeepsSound(w: World, id: ModelId, now: int)
    requires Inv(w)
    ensures Sound(Step(w, Touch(id, now)))
  {
    hide Counted, InitLocked;
    InitKeepsSound(w);
    LockStepKeepsSound(w.(lock := InitLocked(w.lock)), Step(w, Touch(id, now)));
  }

  lemma StepKeepsSound(w: World, a: Action)
    requires Inv(w)
    ensures Sound(Step(w, a))
  {
    hide Counted, SleepersOk, InitLocked, Fair;
    match a
    case Enter(t, h, call, now) =>
      if t !in w.threads && h !in w.handles {
        EnterKeepsSound(w, t, h, call, now);
      }
    case Woken(t) =>
      if t in w.threads {
        SelectKeepsSound(w, t, false);
      }
    case Cancelled(t) =>
      if t in w.threads {
        SelectKeepsSound(w, t, true);
      }
    case Relock(t, h, now) =>
      if t in w.threads && w.threads[t].Waking? && h !in w.handles {
        RelockKeepsSound(w, t, h, now);
      }
    case TryEvict(h, id) => TryEvictKeepsSound(w, h, id);
    case Finish(h, now) =>
      if h in w.handles && w.handles[h].open {
        FinishKeepsSound(w, h, now);
      }
    case Touch(id, now) =>
      TouchKeepsSound(w, id, now);
  }

  lemma StepKeepsInv(w: World, a: Action)
    requires Inv(w)
    ensures Inv(Step(w, a))
  {
    StepKeepsSound(w, a);
    StepKeepsCounted(w, a);
  }

  lemma {:induction false} RunKeepsInv(w: World, acts: seq<Action>)
    requires Inv(w)
    ensures Inv(Run(w, acts))
    decreases |acts|
  {
    if acts != [] {
      StepKeepsInv(w, acts[0]);
      RunKeepsInv(Step(w, acts[0]), acts[1..]);
    }
  }

  lemma StartInv()
    ensures Inv(START)
  {
    forall c: Call
      ensures Open(START, c) == {}
    {}
  }

  // ------------------------------------------------------------ the theorems

  // Whatever the goroutines did before, a call that could go on is not
  // asleep on a channel nobody will close: it can leave its select now, and
  // is granted if nothing else takes the mutex first.
  lemma NoLostWakeup(acts: seq<Action>, t: Tid, h: Hid, now: int)
    ensures var w := Run(START, acts);
      t in w.threads && w.threads[t].Asleep? && Ready(w.lock, w.threads[t].call) && h !in w.handles ==>
        var call := w.threads[t].call;
        var woken := Step(w, Woken(t));
        var back := Step(woken, Relock(t, h, now));
        && woken.threads[t] == Waking(call, false)
        && t !in back.threads && h in back.handles && back.handles[h] == Handle(call, true)
  {
    StartInv();
    RunKeepsInv(START, acts);
    var w := Run(START, acts);
    if t in w.threads && w.threads[t].Asleep? {
      assert SleeperOk(w.lock, w.threads[t]);
    }
  }

  // A request is in progress on a model for each begin not yet ended; at most
  // one unload of it is under way, and none while a request is in progress.
  // waiters is exactly the number of callers in the wait.
  lemma ExclusionAndConservation(acts: seq<Action>, id: ModelId)
    ensures var w := Run(START, acts);
      && Count(w.lock, id) == |Open(w, Begin(id))|
      && (id in w.lock.n <==> Open(w, Begin(id)) != {})
      && |Open(w, Evict(id))| <= 1
      && (id in w.lock.evicting <==> Open(w, Evict(id)) != {})
      && (Open(w, Evict(id)) == {} || Open(w, Begin(id)) == {})
      && w.lock.waiters == |w.threads|
      && w.lock.changed !in w.lock.closed
  {
    StartInv();
    RunKeepsInv(START, acts);
  }

  // An unload is granted at once exactly when no request and no other unload
  // of the model is in progress.
  lemma TryEvictIsExact(acts: seq<Action>, h: Hid, id: ModelId)
    ensures var w := Run(START, acts);
      h !in w.handles ==>
        var w' := Step(w, TryEvict(h, id));
        if Open(w, Begin(id)) == {} && Open(w, Evict(id)) == {}
        then w'.handles == w.handles[h := Handle(Evict(id), true)]
        else w'.handles == w.handles
  {
    StartInv();
    RunKeepsInv(START, acts);
  }

  // A cancelled call that sleeps comes back, with nothing granted to it.
  lemma CancelledCallReturns(w: World, t: Tid, h: Hid, now: int)
    requires t in w.threads && w.threads[t].Asleep? && h !in w.handles
    ensures var back := Step(Step(w, Cancelled(t)), Relock(t, h, now));
      back.threads == w.threads - {t} && back.handles == w.handles
  {
    assert Step(w, Cancelled(t)).threads[t] == Waking(w.threads[t].call, true);
    assert (w.threads[t := Waking(w.threads[t].call, true)] - {t}) == w.threads - {t};
  }

  // A step that is a use of the model: a request on it is let begin, one ends,
  // or it is touched.
  ghost predicate Uses(w: World, a: Action, id: ModelId) {
    var next := Step(w, a);
    match a
    case Enter(_, h, call, _) => h !in w.handles && h in next.handles && call == Begin(id)
    case Relock(_, h, _) => h !in w.handles && h in next.handles && next.handles[h].call == Begin(id)
    case Finish(h, _) => h in w.handles && w.handles[h] == Handle(Begin(id), true)
    case Touch(x, _) => x == id
    case _ => false
  }

  function Recorded(w: World, id: ModelId): Option<int> {
    if id in w.lock.lastUsed then Some(w.lock.lastUsed[id]) else None
  }

  lemma UseIsRecorded(w: World, a: Action, id: ModelId)
    ensures Recorded(Step(w, a), id) == if Uses(w, a, id) then Some(a.now) else Recorded(w, id)
  {}

  // The time of the last use in a run.
  ghost function LastUse(w: World, acts: seq<Action>, id: ModelId, before: Option<int>): Option<int>
    decreases |acts|
  {
    if acts == [] then before
    else LastUse(Step(w, acts[0]), acts[1..], id, if Uses(w, acts[0], id) then Some(acts[0].now) else before)
  }

  // It is on record, for any model and over any run.
  lemma {:induction false} UsesAreRecorded(w: World, acts: seq<Action>, id: ModelId)
    ensures Recorded(Run(w, acts), id) == LastUse(w, acts, id, Recorded(w, id))
    decreases |acts|
  {
    if acts != [] {
      UseIsRecorded(w, acts[0], id);
      hide Step, Uses, Recorded;
      UsesAreRecorded(Step(w, acts[0]), acts[1..], id);
    }
  }

  // Running end or done again changes nothing, however late.
  lemma FinishIsOnce(w: World, h: Hid, now: int, between: seq<Action>, later: int)
    requires h in w.handles
    ensures var w' := Run(Step(w, Finish(h, now)), between);
      h in w'.handles && !w'.handles[h].open && Step(w', Finish(h, later)) == w'
  {
    ClosedStaysClosed(Step(w, Finish(h, now)), h, between);
  }

  lemma {:induction false} ClosedStaysClosed(w: World, h: Hid, acts: seq<Action>)
    requires h in w.handles && !w.handles[h].open
    ensures h in Run(w, acts).handles && !Run(w, acts).handles[h].open
    decreases |acts|
  {
    if acts != [] {
      ClosedStaysClosed(Step(w, acts[0]), h, acts[1..]);
    }
  }

  // Nobody waits for ever: from every state a run reaches there is a way on,
  // with no call cancelled, that ends every request and unload and lets every
  // waiting call return.
  lemma Drains(acts: seq<Action>) returns (rest: seq<Action>)
    ensures var w := Run(START, acts + rest);
      w.threads == map[] && OpenHandles(w) == {}
    ensures forall a <- rest :: !a.Cancelled? && !a.Enter? && !a.TryEvict?
  {
    StartInv();
    RunKeepsInv(START, acts);
    rest := DrainFrom(Run(START, acts));
    RunConcat(START, acts, rest);
  }

  lemma {:induction false} RunConcat(w: World, a: seq<Action>, b: seq<Action>)
    ensures Run(w, a + b) == Run(Run(w, a), b)
    decreases |a|
  {
    if a == [] {
      assert a + b == b;
    } else {
      assert (a + b)[1..] == a[1..] + b;
      RunConcat(Step(w, a[0]), a[1..], b);
    }
  }

  function OpenHandles(w: World): set<Hid> {
    set h | h in w.handles && w.handles[h].open
  }

  lemma {:induction false} FinishAll(w: World) returns (acts: seq<Action>)
    requires Inv(w)
    ensures Inv(Run(w, acts)) && OpenHandles(Run(w, acts)) == {}
    ensures Run(w, acts).threads == w.threads
    ensures forall a <- acts :: a.Finish?
    decreases OpenHandles(w)
  {
    if OpenHandles(w) == {} {
      acts := [];
    } else {
      var h :| h in OpenHandles(w);
      var w' := Step(w, Finish(h, 0));
      StepKeepsInv(w, Finish(h, 0));
      assert OpenHandles(w') == OpenHandles(w) - {h};
      var more := FinishAll(w');
      acts := [Finish(h, 0)] + more;
      assert acts[1..] == more;
    }
  }

  lemma IdleReadies(w: World, call: Call)
    requires Inv(w) && OpenHandles(w) == {}
    ensures Ready(w.lock, call)
  {
    forall c: Call
      ensures Open(w, c) == {}
    {
      assert Open(w, c) <= OpenHandles(w);
    }
  }

  lemma RelockLeaves(w: World, t: Tid, h: Hid)
    requires Inv(w) && OpenHandles(w) == {} && t in w.threads && h !in w.handles
    ensures Step(Step(w, Woken(t)), Relock(t, h, 0)).threads == w.threads - {t}
  {
    IdleReadies(w, w.threads[t].call);
    assert w.threads[t].Asleep? ==> SleeperOk(w.lock, w.threads[t]);
  }

  // With every handle given back, thread t leaves the wait in two steps.
  lemma LetReturn(w: World, t: Tid) returns (acts: seq<Action>)
    requires Inv(w) && OpenHandles(w) == {} && t in w.threads
    ensures Inv(Run(w, acts)) && Run(w, acts).threads == w.threads - {t}
    ensures forall a <- acts :: a.Woken? || a.Relock?
  {
    hide Step, Inv;
    var h := FreshHandle(w.handles.Keys);
    var wake, relock := Woken(t), Relock(t, h, 0);
    var woken := Step(w, wake);
    RelockLeaves(w, t, h);
    StepKeepsInv(w, wake);
    StepKeepsInv(woken, relock);
    acts := [wake, relock];
    assert Run(woken, [relock]) == Step(woken, relock) by {
      assert [relock][1..] == [];
    }
    assert acts[1..] == [relock];
  }

  lemma {:induction false} DrainFrom(w: World) returns (acts: seq<Action>)
    requires Inv(w)
    ensures Run(w, acts).threads == map[] && OpenHandles(Run(w, acts)) == {}
    ensures forall a <- acts :: !a.Cancelled? && !a.Enter? && !a.TryEvict?
    decreases |w.threads|
  {
    var first := FinishAll(w);
    var idle := Run(w, first);
    if idle.threads == map[] {
      return first;
    }
    var t :| t in idle.threads;
    var go := LetReturn(idle, t);
    var next := Run(idle, go);
    assert next.threads.Keys == idle.threads.Keys - {t};
    var more := DrainFrom(next);
    acts := first + (go + more);
    RunConcat(w, first, go + more);
    RunConcat(idle, go, more);
  }

  lemma {:induction false} FreshHandle(used: set<Hid>) returns (h: Hid)
    ensures forall u <- used :: u < h
    decreases used
  {
    if used == {} {
      h := 0;
    } else {
      var u :| u in used;
      var h' := FreshHandle(used - {u});
      h := if h' > u then h' else u + 1;
      forall v <- used
        ensures v < h
      {
        assert v == u || v in used - {u};
      }
    }
  }
}
