// Telling from a card's readings that it has given a stopped process's memory
// back (gpuFreed, waitGPUSettled).
module GpuFreed {
  import opened Common

  const SLACK := 512

  datatype Event = Reading(used: nat) | GraceOver | Deadline

  // ----- gpuFreed -----

  // The readings among events, in their order.
  function Readings(events: seq<Event>): seq<nat> {
    if events == [] then []
    else
      var n := |events| - 1;
      if events[n].Reading? then Readings(events[..n]) + [events[n].used] else Readings(events[..n])
  }

  // What a drop is measured from: the reading before the stop or the first one
  // after it, when that is higher.
  function Base(readings: seq<nat>, from: int): int {
    if readings == [] then from else Max(from, readings[0])
  }

  // A reading fell more than the slack below the base.
  predicate Fell(readings: seq<nat>, from: int) {
    exists r <- readings :: Base(readings, from) - r > SLACK
  }

  // The last two readings show the memory no longer falling.
  predicate Steady(readings: seq<nat>) {
    |readings| >= 2 && readings[|readings| - 1] >= readings[|readings| - 2] - SLACK
  }

  // The events up to a reading show the memory freed: the reading is near the
  // target, or it no longer falls after a drop, or with little held, or after
  // the grace.
  predicate Shows(events: seq<Event>, from: int, target: int, held: int) {
    events != [] && events[|events| - 1].Reading?
    && var readings := Readings(events);
       || events[|events| - 1].used <= target + SLACK
       || (Steady(readings) && (held <= SLACK || GraceOver in events || Fell(readings, from)))
  }

  predicate Decided(events: seq<Event>, n: nat, from: int, target: int, held: int)
    requires n < |events|
  {
    events[n].Deadline? || Shows(events[..n + 1], from, target, held)
  }

  ghost predicate Undecided(events: seq<Event>, n: nat, from: int, target: int, held: int)
    requires n <= |events|
  {
    forall k: nat | k < n :: !Decided(events, k, from, target, held)
  }

  // The variables of gpuFreed, from the events so far.
  predicate Tracks(events: seq<Event>, from: int, held: int, from': int, dropped: bool, prev: int) {
    var readings := Readings(events);
    && from' == Base(readings, from)
    && prev == (if readings == [] then -1 else readings[|readings| - 1])
    && (dropped <==> held <= SLACK || GraceOver in events || Fell(readings, from))
  }

  lemma TracksGrace(events: seq<Event>, n: nat, from: int, held: int, from': int, dropped: bool, prev: int)
    requires n < |events| && events[n].GraceOver? && Tracks(events[..n], from, held, from', dropped, prev)
    ensures Tracks(events[..n + 1], from, held, from', true, prev)
  {
    assert events[..n + 1][..n] == events[..n] && events[..n + 1][n] == GraceOver;
    hide Fell, Base;
  }

  lemma TracksReading(events: seq<Event>, n: nat, from: int, target: int, held: int, from': int, dropped: bool,
                      prev: int)
    requires n < |events| && events[n].Reading? && Tracks(events[..n], from, held, from', dropped, prev)
    ensures var used := events[n].used;
      var from1 := if prev < 0 then Max(from', used) else from';
      var dropped1 := dropped || from1 - used > SLACK;
      && Tracks(events[..n + 1], from, held, from1, dropped1, used)
      && (Shows(events[..n + 1], from, target, held) <==>
        used <= target + SLACK || (dropped1 && prev >= 0 && used >= prev - SLACK))
  {
    var used, before := events[n].used, Readings(events[..n]);
    assert events[..n + 1] == events[..n] + [events[n]] && events[..n + 1][..n] == events[..n];
    assert Readings(events[..n + 1]) == before + [used];
    assert GraceOver in events[..n + 1] <==> GraceOver in events[..n];
    OneMoreFalls(before, used, from);
    assert before == [] ==> Base(before, from) == from;
    hide Readings, Fell, Base;
  }

  lemma UndecidedOne(events: seq<Event>, n: nat, from: int, target: int, held: int)
    requires n < |events| && Undecided(events, n, from, target, held) && !Decided(events, n, from, target, held)
    ensures Undecided(events, n + 1, from, target, held)
  {
    hide Decided;
  }

  // gpuFreed over a whole trace: it answers at the first event that decides,
  // with yes exactly when that is a reading; None when none does.
  method Freed(events: seq<Event>, from: int, target: int, held: int) returns (yes: Option<bool>, n: nat)
    ensures n <= |events| && (yes.Some? <==> n < |events|)
    ensures Undecided(events, n, from, target, held)
    ensures yes.Some? ==>
      Decided(events, n, from, target, held) && yes.value == Shows(events[..n + 1], from, target, held)
  {
    var from', dropped, prev := from, held <= SLACK, -1;
    n := 0;
    while n < |events|
      invariant n <= |events| && Undecided(events, n, from, target, held)
      invariant Tracks(events[..n], from, held, from', dropped, prev)
    {
      var event := events[n];
      LastDecides(events, n, from, target, held);
      hide Readings, Steady, Fell, Shows, Decided, Undecided, Tracks;
      match event {
        case Deadline =>
          return Some(false), n;
        case GraceOver =>
          TracksGrace(events, n, from, held, from', dropped, prev);
          dropped := true;
        case Reading(used) =>
          TracksReading(events, n, from, target, held, from', dropped, prev);
          if used <= target + SLACK {
            return Some(true), n;
          }
          if prev < 0 {
            from' := Max(from', used);
          }
          if from' - used > SLACK {
            dropped := true;
          }
          if dropped && prev >= 0 && used >= prev - SLACK {
            return Some(true), n;
          }
          prev := used;
      }
      UndecidedOne(events, n, from, target, held);
      n := n + 1;
    }
    return None, n;
  }

  // Only readings and the deadline decide.
  lemma LastDecides(events: seq<Event>, n: nat, from: int, target: int, held: int)
    requires n < |events|
    ensures Decided(events, n, from, target, held) <==>
      events[n].Deadline? || Shows(events[..n + 1], from, target, held)
    ensures Shows(events[..n + 1], from, target, held) ==> events[n].Reading?
  {
    assert events[..n + 1][n] == events[n];
    hide Readings, Steady, Fell;
  }

  lemma OneMoreFalls(readings: seq<nat>, used: nat, from: int)
    ensures var now := readings + [used];
      && Base(now, from) == (if readings == [] then Max(from, used) else Base(readings, from))
      && (Fell(now, from) <==> Fell(readings, from) || Base(now, from) - used > SLACK)
  {
    var now := readings + [used];
    assert Base(now, from) == if readings == [] then Max(from, used) else Base(readings, from);
    if Fell(now, from) {
      var r :| r in now && Base(now, from) - r > SLACK;
      if r != used {
        assert r in readings;
      }
    }
    assert used in now && forall r <- readings :: r in now;
  }

  // Saying yes before the grace, with more than the slack held, takes a reading
  // near the target, the first one, or the first that no longer falls after a
  // drop: every reading before it was away from the target, and once a drop was
  // seen each fell by more than the slack, which is 512 MiB.
  lemma YesBeforeGrace(events: seq<Event>, n: nat, from: int, target: int, held: int)
    requires n < |events| && Undecided(events, n, from, target, held) && Shows(events[..n + 1], from, target, held)
    requires GraceOver !in events[..n + 1] && held > 512
    ensures events[n].Reading?
    ensures events[n].used <= target + 512
      || (Fell(Readings(events[..n + 1]), from) && Steady(Readings(events[..n + 1])))
    ensures forall k: nat | k < n && events[k].Reading? ::
      && events[k].used > target + 512
      && !(Fell(Readings(events[..k + 1]), from) && Steady(Readings(events[..k + 1])))
  {
    LastDecides(events, n, from, target, held);
    forall k: nat | k < n && events[k].Reading?
      ensures events[k].used > target + SLACK
      ensures !(Fell(Readings(events[..k + 1]), from) && Steady(Readings(events[..k + 1])))
    {
      assert !Decided(events, k, from, target, held);
      assert events[..k + 1][k] == events[k];
      hide Fell, Steady, Readings;
    }
    assert events[..n + 1][n] == events[n];
  }

  // ----- waitGPUSettled -----

  // A sample of the card and when it was taken.
  datatype Sample = Sample(at: int, used: nat)

  // One look at the latest sample; expired when the limit has passed by then.
  datatype Look = Look(sample: Sample, expired: bool)

  // The samples newer than since, each once.
  function Fresh(looks: seq<Look>, since: int): (r: seq<Sample>)
  {
    if looks == [] then []
    else
      var n := |looks| - 1;
      var before := Fresh(looks[..n], since);
      if IsFresh(before, looks[n].sample, since) then before + [looks[n].sample] else before
  }

  predicate IsFresh(before: seq<Sample>, s: Sample, since: int) {
    s.at > since && (before == [] || s.at > before[|before| - 1].at)
  }

  function Used(samples: seq<Sample>): (r: seq<nat>)
    ensures |r| == |samples| && forall i | 0 <= i < |r| :: r[i] == samples[i].used
  {
    if samples == [] then [] else [samples[0].used] + Used(samples[1..])
  }

  // The last two samples no longer fall, and a drop has been seen, or none is
  // waited for, or the grace has passed.
  predicate Settles(samples: seq<Sample>, since: int, from: int, grace: int) {
    Steady(Used(samples)) && DropSeen(samples, since, from, grace)
  }

  predicate DropSeen(samples: seq<Sample>, since: int, from: int, grace: int) {
    from < 0 || Fell(Used(samples), from) || PastGrace(samples, since, grace)
  }

  predicate PastGrace(samples: seq<Sample>, since: int, grace: int) {
    exists s <- samples :: s.at - since >= grace
  }

  lemma OneMorePastGrace(before: seq<Sample>, s: Sample, since: int, grace: int)
    ensures PastGrace(before + [s], since, grace) <==> PastGrace(before, since, grace) || s.at - since >= grace
  {
    var now := before + [s];
    assert s in now;
    if PastGrace(now, since, grace) {
      var x :| x in now && x.at - since >= grace;
      if x != s {
        assert x in before;
      }
    }
    if PastGrace(before, since, grace) {
      var x :| x in before && x.at - since >= grace;
      assert x in now;
    }
  }

  lemma OneMoreUsed(before: seq<Sample>, s: Sample)
    ensures Used(before + [s]) == Used(before) + [s.used]
  {}

  lemma OneMoreSample(before: seq<Sample>, s: Sample, since: int, from: int, grace: int)
    ensures var now := before + [s];
      && Base(Used(now), from) == (if before == [] then Max(from, s.used) else Base(Used(before), from))
      && (DropSeen(now, since, from, grace) <==>
        DropSeen(before, since, from, grace) || Base(Used(now), from) - s.used > SLACK || s.at - since >= grace)
      && (Steady(Used(now)) <==> before != [] && s.used >= before[|before| - 1].used - SLACK)
  {
    OneMoreUsed(before, s);
    OneMoreFalls(Used(before), s.used, from);
    OneMorePastGrace(before, s, since, grace);
    hide Fell, PastGrace, Used, Base;
  }

  lemma OneMoreLook(looks: seq<Look>, p: nat, since: int)
    requires p < |looks|
    ensures var before, s := Fresh(looks[..p], since), looks[p].sample;
      Fresh(looks[..p + 1], since) == if IsFresh(before, s, since) then before + [s] else before
  {
    assert looks[..p + 1][..p] == looks[..p];
  }

  predicate SettledAt(looks: seq<Look>, p: nat, since: int, from: int, grace: int)
    requires p < |looks|
  {
    IsFresh(Fresh(looks[..p], since), looks[p].sample, since)
      && Settles(Fresh(looks[..p + 1], since), since, from, grace)
  }

  // The variables of waitGPUSettled, from the samples seen.
  predicate Follows(seen: seq<Sample>, since: int, from: int, grace: int, from': int, dropped: bool, prev: int,
                    last: Option<int>)
  {
    && from' == Base(Used(seen), from)
    && (if seen == [] then prev == -1 && last == None
      else prev == seen[|seen| - 1].used && last == Some(seen[|seen| - 1].at))
    && (dropped <==> DropSeen(seen, since, from, grace))
  }

  lemma FollowsOne(seen: seq<Sample>, s: Sample, since: int, from: int, grace: int, from': int, dropped: bool,
                   prev: int, last: Option<int>)
    requires Follows(seen, since, from, grace, from', dropped, prev, last)
    ensures IsFresh(seen, s, since) <==> s.at > since && (last.None? || s.at > last.value)
    ensures var from1 := if prev < 0 then Max(from', s.used) else from';
      var dropped1 := dropped || from1 - s.used > SLACK || s.at - since >= grace;
      && Follows(seen + [s], since, from, grace, from1, dropped1, s.used, Some(s.at))
      && (Settles(seen + [s], since, from, grace) <==> dropped1 && prev >= 0 && prev - s.used <= SLACK)
  {
    OneMoreSample(seen, s, since, from, grace);
    assert seen == [] ==> Base(Used(seen), from) == from;
    hide Used, DropSeen, Steady, Base;
  }

  ghost predicate NotYet(looks: seq<Look>, p: nat, since: int, from: int, grace: int)
    requires p <= |looks|
  {
    forall k: nat | k < p :: !SettledAt(looks, k, since, from, grace) && !looks[k].expired
  }

  lemma NotYetOne(looks: seq<Look>, p: nat, since: int, from: int, grace: int)
    requires p < |looks| && NotYet(looks, p, since, from, grace)
    requires !SettledAt(looks, p, since, from, grace) && !looks[p].expired
    ensures NotYet(looks, p + 1, since, from, grace)
  {
    hide SettledAt;
  }

  method Settled(looks: seq<Look>, since: int, from: int, grace: int) returns (yes: Option<bool>, p: nat)
    ensures p <= |looks| && (yes.Some? <==> p < |looks|)
    ensures NotYet(looks, p, since, from, grace)
    ensures yes.Some? ==> (yes.value <==> SettledAt(looks, p, since, from, grace)) && (!yes.value ==> looks[p].expired)
  {
    var from', dropped, prev := from, from < 0, -1;
    var last: Option<int> := None;
    p := 0;
    while p < |looks|
      invariant p <= |looks|
      invariant NotYet(looks, p, since, from, grace)
      invariant Follows(Fresh(looks[..p], since), since, from, grace, from', dropped, prev, last)
    {
      var s := looks[p].sample;
      OneMoreLook(looks, p, since);
      FollowsOne(Fresh(looks[..p], since), s, since, from, grace, from', dropped, prev, last);
      ghost var settled := SettledAt(looks, p, since, from, grace);
      if !settled && !looks[p].expired {
        NotYetOne(looks, p, since, from, grace);
      }
      assert settled <==>
        IsFresh(Fresh(looks[..p], since), s, since) && Settles(Fresh(looks[..p + 1], since), since, from, grace);
      hide *;
      if s.at > since && (last.None? || s.at > last.value) {
        if prev < 0 {
          from' := Max(from', s.used);
        }
        if from' - s.used > SLACK || s.at - since >= grace {
          dropped := true;
        }
        if dropped && prev >= 0 && prev - s.used <= SLACK {
          return Some(true), p;
        }
        prev, last := s.used, Some(s.at);
      }
      if looks[p].expired {
        return Some(false), p;
      }
      p := p + 1;
    }
    return None, p;
  }

  // ----- the two agree -----

  // Samples as gpuFreed sees them: the grace ends before the first sample that
  // was taken after it.
  function Trace(samples: seq<Sample>, since: int, grace: int): seq<Event> {
    if samples == [] then []
    else
      var n := |samples| - 1;
      var before := Trace(samples[..n], since, grace);
      before + Arrivals(before, samples[n], since, grace)
  }

  // What comes with one more sample.
  function Arrivals(before: seq<Event>, s: Sample, since: int, grace: int): seq<Event> {
    if s.at - since >= grace && GraceOver !in before then [GraceOver, Reading(s.used)] else [Reading(s.used)]
  }

  lemma {:induction false} ReadingsOfConcat(a: seq<Event>, b: seq<Event>)
    ensures Readings(a + b) == Readings(a) + Readings(b)
  {
    if b == [] {
      assert a + b == a;
    } else {
      var n := |b| - 1;
      assert (a + b)[..|a + b| - 1] == a + b[..n];
      ReadingsOfConcat(a, b[..n]);
    }
  }

  lemma {:induction false} TraceReads(samples: seq<Sample>, since: int, grace: int)
    ensures Readings(Trace(samples, since, grace)) == Used(samples)
    ensures GraceOver in Trace(samples, since, grace) <==> PastGrace(samples, since, grace)
    ensures Deadline !in Trace(samples, since, grace)
  {
    hide Readings, Used, PastGrace;
    if samples == [] {
      NoTrace(since, grace);
    } else {
      var n := |samples| - 1;
      var before, s := Trace(samples[..n], since, grace), samples[n];
      var more := Arrivals(before, s, since, grace);
      assert Trace(samples, since, grace) == before + more;
      hide Trace;
      TraceReads(samples[..n], since, grace);
      assert samples == samples[..n] + [s];
      OneMoreUsed(samples[..n], s);
      OneMorePastGrace(samples[..n], s, since, grace);
      ReadingsOfConcat(before, more);
      OneReading(more, s.used);
    }
  }

  lemma NoTrace(since: int, grace: int)
    ensures Trace([], since, grace) == [] && Readings([]) == [] && Used([]) == [] && !PastGrace([], since, grace)
  {}

  lemma OneReading(more: seq<Event>, used: nat)
    requires more == [Reading(used)] || more == [GraceOver, Reading(used)]
    ensures Readings(more) == [used] && Deadline !in more && (GraceOver in more <==> |more| == 2)
  {
    var n := |more| - 1;
    assert more[..n] == [] || (more[..n] == [GraceOver] && more[..n][..0] == []);
    if |more| == 2 {
      assert more[0] == GraceOver;
    }
  }

  // After the same samples the two detectors agree: when the target cannot be
  // reached and more than the slack is held, gpuFreed says yes on a reading
  // exactly when waitGPUSettled does.
  lemma DetectorsAgree(samples: seq<Sample>, since: int, grace: int, from: int, target: int, held: int)
    requires from >= 0 && held > SLACK && samples != []
    requires forall s <- samples :: s.used > target + SLACK
    ensures Shows(Trace(samples, since, grace), from, target, held) <==> Settles(samples, since, from, grace)
  {
    TraceReads(samples, since, grace);
    var events, s := Trace(samples, since, grace), samples[|samples| - 1];
    assert events[|events| - 1] == Reading(s.used);
    hide Steady, Fell, Trace, Used, Readings;
  }

  lemma {:induction false} TraceGrows(samples: seq<Sample>, i: nat, since: int, grace: int)
    requires i <= |samples|
    ensures Trace(samples[..i], since, grace) <= Trace(samples, since, grace)
  {
    if i == |samples| {
      assert samples[..i] == samples;
    } else {
      var n := |samples| - 1;
      TraceGrows(samples[..n], i, since, grace);
      assert samples[..n][..i] == samples[..i];
    }
  }

  // So over the same run of samples both answer at the same one.
  lemma SameSampleDecides(samples: seq<Sample>, i: nat, since: int, grace: int, from: int, target: int, held: int)
    requires from >= 0 && held > SLACK && i < |samples|
    requires forall s <- samples :: s.used > target + SLACK
    ensures var events, n := Trace(samples, since, grace), |Trace(samples[..i + 1], since, grace)| - 1;
      && 0 <= n < |events| && events[n] == Reading(samples[i].used)
      && (Decided(events, n, from, target, held) <==> Settles(samples[..i + 1], since, from, grace))
  {
    hide *;
    var upTo := samples[..i + 1];
    var events, some := Trace(samples, since, grace), Trace(upTo, since, grace);
    TraceGrows(samples, i + 1, since, grace);
    LastIsSample(upTo, since, grace);
    DetectorsAgree(upTo, since, grace, from, target, held);
    assert events[..|some|] == some && events[|some| - 1] == some[|some| - 1];
    LastDecides(events, |some| - 1, from, target, held);
  }

  lemma LastIsSample(samples: seq<Sample>, since: int, grace: int)
    requires samples != []
    ensures var events := Trace(samples, since, grace);
      events != [] && events[|events| - 1] == Reading(samples[|samples| - 1].used)
  {}
}
