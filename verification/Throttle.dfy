/** The throttles of the event loop: a token per tick, narration calls behind a cooldown per process and
    one for all, and a minimum interval between "event" broadcasts. Times are in nanoseconds. */
module Throttle {
  import opened Wrappers

  const SECOND := 1_000_000_000
  const LLM_PID_COOLDOWN := 30 * SECOND
  const LLM_GLOBAL_COOLDOWN := 5 * SECOND
  const SSE_INTERVAL := 400_000_000

  /** The ticker fires, or an event comes in with what it meets: whether the process is trusted, whether
      the decision asks for narration, and the clock as read for narration, for the broadcast check and for
      the broadcast stamp. */
  datatype Arrival =
    | Tick
    | Received(pid: nat, trusted: bool, narratable: bool, now: int, checked: int, stamped: int)

  datatype Call = Call(pid: nat, at: int)

  /** Everything the loop has done so far; `token` says a tick waits in the ticker's one-place buffer. */
  datatype Log = Log(token: bool, processed: nat, dropped: nat, calls: seq<Call>, stamps: seq<int>)

  const EMPTY := Log(false, 0, 0, [], [])

  // ---- the rules, over the whole history ----

  predicate MayCall(calls: seq<Call>, pid: nat, now: int) {
    forall i | 0 <= i < |calls| ::
      now - calls[i].at >= LLM_GLOBAL_COOLDOWN && (calls[i].pid == pid ==> now - calls[i].at >= LLM_PID_COOLDOWN)
  }

  predicate MayBroadcast(stamps: seq<int>, now: int) {
    forall i | 0 <= i < |stamps| :: now - stamps[i] >= SSE_INTERVAL
  }

  function Next(log: Log, a: Arrival): Log {
    if a.Tick? then log.(token := true)
    else if !log.token then log.(dropped := log.dropped + 1)
    else
      Log(false, log.processed + 1, log.dropped,
          if !a.trusted && a.narratable && MayCall(log.calls, a.pid, a.now) then log.calls + [Call(a.pid, a.now)] else log.calls,
          if MayBroadcast(log.stamps, a.checked) then log.stamps + [a.stamped] else log.stamps)
  }

  function Replay(arrivals: seq<Arrival>): Log {
    if arrivals == [] then EMPTY
    else Next(Replay(arrivals[..|arrivals| - 1]), arrivals[|arrivals| - 1])
  }

  /** The clock never runs backwards between the check and the stamp of a broadcast. */
  predicate Clocked(arrivals: seq<Arrival>) {
    forall i | 0 <= i < |arrivals| && arrivals[i].Received? :: arrivals[i].checked <= arrivals[i].stamped
  }

  // ---- the loop, which remembers only the last times ----

  predicate Past(last: Option<int>, now: int, cooldown: int) {
    last.None? || now - last.value >= cooldown
  }

  function LastCallOf(cooldowns: map<nat, int>, pid: nat): Option<int> {
    if pid in cooldowns then Some(cooldowns[pid]) else None
  }

  /** `last` is the latest of the times, none when there are none. */
  ghost predicate Latest(times: seq<int>, last: Option<int>) {
    match last
    case None => times == []
    case Some(t) => t in times && forall i | 0 <= i < |times| :: times[i] <= t
  }

  function Times(calls: seq<Call>): seq<int> {
    seq(|calls|, i requires 0 <= i < |calls| => calls[i].at)
  }

  function TimesOf(calls: seq<Call>, pid: nat): seq<int> {
    if calls == [] then []
    else
      var last := calls[|calls| - 1];
      TimesOf(calls[..|calls| - 1], pid) + if last.pid == pid then [last.at] else []
  }

  ghost predicate Remembered(calls: seq<Call>, cooldowns: map<nat, int>, globalLast: Option<int>) {
    Latest(Times(calls), globalLast) && forall pid: nat :: Latest(TimesOf(calls, pid), LastCallOf(cooldowns, pid))
  }

  lemma {:induction false} TimesOfMembers(calls: seq<Call>, pid: nat)
    ensures forall t :: t in TimesOf(calls, pid) <==> Call(pid, t) in calls
  {
    if calls != [] {
      var init := calls[..|calls| - 1];
      TimesOfMembers(init, pid);
      assert calls == init + [calls[|calls| - 1]];
    }
  }

  /** A time is past every one of some times when it is past the latest. */
  lemma PastLatest(times: seq<int>, last: Option<int>, now: int, cooldown: int)
    requires Latest(times, last)
    ensures Past(last, now, cooldown) <==> forall i | 0 <= i < |times| :: now - times[i] >= cooldown
  {
  }

  /** Two comparisons with last times stand for one with every call ever made. */
  lemma MayCallByLastTimes(calls: seq<Call>, cooldowns: map<nat, int>, globalLast: Option<int>, pid: nat, now: int)
    requires Remembered(calls, cooldowns, globalLast)
    ensures MayCall(calls, pid, now)
       <==> Past(LastCallOf(cooldowns, pid), now, LLM_PID_COOLDOWN) && Past(globalLast, now, LLM_GLOBAL_COOLDOWN)
  {
    var all, own := Times(calls), TimesOf(calls, pid);
    PastLatest(all, globalLast, now, LLM_GLOBAL_COOLDOWN);
    assert Latest(own, LastCallOf(cooldowns, pid));
    PastLatest(own, LastCallOf(cooldowns, pid), now, LLM_PID_COOLDOWN);
    TimesOfMembers(calls, pid);
    assert forall i | 0 <= i < |calls| :: all[i] == calls[i].at;
    if MayCall(calls, pid, now) {
      forall i | 0 <= i < |own|
        ensures now - own[i] >= LLM_PID_COOLDOWN
      {
        assert Call(pid, own[i]) in calls;
      }
    }
    if Past(LastCallOf(cooldowns, pid), now, LLM_PID_COOLDOWN) && Past(globalLast, now, LLM_GLOBAL_COOLDOWN) {
      forall i | 0 <= i < |calls|
        ensures now - calls[i].at >= LLM_GLOBAL_COOLDOWN && (calls[i].pid == pid ==> now - calls[i].at >= LLM_PID_COOLDOWN)
      {
        assert now - all[i] >= LLM_GLOBAL_COOLDOWN;
        assert calls[i].pid == pid ==> calls[i].at in own;
      }
    }
  }

  lemma LatestGrows(times: seq<int>, last: Option<int>, t: int, gap: nat)
    requires Latest(times, last) && Past(last, t, gap)
    ensures Latest(times + [t], Some(t))
  {
  }

  lemma CallIsRemembered(calls: seq<Call>, cooldowns: map<nat, int>, globalLast: Option<int>, pid: nat, now: int)
    requires Remembered(calls, cooldowns, globalLast) && MayCall(calls, pid, now)
    ensures Remembered(calls + [Call(pid, now)], cooldowns[pid := now], Some(now))
  {
    var calls' := calls + [Call(pid, now)];
    MayCallByLastTimes(calls, cooldowns, globalLast, pid, now);
    assert Times(calls') == Times(calls) + [now];
    LatestGrows(Times(calls), globalLast, now, LLM_GLOBAL_COOLDOWN);
    assert calls'[..|calls|] == calls;
    forall p: nat
      ensures Latest(TimesOf(calls', p), LastCallOf(cooldowns[pid := now], p))
    {
      assert Latest(TimesOf(calls, p), LastCallOf(cooldowns, p));
      if p == pid {
        LatestGrows(TimesOf(calls, p), LastCallOf(cooldowns, p), now, LLM_PID_COOLDOWN);
      } else {
        assert TimesOf(calls', p) == TimesOf(calls, p);
      }
    }
  }

  /** The event loop does exactly what the rules over the whole history say. */
  method ProcessEvents(arrivals: seq<Arrival>) returns (log: Log)
    requires Clocked(arrivals)
    ensures log == Replay(arrivals)
  {
    var token, processed, dropped := false, 0, 0;
    var calls, stamps: seq<int> := [], [];
    var cooldowns: map<nat, int>, globalLast: Option<int>, lastBroadcast: Option<int> := map[], None, None;
    for i := 0 to |arrivals|
      invariant Log(token, processed, dropped, calls, stamps) == Replay(arrivals[..i])
      invariant Remembered(calls, cooldowns, globalLast)
      invariant Latest(stamps, lastBroadcast)
    {
      var a := arrivals[i];
      assert arrivals[..i + 1][..i] == arrivals[..i];
      if a.Tick? {
        token := true;
        continue;
      }
      if !token {
        dropped := dropped + 1;
        continue;
      }
      token := false;
      processed := processed + 1;
      if !a.trusted && a.narratable {
        MayCallByLastTimes(calls, cooldowns, globalLast, a.pid, a.now);
        if Past(LastCallOf(cooldowns, a.pid), a.now, LLM_PID_COOLDOWN) && Past(globalLast, a.now, LLM_GLOBAL_COOLDOWN) {
          CallIsRemembered(calls, cooldowns, globalLast, a.pid, a.now);
          cooldowns := cooldowns[a.pid := a.now];
          globalLast := Some(a.now);
          calls := calls + [Call(a.pid, a.now)];
        }
      }
      PastLatest(stamps, lastBroadcast, a.checked, SSE_INTERVAL);
      if Past(lastBroadcast, a.checked, SSE_INTERVAL) {
        LatestGrows(stamps, lastBroadcast, a.stamped, SSE_INTERVAL);
        lastBroadcast := Some(a.stamped);
        stamps := stamps + [a.stamped];
      }
    }
    assert arrivals[..|arrivals|] == arrivals;
    log := Log(token, processed, dropped, calls, stamps);
  }

  // ---- the rules, told arrival by arrival ----

  /** An event right after a tick: nothing else gets one in between. */
  predicate Served(arrivals: seq<Arrival>, i: nat) {
    0 < i < |arrivals| && arrivals[i - 1].Tick? && arrivals[i].Received?
  }

  function CountServed(arrivals: seq<Arrival>): nat {
    if arrivals == [] then 0
    else CountServed(arrivals[..|arrivals| - 1]) + if Served(arrivals, |arrivals| - 1) then 1 else 0
  }

  /** Exactly the events right after a tick are processed. */
  lemma {:induction false} ProcessedAreServed(arrivals: seq<Arrival>)
    ensures Replay(arrivals).processed == CountServed(arrivals)
    ensures Replay(arrivals).token <==> arrivals != [] && arrivals[|arrivals| - 1].Tick?
  {
    if arrivals != [] {
      ProcessedAreServed(arrivals[..|arrivals| - 1]);
    }
  }

  /** Narration is asked for by a processed event of an untrusted process, 5 seconds or more after every
      call made before it and 30 seconds or more after every one for the same process. */
  ghost predicate CallsFor(arrivals: seq<Arrival>, who: seq<nat>, i: nat) {
    && Served(arrivals, i) && !arrivals[i].trusted && arrivals[i].narratable
    && forall j :: j in who && j < i && j < |arrivals| && arrivals[j].Received? ==>
         && arrivals[i].now - arrivals[j].now >= 5_000_000_000
         && (arrivals[j].pid == arrivals[i].pid ==> arrivals[i].now - arrivals[j].now >= 30_000_000_000)
  }

  /** A processed event is broadcast 400 milliseconds or more after every one broadcast before it. */
  ghost predicate Broadcasts(arrivals: seq<Arrival>, who: seq<nat>, i: nat) {
    && Served(arrivals, i)
    && forall j :: j in who && j < i && j < |arrivals| && arrivals[j].Received? ==>
         arrivals[i].checked - arrivals[j].stamped >= 400_000_000
  }

  /** `who` lists arrivals of events, in order. */
  ghost predicate Increasing(arrivals: seq<Arrival>, who: seq<nat>) {
    && (forall k :: 0 <= k < |who| ==> who[k] < |arrivals| && arrivals[who[k]].Received?)
    && (forall k, l :: 0 <= k < l < |who| ==> who[k] < who[l])
  }

  /** Both directions: the calls made are those of the events that may call, no more and no fewer. */
  ghost predicate Callers(arrivals: seq<Arrival>, who: seq<nat>) {
    && Increasing(arrivals, who) && |who| == |Replay(arrivals).calls|
    && (forall k :: 0 <= k < |who| ==> Replay(arrivals).calls[k] == Call(arrivals[who[k]].pid, arrivals[who[k]].now))
    && forall i: nat :: i < |arrivals| ==> (i in who <==> CallsFor(arrivals, who, i))
  }

  ghost predicate Broadcasters(arrivals: seq<Arrival>, who: seq<nat>) {
    && Increasing(arrivals, who) && |who| == |Replay(arrivals).stamps|
    && (forall k :: 0 <= k < |who| ==> Replay(arrivals).stamps[k] == arrivals[who[k]].stamped)
    && forall i: nat :: i < |arrivals| ==> (i in who <==> Broadcasts(arrivals, who, i))
  }

  lemma MayCallIff(arrivals: seq<Arrival>, who: seq<nat>, a: Arrival)
    requires Callers(arrivals, who) && a.Received?
    ensures MayCall(Replay(arrivals).calls, a.pid, a.now) <==>
      forall j :: j in who ==>
        && a.now - arrivals[j].now >= 5_000_000_000
        && (arrivals[j].pid == a.pid ==> a.now - arrivals[j].now >= 30_000_000_000)
  {
    var calls := Replay(arrivals).calls;
    assert forall k :: 0 <= k < |who| ==> who[k] in who;
    assert forall k :: 0 <= k < |who| ==> calls[k].at == arrivals[who[k]].now && calls[k].pid == arrivals[who[k]].pid;
  }

  lemma EarlierCallsFor(init: seq<Arrival>, a: Arrival, who: seq<nat>, who': seq<nat>, i: nat)
    requires i < |init| && (who' == who || who' == who + [|init|])
    ensures CallsFor(init + [a], who', i) <==> CallsFor(init, who, i)
    ensures Broadcasts(init + [a], who', i) <==> Broadcasts(init, who, i)
  {
    var all := init + [a];
    assert all[i] == init[i] && forall j | 0 <= j < |init| :: all[j] == init[j];
    assert forall j | j < i :: j in who' <==> j in who;
  }

  predicate Narrates(arrivals: seq<Arrival>, a: Arrival): (calls: bool) {
    && Served(arrivals + [a], |arrivals|) && !a.trusted && a.narratable
    && MayCall(Replay(arrivals).calls, a.pid, a.now)
  }

  lemma NextCall(init: seq<Arrival>, a: Arrival)
    ensures Replay(init + [a]).calls == Replay(init).calls + if Narrates(init, a) then [Call(a.pid, a.now)] else []
  {
    assert (init + [a])[..|init|] == init;
    ProcessedAreServed(init);
  }

  lemma LastCallsFor(init: seq<Arrival>, a: Arrival, who: seq<nat>, who': seq<nat>)
    requires Callers(init, who) && (who' == who || who' == who + [|init|])
    ensures CallsFor(init + [a], who', |init|) <==> Narrates(init, a)
  {
    var all := init + [a];
    assert all[|init|] == a && forall j | 0 <= j < |init| :: all[j] == init[j];
    assert forall j | j in who :: j < |init| && init[j].Received?;
    if a.Received? {
      MayCallIff(init, who, a);
      assert forall j | j < |init| :: j in who' <==> j in who;
    }
  }

  lemma IncreasingOn(init: seq<Arrival>, a: Arrival, who: seq<nat>)
    requires Increasing(init, who)
    ensures Increasing(init + [a], who) && (a.Received? ==> Increasing(init + [a], who + [|init|]))
  {
  }

  /** Which events were narrated. */
  lemma {:induction false} NarratedIff(arrivals: seq<Arrival>) returns (who: seq<nat>)
    ensures Callers(arrivals, who)
  {
    if arrivals == [] {
      who := [];
    } else {
      var n := |arrivals| - 1;
      var init, a := arrivals[..n], arrivals[n];
      var before := NarratedIff(init);
      assert arrivals == init + [a];
      who := before + if Narrates(init, a) then [n] else [];
      assert who == before || who == before + [|init|];
      NextCall(init, a);
      IncreasingOn(init, a, before);
      LastCallsFor(init, a, before, who);
      forall i: nat | i < |arrivals|
        ensures i in who <==> CallsFor(arrivals, who, i)
      {
        if i < n {
          EarlierCallsFor(init, a, before, who, i);
        }
      }
    }
  }

  predicate Sends(arrivals: seq<Arrival>, a: Arrival): (sends: bool) {
    Served(arrivals + [a], |arrivals|) && MayBroadcast(Replay(arrivals).stamps, a.checked)
  }

  lemma NextStamp(init: seq<Arrival>, a: Arrival)
    ensures Replay(init + [a]).stamps == Replay(init).stamps + if Sends(init, a) then [a.stamped] else []
  {
    assert (init + [a])[..|init|] == init;
    ProcessedAreServed(init);
  }

  lemma LastBroadcasts(init: seq<Arrival>, a: Arrival, who: seq<nat>, who': seq<nat>)
    requires Broadcasters(init, who) && (who' == who || who' == who + [|init|])
    ensures Broadcasts(init + [a], who', |init|) <==> Sends(init, a)
  {
    var all, stamps := init + [a], Replay(init).stamps;
    assert all[|init|] == a && forall j | 0 <= j < |init| :: all[j] == init[j];
    assert forall j | j in who :: j < |init| && init[j].Received?;
    if a.Received? {
      assert forall j | j < |init| :: j in who' <==> j in who;
      assert forall k :: 0 <= k < |who| ==> who[k] in who;
      assert forall k :: 0 <= k < |who| ==> stamps[k] == init[who[k]].stamped;
    }
  }

  /** Which events were broadcast. */
  lemma {:induction false} BroadcastIff(arrivals: seq<Arrival>) returns (who: seq<nat>)
    ensures Broadcasters(arrivals, who)
  {
    if arrivals == [] {
      who := [];
    } else {
      var n := |arrivals| - 1;
      var init, a := arrivals[..n], arrivals[n];
      var before := BroadcastIff(init);
      assert arrivals == init + [a];
      who := before + if Sends(init, a) then [n] else [];
      assert who == before || who == before + [|init|];
      NextStamp(init, a);
      IncreasingOn(init, a, before);
      LastBroadcasts(init, a, before, who);
      forall i: nat | i < |arrivals|
        ensures i in who <==> Broadcasts(arrivals, who, i)
      {
        if i < n {
          EarlierCallsFor(init, a, before, who, i);
        }
      }
    }
  }

  // ---- what the rules bound ----

  function Ticks(arrivals: seq<Arrival>): nat {
    if arrivals == [] then 0 else Ticks(arrivals[..|arrivals| - 1]) + if arrivals[|arrivals| - 1].Tick? then 1 else 0
  }

  function Held(log: Log): nat { if log.token then 1 else 0 }

  /** Every event received is processed or dropped, and each one processed takes a tick. */
  lemma {:induction false} EventsAccountedFor(arrivals: seq<Arrival>)
    ensures var log := Replay(arrivals);
      log.processed + log.dropped == |arrivals| - Ticks(arrivals) && log.processed + Held(log) <= Ticks(arrivals)
  {
    if arrivals != [] {
      EventsAccountedFor(arrivals[..|arrivals| - 1]);
    }
  }

  /** However the run began, the events processed from then on number at most the ticks since, and the one
      the buffer may hold. */
  lemma {:induction false} ProcessedSince(before: seq<Arrival>, since: seq<Arrival>)
    ensures var was, log := Replay(before), Replay(before + since);
      log.processed - was.processed + Held(log) <= Ticks(since) + Held(was)
  {
    if since == [] {
      assert before + since == before;
    } else {
      var init := since[..|since| - 1];
      assert (before + since)[..|before + since| - 1] == before + init;
      ProcessedSince(before, init);
    }
  }

  ghost predicate Spaced(times: seq<int>, gap: nat) {
    forall i, j :: 0 <= i < j < |times| ==> times[j] - times[i] >= gap
  }

  function CountIn(times: seq<int>, from: int, to: int): nat {
    if times == [] then 0
    else
      var last := times[|times| - 1];
      CountIn(times[..|times| - 1], from, to) + if from <= last <= to then 1 else 0
  }

  lemma {:induction false} EarlierWindow(times: seq<int>, from: int, to: int, to': int)
    requires forall i | 0 <= i < |times| :: times[i] <= to' || times[i] > to
    ensures CountIn(times, from, to) <= CountIn(times, from, to')
  {
    if times != [] {
      EarlierWindow(times[..|times| - 1], from, to, to');
    }
  }

  /** Times a gap apart: c of them span c - 1 gaps. */
  lemma {:induction false} WindowBound(times: seq<int>, gap: nat, from: int, to: int)
    requires Spaced(times, gap)
    ensures CountIn(times, from, to) > 0 ==> (CountIn(times, from, to) - 1) * gap <= to - from
  {
    if times != [] {
      var init, last := times[..|times| - 1], times[|times| - 1];
      if from <= last <= to {
        EarlierWindow(init, from, to, last - gap);
        WindowBound(init, gap, from, last - gap);
        var c := CountIn(init, from, last - gap);
        if c > 0 {
          assert c * gap == (c - 1) * gap + gap;
          FewerGaps(CountIn(init, from, to), c, gap);
        } else {
          assert CountIn(times, from, to) == 1;
        }
      } else {
        WindowBound(init, gap, from, to);
      }
    }
  }

  lemma FewerGaps(m: nat, n: nat, gap: nat)
    requires m <= n
    ensures m * gap <= n * gap
  {
  }

  lemma {:induction false} TimesOfSpaced(calls: seq<Call>, pid: nat, gap: nat)
    requires forall i, j :: 0 <= i < j < |calls| && calls[i].pid == calls[j].pid ==> calls[j].at - calls[i].at >= gap
    ensures Spaced(TimesOf(calls, pid), gap)
  {
    if calls != [] {
      var init, last := calls[..|calls| - 1], calls[|calls| - 1];
      TimesOfSpaced(init, pid, gap);
      TimesOfMembers(init, pid);
      var own := TimesOf(init, pid);
      forall i | 0 <= i < |own| && last.pid == pid
        ensures last.at - own[i] >= gap
      {
        assert own[i] in own;
        var k :| 0 <= k < |init| && init[k] == Call(pid, own[i]);
        assert calls[k] == init[k];
      }
    }
  }

  lemma SpacedOn(times: seq<int>, gap: nat, t: int)
    requires Spaced(times, gap) && forall i | 0 <= i < |times| :: t - times[i] >= gap
    ensures Spaced(times + [t], gap)
  {
  }

  ghost predicate SpacedPerPid(calls: seq<Call>) {
    forall i, j :: 0 <= i < j < |calls| && calls[i].pid == calls[j].pid ==> calls[j].at - calls[i].at >= LLM_PID_COOLDOWN
  }

  lemma CallsSpacedOn(calls: seq<Call>, pid: nat, now: int)
    requires Spaced(Times(calls), LLM_GLOBAL_COOLDOWN) && SpacedPerPid(calls) && MayCall(calls, pid, now)
    ensures Spaced(Times(calls + [Call(pid, now)]), LLM_GLOBAL_COOLDOWN) && SpacedPerPid(calls + [Call(pid, now)])
  {
    assert Times(calls + [Call(pid, now)]) == Times(calls) + [now];
    SpacedOn(Times(calls), LLM_GLOBAL_COOLDOWN, now);
  }

  lemma {:induction false} ReplaySpaced(arrivals: seq<Arrival>)
    requires Clocked(arrivals)
    ensures Spaced(Times(Replay(arrivals).calls), LLM_GLOBAL_COOLDOWN) && SpacedPerPid(Replay(arrivals).calls)
    ensures Spaced(Replay(arrivals).stamps, SSE_INTERVAL)
  {
    if arrivals != [] {
      ReplaySpaced(arrivals[..|arrivals| - 1]);
      var log, a := Replay(arrivals[..|arrivals| - 1]), arrivals[|arrivals| - 1];
      if a.Received? && MayCall(log.calls, a.pid, a.now) {
        CallsSpacedOn(log.calls, a.pid, a.now);
      }
      if a.Received? && MayBroadcast(log.stamps, a.checked) {
        SpacedOn(log.stamps, SSE_INTERVAL, a.stamped);
      }
    }
  }

  lemma QuotientAtLeast(m: int, gap: nat, width: nat)
    requires gap > 0 && m * gap <= width
    ensures m <= width / gap
  {
    var q, rest := width / gap, width % gap;
    assert width == q * gap + rest && (q + 1) * gap == q * gap + gap;
    if m > q {
      FewerGaps(q + 1, m, gap);
    }
  }

  lemma RateBound(times: seq<int>, gap: nat, from: int, width: nat)
    requires Spaced(times, gap) && gap > 0
    ensures CountIn(times, from, from + width) <= width / gap + 1
  {
    WindowBound(times, gap, from, from + width);
    if CountIn(times, from, from + width) > 0 {
      QuotientAtLeast(CountIn(times, from, from + width) - 1, gap, width);
    }
  }

  /** In any window of any width: narration calls number at most width/5s + 1, those for one process at
      most width/30s + 1, and "event" broadcasts at most width/400ms + 1. */
  lemma RatesBounded(arrivals: seq<Arrival>, from: int, width: nat, pid: nat)
    requires Clocked(arrivals)
    ensures CountIn(Times(Replay(arrivals).calls), from, from + width) <= width / LLM_GLOBAL_COOLDOWN + 1
    ensures CountIn(TimesOf(Replay(arrivals).calls, pid), from, from + width) <= width / LLM_PID_COOLDOWN + 1
    ensures CountIn(Replay(arrivals).stamps, from, from + width) <= width / SSE_INTERVAL + 1
  {
    ReplaySpaced(arrivals);
    var log := Replay(arrivals);
    RateBound(Times(log.calls), LLM_GLOBAL_COOLDOWN, from, width);
    TimesOfSpaced(log.calls, pid, LLM_PID_COOLDOWN);
    RateBound(TimesOf(log.calls, pid), LLM_PID_COOLDOWN, from, width);
    RateBound(log.stamps, SSE_INTERVAL, from, width);
  }
}
