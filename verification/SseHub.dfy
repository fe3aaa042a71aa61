/** The hub of the event stream: handlers subscribe, serve and unsubscribe; broadcasters offer each
    event to every subscriber. Taking the lock, touching the map, each channel operation and letting
    the lock go are steps of their own, and any interleaving of the threads is a run. */
module SseHub {
  import opened Wrappers

  const CAPACITY := 64

  type Tid = nat
  type ChanId = nat
  type BroadcastId = nat

  /** Where a thread stands: a handler goes from Made to Gone, a broadcaster is Sending or absent. */
  datatype Pc =
    | Made(ch: ChanId)            // channel made
    | SubLocked(ch: ChanId)       // write lock held
    | SubInserted(ch: ChanId)     // write lock held, channel in the map
    | Serving(ch: ChanId)
    | UnsubLocked(ch: ChanId)     // write lock held
    | UnsubDeleted(ch: ChanId)    // write lock held, channel out of the map
    | Closing(ch: ChanId)         // write lock let go
    | Gone(ch: ChanId)            // channel closed
    | Sending(b: BroadcastId, rest: set<ChanId>)  // read lock held, subscribers still to go

  predicate HoldsWrite(pc: Pc) { pc.SubLocked? || pc.SubInserted? || pc.UnsubLocked? || pc.UnsubDeleted? }

  /** The channel is in the subscriber map while its handler stands here. */
  predicate InMap(pc: Pc) { pc.SubInserted? || pc.Serving? || pc.UnsubLocked? }

  /** One attempt to send a broadcast to a channel, with the fill of the buffer it met. */
  datatype Offer = Offer(b: BroadcastId, fill: nat)

  datatype Chan = Chan(buf: seq<BroadcastId>, closed: bool, received: seq<BroadcastId>, offers: seq<Offer>, owner: Tid)

  /** What is remembered of a broadcast: the subscribers it found, and the broadcasts that were over by then. */
  datatype Cast = Cast(audience: set<ChanId>, earlier: set<BroadcastId>)

  datatype State = State(
    writer: Option<Tid>, readers: set<Tid>, subs: set<ChanId>, chans: map<ChanId, Chan>, pcs: map<Tid, Pc>,
    casts: map<BroadcastId, Cast>, over: set<BroadcastId>)

  datatype Action =
    | Make(t: Tid, ch: ChanId) | LockToSubscribe(t: Tid) | Insert(t: Tid) | UnlockSubscribed(t: Tid)
    | Receive(t: Tid)
    | LockToUnsubscribe(t: Tid) | Delete(t: Tid) | UnlockUnsubscribed(t: Tid) | Close(t: Tid)
    | RLock(t: Tid, b: BroadcastId) | Send(t: Tid, ch: ChanId) | RUnlock(t: Tid)

  const START := State(None, {}, {}, map[], map[], map[], {})

  /** The step is possible: locks are free, the thread stands where the step begins. */
  predicate Enabled(s: State, a: Action) {
    match a
    case Make(t, ch) => t !in s.pcs && ch !in s.chans
    case LockToSubscribe(t) => t in s.pcs && s.pcs[t].Made? && s.writer == None && s.readers == {}
    case Insert(t) => t in s.pcs && s.pcs[t].SubLocked?
    case UnlockSubscribed(t) => t in s.pcs && s.pcs[t].SubInserted?
    case Receive(t) => t in s.pcs && s.pcs[t].Serving? && s.pcs[t].ch in s.chans && s.chans[s.pcs[t].ch].buf != []
    case LockToUnsubscribe(t) => t in s.pcs && s.pcs[t].Serving? && s.writer == None && s.readers == {}
    case Delete(t) => t in s.pcs && s.pcs[t].UnsubLocked?
    case UnlockUnsubscribed(t) => t in s.pcs && s.pcs[t].UnsubDeleted?
    case Close(t) => t in s.pcs && s.pcs[t].Closing? && s.pcs[t].ch in s.chans
    case RLock(t, b) => t !in s.pcs && b !in s.casts && s.writer == None
    case Send(t, ch) => t in s.pcs && s.pcs[t].Sending? && ch in s.pcs[t].rest && ch in s.chans
    case RUnlock(t) => t in s.pcs && s.pcs[t].Sending? && s.pcs[t].rest == {}
  }

  /** A send that finds the buffer full drops the event. */
  function Offered(c: Chan, b: BroadcastId): Chan {
    c.(offers := c.offers + [Offer(b, |c.buf|)], buf := if |c.buf| < CAPACITY then c.buf + [b] else c.buf)
  }

  function Step(s: State, a: Action): State
    requires Enabled(s, a)
  {
    match a
    case Make(t, ch) => s.(pcs := s.pcs[t := Made(ch)], chans := s.chans[ch := Chan([], false, [], [], t)])
    case LockToSubscribe(t) => s.(pcs := s.pcs[t := SubLocked(s.pcs[t].ch)], writer := Some(t))
    case Insert(t) => s.(pcs := s.pcs[t := SubInserted(s.pcs[t].ch)], subs := s.subs + {s.pcs[t].ch})
    case UnlockSubscribed(t) => s.(pcs := s.pcs[t := Serving(s.pcs[t].ch)], writer := None)
    case Receive(t) =>
      var ch, c := s.pcs[t].ch, s.chans[s.pcs[t].ch];
      s.(chans := s.chans[ch := c.(received := c.received + [c.buf[0]], buf := c.buf[1..])])
    case LockToUnsubscribe(t) => s.(pcs := s.pcs[t := UnsubLocked(s.pcs[t].ch)], writer := Some(t))
    case Delete(t) => s.(pcs := s.pcs[t := UnsubDeleted(s.pcs[t].ch)], subs := s.subs - {s.pcs[t].ch})
    case UnlockUnsubscribed(t) => s.(pcs := s.pcs[t := Closing(s.pcs[t].ch)], writer := None)
    case Close(t) => s.(pcs := s.pcs[t := Gone(s.pcs[t].ch)], chans := s.chans[s.pcs[t].ch := s.chans[s.pcs[t].ch].(closed := true)])
    case RLock(t, b) =>
      s.(pcs := s.pcs[t := Sending(b, s.subs)], readers := s.readers + {t}, casts := s.casts[b := Cast(s.subs, s.over)])
    case Send(t, ch) =>
      s.(pcs := s.pcs[t := Sending(s.pcs[t].b, s.pcs[t].rest - {ch})], chans := s.chans[ch := Offered(s.chans[ch], s.pcs[t].b)])
    case RUnlock(t) => s.(pcs := s.pcs - {t}, readers := s.readers - {t}, over := s.over + {s.pcs[t].b})
  }

  // ---- invariants ----

  /** The lock is held by whoever stands inside it. */
  ghost predicate HoldsLock(s: State, t: Tid) {
    (s.writer == Some(t) <==> t in s.pcs && HoldsWrite(s.pcs[t])) && (t in s.readers <==> t in s.pcs && s.pcs[t].Sending?)
  }

  ghost predicate LockInv(s: State) {
    (forall t :: HoldsLock(s, t)) && (s.writer != None ==> s.readers == {})
  }

  /** A handler knows its channel. */
  ghost predicate OwnsChannel(s: State, t: Tid) {
    t in s.pcs && !s.pcs[t].Sending? ==> s.pcs[t].ch in s.chans && s.chans[s.pcs[t].ch].owner == t
  }

  /** A channel knows its handler; the map and `closed` follow where that stands. */
  ghost predicate FollowsHandler(s: State, ch: ChanId) {
    ch in s.chans ==>
      var t := s.chans[ch].owner;
      t in s.pcs && !s.pcs[t].Sending? && s.pcs[t].ch == ch &&
      (ch in s.subs <==> InMap(s.pcs[t])) && (s.chans[ch].closed <==> s.pcs[t].Gone?)
  }

  ghost predicate OwnerInv(s: State) {
    (forall t :: OwnsChannel(s, t)) && (forall ch :: FollowsHandler(s, ch)) && s.subs <= s.chans.Keys
  }

  /** A broadcaster still has only subscribers ahead of it, and its broadcast is not over. */
  ghost predicate SenderSound(s: State, t: Tid) {
    t in s.pcs && s.pcs[t].Sending? ==>
      s.pcs[t].b in s.casts && s.pcs[t].b !in s.over && s.pcs[t].rest <= s.casts[s.pcs[t].b].audience && s.pcs[t].rest <= s.subs
  }

  ghost predicate SendersDiffer(s: State, t: Tid, u: Tid) {
    t in s.pcs && u in s.pcs && s.pcs[t].Sending? && s.pcs[u].Sending? && t != u ==> s.pcs[t].b != s.pcs[u].b
  }

  ghost predicate CastSound(s: State, b: BroadcastId) {
    b in s.casts ==> s.casts[b].earlier <= s.over && b !in s.casts[b].earlier && s.casts[b].audience <= s.chans.Keys
  }

  ghost predicate SenderInv(s: State) {
    (forall t :: SenderSound(s, t)) && (forall t, u :: SendersDiffer(s, t, u)) && (forall b :: CastSound(s, b)) && s.over <= s.casts.Keys
  }

  ghost function Taken(offers: seq<Offer>): seq<BroadcastId> {
    if offers == [] then []
    else
      var last := offers[|offers| - 1];
      Taken(offers[..|offers| - 1]) + if last.fill < CAPACITY then [last.b] else []
  }

  /** What a channel took is what was received and what is buffered, in order; nothing was lost but to a full buffer. */
  ghost predicate BufferInv(c: Chan) {
    |c.buf| <= CAPACITY && c.received + c.buf == Taken(c.offers) && forall i :: 0 <= i < |c.offers| ==> c.offers[i].fill <= CAPACITY
  }

  ghost predicate IsOffered(c: Chan, b: BroadcastId) {
    exists i :: 0 <= i < |c.offers| && c.offers[i].b == b
  }

  /** Thread t has yet to offer broadcast b to channel ch. */
  ghost predicate PendingBy(s: State, b: BroadcastId, ch: ChanId, t: Tid) {
    t in s.pcs && s.pcs[t].Sending? && s.pcs[t].b == b && ch in s.pcs[t].rest
  }

  ghost predicate Pending(s: State, b: BroadcastId, ch: ChanId) {
    exists t :: PendingBy(s, b, ch, t)
  }

  /** Channel ch has been offered broadcast b exactly when that found it subscribed and is past it. */
  ghost predicate Reached(s: State, b: BroadcastId, ch: ChanId) {
    ch in s.chans && b in s.casts ==> (IsOffered(s.chans[ch], b) <==> ch in s.casts[b].audience && !Pending(s, b, ch))
  }

  /** The offers are of broadcasts that began, each once, and none was over before an earlier offer's broadcast began. */
  ghost predicate InOrder(casts: map<BroadcastId, Cast>, offers: seq<Offer>) {
    && (forall i :: 0 <= i < |offers| ==> offers[i].b in casts)
    && (forall i, j :: 0 <= i < j < |offers| ==> offers[i].b != offers[j].b && offers[j].b !in casts[offers[i].b].earlier)
  }

  ghost predicate ChannelInv(s: State, ch: ChanId) {
    ch in s.chans ==> BufferInv(s.chans[ch]) && InOrder(s.casts, s.chans[ch].offers)
  }

  ghost predicate Inv(s: State) {
    LockInv(s) && OwnerInv(s) && SenderInv(s) && (forall ch :: ChannelInv(s, ch)) && (forall b, ch :: Reached(s, b, ch))
  }

  // ---- every step keeps the invariant ----

  lemma KeepsLock(s: State, a: Action)
    requires LockInv(s) && Enabled(s, a)
    ensures LockInv(Step(s, a))
  {
    forall t
      ensures HoldsLock(Step(s, a), t)
    {
      assert HoldsLock(s, t) && HoldsLock(s, a.t);
    }
    assert HoldsLock(s, a.t);
  }

  lemma KeepsOwnsChannel(s: State, a: Action, t: Tid)
    requires OwnsChannel(s, t) && OwnsChannel(s, a.t) && Enabled(s, a)
    ensures OwnsChannel(Step(s, a), t)
  {
  }

  lemma KeepsFollowsHandler(s: State, a: Action, ch: ChanId)
    requires FollowsHandler(s, ch) && OwnsChannel(s, a.t) && Enabled(s, a)
    requires ch !in s.chans ==> ch !in s.subs
    ensures FollowsHandler(Step(s, a), ch)
  {
  }

  lemma KeepsOwner(s: State, a: Action)
    requires OwnerInv(s) && Enabled(s, a)
    ensures OwnerInv(Step(s, a))
  {
    forall t
      ensures OwnsChannel(Step(s, a), t)
    {
      KeepsOwnsChannel(s, a, t);
    }
    forall ch
      ensures FollowsHandler(Step(s, a), ch)
    {
      KeepsFollowsHandler(s, a, ch);
    }
    assert OwnsChannel(s, a.t);
  }

  lemma KeepsSenderSound(s: State, a: Action, t: Tid)
    requires LockInv(s) && SenderSound(s, t) && SendersDiffer(s, t, a.t) && s.over <= s.casts.Keys && Enabled(s, a)
    ensures SenderSound(Step(s, a), t)
  {
    assert HoldsLock(s, t) && HoldsLock(s, a.t);
  }

  lemma KeepsSendersDiffer(s: State, a: Action, t: Tid, u: Tid)
    requires SendersDiffer(s, t, u) && SenderSound(s, t) && SenderSound(s, u) && Enabled(s, a)
    ensures SendersDiffer(Step(s, a), t, u)
  {
  }

  lemma KeepsCastSound(s: State, a: Action, b: BroadcastId)
    requires CastSound(s, b) && s.subs <= s.chans.Keys && s.over <= s.casts.Keys && Enabled(s, a)
    ensures CastSound(Step(s, a), b)
  {
  }

  lemma KeepsSender(s: State, a: Action)
    requires LockInv(s) && OwnerInv(s) && SenderInv(s) && Enabled(s, a)
    ensures SenderInv(Step(s, a))
  {
    forall t
      ensures SenderSound(Step(s, a), t)
    {
      KeepsSenderSound(s, a, t);
    }
    forall t, u
      ensures SendersDiffer(Step(s, a), t, u)
    {
      KeepsSendersDiffer(s, a, t, u);
    }
    forall b
      ensures CastSound(Step(s, a), b)
    {
      KeepsCastSound(s, a, b);
    }
    assert SenderSound(s, a.t);
  }

  lemma KeepsBuffer(c: Chan, b: BroadcastId)
    requires BufferInv(c)
    ensures BufferInv(Offered(c, b))
  {
    var c' := Offered(c, b);
    assert c'.offers[..|c.offers|] == c.offers;
    assert c'.received + c'.buf == c.received + c.buf + if |c.buf| < CAPACITY then [b] else [];
  }

  lemma ReceivingKeepsBuffer(c: Chan)
    requires BufferInv(c) && c.buf != []
    ensures BufferInv(c.(received := c.received + [c.buf[0]], buf := c.buf[1..]))
  {
    assert c.received + [c.buf[0]] + c.buf[1..] == c.received + c.buf;
  }

  /** A broadcast under way is over for nobody, and has been offered to none it has still to reach. */
  lemma SendingKeepsOrder(s: State, t: Tid, ch: ChanId)
    requires SenderInv(s) && ChannelInv(s, ch) && Enabled(s, Send(t, ch)) && Reached(s, s.pcs[t].b, ch)
    ensures ChannelInv(Step(s, Send(t, ch)), ch)
  {
    var b, c := s.pcs[t].b, s.chans[ch];
    assert SenderSound(s, t) && PendingBy(s, b, ch, t);
    KeepsBuffer(c, b);
    forall i | 0 <= i < |c.offers|
      ensures c.offers[i].b != b && b !in s.casts[c.offers[i].b].earlier
    {
      assert CastSound(s, c.offers[i].b);
    }
  }

  lemma KeepsChannel(s: State, a: Action, ch: ChanId)
    requires SenderInv(s) && ChannelInv(s, ch) && Enabled(s, a)
    requires a.Send? ==> Reached(s, s.pcs[a.t].b, ch)
    ensures ChannelInv(Step(s, a), ch)
  {
    if a == Send(a.t, ch) {
      SendingKeepsOrder(s, a.t, ch);
    } else if a.Receive? && ch == s.pcs[a.t].ch {
      ReceivingKeepsBuffer(s.chans[ch]);
    } else {
      assert ch in s.chans ==> BufferInv(s.chans[ch]) && InOrder(s.casts, s.chans[ch].offers);
    }
  }

  lemma PendingUntouched(s: State, s': State, b: BroadcastId, ch: ChanId)
    requires forall t :: PendingBy(s, b, ch, t) <==> PendingBy(s', b, ch, t)
    ensures Pending(s, b, ch) <==> Pending(s', b, ch)
  {
    if Pending(s, b, ch) {
      var t: Tid :| PendingBy(s, b, ch, t);
      assert PendingBy(s', b, ch, t);
    }
    if Pending(s', b, ch) {
      var t: Tid :| PendingBy(s', b, ch, t);
      assert PendingBy(s, b, ch, t);
    }
  }

  /** A broadcast that begins is pending for every subscriber and has been offered to none. */
  lemma BeginningReaches(s: State, t: Tid, b: BroadcastId, ch: ChanId)
    requires Enabled(s, RLock(t, b)) && SenderInv(s) && ChannelInv(s, ch)
    ensures Reached(Step(s, RLock(t, b)), b, ch)
  {
    var s' := Step(s, RLock(t, b));
    if ch in s.subs {
      assert PendingBy(s', b, ch, t);
    }
    forall u
      ensures PendingBy(s', b, ch, u) ==> ch in s.subs
    {
      assert SenderSound(s, u);
    }
  }

  /** A send is the last word of its broadcast to that channel. */
  lemma SendingReaches(s: State, t: Tid, ch: ChanId)
    requires Enabled(s, Send(t, ch)) && SenderInv(s)
    ensures Reached(Step(s, Send(t, ch)), s.pcs[t].b, ch)
  {
    var b, c, s' := s.pcs[t].b, s.chans[ch], Step(s, Send(t, ch));
    assert SenderSound(s, t);
    assert s'.chans[ch].offers[|c.offers|].b == b;
    forall u
      ensures !PendingBy(s', b, ch, u)
    {
      assert SendersDiffer(s, t, u);
    }
  }

  lemma OfferedElsewhere(c: Chan, b: BroadcastId, other: BroadcastId)
    requires b != other
    ensures IsOffered(Offered(c, other), b) <==> IsOffered(c, b)
  {
    var c' := Offered(c, other);
    assert c'.offers[..|c.offers|] == c.offers;
    if IsOffered(c, b) {
      var i :| 0 <= i < |c.offers| && c.offers[i].b == b;
      assert c'.offers[i].b == b;
    }
  }

  /** Every other step leaves what is pending of b for ch as it was. */
  lemma KeepsPending(s: State, a: Action, b: BroadcastId, ch: ChanId)
    requires Enabled(s, a)
    requires !(a.RLock? && a.b == b) && !(a.Send? && a.ch == ch && s.pcs[a.t].b == b)
    ensures Pending(s, b, ch) <==> Pending(Step(s, a), b, ch)
  {
    var s' := Step(s, a);
    forall t
      ensures PendingBy(s, b, ch, t) <==> PendingBy(s', b, ch, t)
    {
    }
    PendingUntouched(s, s', b, ch);
  }

  lemma KeepsReached(s: State, a: Action, b: BroadcastId, ch: ChanId)
    requires SenderInv(s) && ChannelInv(s, ch) && Reached(s, b, ch) && Enabled(s, a)
    ensures Reached(Step(s, a), b, ch)
  {
    if a == RLock(a.t, b) {
      BeginningReaches(s, a.t, b, ch);
    } else if a == Send(a.t, ch) && s.pcs[a.t].b == b {
      SendingReaches(s, a.t, ch);
    } else {
      KeepsPending(s, a, b, ch);
      assert CastSound(s, b);
      if a == Send(a.t, ch) {
        OfferedElsewhere(s.chans[ch], b, s.pcs[a.t].b);
      } else if ch in s.chans {
        assert Step(s, a).chans[ch].offers == s.chans[ch].offers;
      }
    }
  }

  lemma StepKeepsInv(s: State, a: Action)
    requires Inv(s) && Enabled(s, a)
    ensures Inv(Step(s, a))
  {
    KeepsLock(s, a);
    KeepsOwner(s, a);
    KeepsSender(s, a);
    forall ch
      ensures ChannelInv(Step(s, a), ch)
    {
      assert a.Send? ==> Reached(s, s.pcs[a.t].b, ch);
      KeepsChannel(s, a, ch);
    }
    forall b, ch
      ensures Reached(Step(s, a), b, ch)
    {
      KeepsReached(s, a, b, ch);
    }
  }

  // ---- whole runs ----

  /** Every action is possible where it is taken. */
  ghost predicate Runs(s: State, run: seq<Action>)
    decreases |run|
  {
    run == [] || (Enabled(s, run[0]) && Runs(Step(s, run[0]), run[1..]))
  }

  ghost function After(s: State, run: seq<Action>): State
    requires Runs(s, run)
    decreases |run|
  {
    if run == [] then s else After(Step(s, run[0]), run[1..])
  }

  lemma {:induction false} RunKeepsInv(s: State, run: seq<Action>)
    requires Inv(s) && Runs(s, run)
    ensures Inv(After(s, run))
    decreases |run|
  {
    if run != [] {
      StepKeepsInv(s, run[0]);
      RunKeepsInv(Step(s, run[0]), run[1..]);
    }
  }

  /** No interleaving sends on a closed channel or closes one twice: either would panic. */
  lemma NeverPanics(run: seq<Action>, a: Action)
    requires Runs(START, run) && Enabled(After(START, run), a)
    ensures var s := After(START, run);
      && (a.Send? ==> !s.chans[a.ch].closed)
      && (a.Close? ==> !s.chans[s.pcs[a.t].ch].closed)
  {
    var s := After(START, run);
    RunKeepsInv(START, run);
    assert OwnsChannel(s, a.t) && SenderSound(s, a.t);
    if a.Send? {
      assert FollowsHandler(s, a.ch);
    } else if a.Close? {
      assert FollowsHandler(s, s.pcs[a.t].ch);
    }
  }

  /** Delivery: what a subscriber received and has buffered is, in order, what it was offered, less what
      met a full buffer; and a broadcast that is over was offered to exactly the subscribers it found. */
  lemma DeliversAllButOverflow(run: seq<Action>, ch: ChanId)
    requires Runs(START, run) && ch in After(START, run).chans
    ensures var s := After(START, run); var c := s.chans[ch];
      && |c.buf| <= CAPACITY
      && c.received + c.buf == Taken(c.offers)
      && (forall i :: 0 <= i < |c.offers| ==> c.offers[i].b in s.casts && c.offers[i].fill <= CAPACITY)
      && (forall i, j :: 0 <= i < j < |c.offers| ==> c.offers[i].b != c.offers[j].b)
      && (forall b :: b in s.over ==> b in s.casts && (IsOffered(c, b) <==> ch in s.casts[b].audience))
  {
    var s := After(START, run);
    RunKeepsInv(START, run);
    assert ChannelInv(s, ch);
    forall b | b in s.over
      ensures b in s.casts && (IsOffered(s.chans[ch], b) <==> ch in s.casts[b].audience)
    {
      assert Reached(s, b, ch);
      forall t
        ensures !PendingBy(s, b, ch, t)
      {
        assert SenderSound(s, t);
      }
    }
  }

  /** Order: a broadcast over before another began is never offered after it. */
  lemma KeepsBroadcastOrder(run: seq<Action>, ch: ChanId, i: nat, j: nat)
    requires Runs(START, run) && ch in After(START, run).chans
    requires i < |After(START, run).chans[ch].offers| && j < |After(START, run).chans[ch].offers|
    ensures var s := After(START, run); var c := s.chans[ch];
      && c.offers[i].b in s.casts
      && (c.offers[j].b in s.casts[c.offers[i].b].earlier ==> j < i)
  {
    var s := After(START, run);
    RunKeepsInv(START, run);
    assert ChannelInv(s, ch) && CastSound(s, s.chans[ch].offers[i].b);
  }

  /** Whoever holds the lock, or closes a channel, can always go on: no broadcast waits for a slow
      subscriber, and no handler for a broadcast it has locked out. */
  lemma HolderGoesOn(run: seq<Action>, t: Tid) returns (a: Action)
    requires Runs(START, run) && t in After(START, run).pcs
    requires var pc := After(START, run).pcs[t]; HoldsWrite(pc) || pc.Sending? || pc.Closing?
    ensures a.t == t && Enabled(After(START, run), a)
  {
    var s := After(START, run);
    RunKeepsInv(START, run);
    assert OwnsChannel(s, t) && SenderSound(s, t);
    match s.pcs[t]
    case SubLocked(_) => a := Insert(t);
    case SubInserted(_) => a := UnlockSubscribed(t);
    case UnsubLocked(_) => a := Delete(t);
    case UnsubDeleted(_) => a := UnlockUnsubscribed(t);
    case Closing(_) => a := Close(t);
    case Sending(_, rest) =>
      if rest == {} {
        a := RUnlock(t);
      } else {
        var ch :| ch in rest;
        a := Send(t, ch);
      }
  }

  lemma {:induction false} RunGoesOn(s: State, run: seq<Action>, a: Action)
    requires Runs(s, run) && Enabled(After(s, run), a)
    ensures Runs(s, run + [a]) && After(s, run + [a]) == Step(After(s, run), a)
    decreases |run|
  {
    if run == [] {
      assert (run + [a])[1..] == [];
    } else {
      RunGoesOn(Step(s, run[0]), run[1..], a);
      assert (run + [a])[1..] == run[1..] + [a];
    }
  }

  /** A subscriber joins: four steps of its handler. */
  lemma Joins(s: State, run: seq<Action>, t: Tid, ch: ChanId) returns (run': seq<Action>)
    requires Runs(s, run) && Enabled(After(s, run), Make(t, ch)) && After(s, run).writer == None && After(s, run).readers == {}
    ensures Runs(s, run')
    ensures var s0 := After(s, run);
      After(s, run') == s0.(pcs := s0.pcs[t := Serving(ch)], subs := s0.subs + {ch}, chans := s0.chans[ch := Chan([], false, [], [], t)])
  {
    RunGoesOn(s, run, Make(t, ch));
    var run1 := run + [Make(t, ch)];
    RunGoesOn(s, run1, LockToSubscribe(t));
    var run2 := run1 + [LockToSubscribe(t)];
    RunGoesOn(s, run2, Insert(t));
    var run3 := run2 + [Insert(t)];
    RunGoesOn(s, run3, UnlockSubscribed(t));
    run' := run3 + [UnlockSubscribed(t)];
    assert After(s, run').pcs == After(s, run).pcs[t := Serving(ch)];
  }

  /** Two subscribers, and two broadcasts under way at once: readers share the lock. */
  lemma TwoBroadcastsOverlap() returns (run: seq<Action>)
    ensures Runs(START, run)
    ensures After(START, run) ==
            State(None, {2, 3}, {0, 1}, map[0 := Chan([], false, [], [], 0), 1 := Chan([], false, [], [], 1)],
                  map[0 := Serving(0), 1 := Serving(1), 2 := Sending(0, {0, 1}), 3 := Sending(1, {0, 1})],
                  map[0 := Cast({0, 1}, {}), 1 := Cast({0, 1}, {})], {})
  {
    run := Joins(START, [], 0, 0);
    run := Joins(START, run, 1, 1);
    var joined := After(START, run);
    assert joined.subs == {0, 1};
    assert joined.pcs == map[0 := Serving(0), 1 := Serving(1)];
    RunGoesOn(START, run, RLock(2, 0));
    run := run + [RLock(2, 0)];
    var first := After(START, run);
    assert first.pcs == map[0 := Serving(0), 1 := Serving(1), 2 := Sending(0, {0, 1})];
    assert first.casts == map[0 := Cast({0, 1}, {})];
    RunGoesOn(START, run, RLock(3, 1));
    run := run + [RLock(3, 1)];
  }

  /** Broadcasts that overlap may reach two subscribers in opposite orders. */
  lemma OverlappingBroadcastsMayCross() returns (run: seq<Action>)
    ensures Runs(START, run) && {0, 1} <= After(START, run).chans.Keys
    ensures var s := After(START, run);
      s.chans[0].received + s.chans[0].buf == [0, 1] && s.chans[1].received + s.chans[1].buf == [1, 0]
  {
    run := TwoBroadcastsOverlap();
    RunGoesOn(START, run, Send(2, 0));
    run := run + [Send(2, 0)];
    RunGoesOn(START, run, Send(3, 0));
    run := run + [Send(3, 0)];
    RunGoesOn(START, run, Send(3, 1));
    run := run + [Send(3, 1)];
    RunGoesOn(START, run, Send(2, 1));
    run := run + [Send(2, 1)];
  }
}
