/** The tiered response engine. Each mutex-protected method is one atomic step; what the operating
    system answers comes in as a parameter, and `trace` records every signal and deny issued. */
module ResponseEngine {
  import opened Conformal
  import opened DenyProtocol
  import opened EdgeLists
  import opened Forest
  import NodeIds
  import opened Ordering
  import opened Provenance
  import opened Trust
  import opened Verdicts
  import opened Wrappers

  datatype Mode = Observe | Pause | Enforce

  datatype Decision = Decision(
    timestamp: int, pid: nat, comm: string, tier: Tier, trust: real, pValue: real, action: Action,
    status: Status, technique: string, techniqueID: string, verified: Option<bool>,
    causalSummary: Option<(nat, nat)>)

  datatype LogEntry = LogEntry(action: string, pid: nat, comm: string, origin: string, ok: bool)

  /** The answers to whatever one call of Respond may ask of the operating system and of CRIU;
      verify is None when the checkpoint-and-replay itself fails. */
  datatype World = World(stopOk: bool, verify: Option<bool>, mapFault: bool, kill: KillOutcome)

  /** A signal or deny, with the state it was issued in. */
  datatype Effect =
    | Stop(pid: nat, ok: bool, automated: bool, mode: Mode, trusted: bool)
    | Cont(pid: nat, ok: bool)
    | Terminate(pid: nat, ok: bool)
    | Deny(pid: nat, how: Route, mode: Mode, trusted: bool, tier: Tier, confirmed: bool)

  ghost predicate SafeEffect(e: Effect) {
    match e
    case Stop(pid, _, automated, mode, trusted) => pid > 10 && (automated ==> mode == Pause && pid > 100 && !trusted)
    case Cont(_, _) => true
    case Terminate(pid, _) => pid > 10
    case Deny(pid, _, mode, trusted, tier, confirmed) =>
      mode == Enforce && pid > 100 && !trusted && (tier == High || (tier == Medium && confirmed))
  }

  ghost predicate Safe(trace: seq<Effect>) {
    forall i :: 0 <= i < |trace| ==> SafeEffect(trace[i])
  }

  /** What a trace comes to: who is stopped, and which denies went into the map and which took SIGKILL. */
  datatype Books = Books(stopped: set<nat>, puts: multiset<nat>, killed: multiset<nat>)

  ghost function Note(b: Books, e: Effect): Books {
    match e
    case Stop(pid, ok, _, _, _) => if ok then b.(stopped := b.stopped + {pid}) else b
    case Cont(pid, ok) => if ok then b.(stopped := b.stopped - {pid}) else b
    case Terminate(_, _) => b
    case Deny(pid, how, _, _, _, _) =>
      match how
      case ByMap => b.(puts := b.puts + multiset{pid})
      case BySignal => b.(killed := b.killed + multiset{pid})
      case NoWay => b
  }

  ghost function Replay(trace: seq<Effect>): Books {
    if trace == [] then Books({}, multiset{}, multiset{})
    else Note(Replay(trace[..|trace| - 1]), trace[|trace| - 1])
  }

  /** Whether the last SIGSTOP or SIGCONT that reached pid was a SIGSTOP. */
  ghost predicate LastStopped(trace: seq<Effect>, pid: nat) {
    if trace == [] then false
    else
      match trace[|trace| - 1]
      case Stop(q, ok, _, _, _) => if q == pid && ok then true else LastStopped(trace[..|trace| - 1], pid)
      case Cont(q, ok) => if q == pid && ok then false else LastStopped(trace[..|trace| - 1], pid)
      case _ => LastStopped(trace[..|trace| - 1], pid)
  }

  lemma {:induction false} StoppedIffLastStopped(trace: seq<Effect>, pid: nat)
    ensures pid in Replay(trace).stopped <==> LastStopped(trace, pid)
  {
    if trace != [] {
      StoppedIffLastStopped(trace[..|trace| - 1], pid);
    }
  }

  lemma {:induction false} StoppedIsAbove10(trace: seq<Effect>, pid: nat)
    requires Safe(trace) && LastStopped(trace, pid)
    ensures pid > 10
  {
    var e := trace[|trace| - 1];
    assert SafeEffect(e);
    if !(e.Stop? && e.pid == pid && e.ok) {
      StoppedIsAbove10(trace[..|trace| - 1], pid);
    }
  }

  /** The state that a decision reads and writes: who is stopped, what was issued, and the deny map. */
  datatype Ledger = Ledger(paused: map<nat, string>, trace: seq<Effect>, pending: map<nat, nat>)

  /** Everything issued was safe, and the engine's list of stopped PIDs and the loader's accounts are what
      it comes to. */
  ghost predicate Kept(l: Ledger, puts: multiset<nat>, killed: multiset<nat>) {
    Safe(l.trace) && Books(l.paused.Keys, puts, killed) == Replay(l.trace)
  }

  /** The ledger once e is issued, to a process named comm. */
  ghost function Advance(l: Ledger, e: Effect, comm: string): Ledger {
    Ledger(if e.Stop? && e.ok then l.paused[e.pid := comm] else if e.Cont? && e.ok then l.paused - {e.pid} else l.paused,
           l.trace + [e], if e.Deny? && e.how == ByMap then l.pending[e.pid := 1] else l.pending)
  }

  lemma ReplayGrows(trace: seq<Effect>, e: Effect)
    ensures Replay(trace + [e]) == Note(Replay(trace), e)
  {
    assert (trace + [e])[..|trace|] == trace;
  }

  lemma TraceGrows(trace: seq<Effect>, e: Effect)
    requires Safe(trace) && SafeEffect(e)
    ensures Safe(trace + [e]) && Replay(trace + [e]) == Note(Replay(trace), e)
  {
    ReplayGrows(trace, e);
  }

  ghost function Counted(pids: multiset<nat>, e: Effect, how: Route): multiset<nat> {
    if e.Deny? && e.how == how then pids + multiset{e.pid} else pids
  }

  lemma NoteCounts(b: Books, e: Effect)
    ensures Note(b, e).puts == Counted(b.puts, e, ByMap) && Note(b, e).killed == Counted(b.killed, e, BySignal)
  {
  }

  lemma LedgerGrows(l: Ledger, e: Effect, comm: string, puts: multiset<nat>, killed: multiset<nat>)
    requires Kept(l, puts, killed) && SafeEffect(e)
    ensures Kept(Advance(l, e, comm), Counted(puts, e, ByMap), Counted(killed, e, BySignal))
  {
    TraceGrows(l.trace, e);
    NoteCounts(Replay(l.trace), e);
    assert Advance(l, e, comm).paused.Keys == Note(Replay(l.trace), e).stopped;
  }

  function ScoredStatus(p: real): (s: Status)
    ensures s == Suspicious <==> TierOf(p) != Low
  {
    if p <= 0.15 then Suspicious else Unknown
  }

  /** What a decision meets in the engine: the mode, whether CRIU can verify, the way a deny would take,
      and the ledger. */
  datatype View = View(mode: Mode, canVerify: bool, how: Route, ledger: Ledger)

  /** The decision at hand, once scored. */
  datatype Subject = Subject(pid: nat, comm: string, tier: Tier, status: Status)

  /** What the mode adds to a scored decision, and what is left behind. */
  datatype Outcome = Outcome(after: Ledger, action: Action, status: Status, verified: Option<bool>)

  /** Observe mode: the tier is named and nothing is done. */
  ghost function Observed(l: Ledger, u: Subject): Outcome {
    Outcome(l, match u.tier case Low => ObserveLog case Medium => ObserveAlert case High => ObserveCritical, u.status, None)
  }

  /** Pause mode: SIGSTOP for Medium and High, unless the process is stopped already. */
  ghost function Stopped(l: Ledger, u: Subject, stopOk: bool): Outcome {
    if u.tier == Low then Outcome(l, PauseLog, u.status, None)
    else if u.pid in l.paused then Outcome(l, AlreadyPaused, Paused, None)
    else
      Outcome(Advance(l, Stop(u.pid, stopOk, true, Pause, false), u.comm), if stopOk then PausedSigstop else PauseFailedLog,
              if stopOk then Paused else u.status, None)
  }

  predicate Confirmed(tier: Tier, canVerify: bool, verify: Option<bool>) {
    tier == Medium && canVerify && verify == Some(true)
  }

  /** Enforce mode: deny at High, and at Medium only once CRIU has confirmed. The action says "kill"
      exactly when the deny went through, "verified_kill" whether or not it did. */
  ghost function Enforced(b: View, u: Subject, verify: Option<bool>): Outcome {
    var l := b.ledger;
    if u.tier == High then
      Outcome(Advance(l, Deny(u.pid, b.how, Enforce, false, High, false), u.comm),
              if b.how != NoWay then Kill else KillFailed, u.status, None)
    else if Confirmed(u.tier, b.canVerify, verify) then
      Outcome(Advance(l, Deny(u.pid, b.how, Enforce, false, Medium, true), u.comm), VerifiedKill, u.status, Some(true))
    else if u.tier == Low then Outcome(l, LogOnly, u.status, None)
    else if !b.canVerify then Outcome(l, LogElevated, u.status, None)
    else Outcome(l, if verify == None then CriuVerifyFailedLog else VerifiedBenign, u.status, verify)
  }

  /** The whole decision table for a process that is not trusted. */
  ghost function Settled(b: View, u: Subject, world: World): Outcome {
    match b.mode
    case Observe => Observed(b.ledger, u)
    case Pause => Stopped(b.ledger, u, world.stopOk)
    case Enforce => Enforced(b, u, world.verify)
  }

  /** What a response changes, but for the loader's accounts. */
  datatype Snapshot = Snapshot(ledger: Ledger, trusts: map<nat, real>, decisions: seq<Decision>)

  function Settle(d: Decision, o: Outcome): Decision {
    d.(action := o.action, status := o.status, verified := o.verified)
  }

  /** A scored decision settled by the table, and the ledger it leaves. */
  ghost function Answered(b: View, world: World, scored: Decision): (Decision, Ledger) {
    var o := Settled(b, Subject(scored.pid, scored.comm, scored.tier, scored.status), world);
    (Settle(scored, o), o.after)
  }

  /** The decisions that issue a deny. */
  predicate Denies(mode: Mode, tier: Tier, canVerify: bool, verify: Option<bool>) {
    mode == Enforce && (tier == High || Confirmed(tier, canVerify, verify))
  }

  /** The decision issues a deny, and it goes the given way: a guard that can be checked before. */
  ghost predicate DeniesBy(b: View, u: Subject, world: World, how: Route) {
    Denies(b.mode, u.tier, b.canVerify, world.verify) && b.how == how
  }

  /** A confirmed deny that went no way: the action says kill and nothing was done. */
  ghost predicate ConfirmedInVain(b: View, u: Subject, world: World) {
    b.mode == Enforce && Confirmed(u.tier, b.canVerify, world.verify) && b.how == NoWay
  }

  /** One thing was done between the two, a deny of pid that went the given way. */
  ghost predicate WasDenied(before: Ledger, after: Ledger, pid: nat, how: Route) {
    |after.trace| == |before.trace| + 1 && after.trace[|before.trace|].Deny? && after.trace[|before.trace|].how == how &&
    after.trace[|before.trace|].pid == pid
  }

  /** The one effect a decision has, if any. */
  ghost function EffectOf(b: View, u: Subject, world: World): Option<Effect> {
    match b.mode
    case Observe => None
    case Pause => if u.tier == Low || u.pid in b.ledger.paused then None else Some(Stop(u.pid, world.stopOk, true, Pause, false))
    case Enforce =>
      if u.tier == High then Some(Deny(u.pid, b.how, Enforce, false, High, false))
      else if Confirmed(u.tier, b.canVerify, world.verify) then Some(Deny(u.pid, b.how, Enforce, false, Medium, true))
      else None
  }

  lemma OneEffect(b: View, u: Subject, world: World)
    ensures var o := Settled(b, u, world);
            match EffectOf(b, u, world)
            case None => o.after == b.ledger
            case Some(e) => o.after == Advance(b.ledger, e, u.comm)
  {
  }

  lemma EffectIs(b: View, u: Subject, world: World, how: Route)
    ensures match EffectOf(b, u, world)
            case None => !DeniesBy(b, u, world, how)
            case Some(e) => e.pid == u.pid && (e.Deny? && e.how == how <==> DeniesBy(b, u, world, how))
  {
  }

  /** The PIDs denied the given way, once the decision is made. */
  ghost function CountedIf(pids: multiset<nat>, b: View, u: Subject, world: World, how: Route): multiset<nat> {
    if DeniesBy(b, u, world, how) then pids + multiset{u.pid} else pids
  }

  /** The table keeps every engine invariant: whatever the mode and the world answer, a decision about an
      untrusted PID above 100 does at most one thing, and that is safe and kept account of. */
  lemma TableIsSafe(b: View, u: Subject, world: World, puts: multiset<nat>, killed: multiset<nat>)
    requires Kept(b.ledger, puts, killed) && u.pid > 100
    ensures var o := Settled(b, u, world);
            && Kept(o.after, CountedIf(puts, b, u, world, ByMap), CountedIf(killed, b, u, world, BySignal))
            && b.ledger.trace <= o.after.trace && |o.after.trace| <= |b.ledger.trace| + 1
            && o.action != ProtectedLogOnly
  {
    OneEffect(b, u, world);
    EffectIs(b, u, world, ByMap);
    EffectIs(b, u, world, BySignal);
    match EffectOf(b, u, world)
    case None =>
    case Some(e) =>
      EffectIsSafe(b, u, world, e);
      LedgerGrows(b.ledger, e, u.comm, puts, killed);
  }

  lemma EffectIsSafe(b: View, u: Subject, world: World, e: Effect)
    requires EffectOf(b, u, world) == Some(e) && u.pid > 100
    ensures SafeEffect(e)
  {
  }

  /** A decision leaves a deny that went the given way exactly where its guard says. */
  lemma DeniedIff(b: View, u: Subject, world: World, how: Route)
    ensures WasDenied(b.ledger, Settled(b, u, world).after, u.pid, how) <==> DeniesBy(b, u, world, how)
  {
    OneEffect(b, u, world);
  }

  /** A decision claims a kill exactly when a deny took the map, took SIGKILL, or was a confirmed one that
      went no way. */
  lemma KillClaimedIff(b: View, u: Subject, world: World)
    ensures var o := Settled(b, u, world);
            Kills(o.action) <==>
              DeniesBy(b, u, world, ByMap) || DeniesBy(b, u, world, BySignal) || ConfirmedInVain(b, u, world)
  {
  }

  /** One thing was done between the two, a SIGSTOP to pid. */
  ghost predicate WasStopped(before: Ledger, after: Ledger, pid: nat) {
    |after.trace| == |before.trace| + 1 && after.trace[|before.trace|].Stop? && after.trace[|before.trace|].pid == pid
  }

  /** A decision leaves a SIGSTOP exactly in pause mode, for a p-value of at most 0.15, to a process that is
      not stopped already. */
  lemma StoppedIff(b: View, u: Subject, world: World, p: real)
    requires u.tier == TierOf(p)
    ensures WasStopped(b.ledger, Settled(b, u, world).after, u.pid) <==> b.mode == Pause && p <= 0.15 && u.pid !in b.ledger.paused
  {
    OneEffect(b, u, world);
  }

  /** So the loader's accounts tell which way a decision took. */
  lemma AccountsTell(b: View, u: Subject, world: World, puts: multiset<nat>, killed: multiset<nat>, puts': multiset<nat>,
                     killed': multiset<nat>)
    requires Kept(b.ledger, puts, killed) && Kept(Settled(b, u, world).after, puts', killed')
    ensures puts' == CountedIf(puts, b, u, world, ByMap) && killed' == CountedIf(killed, b, u, world, BySignal)
    ensures Settled(b, u, world).after.pending ==
            if DeniesBy(b, u, world, ByMap) then b.ledger.pending[u.pid := 1] else b.ledger.pending
  {
    OneEffect(b, u, world);
    EffectIs(b, u, world, ByMap);
    EffectIs(b, u, world, BySignal);
    match EffectOf(b, u, world)
    case None =>
    case Some(e) =>
      ReplayGrows(b.ledger.trace, e);
      NoteCounts(Replay(b.ledger.trace), e);
  }

  // ---- scoring ----

  ghost function ReachedFrom(edges: seq<Edge>, root: string): set<string> {
    set x | x in {root} + (set e | e in edges :: e.to) && Reachable(edges, root, x)
  }

  ghost function LeavingFrom(edges: seq<Edge>, root: string): set<Edge> {
    set e | e in edges && Reachable(edges, root, e.from)
  }

  /** The size of the causal subgraph below a process; none when it has no node. */
  ghost function SummaryOf(ids: set<string>, edges: seq<Edge>, pid: nat): Option<(nat, nat)> {
    var root := NodeIds.ProcId(pid);
    if root in ids then Some((|ReachedFrom(edges, root)|, |LeavingFrom(edges, root)|)) else None
  }

  /** What scoring settles about a decision; the mode then settles action, status and verified. */
  function Scored(
      now: int, pid: nat, comm: string, p: real, techniqueID: string, techniqueName: string, severity: real,
      parentTrust: real, summary: Option<(nat, nat)>): Decision
  {
    Decision(now, pid, comm, TierOf(p), ComputeTrust(p, parentTrust, severity), p, TrustedAllow, ScoredStatus(p),
             techniqueName, techniqueID, None, summary)
  }

  function Allowed(now: int, pid: nat, comm: string): Decision {
    Decision(now, pid, comm, Low, 100.0, 0.0, TrustedAllow, Known, "", "", None, None)
  }

  /** Full trust for one process, the same for every other. */
  function Raised(trusts: map<nat, real>, pid: nat): map<nat, real> {
    if pid in trusts then trusts[pid := 100.0] else trusts
  }

  /** The process got the trust and what is below it the decayed trust; nothing else changed. */
  ghost predicate Rescored(par: Links, pid: nat, trust: real, before: map<nat, real>, after: map<nat, real>) {
    if pid in before then Propagated(par, pid, trust, before[pid := trust], after) else after == before
  }

  /** Nothing was sent, the process got full trust and no other changed, and the decision is on record. */
  ghost predicate LetThrough(pid: nat, before: Snapshot, after: Snapshot, d: Decision) {
    after == Snapshot(before.ledger, Raised(before.trusts, pid), before.decisions + [d])
  }

  /** The decision is the scored one settled by the table, which also gives the ledger; the trust went down
      the tree; and the decision is on record. */
  ghost predicate Responded(
      b: View, world: World, scored: Decision, par: Links, before: Snapshot, after: Snapshot, d: Decision) {
    && (d, after.ledger) == Answered(b, world, scored)
    && Rescored(par, scored.pid, scored.trust, before.trusts, after.trusts)
    && after.decisions == before.decisions + [d]
  }

  /** Whom the engine trusts. */
  datatype Whitelist = Whitelist(known: string -> bool, comms: set<string>, pids: set<nat>)
  {
    predicate Holds(comm: string, pid: nat) {
      pid in pids || comm in comms || known(comm) || pid <= 100
    }

    function With(comm: string, pid: nat): Whitelist {
      this.(comms := comms + (if comm != "" then {comm} else {}), pids := pids + (if pid > 0 then {pid} else {}))
    }
  }

  /** Trusting a name and a PID trusts just these besides: an empty name and PID 0 stand for none. */
  lemma WithIff(w: Whitelist, name: string, id: nat, comm: string, pid: nat)
    ensures w.With(name, id).Holds(comm, pid) <==> w.Holds(comm, pid) || (comm == name && name != "") || (pid == id && id > 0)
    ensures Whitelist(w.known, {}, {}).Holds(comm, pid) <==> w.known(comm) || pid <= 100
  {
  }

  /** When each action is taken on a process that is not trusted: said by the mode, the p-value against the
      two thresholds, and what the outside answered. */
  ghost predicate ActionPromised(
      action: Action, mode: Mode, p: real, paused: bool, stopOk: bool, canVerify: bool, verify: Option<bool>, denied: bool) {
    var calm, odd, wild := p > 0.15, 0.05 < p <= 0.15, p <= 0.05;
    && (action == ObserveLog <==> mode == Observe && calm)
    && (action == ObserveAlert <==> mode == Observe && odd)
    && (action == ObserveCritical <==> mode == Observe && wild)
    && (action == PauseLog <==> mode == Pause && calm)
    && (action == AlreadyPaused <==> mode == Pause && !calm && paused)
    && (action == PausedSigstop <==> mode == Pause && !calm && !paused && stopOk)
    && (action == PauseFailedLog <==> mode == Pause && !calm && !paused && !stopOk)
    && (action == LogOnly <==> mode == Enforce && calm)
    && (action == LogElevated <==> mode == Enforce && odd && !canVerify)
    && (action == CriuVerifyFailedLog <==> mode == Enforce && odd && canVerify && verify == None)
    && (action == VerifiedBenign <==> mode == Enforce && odd && canVerify && verify == Some(false))
    && (action == VerifiedKill <==> mode == Enforce && odd && canVerify && verify == Some(true))
    && (action == Kill <==> mode == Enforce && wild && denied)
    && (action == KillFailed <==> mode == Enforce && wild && !denied)
  }

  /** The tier, the status and the verification of the decision, said likewise. */
  ghost predicate VerdictPromised(
      d: Decision, mode: Mode, p: real, paused: bool, stopOk: bool, canVerify: bool, verify: Option<bool>) {
    && (d.tier == High <==> p <= 0.05) && (d.tier == Low <==> p > 0.15)
    && (d.status == Paused <==> mode == Pause && p <= 0.15 && (paused || stopOk))
    && (d.status == Suspicious <==> p <= 0.15 && d.status != Paused)
    && (d.status == Unknown <==> p > 0.15)
    && d.verified == (if mode == Enforce && 0.05 < p <= 0.15 && canVerify then verify else None)
  }

  ghost predicate AsPromised(d: Decision, pid: nat, p: real, b: View, world: World) {
    && d.pid == pid && d.pValue == p
    && ActionPromised(d.action, b.mode, p, pid in b.ledger.paused, world.stopOk, b.canVerify, world.verify, b.how != NoWay)
    && VerdictPromised(d, b.mode, p, pid in b.ledger.paused, world.stopOk, b.canVerify, world.verify)
  }

  lemma ObservedAsPromised(b: View, world: World, scored: Decision, p: real)
    requires scored.tier == TierOf(p) && scored.status == ScoredStatus(p) && scored.pValue == p && b.mode == Observe
    ensures AsPromised(Answered(b, world, scored).0, scored.pid, p, b, world)
  {
  }

  lemma PausedAsPromised(b: View, world: World, scored: Decision, p: real)
    requires scored.tier == TierOf(p) && scored.status == ScoredStatus(p) && scored.pValue == p && b.mode == Pause
    ensures AsPromised(Answered(b, world, scored).0, scored.pid, p, b, world)
  {
  }

  lemma EnforcedAsPromised(b: View, world: World, scored: Decision, p: real)
    requires scored.tier == TierOf(p) && scored.status == ScoredStatus(p) && scored.pValue == p && b.mode == Enforce
    ensures AsPromised(Answered(b, world, scored).0, scored.pid, p, b, world)
  {
    match world.verify
    case None =>
    case Some(v) => assert if v then world.verify == Some(true) else world.verify == Some(false);
  }

  lemma AnsweredAsPromised(b: View, world: World, scored: Decision, p: real)
    requires scored.tier == TierOf(p) && scored.status == ScoredStatus(p) && scored.pValue == p
    ensures AsPromised(Answered(b, world, scored).0, scored.pid, p, b, world)
  {
    match b.mode
    case Observe => ObservedAsPromised(b, world, scored, p);
    case Pause => PausedAsPromised(b, world, scored, p);
    case Enforce => EnforcedAsPromised(b, world, scored, p);
  }

  predicate IsSuspect(d: Decision, threshold: real, pid: nat) {
    d.pid == pid && d.trust < threshold && d.status != Known
  }

  /** The newest suspect decision about pid, the first recorded of several that bear the same time. */
  ghost predicate LatestSuspect(list: seq<Decision>, threshold: real, pid: nat, i: nat) {
    && i < |list| && IsSuspect(list[i], threshold, pid)
    && forall j :: 0 <= j < |list| && IsSuspect(list[j], threshold, pid) ==>
         list[j].timestamp < list[i].timestamp || (list[j].timestamp == list[i].timestamp && i <= j)
  }

  ghost predicate HoldsLatest(list: seq<Decision>, threshold: real, latest: map<nat, Decision>, pid: nat) {
    if pid in latest then exists i: nat :: LatestSuspect(list, threshold, pid, i) && list[i] == latest[pid]
    else forall j :: 0 <= j < |list| ==> !IsSuspect(list[j], threshold, pid)
  }

  lemma NextDecision(list: seq<Decision>, d: Decision, threshold: real, latest: map<nat, Decision>, pid: nat)
    requires HoldsLatest(list, threshold, latest, pid)
    ensures var take := d.trust < threshold && d.status != Known &&
                        (d.pid !in latest || d.timestamp > latest[d.pid].timestamp);
            HoldsLatest(list + [d], threshold, if take then latest[d.pid := d] else latest, pid)
  {
    var grown := list + [d];
    if pid in latest {
      var i: nat :| LatestSuspect(list, threshold, pid, i) && list[i] == latest[pid];
      if IsSuspect(d, threshold, pid) && d.timestamp > latest[pid].timestamp {
        assert LatestSuspect(grown, threshold, pid, |list|) && grown[|list|] == d;
      } else {
        assert LatestSuspect(grown, threshold, pid, i) && grown[i] == latest[pid];
      }
    } else if IsSuspect(d, threshold, pid) {
      assert LatestSuspect(grown, threshold, pid, |list|) && grown[|list|] == d;
    }
  }

  function Newest(log: seq<LogEntry>): seq<LogEntry> {
    if |log| > 200 then log[..200] else log
  }

  class Engine {
    const cg: CausalGraph
    const scorer: TrustScorer
    const loader: DenyPath
    const known: string -> bool
    var decisions: seq<Decision>
    var actionLog: seq<LogEntry>
    var criuEnabled: bool
    var verifyInstalled: bool
    var mode: Mode
    var customTrustedComms: set<string>
    var customTrustedPIDs: set<nat>
    var pausedPIDs: map<nat, string>
    ghost var trace: seq<Effect>

    ghost predicate Valid()
      reads this, loader
    {
      && scorer.graph == cg && loader.Valid()
      && Kept(Now(), loader.puts, loader.killed)
      && |actionLog| <= 200
    }

    function Trusting(): Whitelist
      reads this
    {
      Whitelist(known, customTrustedComms, customTrustedPIDs)
    }

    predicate Trusts(comm: string, pid: nat)
      reads this
    {
      Trusting().Holds(comm, pid)
    }

    constructor (g: CausalGraph, l: DenyPath, isKnown: string -> bool)
      requires l.Valid() && l.puts == multiset{} && l.killed == multiset{}
      ensures Valid() && cg == g && loader == l && known == isKnown && mode == Observe && trace == [] && decisions == []
      ensures Trusting() == Whitelist(isKnown, {}, {})
    {
      cg, loader, known := g, l, isKnown;
      scorer := new TrustScorer(g);
      decisions, actionLog, criuEnabled, verifyInstalled, mode := [], [], false, false, Observe;
      customTrustedComms, customTrustedPIDs, pausedPIDs, trace := {}, {}, map[], [];
    }

    method SetMode(m: Mode)
      requires Valid()
      modifies this`mode
      ensures Valid() && mode == m
    {
      mode := m;
    }

    method PauseProcess(pid: nat, comm: string, stopOk: bool, ghost automated: bool) returns (ok: bool)
      requires Valid() && (automated ==> mode == Pause && !Trusts(comm, pid))
      modifies this`pausedPIDs, this`trace
      ensures Valid() && ok == (pid > 10 && stopOk)
      ensures Now() == if pid <= 10 then old(Now())
                       else Advance(old(Now()), Stop(pid, stopOk, automated, mode, Trusts(comm, pid)), comm)
    {
      if pid <= 10 {
        return false;
      }
      ghost var e := Stop(pid, stopOk, automated, mode, Trusts(comm, pid));
      LedgerGrows(Now(), e, comm, loader.puts, loader.killed);
      trace := trace + [e];
      if !stopOk {
        return false;
      }
      pausedPIDs := pausedPIDs[pid := comm];
      return true;
    }

    method ResumeProcess(pid: nat, contOk: bool) returns (ok: bool)
      requires Valid()
      modifies this`pausedPIDs, this`trace
      ensures Valid() && ok == contOk && Now() == Advance(old(Now()), Cont(pid, contOk), "")
    {
      ghost var e := Cont(pid, contOk);
      LedgerGrows(Now(), e, "", loader.puts, loader.killed);
      trace := trace + [e];
      if contOk {
        pausedPIDs := pausedPIDs - {pid};
      }
      return contOk;
    }

    method KillProcess(pid: nat, comm: string, killOk: bool) returns (ok: bool)
      requires Valid()
      modifies this`actionLog, this`trace
      ensures Valid() && ok == (pid > 10 && killOk)
      ensures Now() == if pid <= 10 then old(Now()) else Advance(old(Now()), Terminate(pid, killOk), comm)
      ensures actionLog ==
              if pid <= 10 then old(actionLog) else Newest([LogEntry("kill", pid, comm, "user", killOk)] + old(actionLog))
    {
      if pid <= 10 {
        return false;
      }
      ghost var e := Terminate(pid, killOk);
      LedgerGrows(Now(), e, comm, loader.puts, loader.killed);
      trace := trace + [e];
      AppendActionLog(LogEntry("kill", pid, comm, "user", killOk));
      return killOk;
    }

    /** Newest first, at most 200. */
    method AppendActionLog(entry: LogEntry)
      requires Valid()
      modifies this`actionLog
      ensures Valid() && actionLog == Newest([entry] + old(actionLog))
    {
      actionLog := [entry] + actionLog;
      if |actionLog| > 200 {
        actionLog := actionLog[..200];
      }
    }

    method TrustProcess(comm: string, pid: nat)
      requires Valid() && cg.Valid() && cg.TrustInRange()
      modifies this`customTrustedComms, this`customTrustedPIDs, cg.pidNode.Values
      ensures Valid() && cg.TrustInRange()
      ensures Trusting() == old(Trusting()).With(comm, pid)
      ensures cg.ProcessTrust() == if pid > 0 then Raised(old(cg.ProcessTrust()), pid) else old(cg.ProcessTrust())
    {
      NoteTrusted(comm, pid);
      assert cg.ProcessTrust() == old(cg.ProcessTrust());
      RaiseTrust(pid);
    }

    method RaiseTrust(pid: nat)
      requires cg.Valid() && cg.TrustInRange()
      modifies cg.pidNode.Values
      ensures cg.TrustInRange()
      ensures cg.ProcessTrust() == if pid > 0 then Raised(old(cg.ProcessTrust()), pid) else old(cg.ProcessTrust())
    {
      if pid > 0 {
        cg.SetProcessTrust(pid, 100.0);
      }
    }

    /** The part of it done under the lock. */
    method NoteTrusted(comm: string, pid: nat)
      modifies this`customTrustedComms, this`customTrustedPIDs
      ensures customTrustedComms == old(customTrustedComms) + (if comm != "" then {comm} else {})
      ensures customTrustedPIDs == old(customTrustedPIDs) + (if pid > 0 then {pid} else {})
    {
      if comm != "" {
        customTrustedComms := customTrustedComms + {comm};
      }
      if pid > 0 {
        customTrustedPIDs := customTrustedPIDs + {pid};
      }
    }

    /** One decision per process that was ever below the threshold: its newest such. */
    method GetSuspiciousBelow(threshold: real) returns (latest: map<nat, Decision>)
      ensures forall pid :: HoldsLatest(decisions, threshold, latest, pid)
    {
      latest := map[];
      for i := 0 to |decisions|
        invariant forall pid :: HoldsLatest(decisions[..i], threshold, latest, pid)
      {
        var d := decisions[i];
        ghost var before := latest;
        if d.trust < threshold && d.status != Known {
          if d.pid !in latest || d.timestamp > latest[d.pid].timestamp {
            latest := latest[d.pid := d];
          }
        }
        ghost var grown := decisions[..i] + [d];
        assert decisions[..i + 1] == grown;
        forall pid
          ensures HoldsLatest(grown, threshold, latest, pid)
        {
          NextDecision(decisions[..i], d, threshold, before, pid);
        }
      }
      assert decisions[..|decisions|] == decisions;
    }

    ghost function Now(): Ledger
      reads this, loader
    {
      Ledger(pausedPIDs, trace, loader.denyMap)
    }

    function ClassifyProcess(comm: string, p: real): Status {
      if known(comm) then Known else ScoredStatus(p)
    }

    /** The engine as a decision about pid meets it. */
    ghost function Meets(pid: nat, world: World): View
      reads this, loader
    {
      View(mode, criuEnabled && verifyInstalled, loader.Takes(pid, world.mapFault, world.kill), Now())
    }

    ghost function Snap(): Snapshot
      reads this, loader, cg, cg.pidNode.Values
    {
      Snapshot(Now(), cg.ProcessTrust(), decisions)
    }

    /** The tiered response to one scored event: a trusted process is let through, whatever the score; any
        other is scored, and settled by the table. */
    method Respond(now: int, pid: nat, comm: string, p: real, techniqueID: string, techniqueName: string,
                   severity: real, world: World)
        returns (d: Decision)
      requires Valid() && cg.Valid() && cg.TrustInRange() && (Trusts(comm, pid) || !OnCycle(LinksOf(cg.pidNode), pid))
      modifies this`decisions, this`pausedPIDs, this`trace, loader`denyMap, loader`puts, loader`overwrites, loader`granted, loader`killed,
               cg.pidNode.Values
      ensures Valid() && cg.TrustInRange()
      ensures old(Trusts(comm, pid)) ==> d == Allowed(now, pid, comm) && LetThrough(pid, old(Snap()), Snap(), d)
      ensures !old(Trusts(comm, pid)) ==>
                Responded(old(Meets(pid, world)), world,
                          Scored(now, pid, comm, p, techniqueID, techniqueName, severity, old(scorer.ParentTrust(pid)),
                                 SummaryOf(cg.nodes.Keys, cg.edges, pid)),
                          LinksOf(cg.pidNode), old(Snap()), Snap(), d)
      ensures !old(Trusts(comm, pid)) ==> AsPromised(d, pid, p, old(Meets(pid, world)), world)
      ensures d.pid == pid && d.comm == comm && (old(Trusts(comm, pid)) <==> d.action == TrustedAllow)
      ensures old(Trusts(comm, pid)) ==> d.status == Known && d.tier == Low && d.trust == 100.0
    {
      var status := ClassifyProcess(comm, p);
      if Trusts(comm, pid) {
        status := Known;
      }
      if status == Known {
        d := AllowTrusted(now, pid, comm);
      } else {
        d := RespondScored(now, pid, comm, p, techniqueID, techniqueName, severity, status, world);
      }
    }

    /** Everything Respond does for a process that is not trusted. */
    method RespondScored(now: int, pid: nat, comm: string, p: real, techniqueID: string, techniqueName: string,
                         severity: real, status: Status, world: World)
        returns (d: Decision)
      requires Valid() && cg.Valid() && cg.TrustInRange() && !OnCycle(LinksOf(cg.pidNode), pid)
      requires !Trusts(comm, pid) && status == ScoredStatus(p)
      modifies this`decisions, this`pausedPIDs, this`trace, loader`denyMap, loader`puts, loader`overwrites, loader`granted, loader`killed,
               cg.pidNode.Values
      ensures Valid() && cg.TrustInRange()
      ensures Responded(old(Meets(pid, world)), world,
                        Scored(now, pid, comm, p, techniqueID, techniqueName, severity, old(scorer.ParentTrust(pid)),
                               SummaryOf(cg.nodes.Keys, cg.edges, pid)),
                        LinksOf(cg.pidNode), old(Snap()), Snap(), d)
      ensures AsPromised(d, pid, p, old(Meets(pid, world)), world) && d.comm == comm
    {
      ghost var b, parentTrust := Meets(pid, world), scorer.ParentTrust(pid);
      d := ScoreAndAct(now, pid, comm, p, techniqueID, techniqueName, severity, status, world);
      AnsweredAsPromised(b, world, Scored(now, pid, comm, p, techniqueID, techniqueName, severity, parentTrust,
                                          SummaryOf(cg.nodes.Keys, cg.edges, pid)), p);
    }

    method ScoreAndAct(now: int, pid: nat, comm: string, p: real, techniqueID: string, techniqueName: string,
                       severity: real, status: Status, world: World)
        returns (d: Decision)
      requires Valid() && cg.Valid() && cg.TrustInRange() && !OnCycle(LinksOf(cg.pidNode), pid)
      requires !Trusts(comm, pid) && status == ScoredStatus(p)
      modifies this`decisions, this`pausedPIDs, this`trace, loader`denyMap, loader`puts, loader`overwrites, loader`granted, loader`killed,
               cg.pidNode.Values
      ensures Valid() && cg.TrustInRange()
      ensures Responded(old(Meets(pid, world)), world,
                        Scored(now, pid, comm, p, techniqueID, techniqueName, severity, old(scorer.ParentTrust(pid)),
                               SummaryOf(cg.nodes.Keys, cg.edges, pid)),
                        LinksOf(cg.pidNode), old(Snap()), Snap(), d)
    {
      var scored := ScoreProcess(now, pid, comm, p, techniqueID, techniqueName, severity, status);
      d := ActOnTier(scored, world);
    }

    /** The three modes. */
    method ActOnTier(d0: Decision, world: World) returns (d: Decision)
      requires Valid() && !Trusts(d0.comm, d0.pid) && d0.verified == None
      modifies this`decisions, this`pausedPIDs, this`trace, loader`denyMap, loader`puts, loader`overwrites, loader`granted, loader`killed
      ensures Valid() && (d, Now()) == Answered(old(Meets(d0.pid, world)), world, d0)
      ensures decisions == old(decisions) + [d] && cg.ProcessTrust() == old(cg.ProcessTrust())
    {
      d := DecideMode(d0, world);
      NoteDecision(d);
    }

    method DecideMode(d0: Decision, world: World) returns (d: Decision)
      requires Valid() && !Trusts(d0.comm, d0.pid) && d0.verified == None
      modifies this`pausedPIDs, this`trace, loader`denyMap, loader`puts, loader`overwrites, loader`granted, loader`killed
      ensures Valid() && (d, Now()) == Answered(old(Meets(d0.pid, world)), world, d0)
    {
      match mode {
        case Observe =>
          d := d0.(action := match d0.tier case Low => ObserveLog case Medium => ObserveAlert case High => ObserveCritical);
        case Pause =>
          d := PauseTier(d0, world);
        case Enforce =>
          d := EnforceTier(d0, world);
      }
    }

    /** Known processes: trust is forced to 100 and classification is skipped. */
    method AllowTrusted(now: int, pid: nat, comm: string) returns (d: Decision)
      requires Valid() && cg.Valid() && cg.TrustInRange()
      modifies this`decisions, cg.pidNode.Values
      ensures Valid() && cg.TrustInRange()
      ensures d == Allowed(now, pid, comm) && LetThrough(pid, old(Snap()), Snap(), d)
    {
      ForceTrust(pid);
      d := Decision(now, pid, comm, Low, 100.0, 0.0, TrustedAllow, Known, "", "", None, None);
      NoteDecision(d);
    }

    method NoteDecision(d: Decision)
      requires Valid()
      modifies this`decisions
      ensures Valid() && Snap() == old(Snap()).(decisions := old(decisions) + [d])
    {
      decisions := decisions + [d];
    }

    method ForceTrust(pid: nat)
      requires Valid() && cg.Valid() && cg.TrustInRange()
      modifies cg.pidNode.Values
      ensures Valid() && cg.TrustInRange()
      ensures Snap() == old(Snap()).(trusts := Raised(old(cg.ProcessTrust()), pid))
    {
      cg.SetProcessTrust(pid, 100.0);
    }

    /** Tier, trust and causal summary of a process that is not trusted. */
    method ScoreProcess(now: int, pid: nat, comm: string, p: real, techniqueID: string, techniqueName: string,
                        severity: real, status: Status)
        returns (d: Decision)
      requires scorer.graph == cg && cg.Valid() && cg.TrustInRange() && !OnCycle(LinksOf(cg.pidNode), pid)
      requires status == ScoredStatus(p)
      modifies cg.pidNode.Values
      ensures cg.TrustInRange()
      ensures d == Scored(now, pid, comm, p, techniqueID, techniqueName, severity, old(scorer.ParentTrust(pid)),
                          SummaryOf(cg.nodes.Keys, cg.edges, pid))
      ensures Rescored(LinksOf(cg.pidNode), pid, d.trust, old(cg.ProcessTrust()), cg.ProcessTrust())
    {
      var trust := scorer.UpdateProcessTrust(pid, p, 0.0, severity);
      var summary := CausalSummary(pid);
      d := Decision(now, pid, comm, TierOf(p), trust, p, TrustedAllow, status, techniqueName, techniqueID, None, summary);
    }

    method CausalSummary(pid: nat) returns (summary: Option<(nat, nat)>)
      requires cg.Valid()
      ensures summary == SummaryOf(cg.nodes.Keys, cg.edges, pid)
    {
      var found, subNodes, subEdges := cg.Subgraph(NodeIds.ProcId(pid));
      if !found {
        return None;
      }
      SubgraphSize(cg.edges, NodeIds.ProcId(pid), subNodes.Keys, subEdges);
      return Some((|subNodes|, |subEdges|));
    }

    method PauseTier(d0: Decision, world: World) returns (d: Decision)
      requires Valid() && mode == Pause && !Trusts(d0.comm, d0.pid) && d0.verified == None
      modifies this`pausedPIDs, this`trace
      ensures Valid()
      ensures var o := Stopped(old(Now()), Subject(d0.pid, d0.comm, d0.tier, d0.status), world.stopOk);
              d == Settle(d0, o) && Now() == o.after
    {
      d := d0;
      if d.tier == Low {
        d := d.(action := PauseLog);
      } else if d.pid in pausedPIDs {
        d := d.(action := AlreadyPaused, status := Paused);
      } else {
        var ok := PauseProcess(d.pid, d.comm, world.stopOk, true);
        if ok {
          d := d.(action := PausedSigstop, status := Paused);
        } else {
          d := d.(action := PauseFailedLog);
        }
      }
    }

    method EnforceTier(d0: Decision, world: World) returns (d: Decision)
      requires Valid() && mode == Enforce && !Trusts(d0.comm, d0.pid) && d0.verified == None
      modifies this`trace, loader`denyMap, loader`puts, loader`overwrites, loader`granted, loader`killed
      ensures Valid()
      ensures var o := Enforced(old(Meets(d0.pid, world)), Subject(d0.pid, d0.comm, d0.tier, d0.status), world.verify);
              d == Settle(d0, o) && Now() == o.after
    {
      d := d0;
      match d.tier {
        case Low =>
          d := d.(action := LogOnly);
        case Medium =>
          if criuEnabled && verifyInstalled {
            d := d.(action := CriuVerify);
            if world.verify == None {
              d := d.(action := CriuVerifyFailedLog);
            } else {
              var confirmed := world.verify.value;
              d := d.(verified := Some(confirmed));
              if confirmed {
                var ok := IssueDeny(d.pid, d.comm, Medium, true, world);
                d := d.(action := VerifiedKill);
              } else {
                d := d.(action := VerifiedBenign);
              }
            }
          } else {
            d := d.(action := LogElevated);
          }
        case High =>
          if known(d.comm) || d.pid <= 100 {
            d := d.(action := ProtectedLogOnly);
          } else {
            d := d.(action := Kill);
            var ok := IssueDeny(d.pid, d.comm, High, false, world);
            if !ok {
              d := d.(action := KillFailed);
            }
          }
      }
    }

    /** The loader's part: its accounts are what they must be once e is on the trace. */
    method DenyVia(pid: nat, world: World, ghost e: Effect, ghost comm: string) returns (ok: bool)
      requires loader.Valid() && e.Deny? && e.pid == pid && e.how == loader.Takes(pid, world.mapFault, world.kill)
      modifies loader`denyMap, loader`puts, loader`overwrites, loader`granted, loader`killed
      ensures loader.Valid() && (ok <==> e.how != NoWay)
      ensures loader.puts == Counted(old(loader.puts), e, ByMap) && loader.killed == Counted(old(loader.killed), e, BySignal)
      ensures loader.denyMap == Advance(old(Now()), e, comm).pending
    {
      ok := loader.DenyExec(pid, world.mapFault, world.kill);
    }

    method IssueDeny(pid: nat, comm: string, tier: Tier, confirmed: bool, world: World) returns (ok: bool)
      requires Valid() && mode == Enforce && !Trusts(comm, pid) && (tier == High || (tier == Medium && confirmed))
      modifies this`trace, loader`denyMap, loader`puts, loader`overwrites, loader`granted, loader`killed
      ensures Valid() && (ok <==> old(loader.Takes(pid, world.mapFault, world.kill)) != NoWay)
      ensures Now() == Advance(old(Now()), Deny(pid, old(loader.Takes(pid, world.mapFault, world.kill)), Enforce, false, tier, confirmed),
                               comm)
    {
      ghost var before := Now();
      ghost var e := Deny(pid, loader.Takes(pid, world.mapFault, world.kill), Enforce, false, tier, confirmed);
      LedgerGrows(before, e, comm, loader.puts, loader.killed);
      ok := DenyVia(pid, world, e, comm);
      trace := trace + [e];
    }
  }

  lemma SubgraphSize(edges: seq<Edge>, root: string, reached: set<string>, leaving: seq<Edge>)
    requires forall x :: x in reached <==> Reachable(edges, root, x)
    requires NoDuplicates(leaving) && forall e :: e in leaving <==> e in edges && Reachable(edges, root, e.from)
    ensures reached == ReachedFrom(edges, root) && |leaving| == |LeavingFrom(edges, root)|
  {
    ClosedSetHoldsReachable(edges, {root} + (set e | e in edges :: e.to), root);
    EnumerationLength(leaving, LeavingFrom(edges, root));
  }
}
