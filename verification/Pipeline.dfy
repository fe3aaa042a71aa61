/** The event pipeline: every processed event goes into the store and the causal graph, and, unless
    the process is trusted, through scoring, the response engine and back into the store. */
module Pipeline {
  import opened AttackPatterns
  import opened Conformal
  import opened DenyProtocol
  import opened EdgeLists
  import opened Forest
  import opened Lineage
  import opened NodeIds
  import opened Provenance
  import opened ResponseEngine
  import opened Trust
  import opened Verdicts
  import Store
  import ThreatGraph
  import opened Wrappers

  /** What the events settle of the graph. */
  ghost function ShapeOf(cg: CausalGraph): Shape
    reads cg
  {
    Shape(cg.edges, LinksOf(cg.pidNode), cg.pidNode.Keys)
  }

  /** The graph part of the invariant. */
  ghost predicate Sound(cg: CausalGraph)
    reads cg, cg.nodes.Values
  {
    cg.Valid() && cg.EndpointsExist() && cg.TrustInRange()
  }

  /** Nodes are only ever added. */
  twostate predicate Grown(cg: CausalGraph)
    reads cg
  {
    && (forall id :: id in old(cg.nodes) ==> id in cg.nodes && cg.nodes[id] == old(cg.nodes)[id])
    && (forall id :: id in cg.nodes && id !in old(cg.nodes) ==> fresh(cg.nodes[id]))
  }

  method AddProcess(cg: CausalGraph, pid: nat, ppid: nat, comm: string) returns (n: Node)
    requires Sound(cg)
    modifies cg`nodes, cg`pidNode, cg`children
    ensures Sound(cg) && n.id == ProcId(pid) && ProcId(pid) in cg.nodes
    ensures Grown(cg) && ShapeOf(cg) == Tracking(old(ShapeOf(cg)), pid, ppid)
  {
    ProcNodeIsRegistered(cg.nodes, cg.pidNode, pid);
    ghost var nodes := cg.nodes;
    n := cg.AddProcessNode(pid, ppid, comm);
    assert cg.nodes == nodes || (ProcId(pid) !in nodes && cg.nodes == nodes[ProcId(pid) := n]);
  }

  method AddFile(cg: CausalGraph, path: string) returns (n: Node)
    requires Sound(cg)
    modifies cg`nodes
    ensures Sound(cg) && n.id == FileId(path) && FileId(path) in cg.nodes
    ensures Grown(cg)
  {
    n := cg.AddFileNode(path);
  }

  method AddSocket(cg: CausalGraph, addr: string, port: nat) returns (n: Node)
    requires Sound(cg)
    modifies cg`nodes
    ensures Sound(cg) && n.id == SockId(addr, port) && SockId(addr, port) in cg.nodes
    ensures Grown(cg)
  {
    n := cg.AddSocketNode(addr, port);
  }

  method DrawEdge(cg: CausalGraph, from: string, to: string, kind: EdgeType)
    requires Sound(cg) && from in cg.nodes && to in cg.nodes
    modifies cg`edges, cg`outEdges, cg`inEdges, cg`edgeCounter
    ensures Sound(cg) && Draws(old(ShapeOf(cg)), ShapeOf(cg), [(from, to, kind)])
  {
    var e := cg.AddEdge(from, to, kind);
  }

  method DrawFile(cg: CausalGraph, pid: nat, path: string, kind: EdgeType)
    requires Sound(cg) && ProcId(pid) in cg.nodes
    modifies cg`nodes, cg`edges, cg`outEdges, cg`inEdges, cg`edgeCounter
    ensures Sound(cg) && Grown(cg) && Draws(old(ShapeOf(cg)), ShapeOf(cg), [(ProcId(pid), FileId(path), kind)])
  {
    var fileNode := AddFile(cg, path);
    DrawEdge(cg, ProcId(pid), fileNode.id, kind);
  }

  method DrawSocket(cg: CausalGraph, pid: nat, addr: string, port: nat)
    requires Sound(cg) && ProcId(pid) in cg.nodes
    modifies cg`nodes, cg`edges, cg`outEdges, cg`inEdges, cg`edgeCounter
    ensures Sound(cg) && Grown(cg) && Draws(old(ShapeOf(cg)), ShapeOf(cg), [(ProcId(pid), SockId(addr, port), Connect)])
  {
    var sockNode := AddSocket(cg, addr, port);
    DrawEdge(cg, ProcId(pid), sockNode.id, Connect);
  }

  method DrawFork(cg: CausalGraph, pid: nat, ppid: nat)
    requires Sound(cg) && ProcId(pid) in cg.nodes
    modifies cg
    ensures Sound(cg) && Grown(cg)
    ensures Draws(Tracking(old(ShapeOf(cg)), ppid, 0), ShapeOf(cg), [(ProcId(ppid), ProcId(pid), Fork)])
  {
    var parent := AddProcess(cg, ppid, 0, "");
    DrawEdge(cg, ProcId(ppid), ProcId(pid), Fork);
  }

  /** The graph-update switch. Every edge it draws has nodes at both ends, in every run. */
  method UpdateGraph(cg: CausalGraph, evt: Event)
    requires Sound(cg)
    modifies cg
    ensures Sound(cg) && Grown(cg) && Follows(old(ShapeOf(cg)), evt, ShapeOf(cg))
  {
    var procNode := AddProcess(cg, evt.pid, evt.ppid, evt.comm);
    DrawEvent(cg, evt);
  }

  method DrawEvent(cg: CausalGraph, evt: Event)
    requires Sound(cg) && ProcId(evt.pid) in cg.nodes
    modifies cg
    ensures Sound(cg) && Grown(cg) && Draws(TrackingParent(old(ShapeOf(cg)), evt), ShapeOf(cg), DrawnEdges(evt))
  {
    match evt.kind {
      case Execve =>
        DrawExec(cg, evt);
      case Openat =>
        if evt.payload != "" && !IsNoisyFile(evt.payload, evt.isWrite) {
          DrawFile(cg, evt.pid, evt.payload, if evt.isWrite then OpenWrite else OpenRead);
        }
      case ConnectTo =>
        if evt.dstIP != "" {
          DrawSocket(cg, evt.pid, evt.dstIP, evt.dstPort);
        }
      case OtherKind =>
    }
  }

  method DrawExec(cg: CausalGraph, evt: Event)
    requires Sound(cg) && ProcId(evt.pid) in cg.nodes && evt.kind == Execve
    modifies cg
    ensures Sound(cg) && Grown(cg) && Draws(TrackingParent(old(ShapeOf(cg)), evt), ShapeOf(cg), DrawnEdges(evt))
  {
    ghost var start := ShapeOf(cg);
    if evt.payload != "" {
      DrawFile(cg, evt.pid, evt.payload, Exec);
    }
    ghost var mid := ShapeOf(cg);
    if evt.ppid > 0 {
      DrawFork(cg, evt.pid, evt.ppid);
    }
    ExecDraws(start, mid, ShapeOf(cg), evt);
  }

  /** What one event meets outside: the sidecar's rounded p-value (0.8 when it cannot be reached), the
      matched technique, the clock and the operating system. */
  datatype Surroundings = Surroundings(
    now: int, pValue: real, techniqueID: string, technique: string, severity: real, world: World)

  predicate Plausible(s: Surroundings) {
    0.0 <= s.pValue <= 1.0 && 0.0 <= s.severity <= 10.0
  }

  /** The last decision of the engine recorded about a process. */
  datatype LastDecision = LastDecision(tier: Tier, trust: real)

  /** The tier caps the trust. */
  ghost predicate Capped(d: LastDecision) {
    && 0.0 <= d.trust <= 100.0
    && (d.tier == Medium ==> d.trust <= 33.0) && (d.tier == High ==> d.trust <= 28.0)
  }

  /** Every recorded verdict is that of a capped decision. */
  ghost predicate DecisionsCapped(last: map<nat, LastDecision>, verdicts: map<nat, Store.Verdict>) {
    last.Keys == verdicts.Keys && forall p :: p in last ==> verdicts[p].trust == last[p].trust && Capped(last[p])
  }

  /** The invariant of the pipeline between events. */
  ghost predicate Ready(cg: CausalGraph, engine: Engine, db: Store.Store, last: map<nat, LastDecision>)
    reads cg, cg.nodes.Values, engine, engine.loader, db
  {
    Sound(cg) && engine.Valid() && engine.cg == cg && db.Valid() && DecisionsCapped(last, db.verdicts)
  }

  lemma DecisionRecorded(last: map<nat, LastDecision>, verdicts: map<nat, Store.Verdict>, pid: nat, d: LastDecision, v: Store.Verdict)
    requires DecisionsCapped(last, verdicts) && Capped(d) && v.trust == d.trust
    ensures DecisionsCapped(last[pid := d], verdicts[pid := v])
  {
  }

  /** One entry was added to the store's log, and it tells the event. */
  ghost predicate Logged(before: seq<Store.EventRecord>, after: seq<Store.EventRecord>, evt: Event) {
    |after| == |before| + 1 && after[..|before|] == before && Tells(after[|before|], evt)
  }

  ghost predicate Tells(e: Store.EventRecord, evt: Event) {
    && e.pid == evt.pid && e.ppid == evt.ppid && e.comm == evt.comm && e.ret == evt.retVal
    && e.ev.payload == evt.payload && e.ev.dstIP == evt.dstIP && e.ev.dstPort == evt.dstPort
    && (e.ev.typeStr == "execve" <==> evt.kind == Execve) && (e.ev.typeStr == "openat" <==> evt.kind == Openat)
    && (e.ev.typeStr == "connect" <==> evt.kind == ConnectTo)
  }

  /** The decisions made of one event: none about a trusted process, whose record says so, and one about any
      other, which its record bears. */
  ghost predicate Judged(trusted: bool, ds: seq<Decision>, evt: Event, s: Surroundings, procs: map<nat, Store.ProcessRecord>) {
    && evt.pid in procs
    && if trusted then ds == [] && OnRecord(procs[evt.pid], 95.0, Known, KnownSafe, "")
       else
         && |ds| == 1 && ds[0].pid == evt.pid && ds[0].comm == evt.comm && ds[0].pValue == s.pValue
         && ds[0].techniqueID == s.techniqueID
         && OnRecord(procs[evt.pid], ds[0].trust, ds[0].status, ds[0].action, ds[0].techniqueID)
  }

  predicate Holds(trusts: map<nat, real>, pid: nat, trust: real) {
    pid in trusts ==> trusts[pid] == trust
  }

  /** The record bears a decision: trust and status are its, and it is the last of those noted. */
  ghost predicate OnRecord(r: Store.ProcessRecord, trust: real, status: Status, action: Action, techniqueID: string) {
    && r.trustScore == trust && r.status == (if action == Kill || action == VerifiedKill then Killed else status)
    && r.decisions != [] && r.decisions[|r.decisions| - 1] == Store.DecisionSummary(action, trust, techniqueID)
  }

  lemma RecordedIsOnRecord(procs: map<nat, Store.ProcessRecord>, pid: nat, comm: string, v: Store.Verdict, techniqueID: string)
    ensures OnRecord(Store.Recorded(procs, pid, comm, v, techniqueID)[pid], v.trust, v.status, v.action, techniqueID)
  {
  }

  /** A denial by the map leaves the PID in it. */
  lemma DeniedIsPending(b: View, u: Subject, world: World)
    ensures b.mode == Enforce && u.tier == High && b.how == ByMap ==> u.pid in Verdict(b, u, world).2.pending
  {
  }

  // The four steps of one event, each keeping the invariant.

  method StoreStep(cg: CausalGraph, engine: Engine, db: Store.Store, ghost last: map<nat, LastDecision>, evt: Event)
    requires Ready(cg, engine, db, last)
    modifies db
    ensures Ready(cg, engine, db, last) && unchanged(cg) && unchanged(engine)
    ensures Logged(old(db.history), db.history, evt) && evt.pid in db.processes
  {
    db.RecordEvent(evt.pid, evt.ppid, evt.comm, Telemetry(TypeName(evt.kind), evt.payload, evt.dstIP, evt.dstPort), evt.retVal);
  }

  method GraphStep(cg: CausalGraph, engine: Engine, db: Store.Store, ghost last: map<nat, LastDecision>, evt: Event)
    requires Ready(cg, engine, db, last)
    modifies cg
    ensures Ready(cg, engine, db, last) && Grown(cg) && Follows(old(ShapeOf(cg)), evt, ShapeOf(cg)) && unchanged(engine)
  {
    UpdateGraph(cg, evt);
  }

  /** What is done with every event, before any judgement. */
  method Ingest(cg: CausalGraph, engine: Engine, db: Store.Store, ghost last: map<nat, LastDecision>, evt: Event)
    requires Ready(cg, engine, db, last)
    modifies cg, db
    ensures Ready(cg, engine, db, last) && Grown(cg) && Follows(old(ShapeOf(cg)), evt, ShapeOf(cg)) && unchanged(engine)
    ensures Logged(old(db.history), db.history, evt)
  {
    StoreStep(cg, engine, db, last, evt);
    GraphStep(cg, engine, db, last, evt);
  }

  function SubjectOf(evt: Event, s: Surroundings): Subject {
    Subject(evt.pid, evt.comm, TierOf(s.pValue), ScoredStatus(s.pValue))
  }

  /** Scoring and response for a process that is not trusted. */
  method DecideStep(cg: CausalGraph, engine: Engine, db: Store.Store, ghost last: map<nat, LastDecision>, evt: Event, s: Surroundings)
      returns (d: Decision)
    requires Ready(cg, engine, db, last) && Plausible(s)
    requires !engine.Trusts(evt.comm, evt.pid) && !OnCycle(LinksOf(cg.pidNode), evt.pid)
    modifies cg.pidNode.Values, engine`decisions, engine`pausedPIDs, engine`trace, engine.loader
    ensures Ready(cg, engine, db, last)
    ensures d.pid == evt.pid && d.comm == evt.comm && d.techniqueID == s.techniqueID
    ensures d.tier == TierOf(s.pValue) && d.pValue == s.pValue && Capped(LastDecision(d.tier, d.trust))
    ensures engine.decisions == old(engine.decisions) + [d]
    ensures Holds(cg.ProcessTrust(), evt.pid, d.trust)
    ensures (d.status, d.action, engine.Now()) == Verdict(old(engine.Meets(evt.pid, s.world)), SubjectOf(evt, s), s.world)
  {
    ghost var parentTrust := engine.scorer.ParentTrust(evt.pid);
    engine.scorer.ParentTrustRange(evt.pid);
    d := engine.Respond(s.now, evt.pid, evt.comm, s.pValue, s.techniqueID, s.technique, s.severity, s.world);
    TierCapsTrust(s.pValue, parentTrust, s.severity);
    ComputeTrustRange(s.pValue, parentTrust, s.severity);
  }

  method RecordStep(cg: CausalGraph, engine: Engine, db: Store.Store, ghost last: map<nat, LastDecision>, pid: nat, comm: string,
                    tier: Tier, v: Store.Verdict, techniqueID: string)
    requires Ready(cg, engine, db, last) && Capped(LastDecision(tier, v.trust))
    modifies db`processes, db`verdicts
    ensures Ready(cg, engine, db, last[pid := LastDecision(tier, v.trust)])
    ensures db.processes == Store.Recorded(old(db.processes), pid, comm, v, techniqueID)
    ensures OnRecord(db.processes[pid], v.trust, v.status, v.action, techniqueID)
    ensures cg.ProcessTrust() == old(cg.ProcessTrust())
  {
    RecordedIsOnRecord(db.processes, pid, comm, v, techniqueID);
    PutOnRecord(cg, db, last, pid, comm, tier, v, techniqueID);
  }

  method PutOnRecord(ghost cg: CausalGraph, db: Store.Store, ghost last: map<nat, LastDecision>, pid: nat, comm: string, tier: Tier,
                     v: Store.Verdict, techniqueID: string)
    requires db.Valid() && DecisionsCapped(last, db.verdicts) && Capped(LastDecision(tier, v.trust))
    modifies db`processes, db`verdicts
    ensures db.Valid() && DecisionsCapped(last[pid := LastDecision(tier, v.trust)], db.verdicts)
    ensures db.processes == Store.Recorded(old(db.processes), pid, comm, v, techniqueID)
    ensures cg.ProcessTrust() == old(cg.ProcessTrust())
  {
    DecisionRecorded(last, db.verdicts, pid, LastDecision(tier, v.trust), v);
    db.RecordDecision(pid, comm, v.trust, v.status, v.action, techniqueID);
  }

  /** A trusted process: nothing is sent, and the store keeps a decision of trust 95. */
  method NoteKnown(cg: CausalGraph, engine: Engine, db: Store.Store, ghost last: map<nat, LastDecision>, evt: Event, s: Surroundings)
      returns (tier: Tier, trust: real)
    requires Ready(cg, engine, db, last)
    modifies db`processes, db`verdicts
    ensures Ready(cg, engine, db, last[evt.pid := LastDecision(tier, trust)]) && tier == Low
    ensures db.processes == Store.Recorded(old(db.processes), evt.pid, evt.comm, Store.Verdict(95.0, Known, KnownSafe), "")
    ensures Judged(true, [], evt, s, db.processes)
    ensures ShapeOf(cg) == old(ShapeOf(cg)) && cg.nodes == old(cg.nodes) && db.history == old(db.history)
  {
    tier, trust := Low, 95.0;
    RecordStep(cg, engine, db, last, evt.pid, evt.comm, tier, Store.Verdict(95.0, Known, KnownSafe), "");
  }

  /** Any other process: the engine is asked, the store keeps what its table settled, and nothing else
      changes there. */
  method JudgeUnknown(cg: CausalGraph, engine: Engine, db: Store.Store, ghost last: map<nat, LastDecision>, evt: Event, s: Surroundings)
      returns (d: Decision)
    requires Ready(cg, engine, db, last) && Plausible(s)
    requires !engine.Trusts(evt.comm, evt.pid) && !OnCycle(LinksOf(cg.pidNode), evt.pid)
    modifies cg.pidNode.Values, engine`decisions, engine`pausedPIDs, engine`trace, engine.loader, db`processes, db`verdicts
    ensures Ready(cg, engine, db, last[evt.pid := LastDecision(d.tier, d.trust)]) && d.tier == TierOf(s.pValue)
    ensures (d.status, d.action, engine.Now()) == Verdict(old(engine.Meets(evt.pid, s.world)), SubjectOf(evt, s), s.world)
    ensures engine.decisions == old(engine.decisions) + [d]
    ensures Holds(cg.ProcessTrust(), evt.pid, d.trust)
    ensures db.processes == Store.Recorded(old(db.processes), evt.pid, evt.comm, Store.Verdict(d.trust, d.status, d.action), s.techniqueID)
    ensures Judged(false, [d], evt, s, db.processes)
    ensures ShapeOf(cg) == old(ShapeOf(cg)) && cg.nodes == old(cg.nodes) && db.history == old(db.history)
  {
    d := DecideStep(cg, engine, db, last, evt, s);
    RecordStep(cg, engine, db, last, evt.pid, evt.comm, d.tier, Store.Verdict(d.trust, d.status, d.action), d.techniqueID);
  }

  /** What follows the graph update: a trusted process is noted as such, any other is scored, by the
      engine and by nobody else. */
  method Judge(cg: CausalGraph, engine: Engine, db: Store.Store, ghost last: map<nat, LastDecision>, evt: Event, s: Surroundings)
      returns (trusted: bool, tier: Tier, trust: real, ghost ds: seq<Decision>)
    requires Ready(cg, engine, db, last) && Plausible(s)
    requires engine.Trusts(evt.comm, evt.pid) || !OnCycle(LinksOf(cg.pidNode), evt.pid)
    modifies cg.pidNode.Values, engine`decisions, engine`pausedPIDs, engine`trace, engine.loader, db`processes, db`verdicts
    ensures Ready(cg, engine, db, last[evt.pid := LastDecision(tier, trust)])
    ensures trusted == old(engine.Trusts(evt.comm, evt.pid)) && tier == if trusted then Low else TierOf(s.pValue)
    ensures engine.decisions == old(engine.decisions) + ds && Judged(trusted, ds, evt, s, db.processes)
    ensures ShapeOf(cg) == old(ShapeOf(cg)) && cg.nodes == old(cg.nodes) && db.history == old(db.history)
    ensures trusted ==> engine.Now() == old(engine.Now())
    ensures !trusted ==>
              (ds[0].status, ds[0].action, engine.Now()) ==
              Verdict(old(engine.Meets(evt.pid, s.world)), SubjectOf(evt, s), s.world)
    ensures !trusted ==> Holds(cg.ProcessTrust(), evt.pid, ds[0].trust)
  {
    trusted := engine.Trusts(evt.comm, evt.pid);
    if trusted {
      tier, trust := NoteKnown(cg, engine, db, last, evt, s);
      ds := [];
    } else {
      var d := JudgeUnknown(cg, engine, db, last, evt, s);
      tier, trust, ds := d.tier, d.trust, [d];
    }
  }

  ghost function Verdict(b: View, u: Subject, world: World): (Status, Action, Ledger) {
    var o := Settled(b, u, world);
    (o.status, o.action, o.after)
  }

  /** One event that got a rate-limit token, from start to finish. What it asks is exactly what it takes
      to come to an end (Lineage.HandledIff). */
  method ProcessEvent(cg: CausalGraph, engine: Engine, db: Store.Store, ghost last: map<nat, LastDecision>, evt: Event, s: Surroundings)
      returns (trusted: bool, tier: Tier, trust: real, ghost ds: seq<Decision>)
    requires Ready(cg, engine, db, last) && Plausible(s)
    requires Handled(ShapeOf(cg), evt, engine.Trusts(evt.comm, evt.pid))
    modifies cg, cg.nodes.Values, engine`decisions, engine`pausedPIDs, engine`trace, engine.loader, db
    ensures Ready(cg, engine, db, last[evt.pid := LastDecision(tier, trust)])
    ensures Grown(cg) && Follows(old(ShapeOf(cg)), evt, ShapeOf(cg)) && Logged(old(db.history), db.history, evt)
    ensures trusted == old(engine.Trusts(evt.comm, evt.pid)) && tier == if trusted then Low else TierOf(s.pValue)
    ensures engine.decisions == old(engine.decisions) + ds && Judged(trusted, ds, evt, s, db.processes)
    ensures !trusted ==>
              (ds[0].status, ds[0].action, engine.Now()) ==
              Verdict(old(engine.Meets(evt.pid, s.world)), SubjectOf(evt, s), s.world)
    ensures (!trusted && old(engine.mode) == Enforce && s.pValue <= 0.05 && old(engine.loader.PutWorks(evt.pid, s.world.mapFault)))
        ==> evt.pid in engine.loader.denyMap
  {
    ghost var b := engine.Meets(evt.pid, s.world);
    Ingest(cg, engine, db, last, evt);
    assert engine.Meets(evt.pid, s.world) == b;
    trusted, tier, trust, ds := Judge(cg, engine, db, last, evt, s);
    DeniedIsPending(b, SubjectOf(evt, s), s.world);
  }

  /** What may come between two events: a call of the operator, or an exec meeting the hook. */
  datatype Call =
    | TrustCall(comm: string, pid: nat)
    | PauseCall(pid: nat, comm: string, stopOk: bool)
    | ResumeCall(pid: nat, contOk: bool)
    | KillCall(pid: nat, comm: string, killOk: bool)
    | ModeCall(mode: Mode)
    | LogCall(entry: LogEntry)
    | ExecHook(pid: nat, ret: int, ringHasRoom: bool)

  /** What a call leaves of who is stopped, what was issued and what the deny map holds: a stop, a continue
      or a kill goes out, the hook takes out the PID it denies, and nothing else touches them. */
  ghost function LedgerAfter(l: Ledger, call: Call, mode: Mode, w: Whitelist): Ledger {
    match call
    case PauseCall(pid, comm, stopOk) =>
      if pid <= 10 then l else Advance(l, Stop(pid, stopOk, false, mode, w.Holds(comm, pid)), comm)
    case ResumeCall(pid, contOk) => Advance(l, Cont(pid, contOk), "")
    case KillCall(pid, comm, killOk) => if pid <= 10 then l else Advance(l, Terminate(pid, killOk), comm)
    case ExecHook(pid, ret, _) => if ret == 0 then l.(pending := l.pending - {pid}) else l
    case _ => l
  }

  ghost function LogAfter(log: seq<LogEntry>, call: Call): seq<LogEntry> {
    match call
    case KillCall(pid, comm, killOk) => if pid <= 10 then log else Newest([LogEntry("kill", pid, comm, "user", killOk)] + log)
    case LogCall(entry) => Newest([entry] + log)
    case _ => log
  }

  /** Mode, action log and ledger of the engine. */
  datatype Desk = Desk(mode: Mode, log: seq<LogEntry>, ledger: Ledger)

  ghost function DeskOf(engine: Engine): Desk
    reads engine, engine.loader
  {
    Desk(engine.mode, engine.actionLog, engine.Now())
  }

  ghost function DeskAfter(k: Desk, call: Call, w: Whitelist): Desk {
    Desk(if call.ModeCall? then call.mode else k.mode, LogAfter(k.log, call), LedgerAfter(k.ledger, call, k.mode, w))
  }

  /** What a call comes to, in the PIDs it is about. */
  lemma CallTells(k: Desk, call: Call, w: Whitelist)
    ensures var now := DeskAfter(k, call, w).ledger;
      match call
      case PauseCall(pid, comm, stopOk) =>
        now.paused == (if pid > 10 && stopOk then k.ledger.paused[pid := comm] else k.ledger.paused) && now.pending == k.ledger.pending
      case ResumeCall(pid, contOk) =>
        now.paused == (if contOk then k.ledger.paused - {pid} else k.ledger.paused) && now.pending == k.ledger.pending
      case ExecHook(pid, ret, _) =>
        now.paused == k.ledger.paused && now.pending == if ret == 0 then k.ledger.pending - {pid} else k.ledger.pending
      case _ => now.paused == k.ledger.paused && now.pending == k.ledger.pending
    ensures DeskAfter(k, call, w).mode == if call.ModeCall? then call.mode else k.mode
    ensures !call.LogCall? && !(call.KillCall? && call.pid > 10) ==> DeskAfter(k, call, w).log == k.log
  {
    assert call.TrustCall? || call.PauseCall? || call.ResumeCall? || call.KillCall? || call.ModeCall? || call.LogCall? || call.ExecHook?;
  }

  /** None of it breaks the invariant, in whatever order it comes, and each does what it says. */
  method Between(cg: CausalGraph, engine: Engine, db: Store.Store, ghost last: map<nat, LastDecision>, call: Call)
    requires Ready(cg, engine, db, last)
    modifies cg.pidNode.Values, engine`mode, engine`pausedPIDs, engine`trace, engine`actionLog, engine`customTrustedComms,
             engine`customTrustedPIDs, engine.loader
    ensures Ready(cg, engine, db, last)
    ensures engine.Trusting() == if call.TrustCall? then old(engine.Trusting()).With(call.comm, call.pid) else old(engine.Trusting())
    ensures DeskOf(engine) == DeskAfter(old(DeskOf(engine)), call, old(engine.Trusting()))
  {
    if call.TrustCall? {
      Vouch(cg, engine, db, last, call);
    } else {
      OnEngine(engine, call);
    }
  }

  method Vouch(cg: CausalGraph, engine: Engine, db: Store.Store, ghost last: map<nat, LastDecision>, call: Call)
    requires Ready(cg, engine, db, last) && call.TrustCall?
    modifies cg.pidNode.Values, engine`customTrustedComms, engine`customTrustedPIDs
    ensures Ready(cg, engine, db, last)
    ensures engine.Trusting() == old(engine.Trusting()).With(call.comm, call.pid)
    ensures DeskOf(engine) == DeskAfter(old(DeskOf(engine)), call, old(engine.Trusting()))
  {
    engine.TrustProcess(call.comm, call.pid);
  }

  method OnEngine(engine: Engine, call: Call)
    requires engine.Valid() && !call.TrustCall?
    modifies engine`mode, engine`pausedPIDs, engine`trace, engine`actionLog, engine.loader
    ensures engine.Valid()
    ensures DeskOf(engine) == DeskAfter(old(DeskOf(engine)), call, old(engine.Trusting()))
  {
    if call.ModeCall? {
      Switch(engine, call);
    } else if call.LogCall? {
      Note(engine, call);
    } else if call.ExecHook? {
      MeetHook(engine, call);
    } else if call.PauseCall? {
      Stopping(engine, call);
    } else if call.ResumeCall? {
      Continuing(engine, call);
    } else {
      Killing(engine, call);
    }
  }

  method Switch(engine: Engine, call: Call)
    requires engine.Valid() && call.ModeCall?
    modifies engine`mode
    ensures engine.Valid() && DeskOf(engine) == DeskAfter(old(DeskOf(engine)), call, old(engine.Trusting()))
  {
    engine.SetMode(call.mode);
  }

  method Note(engine: Engine, call: Call)
    requires engine.Valid() && call.LogCall?
    modifies engine`actionLog
    ensures engine.Valid() && DeskOf(engine) == DeskAfter(old(DeskOf(engine)), call, old(engine.Trusting()))
  {
    engine.AppendActionLog(call.entry);
  }

  method MeetHook(engine: Engine, call: Call)
    requires engine.Valid() && call.ExecHook?
    modifies engine.loader
    ensures engine.Valid() && DeskOf(engine) == DeskAfter(old(DeskOf(engine)), call, old(engine.Trusting()))
  {
    var code := engine.loader.BprmCheck(call.pid, call.ret, call.ringHasRoom);
  }

  method Stopping(engine: Engine, call: Call)
    requires engine.Valid() && call.PauseCall?
    modifies engine`pausedPIDs, engine`trace
    ensures engine.Valid() && DeskOf(engine) == DeskAfter(old(DeskOf(engine)), call, old(engine.Trusting()))
  {
    var ok := engine.PauseProcess(call.pid, call.comm, call.stopOk, false);
  }

  method Continuing(engine: Engine, call: Call)
    requires engine.Valid() && call.ResumeCall?
    modifies engine`pausedPIDs, engine`trace
    ensures engine.Valid() && DeskOf(engine) == DeskAfter(old(DeskOf(engine)), call, old(engine.Trusting()))
  {
    var ok := engine.ResumeProcess(call.pid, call.contOk);
  }

  method Killing(engine: Engine, call: Call)
    requires engine.Valid() && call.KillCall?
    modifies engine`trace, engine`actionLog
    ensures engine.Valid() && DeskOf(engine) == DeskAfter(old(DeskOf(engine)), call, old(engine.Trusting()))
  {
    var ok := engine.KillProcess(call.pid, call.comm, call.killOk);
  }

  // ---- whole runs ----

  /** What the sensor meets, one thing after another. */
  datatype Step = Happens(evt: Event, s: Surroundings) | Meanwhile(call: Call)

  /** The step comes to an end: an event can be handled. */
  ghost predicate Ends(a: Shape, w: Whitelist, step: Step) {
    step.Happens? ==> Plausible(step.s) && Handled(a, step.evt, w.Holds(step.evt.comm, step.evt.pid))
  }

  function WhitelistAfter(w: Whitelist, step: Step): Whitelist {
    if step.Meanwhile? && step.call.TrustCall? then w.With(step.call.comm, step.call.pid) else w
  }

  ghost predicate Leads(a: Shape, step: Step, b: Shape) {
    if step.Happens? then Follows(a, step.evt, b) else b == a
  }

  /** Every step comes to an end where it is taken; the edges do not matter for that. */
  ghost predicate AllEnd(a: Shape, w: Whitelist, steps: seq<Step>)
    decreases |steps|
  {
    steps == [] ||
    (Ends(a, w, steps[0]) &&
     AllEnd(if steps[0].Happens? then After(a, steps[0].evt) else a, WhitelistAfter(w, steps[0]), steps[1..]))
  }

  lemma {:induction false} EdgesDoNotMatter(a: Shape, b: Shape, w: Whitelist, steps: seq<Step>)
    requires a.par == b.par && a.tracked == b.tracked && AllEnd(a, w, steps)
    ensures AllEnd(b, w, steps)
    decreases |steps|
  {
    if steps != [] {
      var step := steps[0];
      if step.Happens? {
        EdgesDoNotMatter(After(a, step.evt), After(b, step.evt), w, steps[1..]);
      } else {
        EdgesDoNotMatter(a, b, WhitelistAfter(w, step), steps[1..]);
      }
    }
  }

  ghost function EventsOf(steps: seq<Step>): seq<Event> {
    if steps == [] then []
    else
      var last := steps[|steps| - 1];
      EventsOf(steps[..|steps| - 1]) + if last.Happens? then [last.evt] else []
  }

  /** Before step i: the shapes so far are a run of the events so far, and the rest will come to an end. */
  ghost predicate Underway(shapes: seq<Shape>, now: Shape, w: Whitelist, steps: seq<Step>, i: nat)
    requires i <= |steps|
  {
    IsRun(shapes, EventsOf(steps[..i])) && shapes[|shapes| - 1] == now && AllEnd(now, w, steps[i..])
  }

  ghost function Longer(shapes: seq<Shape>, step: Step, b: Shape): seq<Shape> {
    if step.Happens? then shapes + [b] else shapes
  }

  lemma OneStepOn(shapes: seq<Shape>, a: Shape, b: Shape, w: Whitelist, steps: seq<Step>, i: nat)
    requires i < |steps| && Underway(shapes, a, w, steps, i) && Leads(a, steps[i], b)
    ensures Underway(Longer(shapes, steps[i], b), b, WhitelistAfter(w, steps[i]), steps, i + 1)
  {
    var step := steps[i];
    assert steps[i..][0] == step && steps[i..][1..] == steps[i + 1..] && steps[..i + 1][..i] == steps[..i];
    if step.Happens? {
      EdgesDoNotMatter(After(a, step.evt), b, w, steps[i + 1..]);
      RunGrows(shapes, EventsOf(steps[..i]), step.evt, b);
    }
  }

  lemma RunGrows(shapes: seq<Shape>, events: seq<Event>, evt: Event, b: Shape)
    requires IsRun(shapes, events) && Follows(shapes[|shapes| - 1], evt, b)
    ensures IsRun(shapes + [b], events + [evt])
  {
    var shapes', events' := shapes + [b], events + [evt];
    forall i | 0 <= i < |events'|
      ensures Follows(shapes'[i], events'[i], shapes'[i + 1])
    {
      if i < |events| {
        assert Follows(shapes[i], events[i], shapes[i + 1]);
      }
    }
  }

  /** What a step adds to the engine's decisions and to the store's log. */
  ghost predicate Took(
      step: Step, trusted: bool, before: seq<Decision>, after: seq<Decision>, log: seq<Store.EventRecord>,
      log': seq<Store.EventRecord>, procs: map<nat, Store.ProcessRecord>)
  {
    if step.Meanwhile? then after == before && log' == log
    else
      Logged(log, log', step.evt) && |before| <= |after| && after[..|before|] == before &&
      Judged(trusted, after[|before|..], step.evt, step.s, procs)
  }

  method TakeStep(cg: CausalGraph, engine: Engine, db: Store.Store, ghost last: map<nat, LastDecision>, step: Step)
      returns (ghost last': map<nat, LastDecision>, ghost trusted: bool)
    requires Ready(cg, engine, db, last) && Ends(ShapeOf(cg), engine.Trusting(), step)
    modifies cg, cg.nodes.Values, engine, engine.loader, db
    ensures Ready(cg, engine, db, last') && Grown(cg)
    ensures Leads(old(ShapeOf(cg)), step, ShapeOf(cg)) && engine.Trusting() == WhitelistAfter(old(engine.Trusting()), step)
    ensures trusted == IsTrustedStep(old(engine.Trusting()), step)
    ensures Took(step, trusted, old(engine.decisions), engine.decisions, old(db.history), db.history, db.processes)
    ensures (step.Happens? && !trusted && old(engine.mode) == Enforce && step.s.pValue <= 0.05 &&
             old(engine.loader.PutWorks(step.evt.pid, step.s.world.mapFault)))
        ==> step.evt.pid in engine.loader.denyMap
  {
    if step.Happens? {
      last', trusted := TakeEvent(cg, engine, db, last, step);
    } else {
      TakeCall(cg, engine, db, last, step);
      last', trusted := last, false;
    }
  }

  method TakeCall(cg: CausalGraph, engine: Engine, db: Store.Store, ghost last: map<nat, LastDecision>, step: Step)
    requires Ready(cg, engine, db, last) && step.Meanwhile?
    modifies cg.nodes.Values, engine`mode, engine`pausedPIDs, engine`trace, engine`actionLog, engine`customTrustedComms,
             engine`customTrustedPIDs, engine.loader
    ensures Ready(cg, engine, db, last) && engine.Trusting() == WhitelistAfter(old(engine.Trusting()), step)
  {
    PidNodesAreNodes(cg);
    Between(cg, engine, db, last, step.call);
  }

  method TakeEvent(cg: CausalGraph, engine: Engine, db: Store.Store, ghost last: map<nat, LastDecision>, step: Step)
      returns (ghost last': map<nat, LastDecision>, ghost trusted: bool)
    requires Ready(cg, engine, db, last) && step.Happens? && Ends(ShapeOf(cg), engine.Trusting(), step)
    modifies cg, cg.nodes.Values, engine`decisions, engine`pausedPIDs, engine`trace, engine.loader, db
    ensures Ready(cg, engine, db, last') && Grown(cg)
    ensures Leads(old(ShapeOf(cg)), step, ShapeOf(cg)) && trusted == IsTrustedStep(old(engine.Trusting()), step)
    ensures Took(step, trusted, old(engine.decisions), engine.decisions, old(db.history), db.history, db.processes)
    ensures (step.Happens? && !trusted && old(engine.mode) == Enforce && step.s.pValue <= 0.05 &&
             old(engine.loader.PutWorks(step.evt.pid, step.s.world.mapFault)))
        ==> step.evt.pid in engine.loader.denyMap
  {
    var isTrusted, tier, trust, ds := ProcessEvent(cg, engine, db, last, step.evt, step.s);
    last', trusted := last[step.evt.pid := LastDecision(tier, trust)], isTrusted;
  }

  predicate IsTrustedStep(w: Whitelist, step: Step) {
    step.Happens? && w.Holds(step.evt.comm, step.evt.pid)
  }

  // ---- the work of a run, in order ----

  function WhitelistAt(w: Whitelist, steps: seq<Step>): Whitelist {
    if steps == [] then w else WhitelistAfter(WhitelistAt(w, steps[..|steps| - 1]), steps[|steps| - 1])
  }

  /** The PIDs the engine is asked about: those of the events whose process it does not trust at the time. */
  function Asked(w: Whitelist, steps: seq<Step>): seq<nat> {
    if steps == [] then []
    else
      var init, last := steps[..|steps| - 1], steps[|steps| - 1];
      Asked(w, init) + if last.Happens? && !IsTrustedStep(WhitelistAt(w, init), last) then [last.evt.pid] else []
  }

  ghost predicate AllTell(log: seq<Store.EventRecord>, events: seq<Event>) {
    |log| == |events| && forall i :: 0 <= i < |events| ==> Tells(log[i], events[i])
  }

  ghost predicate AllAsked(ds: seq<Decision>, pids: seq<nat>) {
    |ds| == |pids| && forall i :: 0 <= i < |pids| ==> ds[i].pid == pids[i]
  }

  /** Since the run began: one decision for every event the engine was asked about, and one entry for every
      event, in order. */
  ghost predicate Accounted(
      w: Whitelist, steps: seq<Step>, ds0: seq<Decision>, ds: seq<Decision>, log0: seq<Store.EventRecord>,
      log: seq<Store.EventRecord>)
  {
    && |ds0| <= |ds| && ds[..|ds0|] == ds0 && AllAsked(ds[|ds0|..], Asked(w, steps))
    && |log0| <= |log| && log[..|log0|] == log0 && AllTell(log[|log0|..], EventsOf(steps))
  }

  lemma AskedOn(w: Whitelist, init: seq<Step>, step: Step)
    ensures WhitelistAt(w, init + [step]) == WhitelistAfter(WhitelistAt(w, init), step)
    ensures EventsOf(init + [step]) == EventsOf(init) + if step.Happens? then [step.evt] else []
    ensures Asked(w, init + [step]) ==
            Asked(w, init) + if step.Happens? && !IsTrustedStep(WhitelistAt(w, init), step) then [step.evt.pid] else []
  {
    assert (init + [step])[..|init|] == init;
  }

  lemma AllTellOn(log0: seq<Store.EventRecord>, log: seq<Store.EventRecord>, log': seq<Store.EventRecord>, events: seq<Event>, evt: Event)
    requires |log0| <= |log| && log[..|log0|] == log0 && AllTell(log[|log0|..], events) && Logged(log, log', evt)
    ensures log'[..|log0|] == log0 && AllTell(log'[|log0|..], events + [evt])
  {
    assert log'[|log0|..] == log[|log0|..] + [log'[|log|]];
    assert log'[..|log0|] == log'[..|log|][..|log0|];
  }

  lemma AllAskedOn(ds0: seq<Decision>, ds: seq<Decision>, ds': seq<Decision>, pids: seq<nat>, more: seq<nat>)
    requires |ds0| <= |ds| <= |ds'| && ds[..|ds0|] == ds0 && ds'[..|ds|] == ds
    requires AllAsked(ds[|ds0|..], pids) && AllAsked(ds'[|ds|..], more)
    ensures ds'[..|ds0|] == ds0 && AllAsked(ds'[|ds0|..], pids + more)
  {
    assert ds'[|ds0|..] == ds[|ds0|..] + ds'[|ds|..];
    assert ds'[..|ds0|] == ds'[..|ds|][..|ds0|];
  }

  lemma AccountedOn(
      w: Whitelist, init: seq<Step>, step: Step, ds0: seq<Decision>, ds: seq<Decision>, ds': seq<Decision>,
      log0: seq<Store.EventRecord>, log: seq<Store.EventRecord>, log': seq<Store.EventRecord>,
      procs: map<nat, Store.ProcessRecord>)
    requires Accounted(w, init, ds0, ds, log0, log)
    requires Took(step, IsTrustedStep(WhitelistAt(w, init), step), ds, ds', log, log', procs)
    ensures Accounted(w, init + [step], ds0, ds', log0, log') && WhitelistAt(w, init + [step]) == WhitelistAfter(WhitelistAt(w, init), step)
  {
    AskedOn(w, init, step);
    if step.Happens? {
      var more := if IsTrustedStep(WhitelistAt(w, init), step) then [] else [step.evt.pid];
      AllAskedOn(ds0, ds, ds', Asked(w, init), more);
      AllTellOn(log0, log, log', EventsOf(init), step.evt);
    }
  }

  lemma RunStarts(a: Shape, w: Whitelist, steps: seq<Step>)
    requires AllEnd(a, w, steps)
    ensures Underway([a], a, w, steps, 0)
  {
    assert steps[0..] == steps && steps[..0] == [];
  }

  /** The sensor at work, for as long as every step comes to an end: the invariant holds at the end, the
      graph went through a run of shapes, one for each event, every event is in the store's log, and the
      engine decided about every event whose process it did not trust, and about no other. */
  method RunSteps(cg: CausalGraph, engine: Engine, db: Store.Store, ghost last: map<nat, LastDecision>, steps: seq<Step>)
      returns (ghost last': map<nat, LastDecision>, ghost shapes: seq<Shape>)
    requires Ready(cg, engine, db, last) && AllEnd(ShapeOf(cg), engine.Trusting(), steps)
    modifies cg, cg.nodes.Values, engine, engine.loader, db
    ensures Ready(cg, engine, db, last')
    ensures shapes != [] && shapes[0] == old(ShapeOf(cg))
    ensures Underway(shapes, ShapeOf(cg), engine.Trusting(), steps, |steps|)
    ensures Accounted(old(engine.Trusting()), steps, old(engine.decisions), engine.decisions, old(db.history), db.history)
  {
    last', shapes := last, [ShapeOf(cg)];
    ghost var w, ds, log := engine.Trusting(), engine.decisions, db.history;
    RunStarts(ShapeOf(cg), w, steps);
    for i := 0 to |steps|
      invariant Ready(cg, engine, db, last') && Grown(cg)
      invariant shapes != [] && shapes[0] == old(ShapeOf(cg))
      invariant Underway(shapes, ShapeOf(cg), engine.Trusting(), steps, i) && engine.Trusting() == WhitelistAt(w, steps[..i])
      invariant Accounted(w, steps[..i], ds, engine.decisions, log, db.history)
    {
      last', shapes := NextStep(cg, engine, db, last', steps, i, shapes, w, ds, log);
    }
    assert steps[..|steps|] == steps;
  }

  method NextStep(cg: CausalGraph, engine: Engine, db: Store.Store, ghost last: map<nat, LastDecision>, steps: seq<Step>, i: nat,
                  ghost shapes: seq<Shape>, ghost w: Whitelist, ghost ds: seq<Decision>, ghost log: seq<Store.EventRecord>)
      returns (ghost last': map<nat, LastDecision>, ghost shapes': seq<Shape>)
    requires Ready(cg, engine, db, last) && i < |steps| && Underway(shapes, ShapeOf(cg), engine.Trusting(), steps, i)
    requires engine.Trusting() == WhitelistAt(w, steps[..i])
    requires Accounted(w, steps[..i], ds, engine.decisions, log, db.history)
    modifies cg, cg.nodes.Values, engine, engine.loader, db
    ensures Ready(cg, engine, db, last') && Grown(cg)
    ensures shapes <= shapes' && Underway(shapes', ShapeOf(cg), engine.Trusting(), steps, i + 1)
    ensures engine.Trusting() == WhitelistAt(w, steps[..i + 1])
    ensures Accounted(w, steps[..i + 1], ds, engine.decisions, log, db.history)
  {
    ghost var a, now, ds1, log1 := ShapeOf(cg), engine.Trusting(), engine.decisions, db.history;
    assert steps[i..][0] == steps[i] && steps[..i + 1] == steps[..i] + [steps[i]];
    ghost var trusted: bool;
    last', trusted := TakeStep(cg, engine, db, last, steps[i]);
    shapes' := Longer(shapes, steps[i], ShapeOf(cg));
    OneStepOn(shapes, a, ShapeOf(cg), now, steps, i);
    AccountedOn(w, steps[..i], steps[i], ds, ds1, engine.decisions, log, log1, db.history, db.processes);
  }

  lemma PidNodesAreNodes(cg: CausalGraph)
    requires cg.Valid()
    ensures cg.pidNode.Values <= cg.nodes.Values
  {
    forall p | p in cg.pidNode
      ensures cg.pidNode[p] in cg.nodes.Values
    {
      assert cg.pidNode[p] == cg.nodes[ProcId(p)];
    }
  }

  /** The sensor at start-up: the invariant holds of empty structures. */
  method StartUp(isKnown: string -> bool, lsm: bool, fallback: bool) returns (cg: CausalGraph, engine: Engine, db: Store.Store)
    ensures Ready(cg, engine, db, map[]) && ShapeOf(cg) == EMPTY && engine.mode == Observe
    ensures engine.decisions == [] && db.history == []
    ensures engine.Trusting() == Whitelist(isKnown, {}, {})
    ensures fresh(cg) && cg.nodes == map[] && fresh(engine) && fresh(engine.loader) && fresh(db)
  {
    cg := new CausalGraph();
    var loader := new DenyPath(lsm, fallback);
    engine := new Engine(cg, loader, isKnown);
    db := new Store.Store();
  }

  /** From start-up to the end of any run that comes to one: the invariant holds; the graph holds exactly
      the edges the events drew; it is a DAG, and the parent links are acyclic, exactly if no event closed
      a cycle when it came. */
  method Session(isKnown: string -> bool, lsm: bool, fallback: bool, steps: seq<Step>)
      returns (cg: CausalGraph, engine: Engine, db: Store.Store, ghost last: map<nat, LastDecision>, ghost shapes: seq<Shape>)
    requires AllEnd(EMPTY, Whitelist(isKnown, {}, {}), steps)
    ensures Ready(cg, engine, db, last)
    ensures IsRun(shapes, EventsOf(steps)) && Drawn([], cg.edges, AllDrawn(EventsOf(steps)))
    ensures Store.Tallied(db.processes, db.history)
    ensures AllTell(db.history, EventsOf(steps)) && AllAsked(engine.decisions, Asked(Whitelist(isKnown, {}, {}), steps))
    ensures var events := EventsOf(steps);
            AcyclicEdges(cg.edges) <==> forall i :: 0 <= i < |events| ==> !ClosesEdgeCycle(shapes[i].edges, events[i])
    ensures var events := EventsOf(steps);
            Acyclic(LinksOf(cg.pidNode)) <==> forall i :: 0 <= i < |events| ==>
              ClosesNoCycle(shapes[i].par, shapes[i].tracked, events[i].pid, events[i].ppid)
  {
    cg, engine, db := StartUp(isKnown, lsm, fallback);
    last, shapes := RunSteps(cg, engine, db, map[], steps);
    RunEnds(shapes, ShapeOf(cg), engine.Trusting(), steps);
    assert engine.decisions[0..] == engine.decisions && db.history[0..] == db.history;
  }

  lemma RunEnds(shapes: seq<Shape>, now: Shape, w: Whitelist, steps: seq<Step>)
    requires Underway(shapes, now, w, steps, |steps|) && shapes[0] == EMPTY
    ensures var events := EventsOf(steps);
      && IsRun(shapes, events) && Drawn([], now.edges, AllDrawn(events))
      && (AcyclicEdges(now.edges) <==> forall i :: 0 <= i < |events| ==> !ClosesEdgeCycle(shapes[i].edges, events[i]))
      && (Acyclic(now.par) <==> forall i :: 0 <= i < |events| ==>
            ClosesNoCycle(shapes[i].par, shapes[i].tracked, events[i].pid, events[i].ppid))
  {
    assert steps[..|steps|] == steps;
    var events := EventsOf(steps);
    assert events[..|events|] == events;
    RunDraws(shapes, events, |events|);
    RunIsDagIff(shapes, events, |events|);
    RunKeepsLinksIff(shapes, events, |events|);
  }

  /** End to end: a live process whose last recorded decision is Medium or High is a threat, so the
      threat graph shows it as one. */
  lemma FlaggedProcessIsThreat(last: map<nat, LastDecision>, db: Store.Store, live: set<nat>, p: nat)
    requires db.Valid() && DecisionsCapped(last, db.verdicts) && p in last && last[p].tier != Low && p in live
    ensures p in ThreatGraph.Threats(db.processes, live)
  {
  }

  /** The node the threat graph has for it. */
  lemma FlaggedProcessIsShown(
      last: map<nat, LastDecision>, db: Store.Store, alive: set<nat>, p: nat, pids: seq<nat>, nodes: seq<ThreatGraph.GraphNode>)
    requires db.Valid() && DecisionsCapped(last, db.verdicts) && p in last && last[p].tier != Low
    requires p in Store.Live(db.processes, alive)
    requires var live := Store.Live(db.processes, alive);
             var threats := ThreatGraph.Threats(db.processes, live);
             var context := ThreatGraph.Context(db.processes, live, threats);
             && (forall q :: q in pids <==> q in threats + context)
             && nodes == ThreatGraph.ProcessNodes(db.processes, pids, context) + ThreatGraph.PatternNodes(db.processes, pids)
    ensures exists n :: n in nodes && n.id == ProcId(p) && n.kind == ThreatGraph.Threat && n.trust <= 33.0
  {
    var live := Store.Live(db.processes, alive);
    FlaggedProcessIsThreat(last, db, live, p);
    assert p in pids;
    var i :| 0 <= i < |pids| && pids[i] == p;
    assert nodes[i].id == ProcId(p);
  }
}
