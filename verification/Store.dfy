/** The in-memory store: process records, the attack-pattern index and the truncated event log. */
module Store {
  import opened AttackPatterns
  import opened Decimal
  import opened NodeIds
  import opened SlidingWindow
  import opened Verdicts

  const MAX_EVENTS := 10000

  datatype EventRecord = EventRecord(id: nat, pid: nat, ppid: nat, comm: string, ev: Telemetry, ret: int)

  datatype DecisionSummary = DecisionSummary(action: Action, trust: real, techniqueID: string)

  /** The last decision recorded about a process. */
  datatype Verdict = Verdict(trust: real, status: Status, action: Action)

  /** What the store knows of one process. */
  datatype ProcessRecord = ProcessRecord(
    pid: nat, ppid: nat, comm: string, parentComm: string, trustScore: real, status: Status, syscallCount: nat,
    accessedFiles: map<string, int>, networkSockets: map<string, int>, spawnedSubPIDs: seq<nat>,
    attackPatterns: seq<AttackPattern>, decisions: seq<DecisionSummary>, isPaused: bool, isKilled: bool)
  {
    predicate IsGraphThreat() {
      |attackPatterns| > 0 || trustScore < 50.0 || status == Suspicious || isPaused
    }

    /** The record is marked killed exactly when some decision on it ever claimed a kill: the mark is
        never taken back, whoever bears the PID. */
    ghost predicate KillsNoted() {
      isKilled <==> exists i :: 0 <= i < |decisions| && Kills(decisions[i].action)
    }

    /** The record agrees with the last decision about it. */
    ghost predicate Bears(v: Verdict) {
      && trustScore == v.trust && status == (if Kills(v.action) then Killed else v.status)
      && (v.status == Paused ==> isPaused) && (Kills(v.action) ==> isKilled)
    }
  }

  function Bump(counts: map<string, int>, key: string): map<string, int> {
    counts[key := (if key in counts then counts[key] else 0) + 1]
  }

  function SocketKey(ev: Telemetry): string {
    ev.dstIP + ":" + Digits(ev.dstPort)
  }

  // ---- what each call does to one record ----

  function FreshlyTracked(pid: nat, ppid: nat, comm: string, parentComm: string): ProcessRecord {
    ProcessRecord(pid, ppid, comm, parentComm, 80.0, Unknown, 0, map[], map[], [], [], [], false, false)
  }

  function FreshlyDecided(pid: nat, comm: string): ProcessRecord {
    ProcessRecord(pid, 0, comm, "", 0.0, NoStatus, 0, map[], map[], [], [], [], false, false)
  }

  /** A tracked parent notes a child that is about to be tracked. */
  ghost function WithTracked(procs: map<nat, ProcessRecord>, pid: nat, ppid: nat, comm: string): map<nat, ProcessRecord> {
    if pid in procs then procs
    else if ppid in procs then
      procs[ppid := procs[ppid].(spawnedSubPIDs := procs[ppid].spawnedSubPIDs + [pid])]
           [pid := FreshlyTracked(pid, ppid, comm, procs[ppid].comm)]
    else
      procs[pid := FreshlyTracked(pid, ppid, comm, "")]
  }

  ghost function Touched(d: ProcessRecord, ppid: nat, comm: string, ev: Telemetry): ProcessRecord {
    d.(syscallCount := d.syscallCount + 1,
       comm := if comm != "" then comm else d.comm,
       ppid := if ppid > 0 then ppid else d.ppid,
       accessedFiles := if ev.payload != "" then Bump(d.accessedFiles, ev.payload) else d.accessedFiles,
       networkSockets := if ev.dstIP != "" then Bump(d.networkSockets, SocketKey(ev)) else d.networkSockets)
  }

  ghost function AfterDecision(d: ProcessRecord, v: Verdict, techniqueID: string): ProcessRecord {
    d.(trustScore := v.trust,
       status := if Kills(v.action) then Killed else v.status,
       isPaused := d.isPaused || v.status == Paused,
       isKilled := d.isKilled || Kills(v.action),
       decisions := d.decisions + [DecisionSummary(v.action, v.trust, techniqueID)])
  }

  /** A decision about pid on record; the record is made if there is none. */
  ghost function Recorded(
      procs: map<nat, ProcessRecord>, pid: nat, comm: string, v: Verdict, techniqueID: string): map<nat, ProcessRecord>
  {
    procs[pid := AfterDecision(if pid in procs then procs[pid] else FreshlyDecided(pid, comm), v, techniqueID)]
  }

  // ---- the tallies, against the log ----

  /** What a record counts: every event, those that name a path, those that name an endpoint. */
  datatype Mark = AnyEvent | PathMark(path: string) | EndpointMark(addr: string, port: nat)

  predicate Marked(e: EventRecord, pid: nat, m: Mark) {
    e.pid == pid &&
    match m
    case AnyEvent => true
    case PathMark(path) => path != "" && e.ev.payload == path
    case EndpointMark(addr, port) => addr != "" && e.ev.dstIP == addr && e.ev.dstPort == port
  }

  function Occurrences(log: seq<EventRecord>, pid: nat, m: Mark): nat {
    if log == [] then 0
    else Occurrences(log[..|log| - 1], pid, m) + if Marked(log[|log| - 1], pid, m) then 1 else 0
  }

  function CountIn(counts: map<string, int>, key: string): int {
    if key in counts then counts[key] else 0
  }

  function Tally(d: ProcessRecord, m: Mark): int {
    match m
    case AnyEvent => d.syscallCount
    case PathMark(path) => CountIn(d.accessedFiles, path)
    case EndpointMark(addr, port) => CountIn(d.networkSockets, addr + ":" + Digits(port))
  }

  /** Every tally of every record is the number of such events ever logged, also of those the log has cut. */
  ghost predicate Tallied(procs: map<nat, ProcessRecord>, log: seq<EventRecord>) {
    forall pid: nat, m: Mark :: Occurrences(log, pid, m) == if pid in procs then Tally(procs[pid], m) else 0
  }

  lemma EndpointKeys(a: string, p: nat, b: string, q: nat)
    ensures a + ":" + Digits(p) == b + ":" + Digits(q) <==> a == b && p == q
  {
    if a + ":" + Digits(p) == b + ":" + Digits(q) {
      assert SockId(a, p) == "sock:" + (a + ":" + Digits(p)) && SockId(b, q) == "sock:" + (b + ":" + Digits(q));
      SockIdInjective(a, p, b, q);
    }
  }

  /** Touching counts one event. */
  lemma TouchCounts(d: ProcessRecord, e: EventRecord, ppid: nat, m: Mark)
    ensures Tally(Touched(d, ppid, e.comm, e.ev), m) == Tally(d, m) + if Marked(e, e.pid, m) then 1 else 0
  {
    match m
    case AnyEvent =>
    case PathMark(path) =>
    case EndpointMark(addr, port) =>
      EndpointKeys(addr, port, e.ev.dstIP, e.ev.dstPort);
  }

  lemma TrackedTallied(procs: map<nat, ProcessRecord>, log: seq<EventRecord>, pid: nat, ppid: nat, comm: string)
    requires Tallied(procs, log)
    ensures Tallied(WithTracked(procs, pid, ppid, comm), log)
  {
    var procs' := WithTracked(procs, pid, ppid, comm);
    forall q: nat, m: Mark
      ensures Occurrences(log, q, m) == if q in procs' then Tally(procs'[q], m) else 0
    {
      assert Occurrences(log, q, m) == if q in procs then Tally(procs[q], m) else 0;
    }
  }

  lemma TouchedTallied(procs: map<nat, ProcessRecord>, log: seq<EventRecord>, e: EventRecord)
    requires Tallied(procs, log) && e.pid in procs
    ensures Tallied(procs[e.pid := Touched(procs[e.pid], e.ppid, e.comm, e.ev)], log + [e])
  {
    var procs', log' := procs[e.pid := Touched(procs[e.pid], e.ppid, e.comm, e.ev)], log + [e];
    assert log'[..|log|] == log;
    forall q: nat, m: Mark
      ensures Occurrences(log', q, m) == if q in procs' then Tally(procs'[q], m) else 0
    {
      assert Occurrences(log, q, m) == if q in procs then Tally(procs[q], m) else 0;
      TouchCounts(procs[e.pid], e, e.ppid, m);
    }
  }

  lemma SameTallied(procs: map<nat, ProcessRecord>, procs': map<nat, ProcessRecord>, log: seq<EventRecord>, pid: nat)
    requires Tallied(procs, log) && pid in procs' && procs' == procs[pid := procs'[pid]]
    requires forall m :: Tally(procs'[pid], m) == if pid in procs then Tally(procs[pid], m) else 0
    ensures Tallied(procs', log)
  {
    forall q: nat, m: Mark
      ensures Occurrences(log, q, m) == if q in procs' then Tally(procs'[q], m) else 0
    {
      assert Occurrences(log, q, m) == if q in procs then Tally(procs[q], m) else 0;
      assert q != pid ==> (q in procs' <==> q in procs);
    }
  }

  /** A first event: the process starts with trust 80 and no history, names its parent as far as that one is
      tracked, and is the last of its children; nobody else's record is written. */
  lemma TrackedTells(procs: map<nat, ProcessRecord>, pid: nat, ppid: nat, comm: string, q: nat)
    requires pid !in procs
    ensures var after := WithTracked(procs, pid, ppid, comm);
      && after.Keys == procs.Keys + {pid}
      && after[pid].pid == pid && after[pid].ppid == ppid && after[pid].comm == comm && after[pid].trustScore == 80.0
      && after[pid].decisions == [] && after[pid].attackPatterns == [] && !after[pid].isPaused && !after[pid].isKilled
      && (if ppid in procs then after[pid].parentComm == procs[ppid].comm && pid in after[ppid].spawnedSubPIDs
          else after[pid].parentComm == "")
      && (q in procs && q != ppid ==> after[q] == procs[q])
  {
    if ppid in procs {
      var after := WithTracked(procs, pid, ppid, comm);
      assert after[ppid].spawnedSubPIDs[|procs[ppid].spawnedSubPIDs|] == pid;
    }
  }

  // ---- invariants of the records ----

  ghost function Own(procs: map<nat, ProcessRecord>): map<nat, seq<AttackPattern>> {
    map p | p in procs :: procs[p].attackPatterns
  }

  /** Records are stored under their PID, the pattern index is sound, and every record bears its last verdict. */
  ghost predicate Consistent(procs: map<nat, ProcessRecord>, all: seq<AttackPattern>, verdicts: map<nat, Verdict>) {
    RecordsSound(procs) && Indexed(all, Own(procs)) && VerdictsBorne(procs, verdicts)
  }

  ghost predicate RecordsSound(procs: map<nat, ProcessRecord>) {
    forall p :: p in procs ==> procs[p].pid == p && procs[p].KillsNoted()
  }

  ghost predicate VerdictsBorne(procs: map<nat, ProcessRecord>, verdicts: map<nat, Verdict>) {
    forall p :: p in verdicts ==> p in procs && procs[p].Bears(verdicts[p])
  }

  /** An update that touches neither the patterns nor the verdict fields. */
  lemma UpdateConsistent(
      procs: map<nat, ProcessRecord>, all: seq<AttackPattern>, verdicts: map<nat, Verdict>, pid: nat, d: ProcessRecord)
    requires Consistent(procs, all, verdicts) && pid in procs && d.pid == pid
    requires d.attackPatterns == procs[pid].attackPatterns && d.trustScore == procs[pid].trustScore
    requires d.status == procs[pid].status && d.isPaused == procs[pid].isPaused && d.isKilled == procs[pid].isKilled
    requires d.decisions == procs[pid].decisions
    ensures Consistent(procs[pid := d], all, verdicts)
  {
    assert Own(procs[pid := d]) == Own(procs);
  }

  lemma InsertConsistent(
      procs: map<nat, ProcessRecord>, all: seq<AttackPattern>, verdicts: map<nat, Verdict>, pid: nat, d: ProcessRecord)
    requires Consistent(procs, all, verdicts) && pid !in procs && d.pid == pid && d.attackPatterns == []
    requires d.decisions == [] && !d.isKilled
    ensures Consistent(procs[pid := d], all, verdicts)
  {
    NewProcessIndexed(all, Own(procs), pid);
    assert Own(procs[pid := d]) == Own(procs)[pid := []];
  }

  lemma TrackedConsistent(
      procs: map<nat, ProcessRecord>, all: seq<AttackPattern>, verdicts: map<nat, Verdict>, pid: nat, ppid: nat, comm: string)
    requires Consistent(procs, all, verdicts)
    ensures Consistent(WithTracked(procs, pid, ppid, comm), all, verdicts)
  {
    if pid !in procs {
      if ppid in procs {
        var noted := procs[ppid].(spawnedSubPIDs := procs[ppid].spawnedSubPIDs + [pid]);
        UpdateConsistent(procs, all, verdicts, ppid, noted);
        InsertConsistent(procs[ppid := noted], all, verdicts, pid, FreshlyTracked(pid, ppid, comm, procs[ppid].comm));
      } else {
        InsertConsistent(procs, all, verdicts, pid, FreshlyTracked(pid, ppid, comm, ""));
      }
    }
  }

  lemma TouchedConsistent(
      procs: map<nat, ProcessRecord>, all: seq<AttackPattern>, verdicts: map<nat, Verdict>, pid: nat, ppid: nat, comm: string,
      ev: Telemetry)
    requires Consistent(procs, all, verdicts) && pid in procs
    ensures Consistent(procs[pid := Touched(procs[pid], ppid, comm, ev)], all, verdicts)
  {
    UpdateConsistent(procs, all, verdicts, pid, Touched(procs[pid], ppid, comm, ev));
  }

  lemma DecisionNoted(d: ProcessRecord, v: Verdict, techniqueID: string)
    requires d.KillsNoted()
    ensures AfterDecision(d, v, techniqueID).KillsNoted()
  {
    var d' := AfterDecision(d, v, techniqueID);
    assert d'.decisions[|d.decisions|].action == v.action;
    if d.isKilled {
      var i :| 0 <= i < |d.decisions| && Kills(d.decisions[i].action);
      assert d'.decisions[i] == d.decisions[i];
    }
  }

  lemma RecordedSound(procs: map<nat, ProcessRecord>, pid: nat, comm: string, v: Verdict, techniqueID: string)
    requires RecordsSound(procs)
    ensures RecordsSound(Recorded(procs, pid, comm, v, techniqueID))
  {
    DecisionNoted(if pid in procs then procs[pid] else FreshlyDecided(pid, comm), v, techniqueID);
  }

  lemma RecordedIndexed(procs: map<nat, ProcessRecord>, all: seq<AttackPattern>, pid: nat, comm: string, v: Verdict,
                        techniqueID: string)
    requires Indexed(all, Own(procs))
    ensures Indexed(all, Own(Recorded(procs, pid, comm, v, techniqueID)))
  {
    var procs' := Recorded(procs, pid, comm, v, techniqueID);
    if pid !in procs {
      NewProcessIndexed(all, Own(procs), pid);
      assert Own(procs') == Own(procs)[pid := []];
    } else {
      assert Own(procs') == Own(procs);
    }
  }

  lemma DecidedConsistent(
      procs: map<nat, ProcessRecord>, all: seq<AttackPattern>, verdicts: map<nat, Verdict>, pid: nat, comm: string, v: Verdict,
      techniqueID: string)
    requires Consistent(procs, all, verdicts)
    ensures Consistent(Recorded(procs, pid, comm, v, techniqueID), all, verdicts[pid := v])
  {
    RecordedSound(procs, pid, comm, v, techniqueID);
    RecordedIndexed(procs, all, pid, comm, v, techniqueID);
  }

  function WithPattern(d: ProcessRecord, pat: AttackPattern): ProcessRecord {
    d.(attackPatterns := d.attackPatterns + [pat])
  }

  lemma PatternAddedConsistent(
      procs: map<nat, ProcessRecord>, all: seq<AttackPattern>, verdicts: map<nat, Verdict>, pat: AttackPattern)
    requires Consistent(procs, all, verdicts) && pat.pid in procs && !HasType(procs[pat.pid].attackPatterns, pat.patternType)
    requires pat.techniqueID == TechniqueOf(pat.patternType) && pat.id == PatternId(pat.patternType, pat.pid)
    ensures Consistent(procs[pat.pid := WithPattern(procs[pat.pid], pat)], all + [pat], verdicts)
  {
    AddPatternIndexed(all, Own(procs), pat);
    assert Own(procs[pat.pid := WithPattern(procs[pat.pid], pat)]) == Own(procs)[pat.pid := Own(procs)[pat.pid] + [pat]];
  }

  ghost predicate Describes(pat: AttackPattern, d: ProcessRecord) {
    pat.comm == d.comm && pat.ppid == d.ppid && pat.parentComm == d.parentComm
  }

  /** Pattern detection only appends to the two pattern lists concerned, and adds exactly `types`, with
      the process as it is described at the time. */
  ghost predicate Detected(
      procs: map<nat, ProcessRecord>, all: seq<AttackPattern>, procs': map<nat, ProcessRecord>, all': seq<AttackPattern>,
      pid: nat, types: set<PatternType>) {
    && pid in procs && pid in procs' && all <= all'
    && procs[pid].attackPatterns <= procs'[pid].attackPatterns
    && procs' == procs[pid := procs[pid].(attackPatterns := procs'[pid].attackPatterns)]
    && (forall t :: HasType(procs'[pid].attackPatterns, t) <==> HasType(procs[pid].attackPatterns, t) || t in types)
    && (forall i :: |procs[pid].attackPatterns| <= i < |procs'[pid].attackPatterns| ==>
          Describes(procs'[pid].attackPatterns[i], procs[pid]))
  }

  lemma PatternDetected(procs: map<nat, ProcessRecord>, all: seq<AttackPattern>, pat: AttackPattern)
    requires pat.pid in procs && Describes(pat, procs[pat.pid])
    ensures Detected(procs, all, procs[pat.pid := WithPattern(procs[pat.pid], pat)], all + [pat], pat.pid, {pat.patternType})
    ensures HasType(procs[pat.pid].attackPatterns, pat.patternType) ==> Detected(procs, all, procs, all, pat.pid, {pat.patternType})
  {
    HasTypeAppend(procs[pat.pid].attackPatterns, pat);
  }

  lemma DetectedMore(
      p0: map<nat, ProcessRecord>, a0: seq<AttackPattern>, p1: map<nat, ProcessRecord>, a1: seq<AttackPattern>,
      p2: map<nat, ProcessRecord>, a2: seq<AttackPattern>, pid: nat, s: set<PatternType>, t: set<PatternType>)
    requires Detected(p0, a0, p1, a1, pid, s) && Detected(p1, a1, p2, a2, pid, t)
    ensures Detected(p0, a0, p2, a2, pid, s + t)
  {
  }

  /** The pattern types one event triggers. */
  ghost function Triggered(comm: string, ev: Telemetry): set<PatternType> {
    set t | t in {StagingScript, C2Beacon, CredentialProbe, Persistence} && Triggers(t, comm, ev)
  }

  lemma TriggeredIs(comm: string, ev: Telemetry, s1: set<PatternType>, s2: set<PatternType>, s3: set<PatternType>, s4: set<PatternType>)
    requires s1 == (if StagesScript(ev) then {StagingScript} else {}) && s2 == (if CallsHome(comm, ev) then {C2Beacon} else {})
    requires s3 == (if ProbesCredentials(comm, ev) then {CredentialProbe} else {})
    requires s4 == (if Persists(comm, ev) then {Persistence} else {})
    ensures s1 + s2 + s3 + s4 == Triggered(comm, ev)
  {
  }

  /** A process's patterns after an event: the types it is expected to have, each as it should be named. */
  ghost predicate PatternsExpected(before: map<nat, ProcessRecord>, d: ProcessRecord, pid: nat, ev: Telemetry) {
    && Expected(d.comm, ev, if pid in before then TypesIn(before[pid].attackPatterns) else {}, TypesIn(d.attackPatterns))
    && forall i :: 0 <= i < |d.attackPatterns| ==> d.attackPatterns[i].pid == pid && Named(d.attackPatterns[i])
  }

  lemma DetectedIsExpected(
      before: map<nat, ProcessRecord>, counted: map<nat, ProcessRecord>, all: seq<AttackPattern>,
      after: map<nat, ProcessRecord>, all': seq<AttackPattern>, verdicts: map<nat, Verdict>, pid: nat, ev: Telemetry)
    requires pid in counted && counted[pid].attackPatterns == if pid in before then before[pid].attackPatterns else []
    requires Detected(counted, all, after, all', pid, Triggered(counted[pid].comm, ev)) && Consistent(after, all', verdicts)
    ensures PatternsExpected(before, after[pid], pid, ev)
  {
    var comm, was, list := counted[pid].comm, counted[pid].attackPatterns, after[pid].attackPatterns;
    forall t
      ensures t in TypesIn(list) <==> t in TypesIn(was) || Triggers(t, comm, ev)
    {
      TypesInIff(list, t);
      TypesInIff(was, t);
      assert t.StagingScript? || t.C2Beacon? || t.CredentialProbe? || t.Persistence?;
    }
    TriggeredIsExpected(comm, ev, TypesIn(was), TypesIn(list));
    OwnListOf(all', Own(after), pid);
    OwnListNamed(list, pid);
  }

  lemma HasTypeAppend(list: seq<AttackPattern>, pat: AttackPattern)
    ensures forall t :: HasType(list + [pat], t) <==> HasType(list, t) || t == pat.patternType
  {
    forall t
      ensures HasType(list + [pat], t) <==> HasType(list, t) || t == pat.patternType
    {
      var grown := list + [pat];
      assert grown[|list|] == pat;
      if HasType(list, t) {
        var i :| 0 <= i < |list| && list[i].patternType == t;
        assert grown[i].patternType == t;
      }
      if HasType(grown, t) {
        var i :| 0 <= i < |grown| && grown[i].patternType == t;
        assert i < |list| ==> list[i].patternType == t;
      }
    }
  }

  /** The records the dashboard shows: not killed, and still running (PID 0 never is). */
  ghost function Live(procs: map<nat, ProcessRecord>, alive: set<nat>): set<nat> {
    set p | p in procs && !procs[p].isKilled && p != 0 && p in alive
  }

  class Store {
    var processes: map<nat, ProcessRecord>
    var events: seq<EventRecord>
    var attackPatterns: seq<AttackPattern>
    var eventCounter: nat
    ghost var history: seq<EventRecord>
    ghost var verdicts: map<nat, Verdict>

    /** The event log is the newest 10000 events, numbered from 1 without gaps. */
    ghost predicate EventsLogged()
      reads this
    {
      && events == LastOf(history, MAX_EVENTS) && |history| == eventCounter
      && forall i :: 0 <= i < |history| ==> history[i].id == i + 1
    }

    ghost predicate Valid()
      reads this
    {
      EventsLogged() && Consistent(processes, attackPatterns, verdicts) && Tallied(processes, history)
    }

    constructor ()
      ensures Valid() && processes == map[] && attackPatterns == [] && eventCounter == 0 && verdicts == map[] && history == []
    {
      processes, events, attackPatterns, eventCounter := map[], [], [], 0;
      history, verdicts := [], map[];
    }

    method AppendEvent(pid: nat, ppid: nat, comm: string, ev: Telemetry, ret: int)
      requires EventsLogged()
      modifies this`events, this`eventCounter, this`history
      ensures EventsLogged()
      ensures history == old(history) + [EventRecord(old(eventCounter) + 1, pid, ppid, comm, ev, ret)]
    {
      eventCounter := eventCounter + 1;
      var evt := EventRecord(eventCounter, pid, ppid, comm, ev, ret);
      LastOfAppend(history, evt, MAX_EVENTS);
      events := events + [evt];
      if |events| > MAX_EVENTS {
        events := events[|events| - MAX_EVENTS..];
      }
      history := history + [evt];
    }

    /** The record of pid is created on its first event, when a tracked parent also notes the child. */
    method TrackProcess(pid: nat, ppid: nat, comm: string)
      modifies this`processes
      ensures processes == WithTracked(old(processes), pid, ppid, comm)
    {
      if pid !in processes {
        var parentComm := "";
        if ppid in processes {
          parentComm := processes[ppid].comm;
          processes := processes[ppid := processes[ppid].(spawnedSubPIDs := processes[ppid].spawnedSubPIDs + [pid])];
        }
        processes := processes[pid := FreshlyTracked(pid, ppid, comm, parentComm)];
      }
    }

    method Touch(pid: nat, ppid: nat, comm: string, ev: Telemetry)
      requires pid in processes
      modifies this`processes
      ensures processes == old(processes)[pid := Touched(old(processes)[pid], ppid, comm, ev)]
    {
      var proc := processes[pid];
      proc := proc.(syscallCount := proc.syscallCount + 1);
      if comm != "" {
        proc := proc.(comm := comm);
      }
      if ppid > 0 {
        proc := proc.(ppid := ppid);
      }
      if ev.payload != "" {
        proc := proc.(accessedFiles := Bump(proc.accessedFiles, ev.payload));
      }
      if ev.dstIP != "" {
        proc := proc.(networkSockets := Bump(proc.networkSockets, SocketKey(ev)));
      }
      processes := processes[pid := proc];
    }

    /** Appends to both lists unless the process has a pattern of that type and technique already. */
    method AddPatternIfNotExists(pid: nat, pat: AttackPattern)
      requires Consistent(processes, attackPatterns, verdicts) && pid in processes && pat.pid == pid
      requires pat.techniqueID == TechniqueOf(pat.patternType) && pat.id == PatternId(pat.patternType, pid)
      modifies this`attackPatterns, this`processes
      ensures Consistent(processes, attackPatterns, verdicts)
      ensures HasType(old(processes)[pid].attackPatterns, pat.patternType) ==> unchanged(this)
      ensures !HasType(old(processes)[pid].attackPatterns, pat.patternType) ==>
                && attackPatterns == old(attackPatterns) + [pat]
                && processes == old(processes)[pid := WithPattern(old(processes)[pid], pat)]
    {
      OwnListOf(attackPatterns, Own(processes), pid);
      var list := processes[pid].attackPatterns;
      for i := 0 to |list|
        invariant forall k :: 0 <= k < i ==> list[k].patternType != pat.patternType
      {
        var existing := list[i];
        if existing.patternType == pat.patternType && existing.techniqueID == pat.techniqueID {
          return;
        }
      }
      PatternAddedConsistent(processes, attackPatterns, verdicts, pat);
      processes := processes[pid := WithPattern(processes[pid], pat)];
      attackPatterns := attackPatterns + [pat];
    }

    /** One check: if it fires, the process ends with the pattern type. */
    method DetectOne(fires: bool, pid: nat, t: PatternType)
      requires Consistent(processes, attackPatterns, verdicts) && pid in processes
      modifies this`attackPatterns, this`processes
      ensures Consistent(processes, attackPatterns, verdicts)
      ensures Detected(old(processes), old(attackPatterns), processes, attackPatterns, pid, if fires then {t} else {})
    {
      if fires {
        var proc := processes[pid];
        var pat := AttackPattern(PatternId(t, pid), pid, proc.comm, proc.ppid, proc.parentComm, TechniqueOf(t), t);
        PatternDetected(processes, attackPatterns, pat);
        AddPatternIfNotExists(pid, pat);
      }
    }

    /** Four independent checks on one event. Afterwards the process has exactly the pattern types it
        had before and those the event triggers. */
    method DetectAttackPatterns(pid: nat, ev: Telemetry)
      requires Consistent(processes, attackPatterns, verdicts) && pid in processes
      modifies this`attackPatterns, this`processes
      ensures Consistent(processes, attackPatterns, verdicts)
      ensures Detected(old(processes), old(attackPatterns), processes, attackPatterns, pid,
                       Triggered(old(processes)[pid].comm, ev))
    {
      var comm := processes[pid].comm;
      ghost var p0, a0 := processes, attackPatterns;
      DetectOne(StagesScript(ev), pid, StagingScript);
      ghost var s1 := if StagesScript(ev) then {StagingScript} else {};
      ghost var p1, a1 := processes, attackPatterns;
      DetectOne(CallsHome(comm, ev), pid, C2Beacon);
      ghost var s2 := if CallsHome(comm, ev) then {C2Beacon} else {};
      DetectedMore(p0, a0, p1, a1, processes, attackPatterns, pid, s1, s2);
      ghost var p2, a2 := processes, attackPatterns;
      DetectOne(ProbesCredentials(comm, ev), pid, CredentialProbe);
      ghost var s3 := if ProbesCredentials(comm, ev) then {CredentialProbe} else {};
      DetectedMore(p0, a0, p2, a2, processes, attackPatterns, pid, s1 + s2, s3);
      ghost var p3, a3 := processes, attackPatterns;
      DetectOne(Persists(comm, ev), pid, Persistence);
      ghost var s4 := if Persists(comm, ev) then {Persistence} else {};
      DetectedMore(p0, a0, p3, a3, processes, attackPatterns, pid, s1 + s2 + s3, s4);
      assert s1 + s2 + s3 + s4 == Triggered(comm, ev) by {
        TriggeredIs(comm, ev, s1, s2, s3, s4);
      }
    }

    /** One raw event: logged, counted on its process, and checked for attack patterns. */
    method RecordEvent(pid: nat, ppid: nat, comm: string, ev: Telemetry, ret: int)
      requires Valid()
      modifies this
      ensures Valid() && verdicts == old(verdicts)
      ensures history == old(history) + [EventRecord(old(eventCounter) + 1, pid, ppid, comm, ev, ret)]
      ensures var before := WithTracked(old(processes), pid, ppid, comm);
              var counted := before[pid := Touched(before[pid], ppid, comm, ev)];
              Detected(counted, old(attackPatterns), processes, attackPatterns, pid, Triggered(counted[pid].comm, ev))
      ensures pid in processes && PatternsExpected(old(processes), processes[pid], pid, ev)
    {
      AppendEvent(pid, ppid, comm, ev, ret);
      ghost var log, e := old(history), history[|old(history)|];
      TrackedConsistent(processes, attackPatterns, verdicts, pid, ppid, comm);
      TrackedTallied(processes, log, pid, ppid, comm);
      TrackProcess(pid, ppid, comm);
      TouchedConsistent(processes, attackPatterns, verdicts, pid, ppid, comm, ev);
      TouchedTallied(processes, log, e);
      Touch(pid, ppid, comm, ev);
      ghost var counted := processes;
      DetectAttackPatterns(pid, ev);
      SameTallied(counted, processes, history, pid);
      DetectedIsExpected(old(processes), counted, old(attackPatterns), processes, attackPatterns, verdicts, pid, ev);
    }

    method Decided(d: ProcessRecord, trust: real, status: Status, action: Action, techniqueID: string) returns (proc: ProcessRecord)
      ensures proc == AfterDecision(d, Verdict(trust, status, action), techniqueID)
    {
      proc := d.(trustScore := trust, status := status);
      if status == Paused {
        proc := proc.(isPaused := true);
      }
      if Kills(action) {
        proc := proc.(isKilled := true, status := Killed);
      }
      proc := proc.(decisions := proc.decisions + [DecisionSummary(action, trust, techniqueID)]);
    }

    /** The engine's decision about one process. */
    method RecordDecision(pid: nat, comm: string, trust: real, status: Status, action: Action, techniqueID: string)
      requires Valid()
      modifies this`processes, this`verdicts
      ensures Valid() && verdicts == old(verdicts)[pid := Verdict(trust, status, action)]
      ensures processes == Recorded(old(processes), pid, comm, Verdict(trust, status, action), techniqueID)
    {
      DecidedConsistent(processes, attackPatterns, verdicts, pid, comm, Verdict(trust, status, action), techniqueID);
      SameTallied(processes, Recorded(processes, pid, comm, Verdict(trust, status, action), techniqueID), history, pid);
      var proc := Decided(if pid in processes then processes[pid] else FreshlyDecided(pid, comm), trust, status, action, techniqueID);
      processes := processes[pid := proc];
      verdicts := verdicts[pid := Verdict(trust, status, action)];
    }
  }
}
