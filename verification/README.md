# Kernel Security Monitor: a verified model

This project models the userspace core of the Kernel Security Monitor and the two places where it meets
the kernel, and proves what they promise. `dafny verify dfyconfig.toml` checks all of it.

The monitor reads exec, open and connect events from an eBPF ring buffer. Every event that gets a
rate-limit token goes into an in-memory store and a causal graph. A process that is not trusted is then
scored: behavioural features go to a sidecar, a conformal p-value comes back, a trust score is blended and
pushed down the process tree, and a response engine observes, pauses or denies. A dashboard shows a process
forest and a threat graph, and an event stream feeds it.

The modules, from the ground up:

- `Decimal`, `NodeIds`: node and edge IDs are strings, and everything keyed by them rests on their being injective.
- `Wrappers`, `Forest`, `Ordering`, `EdgeLists`, `SlidingWindow`: missing values, parent links that may be cyclic, sorting by a strict total order,
  adjacency lists and reachability, windows.
- `Provenance`, `Trust`, `Features` (`internal/graph`): the causal graph with its five indexes and shared nodes, trust
  propagation, breadth-first search, ancestor walk, trust scores and features.
- `Conformal` (`sidecar`, `internal/response`): p-values by counting, tiers, and the tier computed a second time from a
  rounded p-value.
- `DenyProtocol`, `ResponseEngine` (`internal/sensor/loader.go`, `bpf/lsm.c`, `internal/response/engine.go`): the deny map
  shared with the exec hook, and the mode-driven engine.
- `AttackPatterns`, `Store`, `EvidenceRanking`, `ProcessTree`, `ThreatGraph` (`internal/db/store.go`): the store and the
  two structures derived from it.
- `Lineage` (`cmd/sensor/main.go`): what events make of the graph, and when its edges and its parent links stay free of
  cycles, over whole runs.
- `Pipeline` (`cmd/sensor/main.go`): one event from start to finish, what operators do between events, and whole sessions
  over the real objects.
- `Claims` (`internal/db/store.go`, `internal/response/engine.go`): what a record says was done to a process, against what was.
- `Throttle`, `SseHub` (`cmd/sensor/main.go`): rate limits and cooldowns; the event-stream hub under every interleaving.
- `Wire` (`bpf/sensor.c`, `internal/sensor/events.go`): the byte layout of a record and how it is read back.
- `Intake` (`internal/sensor`, `cmd/sensor/main.go`): from a record's bytes to the edges it draws.

Objects the program updates in place are classes here (`CausalGraph`, its `Node`s, `TrustScorer`, `FeatureExtractor`,
`Engine`, `DenyPath`, `Store`, `TreeNode`), and its loops are loops; each is proved against a specification function or
predicate, about which the lemmas then speak. What the outside world answers (liveness of a PID, the clock, whether a
signal arrives, the outcome of a checkpoint, the p-value) is a parameter.

Where the program and its own documentation disagree, the model follows the program:

- The repository's `README.md`, line 13, calls the causal graph a DAG. Nothing enforces it: an exec draws an edge from its
  parent PID to its PID, as the kernel reports them, and PIDs are reused. `Lineage.RunIsDagIff` says that the graph is a DAG
  exactly as long as no exec names a parent its process leads to already, `Lineage.DagCanClose` gives two execs that close
  a cycle.
- The parent links, down which trust is pushed, are another relation: each process keeps the first PPID it was seen with.
  They may form a cycle too (`Lineage.RunKeepsLinksIff`, `Lineage.LinksCanClose`), also when the graph does not, and
  the other way round. The recursion down them has no visited set: it returns exactly off the cycles
  (`Forest.ReturnsIffOffCycle`), so an event is handled to its end exactly when its process is trusted or off every cycle
  (`Lineage.HandledIff`).
- The dashboard leaves out killed processes (`internal/db/store.go:493`, `:612-616`), but a record says killed once a decision
  claimed a kill, not once the process was stopped, and it says so for ever. `Claims.HiddenIffClaimed` says that a running
  process is hidden exactly when a kill was ever claimed for its PID, and `Claims.HiddenIff` which decisions hide one that
  they sent no SIGKILL: all that put the PID into the deny map, which refuses its next exec and lets it run on
  (`Claims.DeniedRunsOn`); those whose confirmed deny went no way (`Claims.HiddenUntouched`); and any about a PID for which
  a kill was claimed before, its bearer now a new process (`Claims.ReusedPidIsHidden`).
- A record says paused once an automatic pause was recorded, and for ever, whatever operators do: `Claims.PausedAgreesIff` and
  `Claims.OperatorAgreesIff` say when it agrees with the engine, `Claims.ResumedIsStillThreat` gives a process that is
  resumed and scored Low and stays a threat of the graph.
- `internal/sensor/events.go:38` says the Go struct must match the C struct exactly. The reader assumes a packed layout, the
  C compiler aligns: from `dst_ip4` on the fields are misread. `Wire.PackedAgreesIff` says on which records the two agree.
  So no open is ever received as a write, and no run has a write edge (`Intake.NoWriteEdges`).
- `internal/graph/graph.go:129` says a process node is added or updated. An existing node is returned as it is.
- `internal/db/store.go:493` promises a live process view. A process whose ancestors form a cycle is in no part of it
  (`ProcessTree.ShownIffNoCycleAbove`).

## Model

| member | source | states |
|---|---|---|
| Decimal.ValueOfDigits | internal/graph/graph.go:134 | reading a printed number back gives the number |
| Decimal.DigitsInjective | internal/graph/graph.go:134 | two numbers that print alike are equal |
| Decimal.Uitoa | internal/graph/features.go:161-175 | the digit loop and the in-place reversal print what `%d` prints, for every input |
| NodeIds.ProcIdInjective | internal/graph/graph.go:134 | process node IDs determine the PID |
| NodeIds.EdgeIdInjective | internal/graph/graph.go:288 | edge IDs determine the edge's number |
| NodeIds.FileIdInjective | internal/graph/graph.go:239 | file node IDs determine the path |
| NodeIds.SockIdInjective | internal/graph/graph.go:262 | socket node IDs determine address and port, although addresses may contain colons |
| NodeIds.PrefixesDisjoint | internal/graph/graph.go:134-262 | nodes of different kinds never share an ID |
| Forest.UniqueDistance | internal/graph/graph.go:451-459 | off a cycle, a descendant is reached at one distance only |
| Forest.SubtreesDisjoint | internal/graph/graph.go:451-459 | the children of a process off every cycle have disjoint subtrees, so the recursion writes each node once |
| Forest.DescendantsShrink | internal/graph/graph.go:451-459 | the recursion descends: a child has strictly fewer descendants than a parent off every cycle |
| Forest.ReturnsIffOffCycle | internal/graph/graph.go:451-459 | a recursion over the children without a visited set returns if and only if it starts off every cycle of the parent links |
| Forest.AddLinkAcyclicIff | internal/graph/graph.go:152-154 | adding a process keeps the links acyclic if and only if its parent is neither itself nor listed below it |
| Forest.RootedIffNoCycleAbove | internal/db/store.go:522-533 | walking up from a PID ends at a root if and only if no ancestor is on a cycle |
| Forest.OneRootOneDepth | internal/db/store.go:567-585 | the walk from the roots meets each PID under one root and at one depth, so once |
| Forest.MutualParents | internal/db/store.go:522-533 | two PIDs that name each other as parent hang below no root, and a recursion from either never returns |
| Ordering.SortedIsUnique | internal/db/store.go:551-556 | under a strict total order the sorted arrangement of given elements is unique, though the sort is not stable |
| Ordering.StringLessIff | internal/db/store.go:551-556 | a text comes before another exactly when it is a proper beginning of it or has the smaller character where they first differ |
| Ordering.SortSlice | internal/db/store.go:568-581 | the result of sorting is a sorted permutation of the argument |
| EdgeLists.IndexedEdgesDistinct | internal/graph/graph.go:286-297 | edges indexed by number are pairwise distinct |
| EdgeLists.FromMembers | internal/graph/graph.go:296 | the outgoing list of an ID holds exactly its edges |
| EdgeLists.IntoMembers | internal/graph/graph.go:297 | the incoming list of an ID holds exactly its edges |
| EdgeLists.ClosedSetHoldsReachable | internal/graph/graph.go:371-383 | a set closed under edges holds everything reachable from its members |
| EdgeLists.SearchEnds | internal/graph/graph.go:371-383 | when the queue runs empty, what was expanded is exactly what is reachable |
| EdgeLists.ReachableWithEdge | internal/graph/graph.go:282-300 | a path over one more edge takes it or does not |
| EdgeLists.AppendAcyclicIff | internal/graph/graph.go:282-300 | one more edge keeps the graph a DAG if and only if its source could not be reached from its target |
| Provenance.CausalGraph.constructor | internal/graph/graph.go:119-127 | the empty graph has sound indexes and acyclic links |
| Provenance.CausalGraph.AddProcessNode | internal/graph/graph.go:130-167 | finds the process or creates it with the inherited trust, listed once under its PPID, in both node indexes as the same object; every index stays sound and trust in range |
| Provenance.InheritedNeverRises | internal/graph/graph.go:155-162 | a child never starts above its parent, level with it exactly when the parent has at least 70, or 0, and otherwise at nine tenths of it |
| Provenance.CausalGraph.AddFileNode | internal/graph/graph.go:235-255 | finds or creates the one node of a path; the indexes stay sound |
| Provenance.CausalGraph.AddSocketNode | internal/graph/graph.go:258-279 | finds or creates the one node of an endpoint; the indexes stay sound |
| Provenance.CausalGraph.AddEdge | internal/graph/graph.go:282-300 | appends the edge numbered next and keeps the edge list the disjoint union of the outgoing lists and of the incoming lists |
| Provenance.CausalGraph.SetProcessTrust | internal/graph/graph.go:170-181 | writes one process, through either index the same node, and no other |
| Provenance.CausalGraph.UpdateTrust | internal/graph/graph.go:438-449 | writes the node; below a process, every descendant k generations down ends with t times 0.85 to the k, and no other node changes; trust stays in range |
| Provenance.CausalGraph.PropagateTrust | internal/graph/graph.go:451-459 | the recursion does exactly that and returns |
| Provenance.FadedIsPower | internal/graph/graph.go:455 | k decays in a row are t times 0.85 to the k |
| Provenance.FadedRange | internal/graph/graph.go:455 | decayed trust stays between 0 and the trust it came from |
| Provenance.PropagatedStaysInRange | internal/graph/graph.go:451-459 | propagation keeps every trust in 0 to 100 |
| Provenance.CausalGraph.Subgraph | internal/graph/graph.go:353-386 | the search returns exactly the nodes reachable over outgoing edges and exactly their outgoing edges, each once; no node is nil when edge endpoints exist |
| Provenance.CausalGraph.AncestryDepth | internal/graph/graph.go:333-350 | on any parent map the walk returns the first step that meets an untracked PID, a PID at most 1 or a PID again, which is at most the number of processes |
| Provenance.CausalGraph.Stats | internal/graph/graph.go:412-435 | each count is the number of nodes of its kind, processes number as the tracked PIDs, and the counts add up |
| Provenance.ProcessesAreTracked | internal/graph/graph.go:149-150 | there are as many process nodes as tracked PIDs |
| Conformal.CountIsCardinality | sidecar/conformal.py:55 | the count is the number of calibration scores at most the new one |
| Conformal.PValueIsRatio | sidecar/conformal.py:53-58 | with scores loaded the p-value is a fraction k/(n+1) in the range 1/(n+1) to 1, so clipping never acts |
| Conformal.PValueMonotone | sidecar/conformal.py:40-58 | a less anomalous score never gets a smaller p-value |
| Conformal.FlaggedIffLowRank | sidecar/conformal.py:55-58 | a held-out score has p at most alpha if and only if its rank among all n+1 scores is at most alpha(n+1) |
| Conformal.FalsePositivesBounded | sidecar/conformal.py:40-58 | of any n+1 scores, each scored against the other n, at most alpha(n+1), rounded down, get p at most alpha, at every level alpha |
| Conformal.FalsePositivesExact | sidecar/conformal.py:40-58 | the bound is attained at every level when no two scores tie |
| Conformal.TierRatesBounded | sidecar/conformal.py:61-75 | at most 5% of benign scores come out high and at most 15% medium or high |
| Conformal.RoundedMillionths | sidecar/scorer.py:119 | rounding to six decimals gives a nearest millionth, ties to even |
| Conformal.ThresholdRounded | internal/response/engine.go:56-65 | a rounded p-value passes a threshold only if the exact one does, and misses it if and only if the exact one is above it by at most half a millionth |
| Conformal.TiersAgreeIff | internal/response/engine.go:56-65 | the sidecar's tier and the engine's tier agree if and only if the exact p-value is not within half a millionth above a threshold |
| Conformal.TiersAgreeBelow100000 | sidecar/scorer.py:111-120 | with fewer than 100000 scores the two tiers always agree, however ties are rounded |
| Conformal.TiersCanDiffer | internal/response/engine.go:56-65 | at p = 5001/100019 the sidecar says medium and the engine high |
| Trust.ComputeTrustRange | internal/graph/trust.go:51-73 | a computed trust is between 0 and 100, whatever the inputs |
| Trust.ComputeTrustMonotone | internal/graph/trust.go:51-73 | a higher p-value, a better parent and a milder technique never lower the trust |
| Trust.RoundCentsNear | internal/graph/trust.go:72 | rounding moves a trust by at most half a cent |
| Trust.TierCapsTrust | internal/graph/trust.go:51-73 | a High decision has trust at most 28 and is hostile, a Medium one at most 33, and nobody scored exceeds 75.5 |
| Trust.SignalsWeigh | internal/graph/trust.go:51-73 | for all inputs the trust is within half a cent of 50 per unit of p-value plus 0.255 per point of the parent less 2 per point of severity, or the bound where that passes it |
| Trust.CapsAttained | internal/graph/trust.go:51-73 | the three caps are attained |
| Trust.TrustedNeedsHighPValue | internal/graph/trust.go:99-108 | a scored process is in the trusted band only with a p-value of at least 0.8899 |
| Trust.TrustScorer.ParentTrustRange | internal/graph/trust.go:78-90 | the parent's trust used for scoring is in range |
| Trust.TrustScorer.ParentLends | internal/graph/trust.go:78-90 | the process one link up, if it is tracked, lends its current trust; without one it is 100 |
| Trust.TrustScorer.UpdateProcessTrust | internal/graph/trust.go:76-96 | scores with the parent trust given, or for 0 the parent's current one, or full trust for want of a tracked parent, pushes the result to the process and below, and writes no other node |
| SlidingWindow.LastOfAppend | internal/graph/features.go:72-77 | appending and cutting to the window's size gives the last elements of everything appended |
| Features.FeatureExtractor.RecordSyscall | internal/graph/features.go:68-78 | each window holds exactly the last 50 syscalls recorded for its process |
| Features.FeatureExtractor.NgramRarity | internal/graph/features.go:123-155 | the mean rarity over the trigrams of the last 50 syscalls, between 0 and 1 for a frequency table |
| Features.RaritySumRange | internal/graph/features.go:137-149 | n trigrams have a rarity between 0 and n in all |
| Features.RarityComplements | internal/graph/features.go:137-149 | over any number of trigrams, rarity and baseline frequency add up to 1 each |
| Features.UnseenIsRare | internal/graph/features.go:137-149 | trigrams the baseline never saw are worth 1 each |
| Features.CommonerIsLessRare | internal/graph/features.go:137-149 | a baseline in which they occur at least as often never makes them rarer |
| Features.TrigramInjective | internal/graph/features.go:138 | different names without commas make different trigrams |
| Features.FeatureExtractor.FanOutDegree | internal/graph/features.go:93-96 | the number of edges that leave the node |
| Features.FeatureExtractor.EdgeTypeEntropy | internal/graph/features.go:99-119 | Shannon entropy of the types of the outgoing edges, in whatever order the counts are ranged over |
| Features.CountsSumToDegree | internal/graph/features.go:105-108 | the counts by type add up to the out-degree |
| Features.EntropyRange | internal/graph/features.go:99-119 | entropy lies between 0 and log2 of 5, from the laws of the logarithm alone |
| DenyProtocol.DenyPath.Put | internal/sensor/loader.go:199 | a put is accepted while the map has room, so it never exceeds 256 entries, and the accounting of puts and denials balances |
| DenyProtocol.DenyPath.DenyExec | internal/sensor/loader.go:196-207 | a put where the map is usable and takes the PID, SIGKILL only otherwise; it succeeds if and only if the one or the other does, and every success is accounted for by one put or one SIGKILL |
| DenyProtocol.DenyPath.SignalKill | internal/sensor/loader.go:209-219 | succeeds if and only if the process is found and the signal delivered |
| DenyProtocol.DenyPath.BprmCheck | bpf/lsm.c:36-84 | an earlier denial is passed on and consumes nothing; otherwise exactly the PIDs in the map are denied, and taken out; the kill event needs ring-buffer room, the denial does not |
| DenyProtocol.PromisesAreKept | bpf/lsm.c:45-83 | per PID, successful calls of DenyExec number exactly its denials, plus one if it is pending, plus the puts over a pending one, plus its SIGKILLs; denials plus one if it is pending never exceed the successful puts |
| ResponseEngine.StoppedIsAbove10 | internal/response/engine.go:205-207 | a PID whose last stop or continue was a stop is above 10 |
| ResponseEngine.StoppedIffLastStopped | internal/response/engine.go:203-229 | a PID is among the stopped ones if and only if the last signal that reached it was a stop |
| ResponseEngine.TableIsSafe | internal/response/engine.go:448-559 | for every mode, tier and answer the decision table does at most one thing, safe, keeps the stopped PIDs listed and the loader's puts and SIGKILLs accounted for, and never says protected_log_only |
| ResponseEngine.DeniedIff | internal/response/engine.go:502-559 | a deny is issued exactly in enforce mode at High or at a confirmed Medium, and goes the way the loader takes |
| ResponseEngine.StoppedIff | internal/response/engine.go:472-494 | a stop is issued exactly in pause mode at p of at most 0.15 for a process not stopped already |
| ResponseEngine.AccountsTell | internal/sensor/loader.go:196-219 | the loader's accounts before and after a decision tell which way it took: one put more, one SIGKILL more, or neither |
| ResponseEngine.KillClaimedIff | internal/response/engine.go:527-557 | a decision says kill or verified_kill if and only if its deny took the map, took SIGKILL, or was a confirmed one that went no way |
| ResponseEngine.AnsweredAsPromised | internal/response/engine.go:448-559 | each action, status and verify answer occurs if and only if mode, p against 0.05 and 0.15, the stopped PIDs, the stop signal, the availability of verification, its answer and the outcome of the deny are as listed for it |
| ResponseEngine.WithIff | internal/response/engine.go:329-355 | trusting a name and a PID adds those and no others, an empty name and PID 0 standing for none |
| ResponseEngine.Engine.constructor | internal/response/engine.go:347-355 | the engine starts in observe mode with an empty, safe trace |
| ResponseEngine.Engine.PauseProcess | internal/response/engine.go:203-216 | refuses PIDs up to 10; a PID is listed as paused exactly when its last successful signal was a stop |
| ResponseEngine.Engine.ResumeProcess | internal/response/engine.go:219-229 | the same for continue |
| ResponseEngine.Engine.KillProcess | internal/response/engine.go:251-271 | refuses PIDs up to 10; every other attempt is sent and put at the head of the action log, with its result |
| ResponseEngine.Engine.AppendActionLog | internal/response/engine.go:274-281 | newest first, at most 200 |
| ResponseEngine.Engine.GetSuspiciousBelow | internal/response/engine.go:308-326 | one decision for each process ever below the threshold: the newest, the first recorded among equal times |
| ResponseEngine.NextDecision | internal/response/engine.go:313-320 | one more decision keeps the newest per process |
| ResponseEngine.Engine.TrustProcess | internal/response/engine.go:329-344 | adds the name and the PID to the trusted ones and sets the process, and no other, to full trust |
| ResponseEngine.Engine.Respond | internal/response/engine.go:386-565 | a trusted process is let through, recorded as known at Low with trust 100, every other trust, the ledger and the deny map as they were; any other decision says exactly the action, status and verify answer its mode, p-value and circumstances call for, is recorded to the last field with the trust pushed down the tree; every stop and deny issued so far is safe, and the loader's accounts are the engine's |
| ResponseEngine.Engine.AllowTrusted | internal/response/engine.go:394-416 | the decision for a known process, and its trust, no other, forced to 100 |
| ResponseEngine.Engine.ScoreProcess | internal/response/engine.go:418-446 | tier, trust and causal summary; descendants get the decayed trust, no other process changes |
| ResponseEngine.Engine.CausalSummary | internal/response/engine.go:439-446 | the numbers of nodes reachable from the process and of edges that leave them, none when it has no node |
| ResponseEngine.Engine.ActOnTier | internal/response/engine.go:448-565 | each mode does what its table says, with the action that AnsweredAsPromised ties to p-value and circumstances, and the decision is put on record |
| ResponseEngine.Engine.PauseTier | internal/response/engine.go:472-494 | pause mode stops Medium and High processes that are not stopped already |
| ResponseEngine.Engine.EnforceTier | internal/response/engine.go:502-559 | enforce mode denies High, and Medium only after confirmation; the outcome of the deny decides between kill and kill_failed |
| ResponseEngine.Engine.IssueDeny | internal/response/engine.go:527-557 | one deny, issued in enforce mode for an untrusted PID above 100, that goes the way the loader takes |
| AttackPatterns.PatternIdInjective | internal/db/store.go:290-350 | pattern IDs determine type and PID |
| AttackPatterns.AddPatternIndexed | internal/db/store.go:373-374 | appending a pattern to both lists keeps the global list, filtered by PID, equal to each process's own, in order |
| AttackPatterns.PatternsDistinct | internal/db/store.go:367-375 | no process is listed twice with one pattern type, and pattern IDs are globally unique |
| AttackPatterns.GlobalListBounded | internal/db/store.go:367-375 | the global list holds at most four patterns per tracked process |
| AttackPatterns.TriggeredIsExpected | internal/db/store.go:286-362 | for every name and event the types a process has afterwards are those it had and those whose circumstances, spelled out by place, ending, content, address, port and name, are met |
| AttackPatterns.ExpectedOf | internal/db/store.go:286-362 | a connect adds nothing but a beacon, a loopback one nothing; an open never adds a beacon; nothing outside the temporary directories is staged; an exec adds nothing |
| AttackPatterns.ExpectedFor | internal/db/store.go:286-362 | a remote connect at one of the four ports leaves a beacon, a script under /tmp a staging pattern, the password file a credential probe and a crontab a persistence pattern, save by the names excepted |
| Store.Store.AppendEvent | internal/db/store.go:212-231 | the log is the newest 10000 events, numbered without gaps |
| Store.Store.TrackProcess | internal/db/store.go:234-259 | a first event creates the record, and a tracked parent notes the child |
| Store.TrackedTells | internal/db/store.go:234-259 | a new record starts with trust 80 and no history and names its parent, if that one is tracked; the parent lists the child; no other record is written |
| Store.Store.Touch | internal/db/store.go:261-276 | the counters, name, parent and evidence of one record |
| Store.Store.AddPatternIfNotExists | internal/db/store.go:367-375 | appends to both lists unless the process has that type already, and keeps the index sound |
| Store.Store.DetectAttackPatterns | internal/db/store.go:283-365 | afterwards the process has exactly the pattern types it had and those the event triggers |
| Store.Store.RecordEvent | internal/db/store.go:208-280 | the whole call: log, record, tallies and patterns, with every invariant kept; afterwards the process has exactly the pattern types it had and those that place, ending, content, address, port and name of the event call for, each with its technique and ID |
| Store.DetectedIsExpected | internal/db/store.go:283-365 | what detection adds is what is expected of the event, each pattern named after its type and process |
| Store.TouchedTallied | internal/db/store.go:261-276 | one more event keeps every tally of every record (all events, per path, per endpoint) the number of such events ever logged, though the log is cut |
| Store.EndpointKeys | internal/db/store.go:274 | endpoints are tallied apart, whatever colons their addresses hold |
| Store.Store.RecordDecision | internal/db/store.go:378-413 | the record bears its last decision: trust, status, paused and killed flags |
| Store.DecidedConsistent | internal/db/store.go:395-405 | recording a decision keeps records, patterns and verdicts consistent |
| Store.DecisionNoted | internal/db/store.go:401-412 | a record is marked killed if and only if some decision on it ever claimed a kill |
| EvidenceRanking.EvidenceLessIsStrictTotal | internal/db/store.go:551-556 | the comparator is a strict total order on distinct names |
| EvidenceRanking.TopEvidence | internal/db/store.go:542-565 | returns the names with the highest counts, equal counts by name, in that order |
| EvidenceRanking.OutranksIff | internal/db/store.go:551-556 | the comparator puts the higher count first and, among equal counts, the name that precedes |
| EvidenceRanking.TopIsUnique | cmd/sensor/main.go:193-216 | that list depends on the counts alone, not on the order the map is ranged over |
| ProcessTree.BuildNodes | internal/db/store.go:490-520 | one unlinked node for each live record |
| ProcessTree.LinkNodes | internal/db/store.go:522-533 | every node is in its live parent's list or among the roots, never both, once |
| ProcessTree.SortProcessTree | internal/db/store.go:567-585 | returns although PPIDs may be cyclic; every list at or below the given nodes ends sorted with the same members, and no other list changes |
| ProcessTree.SortBelow | internal/db/store.go:582-584 | the same for one node's subtree |
| ProcessTree.GetProcessTree | internal/db/store.go:486-540 | for any records, PPIDs and enumeration order the result is the forest of the live records, and among the roots and the children of every node a root reaches the earlier has more attack patterns, or as many and more syscalls, or as many of both and the preceding name, or all the same and the smaller PID |
| ProcessTree.ForestIsShownInOrder | internal/db/store.go:567-585 | the sorted levels are in that order of the records themselves |
| ProcessTree.ForestIsDetermined | internal/db/store.go:486-540 | two results for the same records show the same keys in the same order at every level, whatever the enumeration orders |
| ProcessTree.PlacedOnce | internal/db/store.go:522-533 | a live record is a root or in exactly its parent's list |
| ProcessTree.ShownIffNoCycleAbove | internal/db/store.go:522-540 | a live record is reachable from a root if and only if no ancestor is on a cycle of PPIDs |
| ProcessTree.AllShownIffAcyclic | internal/db/store.go:522-540 | every live record is reachable from a root if and only if the live PPIDs are acyclic |
| ProcessTree.MutualParentsAreHidden | internal/db/store.go:522-540 | two live records that name each other as parent are both missing from the view |
| ThreatGraph.FindLive | internal/db/store.go:615-620 | exactly the records neither killed nor gone |
| ThreatGraph.TwoHops | internal/db/store.go:638-643 | the live ancestors within two hops |
| ThreatGraph.FindVisible | internal/db/store.go:621-644 | visible are exactly the live threats and their live ancestors within two hops |
| ThreatGraph.GetProductionGraph | internal/db/store.go:603-721 | exactly the alarming live processes (with a pattern, trust below 50, suspicious or paused) and their live parents and grandparents have nodes, threats exactly if alarming, and exactly their patterns have theirs, each telling its record; a fork edge leads from m to n if and only if both have nodes, n names m as its parent and they differ, critical exactly if n is alarming; a pattern edge leads from a process to its pattern |
| ThreatGraph.NodesAreExplained | internal/db/store.go:621-703 | who has a node and what it tells, from the records alone |
| ThreatGraph.EdgesAreExplained | internal/db/store.go:675-713 | which edges there are and which way they lead, from the records and the nodes |
| ThreatGraph.ForkEdgeIff | internal/db/store.go:675-686 | a fork edge from m to n exists if and only if both are visible and n names m as its parent |
| ThreatGraph.NodeIdsDistinct | internal/db/store.go:652-713 | node IDs are pairwise distinct |
| ThreatGraph.EdgesClosed | internal/db/store.go:675-713 | both ends of every edge are nodes |
| ThreatGraph.PatternIdIsNew | internal/db/store.go:689-703 | the check for an existing pattern node never fires |
| Lineage.RunDraws | cmd/sensor/main.go:485-551 | over any run the graph holds exactly the edges the events draw, in order |
| Lineage.EdgeIffCaused | cmd/sensor/main.go:485-551 | after any run there is an edge of a type between two nodes if and only if some event caused it: an exec from its process to its file and from its parent to it, a write to its file, a read unless in a system place, a connect to its endpoint |
| Lineage.DrawnIff | cmd/sensor/main.go:519-551 | one event draws exactly the edges it causes, each once |
| Lineage.NoisyIff | cmd/sensor/main.go:438-453 | what is not drawn: reads, and only reads, that begin with one of the system places |
| Lineage.EventKeepsDagIff | cmd/sensor/main.go:519-551 | one event keeps the graph a DAG if and only if it is no exec whose parent, if it has one, can be reached from its process |
| Lineage.RunIsDagIff | cmd/sensor/main.go:485-551 | over any run the graph is a DAG if and only if no event was such an exec |
| Lineage.DagCanClose | cmd/sensor/main.go:525-529 | a run of two execs, the second of a reused PID, ends with edges both ways between two processes, with acyclic parent links throughout |
| Lineage.EventKeepsLinksIff | internal/graph/graph.go:152-154 | one event keeps the parent links acyclic if and only if its process is tracked, has no parent, or has one that is neither itself nor below it |
| Lineage.RunKeepsLinksIff | cmd/sensor/main.go:485-517 | over any run the links are acyclic if and only if every event was such |
| Lineage.LinksCanClose | cmd/sensor/main.go:517 | a run of two opens after which two processes are each other's parent |
| Lineage.HandledIff | internal/graph/graph.go:451-459 | the process of an event is trusted or off every cycle if and only if it is trusted or the trust recursion below it returns, and that can be told before the event |
| Lineage.GrowingPidsKeepBoth | cmd/sensor/main.go:485-551 | while PIDs only grow from parent to child, the links stay acyclic and the graph a DAG |
| Pipeline.UpdateGraph | cmd/sensor/main.go:517-551 | for every event the switch draws exactly its edges between existing nodes, tracks and links exactly its processes, keeps every index sound and loses no node |
| Pipeline.Ingest | cmd/sensor/main.go:511-551 | storing and drawing any event keeps the invariant; the newest entry of the log tells the event, and the older ones stay |
| Pipeline.NoteKnown | cmd/sensor/main.go:553-558 | a trusted process gets the fixed decision on record and nothing is sent |
| Pipeline.DeniedIsPending | internal/sensor/loader.go:196-207 | in enforce mode a High decision whose deny goes by the map leaves the PID in it |
| Pipeline.JudgeUnknown | cmd/sensor/main.go:612-618 | the engine is asked once, its decision about this process is the one appended, the record bears its trust, status and action, the trust is pushed down, and the ledger is the table's |
| Pipeline.Judge | cmd/sensor/main.go:553-618 | about a trusted process the engine decides nothing and the record says known, trust 95; about any other it appends exactly one decision, whose status and action are what its circumstances call for, whose trust the process has, and which is the last on its record |
| Pipeline.ProcessEvent | cmd/sensor/main.go:511-618 | any event that is handled to its end leaves sound structures, one entry in the log that tells it, and no decision if its process is trusted, else exactly one, about that process, borne by its record; in enforce mode at p of at most 0.05 with a usable map that has room the PID is in it; every recorded decision stays within the cap of its tier |
| Pipeline.Between | cmd/sensor/main.go:942-1163 | operator calls (trust, pause, resume, kill, mode, log) and execs that meet the hook keep the invariant, in whatever order, and leave mode, action log, stopped PIDs, trace, deny map and whitelist exactly as the call says |
| Pipeline.OnEngine | cmd/sensor/main.go:942-1163 | the same for the calls that do not touch the graph |
| Pipeline.CallTells | internal/response/engine.go:203-271 | a stop that arrives lists a PID above 10 as stopped, a continue that arrives takes it off, the hook takes a PID out of the deny map unless an earlier module refused, and no call does more to either |
| Pipeline.StartUp | internal/graph/graph.go:119-127 | the invariant holds of the empty structures |
| Pipeline.TakeStep | cmd/sensor/main.go:485-671 | an event that can be handled, or anything that may come between events, keeps the invariant, moves graph and whitelist as it should, and adds to decisions and log exactly what the event calls for, between events nothing |
| Pipeline.RunSteps | cmd/sensor/main.go:485-671 | over any sequence of them the invariant holds, the graph goes through a run of shapes, one for each event, the log gains every event in order, and the decisions gain exactly one for every event whose process was not trusted at the time, in order |
| Pipeline.AccountedOn | cmd/sensor/main.go:485-618 | one more step keeps log and decisions accounted for |
| Pipeline.Session | cmd/sensor/main.go:456-671 | from start-up on, the graph holds exactly the edges the events drew; it is a DAG, and the parent links are acyclic, if and only if no event closed a cycle when it came; the log holds every event, the engine's decisions are one for each event whose process was not trusted, in order, and every tally of every record is the number of such events |
| Pipeline.FlaggedProcessIsThreat | internal/db/store.go:723-725 | a live process whose last recorded decision is Medium or High is a threat |
| Pipeline.FlaggedProcessIsShown | internal/db/store.go:603-673 | and the threat graph has a threat node for it, with trust at most 33 |
| Claims.HiddenIffClaimed | internal/db/store.go:493-497 | a running process with a record is hidden from both views if and only if a kill was ever claimed for its PID |
| Claims.HiddenIff | internal/db/store.go:401-405 | after a decision a running process is hidden if and only if a kill was claimed before, the decision's deny took the map or SIGKILL, or a confirmed one went no way; hidden and sent no SIGKILL by it, if and only if it is any of these but SIGKILL |
| Claims.DeniedRunsOn | internal/sensor/loader.go:196-207 | with the map in working order a High decision hides a process that is only waiting in the map, denied nothing and sent nothing |
| Claims.HiddenUntouched | internal/response/engine.go:527-530 | with no way to deny, a confirmed malicious process is hidden and nothing was done |
| Claims.ReusedPidIsHidden | internal/db/store.go:234-276 | a new process with the PID of one recorded as killed is hidden, even in observe mode |
| Claims.PausedAgreesIff | internal/db/store.go:398-400 | after a decision record and engine agree on whether the process is stopped if and only if the decision found or made it so, or failed to on a clean record, or did not try and they agreed before |
| Claims.OperatorAgreesIff | internal/response/engine.go:203-229 | after an operator's stop they agree if and only if the record said paused already, after a continue if and only if it did not |
| Claims.PausedForEver | internal/db/store.go:723-725 | once paused on record, a process is a threat after every event and decision |
| Claims.ResumedIsStillThreat | internal/db/store.go:723-725 | a run of pause, resume and a Low decision after which nobody is stopped and the process is a threat |
| Throttle.ProcessEvents | cmd/sensor/main.go:471-671 | the loop, which remembers only last times, does exactly what the rules over the whole history say |
| Throttle.ProcessedAreServed | cmd/sensor/main.go:496-509 | exactly the events right after a tick are processed |
| Throttle.NarratedIff | cmd/sensor/main.go:620-630 | the narration calls are, in order, those of the processed events of untrusted processes that ask for it 5 seconds or more after every earlier call and 30 or more after every one for the same process, all of them and no others |
| Throttle.BroadcastIff | cmd/sensor/main.go:655-657 | the "event" broadcasts are those of the processed events 400 milliseconds or more after every earlier one, all of them and no others |
| Throttle.MayCallByLastTimes | cmd/sensor/main.go:621-630 | two comparisons with last times stand for one with every call ever made |
| Throttle.EventsAccountedFor | cmd/sensor/main.go:496-509 | processed and dropped events add up to those received, and each one processed took a tick |
| Throttle.ProcessedSince | cmd/sensor/main.go:496-509 | from any point on, processed events number at most the ticks since and the one the ticker buffers |
| Throttle.RatesBounded | cmd/sensor/main.go:621-657 | in any window of width W: at most W/5s + 1 narration calls, W/30s + 1 for one process, W/400ms + 1 "event" broadcasts, of both branches together |
| SseHub.StepKeepsInv | cmd/sensor/main.go:1639-1672 | every step of every thread keeps lock, ownership, buffers and delivery sound |
| SseHub.NeverPanics | cmd/sensor/main.go:1655-1672 | no interleaving sends on a closed channel or closes one twice |
| SseHub.DeliversAllButOverflow | cmd/sensor/main.go:1646-1672 | a buffer holds at most 64 events; what a subscriber received and has buffered is, in order, what it was offered less what met a full buffer; a finished broadcast was offered once to exactly the subscribers it found |
| SseHub.KeepsBroadcastOrder | cmd/sensor/main.go:1662-1672 | a broadcast that was over before another began is never offered after it |
| SseHub.HolderGoesOn | cmd/sensor/main.go:1646-1672 | whoever holds the lock can always take its next step: a broadcast never waits for a slow subscriber |
| SseHub.OverlappingBroadcastsMayCross | cmd/sensor/main.go:1662-1672 | a run in which two overlapping broadcasts reach two subscribers in opposite orders |
| Wire.LERoundTrip | internal/sensor/loader.go:181 | little-endian integers read back as written |
| Wire.Offsets | bpf/sensor.c:22-39 | where C alignment puts each field and where the packed reader looks for it: they part after dst_port |
| Wire.AlignedRoundTrip | bpf/sensor.c:22-39 | an aligned reader returns every field of every record |
| Wire.PackedReads | internal/sensor/loader.go:180-186 | what the reader returns: the right fields up to dst_port, then pieces of the padding and of neighbouring fields |
| Wire.PackedAgreesIff | internal/sensor/events.go:38-53 | the reader returns the record written if and only if those pieces happen to coincide |
| Wire.EncodeIsImage | bpf/sensor.c:22-39 | every event has such a record, with any padding |
| Wire.NullTermStr | internal/sensor/events.go:112-119 | the bytes before the first NUL, or all |
| Wire.UntilNulRoundTrip | internal/sensor/events.go:112-119 | a string without NUL written into a zeroed field comes back |
| Wire.ParseEvent | internal/sensor/events.go:79-109 | the fields, the address of a connect event and the write flag of an open |
| Wire.WritesIff | internal/sensor/events.go:103-106 | an open writes exactly if one of its two lowest flag bits or bit 6 is set, whatever the others |
| Wire.DecodeRecord | internal/sensor/loader.go:175-186 | short records are skipped, others parsed from the packed reading |
| Wire.AlignedAddress | internal/sensor/events.go:96-100 | with an aligned reader the address bytes come out in network order |
| Wire.OpenatNeverWrites | internal/sensor/events.go:103-106 | as read, no open is ever a write; that is right if and only if the flags hold none of the write bits |
| Wire.ConnectAddressIff | internal/sensor/events.go:96-100 | a connect address is read right if and only if both its halves equal the bytes in the first gap; with zeros there, only 0.0.0.0 is |
| Intake.WritesAreLost | cmd/sensor/main.go:531-541 | an open is received as meant but for its write flag; what it draws is right if and only if it was no write, or had no path; a write to a noisy path draws nothing where it should draw a write edge |
| Intake.NoWriteEdges | cmd/sensor/main.go:531-541 | in no run whose opens come from records is there a write edge |

## Left out

- eBPF loading and attachment, ring-buffer reads, `/proc` scanning, CRIU, namespaces and iptables: foreign effects; only their outcomes appear, as parameters.
- Isolation Forest training and scoring: library code; an anomaly score is any real.
- LLM narration, HTTP handlers, JSON, the copilot, the dashboard's scripts: plumbing.
- The literal whitelist of `isKnownProcess`: an arbitrary predicate on names.
- `internal/narration/attack_table.go`: which technique an event matches is a parameter.
- Labels, timestamps for display, file and socket lists of tree nodes, severity texts: fields no property depends on.
- Graph listeners, snapshots, `GetProcessContext`, `GetAttackPatterns`, `RecentDecisions` and other copies: they would only add easy members.
- IEEE-754: scores, p-values and trust are exact reals, with the rounding to six decimals and to cents explicit; a threshold such as 0.15 is the decimal, not the nearest double.
- Integer widths of PIDs, ports and counters: naturals, except in `Wire`, where every field has its width.
- The statistical half of the conformal guarantee: that benign scores are exchangeable is an assumption about the data; the counting that turns it into rates is proved.
- The store's records are values in a map, where the program shares pointers to them; no pointer leaves the store's lock, except in copies, so aliasing of records is what this does not show.
- A nil graph or narrator, and a nil database: the model has them all.
- Pipeline.ProcessEvent: asks that the event be handled to its end (its process trusted, or off every cycle of parent links), because otherwise the trust recursion does not return and there is no state after it (Lineage.HandledIff). It takes p-values from 0 to 1 and severities from 0 to 10, as the sidecar and the technique table give them.
- Provenance.CausalGraph.UpdateTrust: asks that the process be off every cycle, for the same reason.
- ResponseEngine.Engine.Respond: one atomic step, although the program releases its lock between the check of trust and the signal.
- DenyProtocol.DenyPath.BprmCheck: lookup and delete are one atomic step, although the program could be preempted between them on another processor.
- SseHub.KeepsBroadcastOrder: holds for broadcasts that do not overlap, because readers share the lock; a run in which overlapping ones cross is SseHub.OverlappingBroadcastsMayCross.
- Throttle.ProcessEvents: what else the loop does with an event is in Pipeline; here an event is what it brings to the throttles.
- `Ordering.SortSlice` stands in for the library's sort; its own algorithm is an insertion sort.
- Text encoding: names and paths are taken from their bytes one character each.
