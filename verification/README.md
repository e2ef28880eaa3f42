# tailswarm, modelled and proved

tailswarm watches Docker Swarm services and converges three things towards what their
deploy labels ask for: in-process tsnet proxies (ingress), companion gateway services
(egress, one per target), and the Headscale preauth keys both need. This project models
that logic in Dafny and proves what it keeps.

The world is a value (`World`): the store, Docker's services, the IDs Docker has handed out,
the keys minted and expired, the proxies started and closed. Every call to Docker, Headscale,
tsnet or the rate limiter takes the other side's answer as an argument, and every Go map range
takes an arbitrary `Picker`. A theorem that leaves the answers free therefore holds for every
combination of failures and every iteration order.

| file | part |
|---|---|
| `Text`, `Sorting` | the Go string and sort operations in use |
| `Glob`, `Targets`, `Labels` | the label language |
| `Gateway` | gateway names, specs, hashes, and reading them back |
| `World`, `Egress`, `Reconcile` | the state, the outside calls, one function per Go function |
| `Store`, `Reconciler` | the same as classes, updated in place; each method is proved equal to its function |
| `Mirror`, `Loops`, `Convergence`, `EgressTheorems` | the egress set-reconcile converges, stays put and heals |
| `FailedUpdates`, `NameClashes`, `Orders`, `Replacements` | what it does not do, and exactly when |
| `Keys`, `Ledger`, `Conservation`, `Thrift` | where every key is, over whole runs |
| `Credentials` | records are true of what runs: keys of gateways, configurations and keys of proxies |
| `Reaching`, `Outcomes` | what convergence is for, and what a pass leaves, in terms of the labels |
| `Proxies`, `Teardowns` | proxy life cycle, teardown |
| `Congruence`, `Independence` | ingress and egress as two machines |
| `Ownership` | no gateway shared or touched by two apps; gateways never trigger themselves |
| `Reachability` | convergence from every state a run of the whole daemon reaches |
| `Calls`, `Uninterrupted` | a pass as a program of single calls, equal to the pass |
| `Effects`, `OwnCalls`, `Interleaving` | overlapping passes of different services are serializable |
| `Queue` | the sharded queue under every interleaving |
| `Watcher` | resubscription, backoff, resync |

Where the code and its comments disagree, the model follows the code:

- A failed in-place update is dropped from the record "so the count check forces a retry", but
  the next pass re-adopts the running gateway while the new hash is already recorded. No pass
  with the same labels retries it (`FailedUpdates.FailedUpdateSticks`); a retry happens exactly
  when the addresses recorded or served are not the desired ones (`FailedUpdates.RetriedIff`).
- A failed removal keeps its record for the next pass to retry. If it failed after the service was
  deleted and the labels ask for the target again, that record passes for up to date and the gateway
  is never created (`FailedUpdates.HalfRemovalSticks`).
- The target map is ranged over in any order, and the order can decide. Relabelled from hostname
  `web` and target `prod-db` to hostname `web-prod` and targets `prod-db,db`, an app converges if the
  range takes `prod-db` first; otherwise `db` adopts the gateway of `prod-db` under the same name, no
  error is reported, and nothing ever repairs it (`Orders.RelabelConvergesIff`). From a closed gate a
  fault-free pass converges in every order exactly if the desired names differ, none is held by a
  gateway that is to stay, and no desired line is stuck (`Orders.ConvergesInEveryOrder`,
  `Reachability.ReachableConverges`).
- A gateway's name leaves out the port. Two targets on one host end with one gateway for two
  records (`NameClashes.TwoPortsOneGateway`), and a state Docker allows can only be converged if
  the names differ (`NameClashes.SharedNameNeverConverges`).
- A port change whose deletion of the old gateway fails, while the new target adopts it, makes the
  next, fault-free pass delete it, for good, and only then (`Replacements.PortChangeLosesGateway`).
- A recreated app adopts its gateway by name; the old entry's teardown then deletes it, for good
  (`NameClashes.RecreatedLosesGateway`).
- teardownIngress leaves a closed proxy in the store when the limiter fails and the service stays
  enabled (`Proxies.ProxyInvKeptIff`); if the labels come back it is left there, closed
  (`Proxies.StrandedIsLeftAlone`).
- The comment on hostnames promises siblings distinct ones; that holds for distinct hosts within the
  cap (`NameClashes.DistinctHostsApart`).
- Resync lists services labelled literally `true`, the parser also takes `1`, `yes` and `on`
  (`Watcher.ResyncReachesIff`).
- Two concurrent producers could be told `true` for work that is then dropped
  (`Queue.TwoProducersLose`); the daemon has one.
- The spec hash does not cover the login URL or the state directory
  (`Gateway.SettingsDriftIsInvisible`).

## Model

| member | source | states |
|---|---|---|
| Glob.GreedyIsComplete | internal/tailswarm/labels.go:379-390 | taking the leftmost occurrence of each middle part loses no match: the greedy search succeeds iff some placement of the parts does |
| Glob.GreedyDecidesMatch | internal/tailswarm/labels.go:370-391 | split, greedy search and suffix test decide the relational meaning of a pattern (`*` is any run, both ends anchored), for all patterns and strings |
| Glob.MatchGlob | internal/tailswarm/labels.go:373-391 | the loop returns true exactly when the relational semantics admits a match |
| Glob.TagAllowed | internal/tailswarm/labels.go:358-368 | a tag is allowed iff it is the derived one or some allowlist pattern matches it |
| Targets.ParseEgressTargets | internal/tailswarm/labels.go:271-299 | the loop with its `seen` set computes the parse the next rows characterise, None on a malformed entry |
| Targets.ParseIff | internal/tailswarm/labels.go:271-299 | a list is accepted iff every entry that is not blank is a host without colon, a colon, and a number 1..65535, blanks around each; one that is not spoils the whole list; what is accepted are, in order, the targets of the first occurrences of the trimmed entries |
| Targets.EntryIff | internal/tailswarm/labels.go:285-294 | an entry parses to a target iff it spells it |
| Text.ParseUint16Iff | internal/tailswarm/labels.go:289-292 | a port is accepted iff it is a decimal numeral, leading zeros allowed, of at most 65535 |
| Text.TrimSpaceExact | internal/tailswarm/labels.go:281-286 | trimming takes blanks off both ends and nothing else |
| Targets.EncodeTargets | internal/tailswarm/egress_gateway.go:132-138 | the loop computes the comma-joined addresses |
| Targets.ParseGood | internal/tailswarm/labels.go:271-299 | every accepted list yields trimmed non-empty hosts free of `,` and `:` and ports 1..65535 |
| Targets.AddrInjective | internal/tailswarm/egress.go:25-27 | on such targets the address determines the target |
| Targets.ParseEncode | internal/tailswarm/egress_gateway.go:132-138 | parsing an encoded list gives its first-occurrence dedupe |
| Targets.ParseEncodeDistinct | internal/tailswarm/labels.go:271-299 | for distinct printable targets parse undoes encode |
| Targets.Normalise | internal/tailswarm/labels.go:271-299 | re-encoding and re-parsing any accepted label gives the deduplicated parse |
| Targets.RepeatedTargetSurvives | internal/tailswarm/labels.go:291-296 | the parser dedupes raw entries, so `db:80,db: 80` keeps the target twice |
| Gateway.HostnameLength | internal/tailswarm/egress_gateway.go:97-118 | hostnames never exceed 63 bytes: base and host joined by a hyphen if that fits, else its first 54 bytes, a hyphen and the digest of the address |
| Gateway.NamesCollideIff | internal/tailswarm/egress_gateway.go:105-127 | two targets share a service name iff they share a host (both within the cap), or kept prefix and digest (both beyond it), or one is of full length and spells out the cut name of the other |
| Gateway.GatewayHash | internal/tailswarm/egress_gateway.go:146-172 | the loop over a local slice computes the whole-set hash |
| Gateway.WholeHashIff | internal/tailswarm/egress_gateway.go:146-172 | the hash sees the targets as a multiset of addresses and tells every other difference apart |
| Gateway.LiveGatewayHash | internal/tailswarm/egress_gateway.go:204-238 | the env-map loop computes the hash of a running gateway |
| Gateway.SpecFaithful | internal/tailswarm/egress_gateway.go:54-92 | the built spec reads back to the same hash, address and mark, and the gateway process rebuilds exactly its target, hostname, tag and key |
| Gateway.SpecStandsFor | internal/tailswarm/egress_gateway.go:54-92 | the built service answers to the target's host on the egress network and to nothing else anywhere, is named after the hostname it registers, and its container boots in gateway mode to dial exactly that target under the app's tag with the given key and settings |
| Gateway.BootIff | internal/tailswarm/gateway_run.go:22-50 | a container comes up as a gateway iff it runs /tailswarm with gateway as first argument and its target list is not blank and well formed |
| Gateway.EnvMapReads | internal/tailswarm/egress_gateway.go:209-214 | a variable of a running gateway reads as its last setting |
| Gateway.SettingsDriftIsInvisible | internal/tailswarm/egress_gateway.go:178-198 | a gateway built under another login URL or state directory hashes as up to date, though the spec differs if either does |
| Labels.ServiceAttachedTo | internal/tailswarm/labels.go:313-333 | true iff some attachment names the network or an ID that resolves to it |
| Labels.AttachedIff | internal/tailswarm/labels.go:313-333 | attached means: an attachment names the network or an ID the cluster lists under that name, the last listing counting; old attachments count only where there are no task-level ones |
| Labels.TcpPorts | internal/tailswarm/labels.go:336-353 | the loop computes the port list of PortsExact |
| Labels.PortsExact | internal/tailswarm/labels.go:336-353 | exactly the declared non-zero TCP ports, each once |
| Labels.PortsInOrder | internal/tailswarm/labels.go:336-353 | in the order of first declaration |
| Labels.OutcomeIff | internal/tailswarm/labels.go:136-265 | exactly when labels are accepted, ignored or rejected; one malformed direction spoils both |
| Labels.AcceptedTarget | internal/tailswarm/labels.go:136-265 | field by field: each direction is filled in iff its opt-in label says yes; service name and stack as declared; hostname, tag and network are what the label asks for, else the derived name, the derived tag and the default network; an asked-for tag is allowed, an asked-for network attached; the declared ports and the label's targets |
| Labels.ShortNameIff | internal/tailswarm/labels.go:146-148 | the short name is the service name without its stack prefix, or all of it if it has none |
| Labels.ErrorIs | internal/tailswarm/labels.go:136-265 | the reported error is the first failing check in the order ingress network, tag, ports, egress targets, network, tag |
| Labels.IsTrueIff | internal/tailswarm/labels.go:301-307 | yes is true, 1, yes or on in any case with blanks around |
| Labels.GatewayNeverOptsIn | internal/tailswarm/egress_gateway.go:68-74 | a gateway carries no opt-in label under any namespace |
| Store.Store.Get | internal/tailswarm/state.go:65-72 | a copy of the entry, or the zero entry and false |
| Store.Store.Put | internal/tailswarm/state.go:77-82 | replaces that entry and no other |
| Store.Store.Delete | internal/tailswarm/state.go:86-90 | removes that entry and no other |
| Store.Store.Snapshot | internal/tailswarm/state.go:93-101 | a copy of every entry |
| Reconciler.Reconciler.RemoveOneGateway | internal/tailswarm/reconciler.go:527-543 | new world and result as the specification, waits and missing key included |
| Reconciler.Reconciler.AdoptExistingGateway | internal/tailswarm/reconciler.go:448-474 | takes over the holder of the name or rolls the key back |
| Reconciler.Reconciler.CreateOneGateway | internal/tailswarm/reconciler.go:404-440 | creates, adopts on a taken name, or rolls the key back |
| Reconciler.Reconciler.UpdateOneGateway | internal/tailswarm/reconciler.go:484-523 | updates in place and rotates the key, or reports vanished or failed |
| Reconciler.Reconciler.TrackedGateways | internal/tailswarm/reconciler.go:364-399 | store records first, then running gateways not accounted for, in any order |
| Reconciler.Reconciler.GateOpen | internal/tailswarm/reconciler.go:272-286 | the early-exit loop decides the gate |
| Reconciler.Reconciler.SortedGatewayList | internal/tailswarm/reconciler.go:547-554 | the list of SortedGatewaysExact |
| Reconciler.Reconciler.RemoveUndesired | internal/tailswarm/reconciler.go:290-300 | the removal loop, entry by entry, in any order |
| Reconciler.Reconciler.PutDesired | internal/tailswarm/reconciler.go:302-340 | the create and update loop, in any order |
| Reconciler.Reconciler.ReconcileEgress | internal/tailswarm/reconciler.go:246-357 | the whole egress pass as the function the egress theorems are about |
| Reconciler.Reconciler.ReconcileIngress | internal/tailswarm/reconciler.go:169-229 | start, rotate or leave; in a rotation the store already holds the new proxy in the state in which Close is called on the old one |
| Reconciler.Reconciler.TeardownProxy | internal/tailswarm/reconciler.go:605-640 | the ingress teardown, early return on the limiter included |
| Reconciler.Reconciler.TeardownGateways | internal/tailswarm/reconciler.go:646-667 | the egress teardown, best effort over every record |
| Reconciler.Reconciler.TeardownBoth | internal/tailswarm/reconciler.go:594-599 | both, then the unconditional delete |
| Reconciler.Reconciler.Reconcile | internal/tailswarm/reconciler.go:117-164 | one pass as the function the run theorems are about |
| Reconciler.Reconciler.CloseEverything | internal/tailswarm/reconciler.go:675-684 | CloseAll over a snapshot in any order |
| Mirror.HashPinsSpec | internal/tailswarm/egress_gateway.go:174-198 | equal hashes pin a built spec down to its auth key |
| Mirror.CreateOutcome | internal/tailswarm/reconciler.go:404-474 | a create places exactly the wanted gateway, on a new ID or over the holder of its name, with the secret of one minted key as its auth key and that key's ID in its reference, or leaves Docker alone |
| Mirror.UpdateOutcome | internal/tailswarm/reconciler.go:484-523 | an update places the wanted gateway on the same service, carrying the secret of the key whose ID the new reference names, or leaves Docker alone; vanished means missing |
| Mirror.UpdatedIff | internal/tailswarm/reconciler.go:484-523 | an in-place update goes through iff its calls succeed with a fresh key, the service runs, and the wanted name is free or its own |
| Loops.SortedGatewaysExact | internal/tailswarm/reconciler.go:547-554 | the record lists the map once each in target order whatever the map order, and indexing it gives the map back |
| Loops.TrackedMirrors | internal/tailswarm/reconciler.go:364-399 | from a sound state the working map is the record, running or lapsed lines alike, and beside it exactly the running gateways nobody recorded |
| Convergence.GateIff | internal/tailswarm/reconciler.go:272-286 | hash, count and inclusion say: same hash and same address set |
| EgressTheorems.ConvergesIff | internal/tailswarm/reconciler.go:246-399 | where the desired names differ and none is taken for good (needed: see Orders), from any sound and recorded state, failed updates and half removals behind it included, and under the given order: a fault-free pass converges iff the gate is open and the record in order, or the gate is closed and no desired line passes for up to date with nothing behind it; from a closed gate exactly those lines end without a gateway |
| EgressTheorems.NamesHadIff | internal/tailswarm/reconciler.go:290-316 | the wanted names can be had in a pass iff each is free, or with its own target, or with a gateway of an undesired address whose deletion goes through, or with a service that is none of the app's while the target has no gateway |
| EgressTheorems.RemovedIff | internal/tailswarm/reconciler.go:290-300 | the removal loop deletes a service iff it is the app's gateway for an undesired address and its deletion goes through |
| EgressTheorems.EgressConverges | internal/tailswarm/reconciler.go:246-399 | the same from a coherent state: the pass reports no error and leaves one gateway per desired address, each as gatewaySpec builds it, and a record of exactly those, iff no desired line is stuck |
| EgressTheorems.ColdStartConverges | internal/tailswarm/reconciler.go:302-349 | an empty cluster converges for every well-formed job with distinct names, so the hypotheses above can be met |
| EgressTheorems.ConvergedIsIdle | internal/tailswarm/reconciler.go:272-286 | the pass after convergence changes nothing: no Docker write, no key |
| EgressTheorems.GateMeansConverged | internal/tailswarm/reconciler.go:272-286 | on coherent states an open gate means convergence iff no desired line is stuck |
| EgressTheorems.FastPathRefinesSlow | internal/tailswarm/reconciler.go:267-349 | where the gate opens, the diff would have returned the very same world |
| EgressTheorems.PassKeeps | internal/tailswarm/reconciler.go:246-357 | a sound and recorded state stays so through every pass, under all answers and names, as long as no outdated desired line shares its gateway with another line |
| EgressTheorems.CoherenceKept | internal/tailswarm/reconciler.go:288-349 | coherence survives any failed creates, removals (also after the service is deleted and before its key is expired), mints, lookups and listings; only a failed update of a running gateway harms it |
| EgressTheorems.EgressHeals | internal/tailswarm/reconciler.go:288-349 | after such a pass, if it changed nothing or could have its names, one fault-free pass converges iff no desired line was stuck before it |
| EgressTheorems.HealsAfterAnyFaults | internal/tailswarm/reconciler.go:288-349 | the same after any number of such passes, of which only the first that changes anything must be able to have its names, and every later pass is idle |
| EgressTheorems.ConvergesAfterAnyFaults | internal/tailswarm/reconciler.go:288-349 | after any number of passes in which anything failed, updates included, the first that changes anything able to have its names: one fault-free pass converges iff no desired line was stuck at the start and the gate they left is not open over a record out of order |
| EgressTheorems.ClearFits | internal/tailswarm/reconciler.go:290-316 | where every wanted name is free or with its own target, the names can be had in whatever pass comes |
| EgressTheorems.RestartIsCoherent | internal/tailswarm/reconciler.go:359-399 | an empty store over running gateways is a coherent start with nothing stuck, so the next pass adopts them |
| Orders.ConvergesInEveryOrder | internal/tailswarm/reconciler.go:246-399 | from any sound and recorded state whose lapsed lines were not taken over, a fault-free pass converges under every map order iff the gate is open and the record in order, or the gate is closed, the desired names differ, none is held by a gateway that is to stay, and no desired line is stuck |
| Orders.CoherentConvergesInEveryOrder | internal/tailswarm/reconciler.go:246-399 | from a coherent state the same without the gate: under every order iff the desired names differ, none is taken for good, and no desired line is stuck |
| Orders.TakenNameTrips | internal/tailswarm/reconciler.go:302-340 | a range that starts with an address whose name is taken does not converge: it adopts the gateway of another desired target, or its own update is refused |
| Orders.NoErrorIsFinal | internal/tailswarm/reconciler.go:272-349 | a pass that reports no error is the last to change anything, whatever the names and the order, and has converged iff every line it recorded has its gateway |
| Orders.RelabelConvergesIff | internal/tailswarm/reconciler.go:306-340 | an app relabelled so that a new target wants the name its old target's gateway bears: every call succeeds, no error is reported, no later pass changes anything, and it has converged iff the range took the old target first |
| Orders.HyphenClash | internal/tailswarm/egress_gateway.go:105-127 | moving a part of the host to the hostname leaves the service name as it was, so such a relabelling exists |
| Reaching.ConvergedReaches | internal/tailswarm/egress_gateway.go:36-52 | in a converged state every desired target has exactly one gateway standing in for it and every gateway stands in for one, so those that answer to a name on the egress network are exactly those of the targets on that host |
| Reaching.PassReaches | internal/tailswarm/reconciler.go:246-349 | after a fault-free pass from a coherent state, names and lines allowing, the app reaches every target it asks for |
| FailedUpdates.RetriedIff | internal/tailswarm/reconciler.go:320-347 | after any diff the next pass takes the diff again iff the addresses recorded or served are not the desired ones; where the names could be had those are the lines kept plus the gateways whose update failed |
| FailedUpdates.OpenGateIsForever | internal/tailswarm/reconciler.go:272-286 | once recorded hash and addresses agree with the job, any number of passes changes nothing |
| FailedUpdates.FailedUpdateSticks | internal/tailswarm/reconciler.go:320-326 | if the pass otherwise did its work, the gateway whose update failed keeps its outdated spec through every later pass and the app never converges |
| FailedUpdates.UpgradeCanStick | internal/tailswarm/reconciler.go:320-347 | from any converged state, an image upgrade whose updates fail is recorded as done and never retried |
| FailedUpdates.HalfRemovalSticks | internal/tailswarm/reconciler.go:527-543 | a converged app drops a target, the removal fails between deleting the service and expiring its key, the labels are put back: no pass ever creates the gateway again |
| FailedUpdates.DeadLineIsForever | internal/tailswarm/reconciler.go:309-319 | a recorded line with the wanted hash and nothing running at its address stays so under any answers, so the app never converges |
| NameClashes.DistinctHostsApart | internal/tailswarm/egress_gateway.go:97-127 | lists with distinct hosts within the cap get pairwise distinct names |
| NameClashes.SharedNameNeverConverges | internal/tailswarm/egress_gateway.go:105-109 | a converged state under unique names forces the desired names apart |
| NameClashes.RecordIsForever | internal/tailswarm/reconciler.go:273-285 | a record that satisfies the gate keeps it open, running gateways or not |
| NameClashes.TwoPortsOneGateway | internal/tailswarm/reconciler.go:421-427 | two targets on one host: one gateway, two records, never repaired |
| NameClashes.HealingDeletes | internal/tailswarm/reconciler.go:290-319 | with two records of one service the fault-free pass deletes it and keeps the other record |
| Replacements.PortChangeLosesGateway | internal/tailswarm/reconciler.go:290-316 | an app of any number of targets exchanges one address for another that wants its gateway's name and anything may fail in the pass: after the next, fault-free one the new address has no gateway, for good, iff the deletion of the old gateway did not go through and its adoption did; otherwise the app has converged, and every other address keeps its gateway |
| Replacements.ReplacedFrom | internal/tailswarm/reconciler.go:290-316 | a converged app that exchanges one target for another with the same service name is in that situation |
| NameClashes.RecreatedLosesGateway | internal/tailswarm/reconciler.go:448-474 | the old entry's teardown leaves the recreated app without the gateway it adopted iff the deletion goes through, and no pass notices |
| Keys.PutLoopSettles | internal/tailswarm/reconciler.go:306-340 | the loop holds or expires every key it mints and drops exactly the old keys of failed updates and vanished gateways |
| Ledger.TeardownEntry | internal/tailswarm/reconciler.go:594-667 | a teardown drops exactly the keys of failed removals and, on a limiter error, the ingress key |
| Conservation.ReconcileSettles | internal/tailswarm/reconciler.go:117-164 | one pass under any answers: nothing held is expired, and the keys out of sight grow by exactly the listed drops |
| Conservation.FreshKeysSafe | internal/tailswarm/reconciler.go:184-222 | a key minted in a pass is stored or expired when it ends, whatever fails, and no stored key was ever expired |
| Conservation.KeysOverRun | internal/tailswarm/reconciler.go:187-223 | the same over whole runs with the cluster changing arbitrarily |
| Thrift.KeysAreConserved | internal/tailswarm/reconciler.go:484-684 | from a fresh start, over any run: the minted keys are exactly those stored once and those expired iff every event was spared, that is, where a line or entry holds a key, no attempted update failed or found its gateway gone, no teardown removal failed, no limiter wait failed in a teardown, and no shutdown came while keys were held |
| Credentials.PassTruthful | internal/tailswarm/reconciler.go:117-164 | one pass of any service, under any answers, names and orders, keeps: a gateway that runs where its line says logs in with the key the line names, and a stored proxy was started with the configuration its hash is of and the key its entry names |
| Credentials.TruthfulOverRun | internal/tailswarm/reconciler.go:404-523 | that invariant in every state of every run in which nobody else rewrites gateways |
| Credentials.GatewaysCanLogIn | internal/tailswarm/reconciler.go:484-523 | so the key such a gateway logs in with was minted and has not been passed to ExpireKey |
| Credentials.ProxyServesTarget | internal/tailswarm/reconciler.go:169-229 | after a pass that reports success the stored proxy runs on the hostname, target, ports up to order, settings and tag asked for, with the secret of the key the store names |
| Proxies.HashOfIff | internal/tailswarm/reconciler.go:711-742 | the proxy hash sees ports and tags as multisets and tells every other difference apart |
| Proxies.LeftAloneIff | internal/tailswarm/reconciler.go:174-196 | a proxy is left alone iff the target asks for the same one up to port order |
| Proxies.RepeatIsIdle | internal/tailswarm/reconciler.go:177-182 | repeating a successful pass, ports in any order, changes nothing |
| Independence.StartExact | internal/tailswarm/reconciler.go:169-229 | reconcileIngress leaves the proxy alone, tries in vain, or starts one with exactly the asked-for configuration and the minted key and closes the old one; success unless it tried in vain |
| Reconcile.RotateExact | internal/tailswarm/reconciler.go:183-222 | a rotation is all done, with the old proxy closed once and its key given back, or nothing but a key minted and given back |
| Proxies.ProxyInvKeptIff | internal/tailswarm/reconciler.go:605-640 | a pass keeps "open proxies are those stored, none closed twice" iff the limiter does not fail in the one branch that keeps the entry |
| Proxies.StrandedIsLeftAlone | internal/tailswarm/reconciler.go:174-182 | after that branch, labels that ask for the proxy again leave it alone, closed as it is |
| Proxies.ProxiesOverRun | internal/tailswarm/reconciler.go:169-229 | over every run, with services changing and shutdowns in between: the open proxies are those stored and none was closed twice, iff no pass took that branch; once lost this never comes back |
| Proxies.CloseAllLeavesNoneOpen | internal/tailswarm/reconciler.go:675-684 | on quiesced workers CloseAll closes every open proxy once and empties the store |
| Teardowns.TeardownExact | internal/tailswarm/reconciler.go:594-667 | what a teardown leaves, for every combination of failures |
| Teardowns.TeardownComplete | internal/tailswarm/reconciler.go:594-667 | a fault-free teardown leaves no gateway, no open proxy, no entry, and every key of the entry expired |
| Teardowns.OrphanedIff | internal/tailswarm/reconciler.go:653-660 | a gateway outlives its entry iff a deletion did not go through |
| Independence.IngressIndependent | internal/tailswarm/reconciler.go:161-163 | one pass has the ingress effect of an ingress-only daemon |
| Independence.IngressRunsAlone | internal/tailswarm/reconciler.go:207-215 | over every run the ingress half, proxies started and closed are those of an ingress-only daemon |
| Independence.EgressIndependent | internal/tailswarm/reconciler.go:345-349 | one pass has the egress effect of an egress-only daemon |
| Independence.CompleteHasNoOrphans | internal/tailswarm/reconciler.go:634-638 | a complete record meets the hypothesis of the next row |
| Independence.EgressRunsAlone | internal/tailswarm/reconciler.go:631-638 | over every run in which neither daemon reconciles with a recorded hash, no recorded gateway and one running, the gateways and their records are those of an egress-only daemon (the next row: that condition is needed; EgressRunsAloneInOrder: gentle runs have it) |
| Independence.OrphansMatter | internal/tailswarm/reconciler.go:631-638 | with gateways orphaned by failed updates the halves are not independent: the daemon loses the recorded hash with its ingress half and repairs them, the egress-only daemon never touches them |
| Ownership.PassKeepsOwnership | internal/tailswarm/reconciler.go:421-474 | a pass under any answers removes and changes only services marked for its app, and no two entries share a service |
| Ownership.OwnershipOverRun | internal/tailswarm/reconciler.go:646-667 | exclusive ownership in every reachable state with separated names |
| Ownership.RunningGatewayId | internal/tailswarm/reconciler.go:126-131 | no store entry is keyed by a running gateway |
| Ownership.GatewayIsSkipped | internal/tailswarm/reconciler.go:117-131 | reconciling a gateway's ID, running or removed, changes nothing |
| Ownership.GatewayNeverTriggers | internal/tailswarm/reconciler.go:126-131 | once a gateway, an ID is reconciled to no effect in every later state |
| Outcomes.UnwantedLeavesNothing | internal/tailswarm/reconciler.go:117-152 | a service that is gone, has not opted in or is malformed is left by a fault-free pass without entry, gateway or open proxy and with its keys expired; only the malformed one is reported |
| Outcomes.IngressAsLabelled | internal/tailswarm/reconciler.go:154-163 | an accepted service whose label asks for ingress has a proxy started with what its labels ask for and the key the store names, one whose label does not has none |
| Outcomes.EgressAsLabelled | internal/tailswarm/reconciler.go:154-163 | an accepted service whose label asks for egress has, names and lines allowing, a gateway for every target the label spells and no other |
| Outcomes.NoEgressAsLabelled | internal/tailswarm/reconciler.go:240-243 | one whose label does not has none |
| Outcomes.Unheard | internal/tailswarm/reconciler.go:117-136 | a failed inspect or network listing changes nothing and is reported, a gateway changes nothing and is not |
| Uninterrupted.ReconcileRuns | internal/tailswarm/reconciler.go:117-164 | the pass as a program of single store, Docker, Headscale and tsnet calls, run without interruption, ends in the world and with the result of Reconcile |
| OwnCalls.OwnReconcile | internal/tailswarm/reconciler.go:117-667 | whatever it is answered, that program makes only calls on its own entry and service, on gateways it was shown, and for names of its own |
| Effects.CallsCommute | internal/tailswarm/reconciler.go:404-543 | two such calls of passes for different services commute, world and answers |
| Interleaving.Serializable | internal/tailswarm/reconciler.go:809-832 | however the calls of any number of passes for distinct services interleave, once all have ended the world is that of the passes one after the other, in every order |
| Interleaving.ResultsAreTheirOwn | internal/tailswarm/reconciler.go:809-832 | and each pass reports what it would have reported alone from the first state |
| Interleaving.OrderDoesNotMatter | internal/tailswarm/reconciler.go:809-832 | whole passes for distinct services commute: every order ends in the same world |
| Reachability.OrderOverRun | internal/tailswarm/reconciler.go:117-399 | an app's gateways stay sound and recorded over whole runs: other apps' passes, its own with any fault in them as long as its names can be had, cluster changes in which others may delete its gateways, shutdowns; coherent too if no update of a running gateway fails |
| Reachability.ReachableConverges | internal/tailswarm/reconciler.go:246-399 | from every state so reached a fault-free pass converges under every order iff the gate is open over a record in order, or it is closed, the desired names differ, none is taken for good and no desired line is stuck (without stranding updates: iff the latter three, gate or not); after a pass without an error the next is idle |
| Reachability.EgressRunsAloneInOrder | internal/tailswarm/reconciler.go:345-349 | over every such run that strands no gateway of any app, gateways, records and hashes are those of an egress-only daemon, with nothing assumed of that daemon after its first state |
| Queue.WorkQueue.constructor | internal/tailswarm/reconciler.go:758-776 | at least one worker, buffer 64 by default, shards empty |
| Queue.WorkQueue.Enqueue | internal/tailswarm/reconciler.go:788-807 | accepted iff pending or room; a refusal leaves nothing marked; other shards untouched |
| Queue.WorkQueue.Take | internal/tailswarm/reconciler.go:820-827 | the head is taken and unmarked before it runs |
| Queue.StepKeeps | internal/tailswarm/reconciler.go:788-832 | every step keeps: pending is the disjoint union of channel, marked calls and the received ID; no duplicates; within the buffer |
| Queue.QueueSafe | internal/tailswarm/reconciler.go:788-839 | that invariant and at most one run per service ID, over all interleavings of any number of producers |
| Queue.AcceptedOwedIff | internal/tailswarm/reconciler.go:788-807 | with any number of producers, true means a run is owed iff the call did not rely on a mark another call still holds |
| Queue.AcceptedIsOwed | cmd/tailswarm/main.go:162-182 | with one producer, true means a run not yet started is owed, false means the ID is unmarked |
| Queue.OwedUntilStarted | internal/tailswarm/reconciler.go:809-832 | an owed run stays owed until it starts and comes nearer by exactly its worker's steps |
| Queue.AcceptedRuns | internal/tailswarm/reconciler.go:778-807 | after true, the run starts before its worker has taken the computed number of steps |
| Queue.EnqueuePromise | cmd/tailswarm/main.go:162-191 | from the start, over every interleaving of the one event pump with all workers, true is followed by a run that starts in time |
| Queue.WorkerReady | internal/tailswarm/reconciler.go:816-829 | while a run is owed its worker always has a step to take |
| Queue.TwoProducersLose | internal/tailswarm/reconciler.go:788-807 | on a full shard a second producer is told true for work the first then unmarks |
| Watcher.NextBackoffExact | internal/tailswarm/watcher.go:246-255 | the value for every 64-bit input, overflow included |
| Watcher.NextBackoff | internal/tailswarm/watcher.go:246-255 | always in (0, 30s] |
| Watcher.NextWait | internal/tailswarm/watcher.go:246-255 | the k-th failure in a row waits min(base·2^k, 30s) for every 64-bit base; one that overflows when doubled gives way to one second |
| Watcher.NeverWedged | internal/tailswarm/watcher.go:109-175 | for every 64-bit setting, at every turn exactly one of live subscription and armed retry holds, the retry due one wait after the last failure; success resets |
| Watcher.Watcher.Subscribe | internal/tailswarm/watcher.go:118-132 | subscribed and reset, or armed and backed off |
| Watcher.Watcher.Turn | internal/tailswarm/watcher.go:146-173 | one select keeps the invariant and sends what it should |
| Watcher.Watcher.Run | internal/tailswarm/watcher.go:136-175 | the loop keeps the invariant over any sequence of happenings and sends on exactly what they ask for, in order |
| Watcher.SentIff | internal/tailswarm/watcher.go:146-173 | an ID is sent iff an event for it arrived or a successful listing of a tick had it, and the consumer had room |
| Watcher.Watcher.FullList | internal/tailswarm/watcher.go:191-219 | sends the accepted offers in order; accepted plus dropped is the size of the union |
| Watcher.OffersExact | internal/tailswarm/watcher.go:191-214 | each non-empty listed ID is offered exactly once across both lists |
| Watcher.OfferedIff | internal/tailswarm/watcher.go:191-214 | a resync offers a service iff a listing that succeeded has it under a label spelled `true`, the cluster free to change between the two listings |
| Watcher.ResyncSkipsGateways | internal/tailswarm/watcher.go:191-201 | a resync offers no gateway, whatever the namespace and whichever listing fails |
| Watcher.OptInMissed | internal/tailswarm/watcher.go:192-197 | a service labelled `yes` is opted in and no resync offers it |
| Watcher.ResyncReachesIff | internal/tailswarm/watcher.go:192-197 | a resync with both listings offers a service iff one label is literally `true`, and then it is opted in |

## Left out

- Cluster changes, shutdowns and passes for a gateway's own ID in the middle of another pass: in a run a pass is one step, and the interleaving theorems are about passes for app services alone, whose answers hand out distinct IDs.
- CloseAll racing with running workers at shutdown: its results are for quiesced workers.
- Hypotheses carried by the egress theorems: the record has one line per address and no outdated desired line shares its gateway with another (both kept by every pass in which the wanted names can be had), Docker keeps names unique and never reuses IDs, a failed call changes nothing, key IDs are fresh and non-empty, and one pass's answers hand out distinct IDs.
- Hypotheses of the credential results: Headscale gives each key ID one secret, and nobody but the daemon rewrites a running gateway.
- Hypotheses of ownership and self-trigger freedom: a service's name tells whose gateway it is, and nobody but the daemon moves the marker label.
- SHA-256 over JSON is the payload itself, and the eight-digit digest of a long name an uninterpreted function: collisions and JSON escaping are not modelled.
- `char` stands for a byte: the multi-byte blanks strings.TrimSpace also trims and non-ASCII case folding are not modelled.
- Two forms differ from the source: sortedGateways sorts the map's keys, which are its records' targets, and looks the records up; parseIngress returns the filled Target instead of changing the one it is given.
- tsnet proxies beyond start and close, egress listeners and byte pumps: network I/O over a library not in the repository.
- The Headscale HTTP client, the Docker SDK adapter, image discovery and configuration loading: wire clients and field-by-field overrides.
- The times in `LastReconcileAt`, the limiter's rate, log lines and error texts: a wait succeeds or fails, an error is a false result.
- The worker's exit on cancellation and FNV dispersion: any deterministic shard function will do.
