# Verification of the inference control loop

This project models the parts of the control loop where correctness is hard to see from one
function body, and proves what they promise. The whole project is checked by `dafny verify dfyconfig.toml`
(Dafny 4.11).

## What is modelled

**The vLLM pairing reconciler** (`pkg/actuator/pairing*.go`). A managed Deployment and the vLLM
Deployment it names are kept in replica lockstep, and their Ready pods are paired one to one by
writing the same pair-id label on both, one API patch at a time, any of which may fail.

- `PairingLogic.dfy` is the decision computed from one snapshot; `Decision.dfy` says what it is for any
  snapshot, `Matching.dfy` what it means for the two sets of pods, `Healing.dfy` what applying it does; `Reconciler.dfy` is
  one pass, and the pass over all Deployments, on a mutable cluster; `Fleet.dfy` the interplay of groups;
  `SharedTarget.dfy` what two groups do to each other that name one vLLM Deployment.
- `Protocol.dfy` is the same reconciler as a state machine of single API calls: pods come, go, change
  readiness or lose labels between any two calls, any patch fails or loses its reply, and the process may
  die anywhere. Its invariant gives the absence of mis-pairing and self-healing from every reachable state;
  `PassIsRun` shows that every outcome of the imperative pass is a run of that machine.
- `JsonPointer.dfy` is the escaping and the label patches of RFC 6901 and RFC 6902; `Ownership.dfy` the
  Deployment, ReplicaSet, Pod chain.

**The load emulator** (`pkg/loademulator`). `Phases.dfy` is the chained piecewise-linear multiplier,
with its exact Lipschitz constant. `LoadEmulator.dfy` is the clamped mean-reverting walk of the rate
and token labels and the skewed split over the pods. `Tracking.dfy` bounds, over whole runs with any
pattern of failed updates, how far the rate label can be from its moving nominal; if only so many fail in
a row, by a bound that does not grow with the run.

**The collector** (`pkg/collector`). `Collector.dfy` is the server-sim sensor, with the theorem that the
reported arrival rate agrees with the emulator's label whichever pods are gated; `Llmd.dfy` is the
Prometheus sensor. Both share the sums, filters and means of `Aggregates.dfy`.

**The control cycle** (`pkg/controller/controller.go`, `pkg/monitor/builder.go`, `pkg/actuator/pod_alloc.go`).
`Controller.dfy` is one cycle with its partial-failure paths, and runs of cycles; `Record.dfy` the cycle
record; `PodAlloc.dfy` the concurrent projection of an allocation onto pod labels.

`Basics.dfy`, `Order.dfy`, `Reals.dfy` and `Config.dfy` hold shared vocabulary and the order, arithmetic
and data types the rest needs.

Many operations are proved against a specification function. Lemmas named `...Exactly`, and those cited
beside them, say what such a function gives in the fields of its arguments alone.

## Assumptions

Calls to the API server, the other components and the file system are inputs: a function or a value
says how they end and what they return, and nothing is assumed about it unless a member says so. A
write may be served, refused, or served with its reply lost (`Basics.Reply`).

- `newUUID` hands out fresh, non-empty, pairwise distinct ids (`Healing.Fresh`). Needed only where stated.
- Pod names are unique in a namespace, a namespace contains no `/`, and a pod name belongs to one
  Deployment for good (the `owner` function).
- A Deployment is either managed or a vLLM Deployment, never both; nobody but the reconciler writes
  pair-ids, though anybody may remove them (`Protocol.EnvStep`).
- Within a side, pair-ids are distinct. This is proved of every run (`Protocol.InvDistinctIds`).
- Random draws are arbitrary: uniform draws lie in [0, 1), normal draws are any real. Label rounding is
  any function within 0.00005 of its argument.
- The skew and theta of an emulator lie in [0, 1]: the constructor of the original rejects anything else.

## Where the code is not what one would expect

- The pairing design document has a pod that is no longer Ready pruned along with its partner. The code
  lists Ready pods only. A pass leaves every pod that is not Ready as it is (`NotReadyUntouched`); a stale
  label is gone after a fault-free pass exactly if its pod is Ready (`StaleLabelGoesIffReady`); and there
  are states in which such a pod keeps its id while its partner is bound to another pod
  (`LostPodExists`, `LostPodKeepsLabel`).
- The index keeps the last holder of a repeated id, so two Ready pods with one id can be treated
  differently by listing order (`DuplicateIdsOrderMatters`). The prunes are independent of that order
  exactly if no id is carried twice on one side and missing on the other (`OrderFreeIff`).
- Each vLLM Deployment must be the target of one managed Deployment. The code does not check this. If two
  share a target, both are settled, from the second fault-free tick on, if and only if their replica counts
  agree and there is nothing to pair: no Ready vLLM pod, or no Ready pod in either (`TicksSettleIff`;
  `SettlesIff` is the condition for a single loop). With equal counts a pass for one strips the other of
  every pair, even when it has no Ready pod itself (`PassStripsOthers`, `LoopStripsFirst`, with a case in
  `SharedTarget.Example`). With differing counts each tick ends with the count of the one listed last, the
  other is never settled, and from the second tick on none of their pods is written
  (`DifferingCountsNeverSettle`).
- The noise-free token walk rests exactly at `nominal <= t <= 10 nominal` with `theta (t - nominal) < 1`:
  for a theta below `1 / (9 nominal)` the clamp, not the stalled rounding, is what ends the descent
  (`TokenRestPoints`).
- The clamp brings a rate no further from its nominal exactly when the nominal is not negative
  (`ClampApproachesIffNonNegative`); a negative nominal label turns the interval inside out.
- With skew 1 and all draws 0 the split divides 0 by 0. `SplitLoad` reports this as `nan`, exactly then.
- The comment on `selectArrivalRate` falls back to the partial sum when there is no setpoint label. The code
  does so also when the label is there but not positive; the model follows the code.
- That the arrival rate agrees with a positive setpoint label whichever pods are gated takes two things
  (`ArrivalAgreement`). The split must have reached every pod in use: each pod update took effect, no pod
  has joined since, and a pod that answers reports the rate of its label. And the replica count must be
  not positive or reach the number of pods of the split. Given the first, and a load that is large against
  the roundings, the second is the exact condition (`ArrivalAgreesIff`): with some, but fewer, replicas, as
  right after a scale-down, the share of a pod can go missing (`StaleSplitUndercounts`). Without the first,
  a pod whose update was refused, or a new one, puts the full report off by what it carries too much
  (`ArrivalDeviation`); with as many replicas as pods there is agreement exactly if the rates on the pods
  still add up to the setpoint label (`FullReportAgreesIff`), and `AgreesIffPicksDo` is the exact condition
  for any rates and any count.
- After a dynamic re-read that stops behind the model file, the optimizer's copy of the model data and the
  current one differ on return (`ModelsPartIff`, `ModelsPartInRuns`), yet no optimizer call ever sees it
  (`OptimizerSeesLatest`).

## Model

| member | source | states |
|---|---|---|
| PairingLogic.KeyInjective | pkg/actuator/pairing_logic.go:73 | distinct pods have distinct keys in the pruned map when no namespace contains a slash |
| PairingLogic.BuildIndex | pkg/actuator/pairing_logic.go:42-69 | the index holds exactly the non-empty ids, each with the last pod of either side that carries it |
| PairingLogic.PruneUnhealthy | pkg/actuator/pairing_logic.go:71-91 | in whatever order the ids are visited, the prunes are the indexed holders of ids without a Ready holder on both sides, each exactly once |
| PairingLogic.SortSlice | pkg/actuator/pairing_logic.go:104-113 | the same pods, no pod before one that the comparison puts first |
| PairingLogic.EffectivelyUnpaired | pkg/actuator/pairing_logic.go:93-115 | the Ready pods that are unlabelled or about to be pruned, sorted |
| PairingLogic.ComputePairingPatches | pkg/actuator/pairing_logic.go:39-128 | for any snapshot, duplicate ids included, the plan is one of those the specification allows, which `Decision.PlanDecision` spells out |
| Order.LexMeaning | pkg/actuator/pairing_logic.go:112 | names compare by a proper prefix or by the first differing character |
| Decision.PlanDecision | pkg/actuator/pairing_logic.go:39-128 | for any snapshot, Ready or not: pruned are the last holders of ids that lack a Ready last holder on a side, each key once; bound, in order, are the best of the Ready pods without a label or about to lose it, as far as both sides have them |
| Decision.FreshPodsFirst | pkg/actuator/pairing_logic.go:104-126 | on either side no pod is passed over for a labelled one if it has no label, nor within its class for one with a later name; earlier bindings have the better choices |
| Matching.StaleIsOrphans | pkg/actuator/pairing_logic.go:71-91 | with distinct ids, what the index calls stale is exactly the Ready pods whose label no Ready pod of the other side carries |
| Matching.FreePods | pkg/actuator/pairing_logic.go:93-117 | the pods offered for binding are exactly the Ready pods without a partner, each once |
| Matching.PlanMeaning | pkg/actuator/pairing_logic.go:39-128 | a plan prunes exactly the orphans of both sides and binds the free pods in order |
| Matching.SortUnique | pkg/actuator/pairing_logic.go:104-113 | two sorted lists of the same distinctly named pods are equal |
| Matching.PlanDeterministic | pkg/actuator/pairing_logic.go:47-126 | the prunes and the list of bindings depend neither on map iteration nor on listing order |
| Matching.DuplicateIdsOrderMatters | pkg/actuator/pairing_logic.go:47-69 | of two Ready pods with one id that the other side lacks, the one listed last is pruned |
| Matching.OrderFreeIff | pkg/actuator/pairing_logic.go:47-91 | for Ready listings, repeated ids included, the prunes are independent of listing order exactly if no id is carried twice on one side and missing on the other |
| Healing.LabelAfterPrunes | pkg/actuator/pairing.go:106-110 | after the prune loop exactly the pods whose removal took effect have lost their label |
| Healing.LabelAfterBindings | pkg/actuator/pairing.go:111-126 | after the binding loop both ends of every pairing carry its id and no other pod changed |
| Healing.FullPlanHeals | pkg/actuator/pairing_logic.go:39-128 | a plan applied in full leaves min(Ready managed, Ready vLLM) pairs, keeps every healthy pair with its id, and leaves no stale label |
| Healing.PlanKeepsPairs | pkg/actuator/pairing.go:106-126 | whichever patches of a plan fail or lose their reply, no healthy pair is disturbed |
| Healing.EmptyPlanIffFullyPaired | pkg/actuator/pairing_logic.go:39-128 | a plan is empty exactly when the sides are fully paired |
| Healing.SameLabelAfter | pkg/actuator/pairing.go:106-126 | the order of the prunes does not change any resulting label |
| Reconciler.Cluster.ListOwnedReadyPods | pkg/actuator/pairing_kube.go:35-80 | every Ready pod of the Deployment once, in any order |
| Reconciler.SideExactly | pkg/actuator/pairing_kube.go:35-80 | a side has the pods that belong to the Deployment in its namespace, by name |
| Matching.ListingExactly | pkg/actuator/pairing_kube.go:58-80 | that is: each Ready pod of the side once, with its name, namespace and label |
| Reconciler.Cluster.PatchLabel | pkg/actuator/pairing_kube.go:89-111 | one pod's label changes if the patch takes effect; an error is returned if it does not or if the reply is lost |
| Reconciler.Cluster.ApplyPrunes | pkg/actuator/pairing.go:106-110 | the removals that take effect, whatever happens to the others |
| Reconciler.Cluster.ApplyBindings | pkg/actuator/pairing.go:111-126 | the writes that take effect, a managed write not seen to succeed skipping its vLLM write |
| Reconciler.Cluster.ReconcileOne | pkg/actuator/pairing.go:47-128 | every outcome is one the pass relation allows, for any pattern of failing calls; `NothingHappens` and `PassFromLabels` say which, from the labels |
| Reconciler.Cluster.ReconcileAll | pkg/actuator/pairing.go:131-146 | the passes of the listed Deployments, one after the other |
| Reconciler.NothingHappens | pkg/actuator/pairing.go:49-103 | another evaluator, an empty name, or a failing GET or list of pods: nothing changes |
| Reconciler.PassFromLabels | pkg/actuator/pairing.go:56-127 | the Deployment of the labelled name, in the labelled namespace or else the managed one's, gets the managed count, none counting as 0; with equal counts and no fault the two sides are healed |
| Reconciler.PassExactly | pkg/actuator/pairing.go:91-126 | whichever patches fail: each pod ends with the label that a plan for the two listings gives it, a vLLM end being written only after its managed end was seen to be |
| Reconciler.OnlyNamedPods | pkg/actuator/pairing.go:56-127 | no other Deployment changes, nor any pod but those of the managed one and of the one its labels name |
| Reconciler.PassHeals | pkg/actuator/pairing.go:91-126 | a fault-free pass with equal replica counts fully pairs the group and disturbs no healthy pair |
| Reconciler.PassKeepsPairs | pkg/actuator/pairing.go:47-128 | whichever calls fail, a pass disturbs no healthy pair |
| Reconciler.PassEqualises | pkg/actuator/pairing.go:72-89 | a fault-free pass with differing counts sets the vLLM count to the managed one and changes nothing else |
| Reconciler.PassIsNoOp | pkg/actuator/pairing.go:91-126 | a pass over a fully paired group changes nothing, whichever calls fail |
| Reconciler.PassDeterministic | pkg/actuator/pairing.go:47-128 | for any failures, the outcome of a pass is a function of the cluster state |
| Reconciler.PassFrame | pkg/actuator/pairing.go:47-128 | a pass touches only the pods of its two Deployments and its target's replica count |
| Reconciler.PassLabels | pkg/actuator/pairing.go:106-126 | after a pass, whatever failed, a pod carries its old label, none, or a new id |
| Reconciler.NotReadyUntouched | pkg/actuator/pairing_kube.go:69-71 | a pass leaves every pod that is not Ready as it is, label included |
| Reconciler.StaleLabelGoesIffReady | pkg/actuator/pairing.go:91-126 | after a fault-free pass with equal counts a stale label is gone exactly if its pod is Ready |
| Reconciler.LostPodKeepsLabel | pkg/actuator/pairing.go:91-126 | a pod that is no longer Ready keeps its id while its partner is bound to another pod under a new one |
| Reconciler.LostPodExists | pkg/actuator/pairing.go:91-126 | there is such a state, with three pods |
| Fleet.FleetFrame | pkg/actuator/pairing.go:131-146 | Deployments that no group involves are left alone |
| Fleet.OwnPass | pkg/actuator/pairing.go:131-146 | with separate targets, each group goes through the whole loop as if its own pass were the only one |
| Fleet.FleetHeals | pkg/actuator/pairing.go:131-146 | one fault-free loop equalises or fully pairs every group |
| Fleet.FleetIsNoOp | pkg/actuator/pairing.go:131-146 | a loop over settled groups changes nothing, whichever calls fail |
| Fleet.TwoTicksSettle | pkg/actuator/pairing.go:131-146 | two fault-free loops settle every group |
| Fleet.FleetSelfHealing | pkg/actuator/pairing.go:131-146 | from every state of every run, one fault-free loop equalises or fully pairs every group |
| Fleet.FleetSettles | pkg/actuator/pairing.go:131-146 | from every state of every run, two fault-free loops settle every group |
| SharedTarget.TwoPasses | pkg/actuator/pairing.go:131-146 | of a loop over any listing, two Deployments with one target and that target see only the passes for the two |
| SharedTarget.PassStripsOthers | pkg/actuator/pairing.go:91-126 | with equal replica counts, a fault-free pass for one strips every pair the other had with the common target |
| SharedTarget.LoopStripsFirst | pkg/actuator/pairing.go:131-146 | with equal replica counts, one loop leaves the one listed first without a pair |
| SharedTarget.Example | pkg/actuator/pairing.go:131-146 | a concrete cluster of three Deployments where this happens |
| SharedTarget.SettlesIff | pkg/actuator/pairing.go:131-146 | one loop settles both exactly if their replica counts agree, there is nothing to pair, and the pass of the first, if spent on the target's count, leaves no label on its Ready pods |
| SharedTarget.DifferingCountsNeverSettle | pkg/actuator/pairing.go:72-89 | with differing counts every tick ends with the count of the one listed last and the other unsettled, and from the second tick on no pod of the three changes |
| SharedTarget.TicksSettleIff | pkg/actuator/pairing.go:131-146 | from the second tick on, both are settled exactly if their replica counts agree and there is nothing to pair |
| Protocol.RunInv | pkg/actuator/pairing.go:106-126 | in every state of every run, each label belongs to an end of the pairing its id was drawn for, and work in flight respects that |
| Protocol.NoMispairing | pkg/actuator/pairing.go:106-126 | after every single call, two pods share an id only as the managed and the vLLM end of the one pairing it was drawn for |
| Protocol.InvDistinctIds | pkg/actuator/pairing_logic.go:47-69 | ids are distinct within a Deployment, as the index needs |
| Protocol.WrittenEarlier | pkg/actuator/pairing.go:111-115 | an id is noted as written to its managed pod only by a patch that put it there |
| Protocol.VLLMLabelledAfterManaged | pkg/actuator/pairing.go:111-123 | a vLLM pod carries an id only after an earlier successful write of it to the managed partner |
| Protocol.IssuedForGood | pkg/actuator/pairing_logic.go:119-126 | an id never changes the pairing it stands for |
| Protocol.SelfHealing | pkg/actuator/pairing.go:72-127 | from every reachable state one fault-free pass fully pairs a group with equal counts and the next is a no-op; with differing counts it only equalises them |
| Protocol.PassIsRun | pkg/actuator/pairing.go:47-128 | every outcome of a whole pass is the end of a run of single calls |
| JsonPointer.EscapeIsOnePass | pkg/actuator/pairing_kube.go:82-87 | the two replacement passes equal the one-pass character map of RFC 6901, section 3 |
| JsonPointer.EscapeIsToken | pkg/actuator/pairing_kube.go:82-87 | the result has no slash, and every tilde in it is followed by 0 or 1 |
| JsonPointer.EscapeExactly | pkg/actuator/pairing_kube.go:82-87 | a tilde becomes tilde 0, a slash tilde 1, every other character stays |
| JsonPointer.RoundTrip | pkg/actuator/pairing_kube.go:82-87 | decoding by RFC 6901, section 4, gives back the key |
| JsonPointer.EscapeInjective | pkg/actuator/pairing_kube.go:82-87 | distinct label keys have distinct paths |
| JsonPointer.OrderOfPassesMatters | pkg/actuator/pairing_kube.go:82-87 | swapping the passes breaks the round trip |
| JsonPointer.SetPodLabelMeaning | pkg/actuator/pairing_kube.go:89-95 | the key gets the value and no other key changes exactly if the call takes effect; an error if it does not or if the reply is lost; trying again changes nothing more |
| JsonPointer.RemovePodLabelMeaning | pkg/actuator/pairing_kube.go:97-111 | the key is absent and no other key touched exactly if the call takes effect; success exactly if it is served, whether or not the label was there; trying again changes nothing more |
| Ownership.OwnedReplicaSets | pkg/actuator/pairing_kube.go:42-50 | exactly the uids of the ReplicaSets the Deployment owns |
| Ownership.IsOwned | pkg/actuator/pairing_kube.go:62-68 | some owner of the pod is among the uids |
| Ownership.IsPodReady | pkg/actuator/pairing_kube.go:20-30 | running with a true Ready condition |
| Ownership.ListOwnedReadyPods | pkg/actuator/pairing_kube.go:35-80 | exactly the Ready pods in the Deployment's ownership chain, each once; errors exactly when a call it makes fails |
| Ownership.OwnedSideExactly | pkg/actuator/pairing_kube.go:20-80 | the pods owned through a ReplicaSet, Ready if running with a true Ready condition, with the label they carry |
| Ownership.RunsExactly | pkg/loademulator/loademulator.go:169-190 | running, past the startup delay, and owned through a ReplicaSet of the Deployment |
| PodAlloc.PatchServed | pkg/actuator/pod_alloc.go:111-121 | the two "add" operations of the patch put both labels in place |
| PodAlloc.PatchedMeaning | pkg/actuator/pod_alloc.go:111-121 | the patch puts the allocation in force and leaves every other label alone |
| PodAlloc.ItoaRoundTrip | pkg/actuator/pod_alloc.go:41-109 | the batch size is written in decimal and reads back as itself |
| PodAlloc.SelectedExactly | pkg/actuator/pod_alloc.go:68-91 | selected are the running pods, owned through a ReplicaSet, whose two labels read otherwise |
| PodAlloc.PatchedExactly | pkg/actuator/pod_alloc.go:111-121 | the two labels read as asked, and no other label and nothing else of the pod changes |
| PodAlloc.PodStore.PatchPodsAllocation | pkg/actuator/pod_alloc.go:41-109 | patches exactly the running, owned pods that lack the allocation; nil exactly when every patch succeeds, else the failed pods |
| PodAlloc.PodStore.FanOut | pkg/actuator/pod_alloc.go:93-108 | in any order, each selected pod whose patch takes effect is patched, and those not seen to succeed are reported |
| PodAlloc.Confluence | pkg/actuator/pod_alloc.go:93-108 | every interleaving of the patches ends in the same labels |
| PodAlloc.SecondCallSelects | pkg/actuator/pod_alloc.go:68-91 | a second call patches exactly the pods whose patch was refused in the first; none after an error-free call |
| PodAlloc.ErrorFreeCall | pkg/actuator/pod_alloc.go:41-109 | an error-free call leaves every running owned pod with the allocation and no other pod or label touched |
| Phases.LoadPhases | pkg/loademulator/phases.go:45-68 | accepts exactly the non-empty valid configurations |
| Phases.LoadsExactly | pkg/loademulator/phases.go:45-68 | accepted: durations that parse, not negative and 0 only at the end, positive ratios of timed phases; loaded are these durations and ratios |
| Phases.MultExactly | pkg/loademulator/phases.go:82-122 | within a phase the multiplier is on the straight line from the product of the earlier ratios to that product times its own |
| Phases.EndsExactly | pkg/loademulator/phases.go:117-121 | once all phases are over it is the product of all ratios, and the index the last one |
| Phases.IndexExactly | pkg/loademulator/phases.go:92-121 | the index is that of the phase in whose time the elapsed time falls |
| Phases.LipschitzAt | pkg/loademulator/phases.go:82-122 | the multiplier moves at most the steepest slope times the time, across phase boundaries |
| Phases.BestLipschitzConstant | pkg/loademulator/phases.go:82-122 | the largest of cum * abs(ratio - 1) / duration is the least Lipschitz constant |
| Phases.MultInRange | pkg/loademulator/phases.go:82-122 | the multiplier lies between the least and the greatest boundary product |
| Phases.MultPositive | pkg/loademulator/phases.go:82-122 | the multiplier is positive |
| Phases.HoldsAtEnd | pkg/loademulator/phases.go:95-121 | after the timed phases it holds the last boundary product |
| Phases.BoundaryMult | pkg/loademulator/phases.go:110-113 | from one boundary to the next the multiplier is multiplied by that phase's ratio |
| Phases.IndexMonotone | pkg/loademulator/phases.go:92-121 | the phase index never goes back as time passes |
| Phases.PhaseTracker.GetMultiplier | pkg/loademulator/phases.go:82-122 | returns the curve at the time since the first call; a line is printed only on a phase change, never more lines than phases |
| Phases.PhaseTracker.LogTransition | pkg/loademulator/phases.go:125-130 | prints exactly when the phase is new |
| Phases.PhaseTracker.LogConfig | pkg/loademulator/phases.go:133-146 | the multipliers printed for a phase are those the tracker returns at its boundaries |
| LoadEmulation.ClampApproachesIffNonNegative | pkg/loademulator/loademulator.go:215 | the clamp never moves a rate away from its nominal exactly when the nominal is not negative |
| LoadEmulation.StepContracts | pkg/loademulator/loademulator.go:213-215 | one step shrinks the distance to the nominal by 1 - theta, up to the noise |
| LoadEmulation.StepWalks | pkg/loademulator/loademulator.go:213-215 | the distance to the nominal becomes exactly 1 - theta times the old one plus the noise, or the rate is the nearer end of the band from a tenth to ten times the nominal; a negative nominal is multiplied by ten |
| LoadEmulation.NominalWalks | pkg/loademulator/loademulator.go:100-125 | so does the rate with the baseline times the multiplier for its nominal |
| LoadEmulation.StepWalksTokens | pkg/loademulator/loademulator.go:217-223 | the noisy token step: the least whole count not below that goal, or the nearer end of its band |
| LoadEmulation.LoadEmulator.UpdateDeployment | pkg/loademulator/loademulator.go:84-132 | the baseline is captured on first sight only, nominal labels are never written, a refused update changes no label; the step is that of `StepWalks` |
| LoadEmulation.LoadEmulator.SplitLoad | pkg/loademulator/loademulator.go:245-257 | the shares of the drawn weights; undefined exactly when skew is 1 and every draw is 0 |
| LoadEmulation.LoadEmulator.DrawWeights | pkg/loademulator/loademulator.go:246-251 | the weights of the draws and their running sum |
| LoadEmulation.LoadEmulator.ShareOut | pkg/loademulator/loademulator.go:252-256 | each share is the total times its weight over the sum |
| LoadEmulation.LoadEmulator.RunningPods | pkg/loademulator/loademulator.go:147-190 | exactly the running, owned pods past their startup delay, in listing order |
| LoadEmulation.RunnableMeaning | pkg/loademulator/loademulator.go:169-190 | those positions, increasing and complete |
| LoadEmulation.LoadEmulator.LabelPod | pkg/loademulator/loademulator.go:195-202 | one pod gets its rate and two token counts within skew of the Deployment's, or keeps its labels |
| LoadEmulation.LoadEmulator.LabelPods | pkg/loademulator/loademulator.go:194-203 | pod j is labelled with its own rounded share, a failed update stopping no other |
| LoadEmulation.LoadEmulator.UpdatePodLabels | pkg/loademulator/loademulator.go:146-205 | the running pods share the total, with token counts from draws of their own; a failed listing labels none |
| LoadEmulation.PodUpdateExactly | pkg/loademulator/loademulator.go:146-205 | in the draws alone: each running pod whose update is not refused gets the rounded share for its own draw and the token counts for its own draws |
| LoadEmulation.LoadEmulator.EmulateDeployment | pkg/loademulator/loademulator.go:84-132 | pods are labelled with the split of the rate the Deployment label rounds, and only if that label is known to be written |
| LoadEmulation.LoadEmulator.PerturbReplicaToken | pkg/loademulator/loademulator.go:232-241 | the nominal times 1 + skew (2 draw - 1), rounded half up, or the nearer end of the band; so within skew of the nominal up to rounding; unchanged without skew |
| LoadEmulation.WeightSum | pkg/loademulator/loademulator.go:246-251 | the weight sum is positive except when skew is 1 and every draw is 0 |
| LoadEmulation.SplitConserves | pkg/loademulator/loademulator.go:252-256 | the shares add up to the total |
| LoadEmulation.ShareExactly | pkg/loademulator/loademulator.go:245-257 | a share is to the total as (1-s)/n + s u, for its draw u, to 1-s plus s times the sum of all draws |
| LoadEmulation.SplitBounds | pkg/loademulator/loademulator.go:245-257 | for skew below 1 and every draw vector, a share lies between total (1-s) / (n ((1-s) + (n-1) s)) and total ((1-s) / n + s) |
| LoadEmulation.SplitBoundsAreBest | pkg/loademulator/loademulator.go:245-257 | an interval holds that share for every draw vector exactly if it holds both of these extremes |
| LoadEmulation.NoSkewSplitsEqually | pkg/loademulator/loademulator.go:243-257 | skew 0 splits equally |
| LoadEmulation.TokenStepUp | pkg/loademulator/loademulator.go:217-219 | from below, a noise-free step gains at least one token and never overshoots |
| LoadEmulation.TokenStepDown | pkg/loademulator/loademulator.go:217-219 | from above, it never rises nor undershoots, and stalls exactly within 1/theta above the nominal and inside the clamp |
| LoadEmulation.TokenRestPoints | pkg/loademulator/loademulator.go:217-219 | the exact set of rest points |
| LoadEmulation.TokenWalkReachesNominal | pkg/loademulator/loademulator.go:217-223 | from below the walk is at the nominal within nominal - tok steps and stays |
| LoadEmulation.TokenWalkSettles | pkg/loademulator/loademulator.go:217-223 | from above it descends to a rest point within tok - nominal steps |
| LoadEmulation.RoundHalfUpIsFormat | pkg/loademulator/loademulator.go:119 | rounding to four decimals is a label format within 0.00005 |
| RateTracking.RunDeployment | pkg/loademulator/loademulator.go:84-132 | consecutive cycles walk toward first-seen baseline times multiplier; later edits of the nominal label are ignored |
| RateTracking.RateExactly | pkg/loademulator/loademulator.go:100-125 | a cycle whose update took no effect leaves the rate, another one walks it toward its nominal and rounds |
| RateTracking.TicksExactly | pkg/loademulator/loademulator.go:87-125 | the nominal of a cycle is baseline times multiplier |
| RateTracking.ErrorRuns | pkg/loademulator/loademulator.go:100-125 | over a run the error follows the tick-by-tick recurrence, failed updates included |
| RateTracking.ErrorClosedForm | pkg/loademulator/loademulator.go:213-215 | that recurrence is bounded by its closed form |
| RateTracking.TrackingBound | pkg/loademulator/loademulator.go:87-125 | with s successes and f failures the error is at most (1-theta)^s e0 + ((1-theta) D + E) / theta + f D |
| RateTracking.SteadyError | pkg/loademulator/loademulator.go:117-125 | with at most g failures in a row, only the failures since the last success add to the recurrence's bound |
| RateTracking.SteadyTracking | pkg/loademulator/loademulator.go:87-125 | with s successes, at most g failures in a row and c since the last success, the error is at most (1-theta)^s e0 + ((1-theta)(g+1) D + E) / theta + c D |
| RateTracking.PhasesDrift | pkg/loademulator/phases.go:82-122 | under a phase sequence the nominal moves per cycle by at most baseline times steepest slope times the gap |
| RateTracking.PhaseTracking | pkg/loademulator/loademulator.go:76-125 | the tracking bound under a phase sequence, from whatever time the Deployment is first seen |
| RateTracking.SteadyPhaseTracking | pkg/loademulator/loademulator.go:76-125 | that bound under a phase sequence |
| Collector.AskRunningPods | pkg/collector/sensor_serversim.go:76-113 | the running, owned pods past their startup delay, each with its answer, in listing order; nothing if a listing fails |
| Collector.Fold | pkg/collector/sensor_serversim.go:127-202 | the replicas that pass the gate, and the Deployment figures they amount to; replica count 0 without a listing |
| Collector.Sense | pkg/collector/sensor_serversim.go:70-202 | from the listed ReplicaSets and pods to those replicas and figures, which the six rows below spell out |
| Collector.ListingExactly | pkg/collector/sensor_serversim.go:76-113 | there is a listing exactly if the ReplicaSets and the pods can be listed |
| Collector.ViewsExactly | pkg/collector/sensor_serversim.go:76-113 | asked are exactly the pods that run, have started and are owned through a ReplicaSet, in listing order, each for its own answer |
| Collector.ObservedExactly | pkg/collector/replicaspec.go:13-47 | the replicas are those of exactly the pods whose window was produced under a positive allocation in force, in order, each with the latencies, occupancy and rates of its window |
| Collector.MeansExactly | pkg/collector/sensor_serversim.go:129-167 | latencies are means weighted by throughput, occupancy is the plain mean, throughput the sum |
| Collector.ArrivalExactly | pkg/collector/sensor_serversim.go:217-228 | the sum over the replicas if all report, else the positive setpoint, else the sum if any report, else the backup rate |
| Collector.SpecExactly | pkg/collector/sensor_serversim.go:175-202 | the rest of the spec is taken over from labels and averages, token averages truncated |
| Collector.OccupancyNonNegative | pkg/collector/replicaspec.go:18-25 | occupancies by Little's law are never negative, whichever way the two times compare |
| Collector.MeansBetween | pkg/collector/sensor_serversim.go:129-167 | latencies and occupancy lie between those of the replicas that carry weight |
| Collector.SilentPodsDoNotCount | pkg/collector/replicaspec.go:13-16 | a pod whose result is missing or stale might as well not be listed |
| Collector.SummaryIgnoresOrder | pkg/collector/sensor_serversim.go:130-160 | the order of the pods changes no figure |
| Collector.FullReportSums | pkg/collector/sensor_serversim.go:157 | if every pod of the split reports, the offered sum is the split total within one rounding per pod |
| Collector.AgreesIffPicksDo | pkg/collector/sensor_serversim.go:217-228 | whatever rates the pods carry, agreement under every gating holds exactly if there are no replicas, or more than pods, or any that many of the rates add up to the setpoint |
| Collector.ArrivalAgreement | pkg/collector/sensor_serversim.go:171-173 | if every pod in use got its share of the split, the selected rate is, whichever pods are gated, within (k + 1) roundings of the positive setpoint label split over k pods, unless there are some, but fewer than k, replicas |
| Collector.ArrivalAgreesIff | pkg/collector/sensor_serversim.go:171-173 | under the same premise and for a load large against the roundings, agreement under every gating holds exactly then |
| Collector.ArrivalDeviation | pkg/loademulator/loademulator.go:200-202 | pods that were not labelled, their update refused or new, put the full report off by exactly what they carry too much |
| Collector.FullReportAgreesIff | pkg/collector/sensor_serversim.go:217-228 | with as many replicas as pods, labelled or not, agreement under every gating holds exactly if the rates on the pods add up to the setpoint label |
| Collector.StaleSplitUndercounts | pkg/collector/sensor_serversim.go:217-228 | with some, but fewer, replicas than pods of the split, as many pods can report, and the share of any other pod goes missing |
| LlmdSensor.Metrics.CollectByPod | pkg/collector/sensor_llmd.go:214-225 | only the one metric changes, to the last usable value, only for named pods that have one |
| LlmdSensor.Metrics.BuildSpecs | pkg/collector/sensor_llmd.go:238-323 | one replica per pod with throughput, and the Deployment figures their readings amount to |
| LlmdSensor.Add | pkg/collector/sensor_llmd.go:277-289 | an absent metric adds to neither its sum nor its weight |
| LlmdSensor.UsableExactly | pkg/collector/sensor_llmd.go:214-225 | the usable value of a named pod is that of the vector's last entry for it that has one |
| LlmdSensor.UpdatedExactly | pkg/collector/sensor_llmd.go:214-225 | a query fills its own metric of a reading and no other |
| LlmdSensor.ReplicasExactly | pkg/collector/sensor_llmd.go:249-290 | the replicas are those of exactly the pods with a throughput, in order, each with its readings, latencies in milliseconds |
| LlmdSensor.ReadingsExactly | pkg/collector/sensor_llmd.go:249-290 | the figures are folded from the readings of the same pods |
| LlmdSensor.MeansExactly | pkg/collector/sensor_llmd.go:256-301 | latencies are means weighted by throughput over the pods that report them, occupancy is the plain mean over those that report it |
| LlmdSensor.SpecExactly | pkg/collector/sensor_llmd.go:303-323 | the rest of the spec is taken over from labels and averages |
| LlmdSensor.ThroughputConserved | pkg/collector/sensor_llmd.go:258-277 | the Deployment's throughput and arrival rate are the sum over the emitted replicas |
| LlmdSensor.AveragesBetween | pkg/collector/sensor_llmd.go:292-301 | averages lie between the extremes of the pods that report the metric, for latencies with positive throughput |
| LlmdSensor.SilentPodsDoNotCount | pkg/collector/sensor_llmd.go:250-253 | a pod without throughput might as well be away |
| LlmdSensor.UnreportedDoesNotCount | pkg/collector/sensor_llmd.go:242-245 | a pod that does not report a metric leaves that metric's average as it is |
| LlmdSensor.SummaryIgnoresOrder | pkg/collector/sensor_llmd.go:249-290 | the order of the pods changes no figure |
| Monitor.FindTargets | pkg/monitor/builder.go:43-55 | the targets of the first class of that name, and in it of the first entry for the model |
| Monitor.RecordServers | pkg/monitor/builder.go:25-67 | one record per server, and the total cost is the sum of the costs recorded |
| Monitor.AllocatedByType | pkg/monitor/builder.go:83-88 | in any map order, exactly the types in use, each with the sum of its replicas |
| Monitor.AvailableByType | pkg/monitor/builder.go:89-92 | the last count listed for a type |
| Monitor.ListTypes | pkg/monitor/builder.go:93-101 | in any map order, one record per type in use |
| Monitor.SortByType | pkg/monitor/builder.go:102-104 | the same records, types strictly increasing |
| Monitor.RecordCapacity | pkg/monitor/builder.go:81-104 | exactly the types in use, strictly increasing, with their sums and availabilities |
| Monitor.RecordInternals | pkg/monitor/builder.go:69-79 | every tuned parameter set, in order |
| Monitor.BuildRecord | pkg/monitor/builder.go:16-121 | the whole record: servers, model parameters, capacity, total cost, time and timings |
| Monitor.TargetsExactly | pkg/monitor/builder.go:43-55 | the targets of the first entry for the model in the first class of the name, zero without one |
| Monitor.RecordExactly | pkg/monitor/builder.go:25-67 | what was observed of a server and, if the solution has it, what was decided, cost included |
| Monitor.InternalsExactly | pkg/monitor/builder.go:69-79 | a parameter set is recorded field by field |
| Monitor.CapacityExactly | pkg/monitor/builder.go:81-104 | exactly the named types with replicas, by name, each with all its replicas and the count listed last |
| Monitor.CapacityConserved | pkg/monitor/builder.go:83-101 | the recorded allocations add up to the replicas of all allocations with a named type and a positive count |
| Monitor.CapacityDeterministic | pkg/monitor/builder.go:83-104 | the capacity section does not depend on map iteration order |
| ControlLoop.Controller.Init | pkg/controller/controller.go:93-108 | on success both model-data copies are the model file |
| ControlLoop.Controller.PinBatchSizes | pkg/controller/controller.go:241-247 | unset batch sizes become the default, others stay |
| ControlLoop.Controller.TakeServers | pkg/controller/controller.go:240-248 | the collected servers with their batch sizes pinned, and their Kubernetes resources |
| ControlLoop.Controller.ReadData | pkg/controller/controller.go:217-229 | capacity first; the copies move only when the static data is read in full |
| ControlLoop.Controller.OptimizeAndActuate | pkg/controller/controller.go:308-344 | the cycle number counts exactly the actuated cycles, and the record is of this cycle |
| ControlLoop.Controller.Optimize | pkg/controller/controller.go:213-345 | outcome, new state, and what the tuner, the optimizer and the actuator were sent, for every combination of failures |
| ControlLoop.IdleCycle | pkg/controller/controller.go:213-240 | without the files or without servers nothing is sent and no counter moves |
| ControlLoop.UntunedCycle | pkg/controller/controller.go:253-306 | without the tuner, replicas to tune on, or its answer, no cycle is held back and nothing is merged |
| ControlLoop.WarmUpCycle | pkg/controller/controller.go:253-304 | while the tuner warms up the counter rises by one, and the cycle is held back exactly if there is no timeout or the counter is below it |
| ControlLoop.TunedCycle | pkg/controller/controller.go:280-306 | a warm tuner is sent the model data in use, and its reply is used and sent to the optimizer |
| ControlLoop.CycleBeyondGate | pkg/controller/controller.go:308-344 | beyond the gate the outcome is that of the optimizer and the actuator, and the cycle number rises exactly on actuation |
| ControlLoop.DataIsFresh | pkg/controller/controller.go:120-248 | the optimizer's data: each file read, up to the first that cannot be, and the servers as collected with the default batch size where they have none |
| ControlLoop.RecordOfCycle | pkg/controller/controller.go:331-344 | the record has the cycle's number, time, timings, servers, parameters, cost and capacity |
| ControlLoop.WarmUpRun | pkg/controller/controller.go:293-306 | of successive warm-up cycles exactly the first timeout - 1 are held back, all without a timeout |
| ControlLoop.OptimizeAll | pkg/controller/controller.go:203-207 | successive cycles make a run, with the outcome of each |
| ControlLoop.CountMeaning | pkg/controller/controller.go:293-306 | the counter is the number of warm-up cycles since the last cycle that passed the gate without warming up; cycles that fail before the gate do not matter |
| ControlLoop.CountIs | pkg/controller/controller.go:293-306 | the counter is k exactly when the last k gate-reaching cycles warm up and the one before, if any, does not |
| ControlLoop.WarmUpGate | pkg/controller/controller.go:293-306 | the k-th consecutive warm-up cycle is held back exactly when there is no timeout or k is below it |
| ControlLoop.CycleNumCounts | pkg/controller/controller.go:331 | the cycle number grows by the number of cycles of the run whose outcome is an actuation |
| ControlLoop.CurrentIsLatest | pkg/controller/controller.go:223-229 | the current model data is what the last cycle that merged or read the files in full gave, else the initial data |
| ControlLoop.StaticModeAgrees | pkg/controller/controller.go:97-98 | without dynamic mode the copies agree and the original never changes |
| ControlLoop.OptimizerSeesLatest | pkg/controller/controller.go:280-309 | every optimizer call carries that latest model data |
| ControlLoop.ModelsPartIff | pkg/controller/controller.go:134-167 | exactly when the copies differ on return |
| ControlLoop.ModelsPartInRuns | pkg/controller/controller.go:223-229 | over runs the copies agree unless the last re-read of the model file stopped after it |
| ControlLoop.BatchSizesPinned | pkg/controller/controller.go:241-247 | with a default no server is without a batch size, and none that has one loses it |

## Left out

- Protocol.SelfHealing: the healing pass itself is taken without environment steps inside it; a plan computed from listings that have gone stale meanwhile is covered by the safety results only, and heals one pass later.
- Reconciler.PassHeals: assumes the preconditions listed under Assumptions; `Protocol.SelfHealing` derives them from the run.
- RateTracking.TrackingBound: over the reals; the rounding of floating-point arithmetic itself is not modelled.
- LoadEmulation.LoadEmulator.SplitLoad: the NaN label written when all weights vanish is a flag here, and what the collector makes of such a label is not modelled.
- Ownership.ListOwnedReadyPods: the API server is assumed to list only pods of the namespace asked for, with distinct names.
- ControlLoop.Controller.Optimize: calibration, the measuring of the timings (they are inputs), the mutex and the log recorder are left out; cycles run one after the other.
- The HTTP handlers, the `/invoke` route, the Kubernetes and Prometheus clients, tokens and TLS.
- `ComputeUpdates`, the calibration sweep, environment parsing and mode selection: simple maps and defaults.
- The optimizer, the tuner and server-sim: their replies are arbitrary inputs.
- Log text, and the message cache of `logOncePerMinute`.
- Parsing of label text: labels are the numbers they stand for; a label that does not parse is a None or a 0 chosen by the caller.
- Integer and duration overflow, and the narrowing of figures to 32-bit floats.
