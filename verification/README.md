# IBM Cloud provider for VPC: the load balancer reconciler

A Dafny model of the part of the IBM Cloud Kubernetes provider that keeps a VPC load balancer in line with a
Kubernetes service and its nodes, with proofs of what it promises. `dafny verify dfyconfig.toml` checks everything.

## What is modelled

`UpdateLoadBalancer` compares the service ports and the node list with the listeners, pools and members of a load
balancer, writes an ordered plan of eight kinds of operation as lines of text, coalesces the member updates, and carries
out line after line against a load balancer that must be online/active before each of them.

* `Text`, `PoolNames`: the string functions the program relies on, and pool names `<protocol>-<port>-<nodePort>`.
* `LoadBalancers`, `Cloud`: the state of a load balancer, what each request does to it (`Effect`) and which rules it must
  respect (`Accepts`), runs of requests (`Final`, `Safe`) and the well-formed states (`WellFormed`).
* `Actions`, `Plans`, `Planner`, `Coalescing`: the operations and their text, the plan as a function, the loops that
  write it (with the pool names that step 2 overwrites in place), and step 8 with its count map.
* `PoolRuns`, `Stages`, `WholeRun`, `CreateRun`, `Convergence`, `Clashing`, `Goals`, `MergedPlan`, `Reconciliation`,
  `PlanWork`, `Progress`, `PlanShape`: the proofs about whole runs. Most are stated for `merged` true and false, that is with
  and without step 8.
* `VpcSdk`, `Creation`, `Reconciler`: the cloud as an object whose requests may fail, with a trace of what was observed and
  requested; creation; the executors, the waiting loop, `UpdateLoadBalancer` and its callers as methods.
* `Subnets`, `WakeUp`, `Monitor`, `NodeCache`: the subnet check, the wake-up channel between threads, the load balancer
  monitor with the stale clean-up, and the node metadata cache.

## Assumptions

* A state is well-formed if identifiers are distinct single words, every pool name parses, no two pools share protocol and
  port, listeners have distinct ports, a TCP listener's default pool is the TCP pool for its port, and members of a pool
  are distinct by target and port. Every request keeps this. A name need not be canonical, that is exactly what the provider
  prints for its fields; where that makes a difference, the theorems say so.
* Service ports are distinct within a protocol and not negative, node addresses are distinct words or missing. Protocols are
  not assumed: the check for TCP is part of the model. All traffic policies are covered; the health monitor belongs to the
  goal only where the planner looks at it, and `HealthMonitorCorrectedIff` says for every pool when it is put right.
* The cloud refuses a pool name or a listener port that is taken, a second member with the same target and port, the
  deletion of a pool in use and of anything that is not there; it gives a new pool the proxy setting `disabled` when the
  request has none. Beyond that any call may fail for no reason, before or after the change it asks for was made. Nobody
  else changes the load balancer during a run.
* Statuses of a load balancer hold no slash, where events are stated in the two statuses instead of their text.
* Identifiers come from two sequences without repetition, one for listeners and pools and one for members, so that runs
  with and without coalescing can be compared up to member identifiers.

## Findings

* A pool whose name parses but is not canonical, such as one with a leading zero, is renamed and has its members replaced
  although its node port is current, and step 5 still creates members under the old name. A run is refused a request exactly
  if, after step 8, such a pool has one member to create and none to delete (`RunAcceptedIff`, with an input in
  `LeadingZeroStopsTheRun`). By then every pool is renamed, so a second pass always reaches the goal (`TwoPassesConverge`).
* One pass is enough exactly if nothing clashes like this and the proxy protocol is not requested or every service port has
  a pool beforehand (`OnePassIff`): the request that creates a pool carries no proxy setting (`OnePassFails`). Two passes are
  enough if nothing clashes, and also after a clash unless a port without a pool meets a requested proxy protocol
  (`SettledAfterTwoPassesIff`, with an input in `TwoPassesFail`); three always are.
* Under a traffic policy other than Cluster, or Local with a positive health check port, a wrong health monitor is put right
  exactly if the pool is renamed or its proxy setting is changed at the same time (`HealthMonitorCorrectedIff`); if nothing
  else is to be done it is not noticed (`HealthMonitorEnforcedIff`, with an input in `WrongMonitorStays`).
* `GetNodeMetadata` compares the provider ID of a node with the empty one of the miss before it, so it deletes whenever the
  node has one; that costs other threads an entry exactly if one of them has put it since the miss, whatever its provider ID
  (`CallDeletesOthersEntryIff`, with an input in `SameNodeIsDeleted`).
* The clean-up tells load balancers of other clusters by their names alone. It deletes the ready load balancer of a service
  of another cluster, when no own service has that name, exactly if the name carries the own prefix (`CleanUpIsIsolated`). A
  generated name does exactly if the own ID has at most 57 characters and, followed by a dash, begins the ID of the other
  cluster; a name from the annotation does exactly if the annotation begins with the prefix (`ForeignPrefix`, with inputs in
  `DashedClusterIsNotIsolated` and `AnnotatedNameIsNotIsolated`).
* The monitor finds the listed load balancer of an own service exactly if its name carries the own prefix: for a generated name
  if the cluster ID has at most 57 characters, for a name from the annotation if the annotation begins with the prefix
  (`OwnIsFoundIff`). Otherwise a healthy load balancer is taken for missing (`AnnotatedServiceIsNotFound`).
* Work done before a failure is not lost: with canonical names, all attempts at the same service together do no more updates
  than the first plan has, and one more for each service port that had no pool if the proxy protocol is requested
  (`AttemptsAreBounded`).

## Model

| member | source | states |
|---|---|---|
| Reconciliation.Converges | pkg/vpcctl/vpc_lbaas.go:574-687 | From every well-formed state without a clash the whole plan, coalesced or not, is accepted and ends in a state with exactly one TCP listener and one pool per service port, members exactly the nodes on the node port, the requested health monitor, nothing else, and the requested proxy setting on every pool that existed |
| Reconciliation.RunAcceptedIff | pkg/vpcctl/vpc_lbaas.go:574-687 | From any well-formed state the run is accepted throughout if and only if no wanted pool has a current node port, a name that is not canonical and, after step 8, one member to create and none to delete (without step 8: any to create) |
| Reconciliation.LeadingZeroStopsTheRun | pkg/vpcctl/vpc_sdk_base.go:82-102 | A pool named tcp-080-30000 with one node to add stops the run; with two nodes to add only the run without step 8 stops |
| Reconciliation.TwoPassesConverge | pkg/vpcctl/vpc_lbaas.go:574-687 | Two passes reach the desired state from every well-formed state, even if the first is refused a request |
| Reconciliation.NothingToDoIffDesired | pkg/vpcctl/vpc_lbaas.go:574-631 | The plan is empty if and only if the load balancer is what the service asks for, proxy settings included |
| Reconciliation.SecondPlan | pkg/vpcctl/vpc_sdk_gen2.go:188-210 | After one whole pass that went through the next plan is empty, or, if the proxy protocol is requested, exactly one UPDATE-POOL per pool that was created |
| Reconciliation.OnePassIff | pkg/vpcctl/vpc_lbaas.go:291-299 | One pass goes through and leaves nothing to do if and only if no pool clashes and the proxy protocol is not requested or every service port has a pool before the pass |
| Reconciliation.OnePassFails | pkg/vpcctl/vpc_sdk_gen2.go:195-202 | For a new service port with the proxy protocol requested the plan after one pass is not empty |
| Reconciliation.CreatesNothingIff | pkg/vpcctl/vpc_lbaas.go:613-617 | A pass that goes through creates no pool if and only if every service port has one before it |
| Reconciliation.SettledAfterTwoPasses | pkg/vpcctl/vpc_lbaas.go:574-687 | After two whole passes the plan is empty, from any well-formed state without a clash |
| Reconciliation.SettledAfterTwoPassesIff | pkg/vpcctl/vpc_lbaas.go:574-687 | From any well-formed state the plan after two passes is empty if and only if no pool clashes in the first, or the proxy protocol is not requested, or every service port has a pool from the start |
| Reconciliation.TwoPassesFail | pkg/vpcctl/vpc_lbaas.go:574-687 | From the pool tcp-080-30000 with service ports 80 and 81, one node and the proxy protocol requested, the plan after two passes is not empty |
| Reconciliation.SettledAfterThreePasses | pkg/vpcctl/vpc_lbaas.go:574-687 | After three whole passes from any well-formed state the plan is empty |
| Reconciliation.ResumesAfterFailure | pkg/vpcctl/vpc_lbaas.go:643-687 | Wherever a run stops, the state is well-formed and two passes from there, even for a changed service, reach the desired state; with canonical names the update that failed broke no rule and one pass is enough |
| Progress.ProgressIsKept | pkg/vpcctl/vpc_lbaas.go:643-687 | From any well-formed state with canonical names: where a run stops after k updates, the next plan for the same service is shorter by k at least, but for one update per service port that was given a pool meanwhile if the proxy protocol is requested |
| Progress.AttemptsAreBounded | pkg/vpcctl/vpc_lbaas.go:643-687 | Over any number of failed passes, the updates done and those still planned are together at most the first plan, and one more per service port without a pool if the proxy protocol is requested |
| Progress.WorkIsLength | pkg/vpcctl/vpc_lbaas.go:574-625 | For canonical names the number of planned updates is a sum over listeners, pools and service ports |
| PlanWork.PoolStepWithin | pkg/vpcctl/vpc_lbaas.go:589-611 | Each action of the steps 3 to 5 for a pool with a canonical name lowers the number of updates the pool still calls for |
| Reconciliation.CoalescingPreservesMeaning | pkg/vpcctl/vpc_lbaas.go:55-106 | Where the plan runs through, the coalesced plan does too, and both end in the same listeners, pools, settings and member targets |
| Reconciliation.HealthMonitorEnforcedIff | pkg/vpcctl/vpc_lbaas.go:283-289 | In a load balancer with nothing else to be done, a health monitor that is not the requested one leads to an update if and only if the policy is Cluster, or Local with a positive health check port |
| Creation.WrongMonitorStays | pkg/vpcctl/vpc_lbaas.go:283-289 | For a one-port service under an unchecked traffic policy a load balancer with another health monitor than the requested one gets an empty plan |
| Reconciliation.HealthMonitorCorrectedIff | pkg/vpcctl/vpc_lbaas.go:278-301 | After a pass from any well-formed state, gone through or not, a pool that stays has the requested health monitor if and only if it had it before, or the policy is one the planner checks, or the pool is renamed, or its proxy setting is changed |
| MergedPlan.CoalescedPlan | pkg/vpcctl/vpc_lbaas.go:55-106 | Step 8 of a plan in closed form: per pool, two or more member updates become one replacement where the first stood, and the rest of the plan stays as it is |
| PlanShape.PlanExecutable | pkg/vpcctl/vpc_lbaas.go:661-681 | Every planned line is read back as the action it was printed for, with the number of arguments its executor demands, and never names the mark of a deleted pool |
| PlanShape.PlanOrdered | pkg/vpcctl/vpc_lbaas.go:558-573 | Before and after step 8 deletions come before pool updates, these before creations, and new pools and listeners last; only replacements may move |
| PlanShape.PlanForPool | pkg/vpcctl/vpc_lbaas.go:581-611 | A listed pool gets nothing but its deletion, or the steps 3 to 5 computed for it alone |
| PlanShape.OneMemberOperationPerPool | pkg/vpcctl/vpc_lbaas.go:55-106 | For a pool with a canonical name: after step 8 at most one operation on members; a replacement is always the only one; a pool to be deleted gets no other operation |
| PlanShape.OneMemberOperationIff | pkg/vpcctl/vpc_lbaas.go:55-106 | After step 8 a pool has more than one operation on its members if and only if it is wanted, its node port is current, its name is not canonical and a member is missing or unwanted |
| Convergence.StepsRun | pkg/vpcctl/vpc_lbaas.go:574-687 | The run of steps 1 to 5 and then 6 and 7 accepts every action and reaches the stage reached by pools, names and ports |
| WholeRun.UnwantedPoolIsFree | pkg/vpcctl/vpc_lbaas.go:558-565 | Rule 1: once unwanted listeners are gone, no listener uses a pool that step 2 deletes |
| WholeRun.DeletePoolsRun | pkg/vpcctl/vpc_lbaas.go:581-587 | Step 2 is accepted throughout and leaves exactly the wanted pools, in order |
| WholeRun.DeleteListenersRun | pkg/vpcctl/vpc_lbaas.go:576-579 | Step 1 is accepted throughout and leaves exactly the listeners of service ports, in order |
| CreateRun.CreatesRun | pkg/vpcctl/vpc_lbaas.go:613-622 | Rules 2 and 3: each CREATE-LISTENER finds its pool by name and its port free, and in the end every service port has both |
| CreateRun.NewNameIsFree | pkg/vpcctl/vpc_lbaas.go:142-164 | A pool that step 6 creates shares protocol and port with no other pool |
| Stages.PoolStep | pkg/vpcctl/vpc_lbaas.go:589-611 | One of the steps 3 to 5 for one pool that does not clash, coalesced or not, is accepted and brings the pool to its next stage |
| Clashing.ClashStops | pkg/vpcctl/vpc_lbaas.go:605-611 | A clash stops the run at the first clashing pool of step 5, after every pool is renamed and before anything is created |
| Clashing.PassNamesWell | pkg/vpcctl/vpc_lbaas.go:597-603 | After any whole pass, gone through or not, the state is well-formed and every pool name is canonical |
| Stages.PortForFacts | pkg/vpcctl/vpc_lbaas.go:188-206 | For a wanted pool the name is not the expected one exactly when its node port is outdated or it is not canonical, and a rename keeps protocol and port |
| PoolRuns.DeleteMembersRun | pkg/vpcctl/vpc_lbaas.go:228-258 | Step 3 for a pool leaves exactly the members the node text and the node port keep |
| PoolRuns.CreateMembersRun | pkg/vpcctl/vpc_lbaas.go:188-225 | Step 5 for a pool makes the members exactly the nodes, creating no duplicate |
| PoolRuns.ReplaceMembersRun | pkg/vpcctl/vpc_sdk_gen2.go:618-642 | A replacement makes the members exactly the nodes, from whatever was there |
| PoolRuns.KeepsMemberMeans | pkg/vpcctl/vpc_lbaas.go:249-256 | The text search for a padded target and the port test keep a member if and only if its target is a node and its port the node port |
| PoolRuns.LiftPoolRun | pkg/vpcctl/vpc_sdk_gen2.go:213-234 | A safe run of requests on one pool is safe for the load balancer and changes nothing else in it |
| Cloud.SafePrefix | pkg/vpcctl/vpc_lbaas.go:643-687 | A safe run may stop after any number of actions: the state there is well-formed and the next action is accepted |
| Cloud.ReplacePoolKeepsWellFormed | pkg/vpcctl/vpc_sdk_gen2.go:645-682 | Changing one pool keeps the state well-formed while its ID, protocol and port stay |
| Cloud.DeletePoolKeepsWellFormed | pkg/vpcctl/vpc_sdk_gen2.go:255-261 | Deleting a pool that no listener uses keeps the state well-formed |
| Cloud.AddPoolKeepsWellFormed | pkg/vpcctl/vpc_sdk_gen2.go:188-210 | Adding a pool with a fresh ID, protocol and port keeps the state well-formed |
| Cloud.AddListenerKeepsWellFormed | pkg/vpcctl/vpc_sdk_gen2.go:163-185 | Adding a listener on a free port with a pool for that port keeps the state well-formed |
| Goals.ReachedIsDesired | pkg/vpcctl/vpc_lbaas.go:574-687 | Every state a whole run reaches is desired; old pools have the requested proxy setting and new ones the default |
| Goals.PlanOfDesired | pkg/vpcctl/vpc_lbaas.go:261-311 | In a desired state the plan is one UPDATE-POOL for each pool with another proxy setting |
| Planner.CheckListenersForExtPortAddedToService | pkg/vpcctl/vpc_lbaas.go:109-120 | Appends a CREATE-LISTENER line exactly if no listener matches the service port |
| Planner.CheckListenerForExtPortDeletedFromService | pkg/vpcctl/vpc_lbaas.go:123-139 | Appends a DELETE-LISTENER line exactly if no service port matches, with "unknown" for a missing pool name |
| Planner.CheckPoolsForExtPortAddedToService | pkg/vpcctl/vpc_lbaas.go:142-164 | Appends a CREATE-POOL line exactly if the scan finds no pool, skips marked pools, and fails on a name it cannot parse |
| Plans.LacksPoolScan | pkg/vpcctl/vpc_lbaas.go:142-164 | The scan for a pool of a service port is decided by the first pool that is for the port, by name or by fields, or has a name that cannot be read; marked pools are passed over |
| Planner.CheckPoolForExtPortDeletedFromService | pkg/vpcctl/vpc_lbaas.go:167-185 | Appends a DELETE-POOL line and overwrites the name of that pool and no other, exactly if no service port matches |
| Planner.CheckPoolForNodesToAdd | pkg/vpcctl/vpc_lbaas.go:188-225 | Appends one CREATE-POOL-MEMBER line per missing node, none for a marked pool or a changed node port |
| Planner.CheckPoolForNodesToDelete | pkg/vpcctl/vpc_lbaas.go:228-258 | Appends one DELETE-POOL-MEMBER line per unwanted member, none for a marked pool or a changed node port |
| Planner.CheckPoolForServiceChanges | pkg/vpcctl/vpc_lbaas.go:261-311 | Appends UPDATE-POOL and REPLACE-POOL-MEMBERS for a changed name, UPDATE-POOL alone for a changed setting |
| Planner.RequiredUpdates | pkg/vpcctl/vpc_lbaas.go:574-622 | Steps 1 to 7 as loops over the caller's pools produce the text of the plan and mark the deleted pools, or fail exactly if some pool name cannot be parsed |
| Coalescing.CheckForMultiplePoolMemberUpdates | pkg/vpcctl/vpc_lbaas.go:55-106 | The two passes with the count map that is zeroed compute the coalesced list |
| Coalescing.CountPoolUpdates | pkg/vpcctl/vpc_lbaas.go:57-65 | The map holds for every pool name the number of its member updates |
| Coalescing.CoalesceLinesIdempotent | pkg/vpcctl/vpc_lbaas.go:55-106 | For any list of lines, coalescing twice is coalescing once |
| Coalescing.CoalesceLinesOfPlan | pkg/vpcctl/vpc_lbaas.go:86-104 | Coalescing the text of a plan gives the text of the coalesced plan |
| Coalescing.MergeKeepsOthers | pkg/vpcctl/vpc_lbaas.go:86-90 | For any list, updates that are not member updates all stay, in order |
| Coalescing.AtMostOneMemberUpdatePerPool | pkg/vpcctl/vpc_lbaas.go:93-103 | For any list, a pool name keeps its member update exactly if it had just one |
| Coalescing.MergeLength | pkg/vpcctl/vpc_lbaas.go:86-104 | For any list, what is left is the other updates and one line per pool name with member updates |
| Coalescing.NothingToMerge | pkg/vpcctl/vpc_lbaas.go:67-77 | A list in which no pool has two member updates is returned as it is |
| Actions.DecodeOfPrint | pkg/vpcctl/vpc_lbaas.go:659-681 | Splitting and trimming a printed line gives the action back, for arguments that are single words |
| Actions.PrintInjective | pkg/vpcctl/vpc_lbaas.go:546-551 | Different actions print different lines |
| PoolNames.ParseOfPoolNameText | pkg/vpcctl/vpc_sdk_base.go:82-107 | Parsing a printed pool name gives protocol, port and node port back |
| PoolNames.PoolNameTextInjective | pkg/vpcctl/vpc_sdk_base.go:104-107 | Pool names are injective |
| PoolNames.ParsedPortsAreNatural | pkg/vpcctl/vpc_sdk_base.go:82-102 | Any name that parses has ports that are not negative |
| PoolNames.ParsesIff | pkg/vpcctl/vpc_sdk_base.go:82-102 | A name parses to given fields if and only if it is tcp or udp and two texts without a minus sign that read as the ports, joined by minus signs |
| PoolNames.LeadingZeroIsNotCanonical | pkg/vpcctl/vpc_sdk_base.go:93-100 | A name with a leading zero parses to the same fields without being the printed name |
| LoadBalancers.MatchesTcp | pkg/vpcctl/vpc_config.go:344-354 | For a TCP service port, matching is equality of the port on a protocol that is TCP up to case |
| Text.PaddedContainsIffMember | pkg/vpcctl/vpc_lbaas.go:249-256 | Searching the padded, joined nodes for a padded word finds it if and only if it is a node, the empty list included |
| Text.AtoiOfIntText | pkg/vpcctl/vpc_sdk_base.go:93-106 | Reading a printed number gives the number back |
| Text.AtoiOfSigned | pkg/vpcctl/vpc_sdk_base.go:94-101 | Reading a printed number with a plus or minus sign or none, and where 64 bits end |
| Text.WithoutDrops | pkg/vpcctl/vpc_provider.go:299 | An occurrence of the character does not count, wherever it is |
| Creation.CreateAgreesWithUpdate | pkg/vpcctl/vpc_lbaas.go:314-379 | What creation builds is well-formed and gives an empty plan, for every port list, node list, policy and proxy option |
| Creation.CreatedIsDesired | pkg/vpcctl/vpc_sdk_gen2.go:104-160 | What creation builds is what the service asks for, proxy settings included |
| Creation.CreatedSpelledOut | pkg/vpcctl/vpc_sdk_gen2.go:104-134 | Port by port: listener, pool name, members, the HTTP health monitor exactly of a Local service with a health check port, and the proxy setting v1 exactly if it is requested |
| Creation.Prototypes | pkg/vpcctl/vpc_sdk_gen2.go:106-134 | The loop over pool names yields one pool and one listener for each, or fails exactly if a name cannot be parsed |
| VpcSdk.CloudSdk.CreateLoadBalancer | pkg/vpcctl/vpc_sdk_gen2.go:104-160 | Builds the created state for the pool names of the service ports, or nothing; an error may come after the creation |
| VpcSdk.CloudSdk.CreateLoadBalancerListener | pkg/vpcctl/vpc_sdk_gen2.go:163-185 | Adds one listener with port and protocol from the pool name on whatever pool ID is sent, if there is such a pool, or changes nothing; an error may come after the change |
| VpcSdk.CloudSdk.CreateLoadBalancerPool | pkg/vpcctl/vpc_sdk_gen2.go:188-210 | Adds one pool with all nodes, the health monitor and no proxy setting, or changes nothing; an error may come after the change |
| VpcSdk.CloudSdk.CreateLoadBalancerPoolMember | pkg/vpcctl/vpc_sdk_gen2.go:213-234 | Adds one member on the node port of the pool name, or changes nothing; an error may come after the change |
| VpcSdk.CloudSdk.ReplaceLoadBalancerPoolMembers | pkg/vpcctl/vpc_sdk_gen2.go:618-642 | Exchanges all members for the nodes on the node port of the pool name, or changes nothing; an error may come after the change |
| VpcSdk.CloudSdk.UpdateLoadBalancerPool | pkg/vpcctl/vpc_sdk_gen2.go:645-682 | Sets name and health monitor, and the proxy setting only if the listed one is not the wanted one, or changes nothing; an error may come after the change |
| Reconciler.CloudVpc.ProcessUpdate | pkg/vpcctl/vpc_lbaas.go:659-681 | The switch carries out the action the line decodes to, or returns its error and changes nothing |
| Reconciler.CloudVpc.DoCreateListener | pkg/vpcctl/vpc_lbaas.go:382-395 | Finds the pool by name in the latest load balancer object, so an accepted CREATE-LISTENER does not fail for a missing pool |
| Reconciler.CloudVpc.DoUpdatePool | pkg/vpcctl/vpc_lbaas.go:695-714 | Finds the listed pool by ID although its name may have been overwritten |
| Reconciler.CloudVpc.WaitLoadBalancerReady | pkg/vpcctl/vpc_lbaas.go:718-743 | Returns without error only a load balancer that is online and active; polls at most maxWait / minSleep times and does not give up before having slept that often; every poll but the last has shown another status |
| Reconciler.CloudVpc.ProcessUpdates | pkg/vpcctl/vpc_lbaas.go:643-692 | What was done is a prefix of the updates, all of them on success; an error is a refused request, one failed call, or two minutes of waiting for a load balancer that was seen busy; every request directly follows an observation of online and active |
| Reconciler.CloudVpc.PlanUpdates | pkg/vpcctl/vpc_lbaas.go:574-625 | The text produced by steps 1 to 8 is the text of the coalesced plan |
| Reconciler.CloudVpc.UpdateLoadBalancer | pkg/vpcctl/vpc_lbaas.go:496-692 | Without an online and active load balancer, with a port that is not TCP, another load balancer type, an annotation for other subnets or no nodes it fails and changes and requests nothing; otherwise it does a prefix of the coalesced plan, all of it on success and then the state is desired, with the requested proxy setting on the pools that existed and the default on the others; without a clash it fails only with one failed call or after two minutes of waiting for a busy load balancer; the state is well-formed and the trace guarded whatever happens |
| Reconciler.RejectionIff | pkg/vpcctl/vpc_lbaas.go:496-541 | An update is turned down before anything is planned if and only if the load balancer is not online and active, some port is not TCP, the load balancer type differs, the annotation is set and does not stand for the subnets of the load balancer, or there are no nodes |
| Reconciler.DesiredForService | pkg/vpcctl/vpc_lbaas.go:574-622 | A desired state spelled out for a service and its nodes: a TCP listener on a pool named tcp-port-nodePort for each port, the node addresses as members on the node port, the HTTP or TCP health monitor of the traffic policy, no other listener or pool, and the requested proxy setting |
| Reconciler.CloudVpc.CreateLoadBalancer | pkg/vpcctl/vpc_lbaas.go:314-379 | A success leaves the desired state, proxy settings included; after a failure there is no load balancer, or, if the call failed, the desired one; without nodes or with a port that is not TCP nothing is created |
| Reconciler.CloudVpc.EnsureLoadBalancer | pkg/vpcctl/vpc_provider.go:98-149 | Keeps the invariant in every case; a success leaves the load balancer the service asks for, with the requested proxy setting on all pools if it was created and on those that existed if it was updated; after a creation only a network load balancer that is not online and active is an error; for a service that cannot be served nothing is created, changed or requested; every error has a cause |
| Reconciler.CloudVpc.EnsureLoadBalancerUpdated | pkg/vpcctl/vpc_provider.go:184-219 | Keeps the invariant in every case; a success leaves the desired state, with the requested proxy setting on the pools that existed, or there is no load balancer, which is no error; for a service that cannot be served nothing is changed or requested; every error has a cause |
| Reconciler.NodeIdsMeans | pkg/vpcctl/vpc_config.go:245-254 | The node list holds exactly the addresses that are not empty |
| Reconciler.GetNodeIds | pkg/vpcctl/vpc_config.go:245-254 | The loop computes that node list in order |
| Reconciler.ValidateService | pkg/vpcctl/vpc_config.go:357-369 | Fails exactly if some port is not TCP |
| Subnets.ValidateServiceSubnetsNotUpdated | pkg/vpcctl/vpc_config.go:413-438 | Comparing sorted, joined identifiers accepts exactly if the set the annotation stands for equals the subnets of the load balancer |
| Subnets.ValidateServiceSubnets | pkg/vpcctl/vpc_config.go:371-410 | Returns the set of identifiers the aliases resolve to, without duplicates, in whatever order the map is walked, or the first error |
| Subnets.ResolveMeans | pkg/vpcctl/vpc_config.go:376-395 | An unambiguous alias resolves to a subnet exactly if it is its ID, name or CIDR inside the VPC |
| Subnets.ResolveFirst | pkg/vpcctl/vpc_config.go:374-395 | Without any assumption: the first subnet an entry answers to decides; its ID inside the VPC, an error if it is named by ID and in another VPC, and another error if there is none |
| Subnets.ResolveAllMeans | pkg/vpcctl/vpc_config.go:371-404 | The annotation is accepted exactly if every entry resolves, and stands for the set of what they resolve to |
| Subnets.SortedJoinedIffSameSet | pkg/vpcctl/vpc_config.go:430-434 | Sorted and joined texts are equal if and only if the sets are, for distinct, nonempty identifiers without commas |
| Subnets.GetVpcId | pkg/vpcctl/vpc_sdk_base.go:404-413 | Returns the VPC of the first listed subnet with the ID of the first subnet of the load balancer that is listed, and nothing if none is |
| Subnets.AnnotationOfIds | pkg/vpcctl/vpc_config.go:413-438 | An annotation of subnet IDs in the VPC, with or without blanks behind the commas, is accepted if and only if it names exactly the subnets of the load balancer |
| WakeUp.ClosedAtMostOnce | ibm/ibm_vpc_cloud.go:266-275 | In every interleaving the channel is closed at most once, never by a thread that finds it closed, and a closed channel still in the variable means that the closing thread holds the mutex |
| WakeUp.MutualExclusion | ibm/ibm_vpc_cloud.go:267-274 | At most one thread is between lock and unlock |
| WakeUp.NilIsPermanent | ibm/ibm_vpc_cloud.go:266-275 | Once the variable is nil it stays nil, and a close is never undone |
| WakeUp.WaitersCanProceed | ibm/ibm_vpc_cloud.go:132-149 | A create thread that captured the channel can go on from the moment it is closed, whatever others do, and is not woken before |
| WakeUp.WaiterHistory | ibm/ibm_vpc_cloud.go:131-149 | Over every run: a create thread goes without waiting exactly if it finds no channel; otherwise it waits until it is woken or ten minutes have passed, and times out only after exactly ten |
| WakeUp.AnUpdateWakesEveryone | ibm/ibm_vpc_cloud.go:261-275 | Once any update thread is through, the channel is closed and gone and every waiting thread can go on |
| WakeUp.NoMutexOnceGone | ibm/ibm_vpc_cloud.go:265-266 | Once the channel is gone, an update thread that starts never takes the mutex |
| WakeUp.RunsEnd | ibm/ibm_vpc_cloud.go:137-149 | Every run ends within six steps per update thread and eleven per create thread |
| WakeUp.SomeoneCanMove | ibm/ibm_vpc_cloud.go:266-275 | All threads are done exactly when no step is possible, and then the mutex is free: no deadlock |
| Monitor.LoadBalancerMonitor.MonitorLoadBalancers | pkg/vpcctl/vpc_provider.go:362-418 | One run stores the status of every service seen and no other, and records exactly the events that are due, once each, in whatever order the map is walked; the object stays what its history of runs makes it, with the operating and the provisioning status of every load balancer that was listed |
| Monitor.LoadBalancerMonitor.Monitor | pkg/vpcctl/vpc_provider.go:362-418 | One whole run from the listed services and load balancers: the history grows by what is seen of exactly these, with both statuses, the stale ones are deleted and no other; without a service list or after a failed listing nothing changes |
| Monitor.UidsOfServices | pkg/vpcctl/vpc_provider.go:245-268 | Services with distinct UIDs keep distinct UIDs in the map by name that the monitor walks |
| Monitor.WarningIffSameBadStatus | pkg/vpcctl/vpc_provider.go:395-416 | Over all runs a warning is due if and only if the status is not online/active and is the one of the last run that saw the service |
| Monitor.NormalIffTurnedOnline | pkg/vpcctl/vpc_provider.go:385-393 | Over all runs a normal event is due if and only if the status is online/active and was not when last seen |
| Monitor.NormalEventsAlternate | pkg/vpcctl/vpc_provider.go:385-393 | Between two normal events for a service some run saw it in another status |
| Monitor.RecordedOverAllRuns | pkg/vpcctl/vpc_provider.go:362-418 | The warnings and normal events a monitor object has recorded in any of its runs, if and only if in terms of what it has seen in all of them |
| Monitor.RecordedByStatuses | pkg/vpcctl/vpc_provider.go:385-416 | The same in the two statuses of the listed load balancers: a warning exactly if they are not online and active and the same as when last seen, a normal event exactly if they are and were not |
| Monitor.SightedMeans | pkg/vpcctl/vpc_provider.go:235-268 | What a run sees of a service are the two statuses of the listed load balancer with its name, if that carries the prefix, and offline/not_found otherwise |
| Monitor.OnlineActiveIff | pkg/vpcctl/vpc_sdk_base.go:355-357 | The status text is online/active if and only if the two statuses are online and active |
| Monitor.LoadBalancerMonitor.GatherLoadBalancers | pkg/vpcctl/vpc_provider.go:222-286 | Maps prefixed load balancers and services by name and asks for the deletion of exactly the stale ones |
| Monitor.CleanUpIsIsolated | pkg/vpcctl/vpc_provider.go:235-283 | The clean-up deletes the load balancer of a service of another cluster if and only if it is listed, online and active, no own load balancer or node port service has that name, and the name carries the own prefix by the condition of `ForeignPrefix` |
| Monitor.StaleIff | pkg/vpcctl/vpc_provider.go:235-283 | For distinct load balancer names: deleted are exactly the listed ones that are online and active, carry the own prefix and are named by no own load balancer or node port service |
| Monitor.LastLbCounts | pkg/vpcctl/vpc_provider.go:236-243 | Of listed load balancers with one name the last is the one in the map |
| Monitor.LastServiceCounts | pkg/vpcctl/vpc_provider.go:247-268 | Of services with one load balancer name the last is the one in the map |
| Monitor.ForeignPrefix | pkg/vpcctl/vpc_provider.go:294-306 | The name of a load balancer carries another cluster's prefix if and only if, without a name annotation, that cluster's ID has at most 57 characters and, followed by a dash, begins the ID of the name's own cluster, and with one, the annotation begins with the prefix |
| Monitor.DashedClusterIsNotIsolated | pkg/vpcctl/vpc_provider.go:235-283 | Cluster a deletes a ready load balancer with a generated name of cluster a-b |
| Monitor.AnnotatedNameIsNotIsolated | pkg/vpcctl/vpc_provider.go:294-298 | Cluster a deletes the ready load balancer of a service of cluster b that is annotated with the name kube-a-x |
| Monitor.OwnPrefix | pkg/vpcctl/vpc_provider.go:294-306 | The name of a load balancer carries its own cluster's prefix if and only if, without a name annotation, the cluster ID has at most 57 characters, and with one, the annotation begins with the prefix |
| Monitor.GeneratedNamesAgreeIff | pkg/vpcctl/vpc_provider.go:294-306 | Two generated names of a cluster are equal if and only if the UIDs, without dashes, agree in as many characters as there is room for; with room for all, UIDs that differ in more than dashes give different names |
| Monitor.OwnIsFoundIff | pkg/vpcctl/vpc_provider.go:235-243 | The monitor finds the listed load balancer of a service if and only if its name carries the prefix, by the condition of `OwnPrefix` |
| Monitor.AnnotatedServiceIsNotFound | pkg/vpcctl/vpc_provider.go:375-382 | A ready load balancer with the annotated name my-lb is taken for missing by cluster a |
| NodeCache.HitsAreFresh | ibm/ibm_metadata_service.go:89-114 | Under every interleaving a hit returns what the latest put of that name stored, not deleted since, less than the time to live ago |
| NodeCache.HitIff | ibm/ibm_metadata_service.go:95-108 | Under every interleaving a get hits with a node if and only if the cache is alive and a put of that node under that name survives every later put, deletion and expiry |
| NodeCache.RestartedCacheHits | ibm/ibm_metadata_service.go:95-108 | A cache that was found expired lives again: what is put after that get is hit for 300 seconds from it, unless it is put again or deleted |
| NodeCache.CallDeletesOthersEntryIff | ibm/ibm_metadata_service.go:193-197 | A call that has missed costs other threads an entry if and only if the node has a provider ID and one of them has put an entry of that name since the miss that is still there, whatever its provider ID |
| NodeCache.SameNodeIsDeleted | ibm/ibm_metadata_service.go:193-197 | After a miss, the entry another thread has put for the same node with the same provider ID is deleted |
| NodeCache.DeletionAfterMissRemovesIff | ibm/ibm_metadata_service.go:89-93 | A deletion after a miss removes an entry if and only if one of that name was put after the miss and survives until then |
| NodeCache.EntriesAreLatestPuts | ibm/ibm_metadata_service.go:95-114 | Every cached entry is the latest put of its name and was stored at or after the start of the cache |
| NodeCache.MetadataService.GetCachedNode | ibm/ibm_metadata_service.go:95-108 | A hit or a miss as the specification says, and a hit is fresh; an expired cache is emptied and restarted |
| NodeCache.MetadataService.GetNodeMetadata | ibm/ibm_metadata_service.go:118-221 | Interleaved with any operations of other threads: a hit is returned as it is; after a miss exactly a deletion, if the node has a provider ID, and a put of the result, if there is one, are done, and the result is cached when the call returns; with all labels each field is the value of its label, otherwise the node is taken from the VPC |
| NodeCache.FieldsOfLabels | ibm/ibm_metadata_service.go:163-191 | Which label fills which field; all but the external address must be there |
| VpcSdk.CloudSdk.DeleteLoadBalancerListener | pkg/vpcctl/vpc_sdk_gen2.go:246-252 | Removes the listener with that ID and no other, or changes nothing; an error may come after the change |
| VpcSdk.CloudSdk.DeleteLoadBalancerPool | pkg/vpcctl/vpc_sdk_gen2.go:255-261 | Removes the pool with that ID and no other, refused while a listener uses it, or changes nothing; an error may come after the change |
| VpcSdk.CloudSdk.DeleteLoadBalancerPoolMember | pkg/vpcctl/vpc_sdk_gen2.go:264-270 | Removes that member of that pool and no other, or changes nothing; an error may come after the change |
| VpcSdk.CloudSdk.GetLoadBalancer | pkg/vpcctl/vpc_sdk_gen2.go:331-338 | Returns the pools as they are with any status, and records the observation |
| VpcSdk.CloudSdk.ListLoadBalancerPools | pkg/vpcctl/vpc_sdk_gen2.go:393-410 | Returns copies of the pools with their members, which the caller may overwrite |
| Reconciler.CloudVpc.DoCreatePoolMember | pkg/vpcctl/vpc_lbaas.go:404-414 | Fails on other than three arguments, else requests that member |
| Reconciler.CloudVpc.DoDeleteListener | pkg/vpcctl/vpc_lbaas.go:425-433 | Fails on other than two arguments, else deletes the listener named second |
| Reconciler.CloudVpc.DoDeletePool | pkg/vpcctl/vpc_lbaas.go:436-444 | Fails on other than two arguments, else deletes the pool named second |
| Reconciler.CloudVpc.DoDeletePoolMember | pkg/vpcctl/vpc_lbaas.go:447-457 | Fails on other than four arguments, else deletes the member named third of the pool named second |
| Reconciler.CloudVpc.DoReplacePoolMembers | pkg/vpcctl/vpc_lbaas.go:484-493 | Fails on other than two arguments, else replaces the members of the pool named second |
| Reconciler.CloudVpc.ReadyForUpdate | pkg/vpcctl/vpc_lbaas.go:643-657 | Before every update but the first the load balancer is queried and, unless it is online and active, waited for: at most sixteen queries, an error of its own only after another status was seen and two minutes have passed; only status queries are added to the trace |
| Reconciler.CloudVpc.GetServicePoolNames | pkg/vpcctl/vpc_config.go:313-322 | One pool name per service port, in order |
| Reconciler.JobForOk | pkg/vpcctl/vpc_config.go:357-369 | What Kubernetes guarantees, ports distinct within a protocol, and the TCP check together make the inputs all proofs rely on |
| Planner.NodePortChanged | pkg/vpcctl/vpc_lbaas.go:199-206 | True if and only if some matching service port has another node port than the pool name |
| Planner.DeleteSteps | pkg/vpcctl/vpc_lbaas.go:576-587 | Steps 1 and 2 as text, with the deleted pools marked, or the error of an unreadable name |
| Planner.PoolSteps | pkg/vpcctl/vpc_lbaas.go:589-611 | Steps 3 to 5 as text |
| Planner.CreateSteps | pkg/vpcctl/vpc_lbaas.go:613-622 | Steps 6 and 7 as text, port by port |
| Monitor.LoadBalancerMonitor.CheckLoadBalancer | pkg/vpcctl/vpc_provider.go:375-417 | One service: stores operating status, slash, provisioning status and records at most one event; a normal one exactly if the statuses are online and active and online/active was not stored |
| Monitor.StoredIsLastSeen | pkg/vpcctl/vpc_provider.go:383-412 | What is stored for a service is the status of the last run that saw it |
| NodeCache.MetadataService.PutCachedNode | ibm/ibm_metadata_service.go:110-114 | Stores the node under its name and nothing else |
| NodeCache.MetadataService.DeleteCachedNode | ibm/ibm_metadata_service.go:89-93 | Removes the entry of that name and nothing else |
| WakeUp.StepKeepsInvariant | ibm/ibm_vpc_cloud.go:261-275 | Every step of every thread keeps the invariant |

## Left out

- Node selection by zone, edge and selector labels: nodes arrive filtered; only the address list is modelled.
- Choice of subnets and zone at creation: the chosen subnets are a parameter of the model.
- Health monitor delay, retries, timeout and URL path, listener connection limit and pool algorithm: constants in every request.
- HTTP, IAM, resource groups, pagination and object mapping of the Gen2 client: a call succeeds or fails.
- Feature list parsing for `proxy-protocol` and the `ip-type` annotation: the service carries the two answers.
- Finding a load balancer by ID or hostname among others of the account: there is one load balancer, found or not.
- Deleting a load balancer on request: one call without state of its own.
- Unicode case folding: protocols are compared with ASCII folding only.
- Sorting in place: `sort.Strings` is a library function and is modelled as a function on values.
- WaitLoadBalancerReady: time passes in the pauses only, each as long as asked for or longer; what the calls take counts there.
- GetNodeMetadata: the network-unavailable condition written to a node during initialisation is not modelled.
- Event texts, log messages, summaries, configuration loading and the tickers that start the monitor.
