# Model of the k8shell provisioner

A Dafny model of the provisioner's protocols over the Kubernetes API, of its blueprint compiler
and of the transformations it undoes or speeds up, with proofs of what they keep.
`dafny verify dfyconfig.toml` checks the whole project.

## Protocols

Each protocol is a world, the steps that change it, and runs of steps. A step that the code
takes on the strength of an earlier reading is legal only if the run contains that reading
(`Justified`), so stale readings, lost races and crashes between any two calls are part of every
run. The code itself is written as classes whose methods append legal steps to the run. Between
any two calls of a method, `Others`, `Interfere` or `OtherStep` lets everybody else take any legal
steps; callers know of it only what its contract says. Every call may also fail without effect; a
ghost field `failed` remembers that one did, so that contracts can say when success must come.

- `Runs`: worlds and the actions between them.
- `ApiServer`: named objects with versions, an atomic create and the compare-and-swap update.
- `AliasProtocol`, `AliasClaims`: web-proxy aliases claimed by ConfigMaps.
- `WebProxyUpdate`: moving, setting and clearing a route and alias under the workspace lock.
- `LeaseProtocol`, `WorkspaceLock`: the lease lock.
- `TokenProtocol`, `WorkspaceToken`: the access token across identity service, Secret and pod.
- `ReloadWatcher`: the debounced reload and Close, one step for each hold of the mutex.

## Blueprint compiler

`Yaml` holds the trees. `Revision` is the canonical stream, its decoder and the code that writes
it. `Values`, `InitScripts`, `MergeStrategy` and `Merge` are the deep merge, `ListStrategies` says
which lists it merges how, `MergeLaws` what it means path by path and that it is associative. `CelDisplay` shows expressions and reads them back; `Resubmission`
puts merge, display and revision together. `Inheritance`, `OrgBlueprints` and `Includes` resolve
templates, database rows and included files.

## Transformations and fast forms

`Injection` (inject and eject), `Globs` and `Query` (pushdown), `Informers` (cached listings),
`PodState` (state from unordered events), `LineDiff` (side-by-side rows).

## Where a promise needs a condition

- Alias update: label and route stay together exactly for ports that are not negative. The
  server admits only 0 to 65535 (internal/server/update.go:69-82), so the condition holds there.
- Alias claims: the grace starts when a claim is written. A workspace provisioned again finds its
  old claim and does not rewrite it, so another may take it while its release is being installed.
  A claim can be lost to a take-over exactly when it stood stale at some moment, however long ago;
  an update is safe exactly for workspaces whose claims never did.
- Lock: a delete is safe exactly when the lease it removes names the releaser or has expired; a
  release that arrives after its lease expired can remove the next holder's lease, and then a
  third instance can acquire beside it.
- Token: stop and terminate delete the token before the pod. If the pod then cannot be deleted it
  lives on without its token, also through later provisions that find it running, until that pod
  goes. That is the only way for a pod to be out of step while nobody has the lock.
- Revision: the comment says that tags affect the hash. Those of scalars do; those of mappings and
  sequences are never written. The model follows the code.
- Resubmission: the comment says that registered lists are safe to resubmit. They are exactly when
  none that is inherited whole holds an expression, which decoding turns into a plain string.
- Query: text in another letter case than stored is found in memory and lost by the pushdown. It
  loses nothing exactly when every wanted workspace has its pushed text in the case asked for.
- Pod state: of a Pulling and a Pulled event at the same latest time, the one handled first counts.
  The order is irrelevant exactly when pulls do not decide the stage, nothing pulls, or some image
  certainly does.

## Assumptions

- Hashes do not collide. A failed API call has no effect.
- Instances of the lock share one clock and have distinct holder ids.
- The token property takes the lock to be exclusive. A delayed stop or terminate may wait up to
  60 seconds on a lease of 30 without renewing it, so it does rest on that.
- A string is its bytes, one character each. Anchors, comments, quoting style and source positions
  of YAML nodes play no part.
- A synced informer mirrors its own list. A recorded injection state survives JSON.
- Label values are ASCII.

## Model

| member | source | states |
|---|---|---|
| `AliasProtocol.ClaimChangesOnly` | internal/workspace/alias.go:125-216 | a stored claim changes hands or goes only by its own holder's release or sweep, or by a take-over of just that object version, read past its grace with the holder's release absent |
| `AliasProtocol.LiveHolderKeepsClaim` | internal/workspace/alias.go:173-189 | over every interleaving, a holder whose release is present at every moment after its grace keeps its claim until it gives it up itself |
| `AliasProtocol.OneLiveHolder` | internal/workspace/alias.go:64-78 | at most one workspace holds an (organization, alias) in that protected way |
| `AliasProtocol.AlwaysConsistent` | internal/workspace/alias.go:100-120 | every claim ever stored carries the canonical id of its holder, which is what the sweep by label relies on |
| `AliasProtocol.ClaimNameInjective` | internal/workspace/alias.go:92-98 | organizations without a slash give different claims different names |
| `AliasProtocol.OthersKeepMine` | internal/workspace/alias.go:191-216 | while a workspace holds its lock, its release stands and none of its claims ever stood stale, no step of others touches its claims |
| `AliasClaims.LeftoverClaimIsNotProtected` | internal/workspace/alias.go:146-149 | a run in which a workspace provisioned again keeps its old claim's age, so the grace does not protect it: claiming what one holds rewrites nothing |
| `AliasClaims.TakeOverIffLapsed` | internal/workspace/alias.go:125-171 | another workspace can take a claim over, and end it, exactly when the claim stood stale at some moment up to now |
| `AliasClaims.StandingIffSafe` | internal/workspace/alias.go:125-171 | with its release installed, no claim of a workspace can be taken over exactly when none of them ever stood stale |
| `AliasClaims.ReleaseKeeps` | internal/workspace/alias.go:191-216 | a release of all but one claim keeps that claim and adds none |
| `AliasClaims.AliasClaims.Claim` | internal/workspace/alias.go:125-171 | on success the workspace holds the claim at that moment; a refusal names another holder whose claim was read and found not stale; what is free, its own or stale it gets unless a call fails or somebody else gets in between; at most one step is the caller's own, and none when it fails or already holds the alias |
| `AliasClaims.AliasClaims.IsStale` | internal/workspace/alias.go:173-189 | the answer is whether, at that moment, the claim is past its grace and its holder's release absent |
| `AliasClaims.GraceOfANewClaim` | internal/workspace/alias.go:100-189 | a new claim can be taken over once five minutes have passed since its whole second, and only while its holder has no release |
| `AliasClaims.AliasClaims.Release` | internal/workspace/alias.go:191-216 | takes steps of release alone, never on the claim to keep; without failures no other claim of the workspace is left |
| `AliasClaims.AliasClaims.Holder` | internal/workspace/alias.go:218-233 | the holder read from a claim that is really for that organization and alias |
| `AliasClaims.AliasClaims.Reconcile` | internal/workspace/alias.go:267-295 | an alias is reported applied only if the workspace held it at some moment of the call; a contested or invalid one is no error; its own steps are at most one claim, then releases of claims other than the applied one's; without failures at most that one is left |
| `WebProxyUpdate.LabelKeepsRouteIffPortNotNegative` | internal/workspace/update.go:252-278 | the patch of an accepted update leaves a label without a route for exactly one kind of update: a negative port on a labelled pod whose alias is left alone |
| `WebProxyUpdate.WhatAnUpdateWrites` | internal/workspace/update.go:252-278 | the route an update writes is the port asked for, the alias the one asked for, and what is not asked for stays |
| `WebProxyUpdate.SafeWhileOthersAct` | internal/workspace/alias.go:125-216 | whatever other workspaces do in between, the label on the pod stays backed by a claim and a route |
| `WebProxyUpdate.SafeWhateverOthersDoIff` | internal/workspace/alias.go:125-216 | with the lock held and the release installed, the label stays backed by its claim in every continuation by the others exactly when the claim never stood stale |
| `WebProxyUpdate.ClaimForUpdate` | internal/workspace/alias.go:297-318 | no route, an invalid alias or a contested one fails and leaves the claims as they were; success adds at most the claim for the alias |
| `WebProxyUpdate.PrepareWebProxyUpdate` | internal/workspace/update.go:205-241 | a failed prepare changes nothing; a successful one leaves the pod alone and adds at most the claim to keep; of workspaces whose claims never stood stale |
| `WebProxyUpdate.WebProxyUpdate.Commit` | internal/workspace/update.go:248-319 | one patch of the pod, then nothing but releases of the other claims; a failed patch gives the new claim back and writes no pod |
| `WebProxyUpdate.WebProxyUpdate.Abort` | internal/workspace/update.go:321-327 | exactly the claim of the label on the pod is left |
| `WebProxyUpdate.UpdateResourcesAndNetwork` | internal/workspace/update.go:122-189 | if the workspace's claims never stood stale: at every moment of an update, hence at every crash point, a non-empty label is backed by a claim and a route; a failed update leaves pod and claims as before; one that asks for a port and an alias it may claim succeeds unless a call fails, the pod goes or somebody gets in between |
| `LeaseProtocol.LeaseStaysWellFormed` | internal/workspace/lock.go:112-159 | every lease ever stored is complete and keeps the 30 second duration, although a take-over writes back whatever it finds |
| `LeaseProtocol.StoredLeaseExpires` | internal/workspace/lock.go:161-176 | a stored lease becomes available 30 seconds after it was last written and not before |
| `LeaseProtocol.SeenIsCurrent` | internal/workspace/lock.go:143-159 | an update that goes through overwrites the very lease that was read |
| `LeaseProtocol.HolderAlwaysStored` | internal/workspace/lock.go:54-255 | with timely releases, whoever counts on the lock is named by the stored lease |
| `LeaseProtocol.AtMostOneHolder` | internal/workspace/lock.go:54-255 | no run of acquire, renew and release steps whose deletes land in time lets two instances each count on an unexpired lease |
| `LeaseProtocol.DeleteIsSafeIff` | internal/workspace/lock.go:234-255 | in every run, a delete keeps whoever counts on the lock stored exactly when the lease it removes names the releaser or has expired |
| `LeaseProtocol.DeleteWhileHeld` | internal/workspace/lock.go:234-255 | whenever a delete lands while another instance counts on the lock, a third can acquire it at once and both hold it |
| `LeaseProtocol.LateReleaseBreaksExclusion` | internal/workspace/lock.go:234-255 | a legal run with a late delete in which two instances hold the lock |
| `WorkspaceLock.WorkspaceLock.AcquireWithOptions` | internal/workspace/lock.go:53-110 | true only after a create or a compare-and-swap of this instance; an error only if a call failed, the lease was held or written by others, or the deadline passed; a free or expired lease is acquired unless a call fails or somebody else writes it; without waiting there is at most one attempt |
| `WorkspaceLock.WorkspaceLock.Attempt` | internal/workspace/lock.go:66-95 | one round gets the lease unless a call fails or, at some moment of it, the lease is held, or somebody else writes or deletes it |
| `WorkspaceLock.WorkspaceLock.Renew` | internal/workspace/lock.go:178-202 | extends only a lease that names this instance, and does so unless a call fails or somebody else writes it; reports a lease lost to another |
| `WorkspaceLock.WorkspaceLock.Release` | internal/workspace/lock.go:232-255 | deletes only after reading a lease that names this instance, at most once, and does so unless a call fails or somebody else writes it |
| `WorkspaceLock.CountedIsPast` | internal/workspace/lock.go:161-176 | the time from which an instance counts its lease is never in the future |
| `TokenProtocol.CarefulStaysInStep` | internal/workspace/provision.go:32-39 | steps that mint only without a live pod and hand out only the recorded token keep a live pod's Secret and the identity service in step at every moment |
| `TokenProtocol.CarefulKeepsRelease` | internal/workspace/provision.go:136-140 | such steps never remove the release, and with it the user's volumes |
| `TokenProtocol.OutOfStepIff` | internal/workspace/provision.go:32-39 | over every run of the code's steps, a pod is out of step at a moment exactly when it has been so throughout or its token was deleted and it has been live ever since |
| `TokenProtocol.FreeOutOfStepIff` | internal/workspace/provision.go:32-39 | while nobody has the lock, exactly when some request gave the lock back with the token deleted and the pod live, and the pod has been live ever since |
| `TokenProtocol.StopWithoutDeletionBreaksStep` | internal/server/lifecycle.go:394-403 | a run in which a stop gives the lock back with the token deleted and the pod running, and a provision after it finds the pod running and leaves it so |
| `WorkspaceToken.Workspace.MintPAT` | internal/workspace/pat.go:45-62 | with no live pod, minting is a careful step and what is stored on the workspace is the recorded token |
| `WorkspaceToken.Workspace.DoInstallation` | internal/workspace/provision.go:283-354 | careful wherever it stops; success means that a live pod has read the token this call minted |
| `WorkspaceToken.Workspace.DoStart` | internal/workspace/provision.go:358-407 | careful wherever it stops; success means that a live pod has read the token this call minted |
| `WorkspaceToken.Workspace.WaitForPodGone` | internal/workspace/provision.go:179-210 | success means the pod is gone, a timeout that the timeout has passed, 20 seconds when none is given |
| `WorkspaceToken.Workspace.EnsureNodeReachable` | internal/workspace/workspace.go:1273-1289 | a node is reported unreachable only while the pod is already being deleted |
| `WorkspaceToken.Workspace.StopPod` | internal/workspace/workspace.go:1291-1315 | success or an unreachable node means that no live pod is left |
| `WorkspaceToken.Workspace.ProvisionExisting` | internal/workspace/provision.go:136-177 | never removes the release; unless the pod was starting already, success means that a live pod has read a token minted by this call |
| `WorkspaceToken.Workspace.Provision` | internal/workspace/provision.go:99-133 | every moment of a provision, hence every crash point, is in step if it began in step; a pod that was out of step is left so exactly when it is live throughout; without failures an absent workspace, and one whose pod is gone, ends with a live pod that has read a new token; every error has its cause: a failed call, a missing Secret, a lost node, a timeout |
| `WorkspaceToken.Workspace.Stop` | internal/server/lifecycle.go:329-409 | afterwards the pod is in step exactly when it is not live, or it was in step before and the token was not deleted; without failures a stop deletes the token and the pod, unless the pod is on a lost node |
| `WorkspaceToken.Workspace.Uninstall` | internal/workspace/workspace.go:1222-1256 | without failures token, release and pod are gone; afterwards the pod is in step exactly when it is not live, or it was in step before and the token was not deleted |
| `WorkspaceToken.Serve` | internal/workspace/provision.go:32-39 | over any sequence of provisions, stops and terminates, failing anywhere and going on after half-done ones: whenever the lock is free, the pod is out of step exactly when a request gave the lock back half done and the pod has been live ever since |
| `Yaml.SortedAlike` | internal/blueprint/revision.go:80 | a stable sort tells two pair lists apart exactly when some key has other values or another order of them |
| `Revision.DecodeEncStream` | internal/blueprint/revision.go:51-109 | reading a revision stream back gives the content it was written from |
| `Revision.SameStreamIffSameContent` | internal/blueprint/revision.go:28-51 | two blueprints have the same revision stream exactly when their canonical contents are equal |
| `Revision.SameRevisionIffAlike` | internal/blueprint/revision.go:28-109 | two blueprints have one revision exactly when they have the same scalars with their tags, the same items in order and under every key the same values in order, two keys at the top aside |
| `Revision.MappingsAlike` | internal/blueprint/revision.go:67-86 | two mappings mean the same exactly when every key that is not ignored has the same values in the same order |
| `Revision.KeyOrderIsIrrelevant` | internal/blueprint/revision.go:35-37 | the order of distinct keys does not affect the revision |
| `Revision.OnlyScalarTagsCount` | internal/blueprint/revision.go:35-37 | scalar tags affect the revision, tags of mappings and sequences do not (the comment says tags do) |
| `Revision.RevisionHash.HashNode` | internal/blueprint/revision.go:51-100 | writes the canonical encoding of any node |
| `Revision.RevisionHash.HashMapping` | internal/blueprint/revision.go:67-86 | collects, sorts and writes a mapping's pairs as the canonical encoding has them |
| `Revision.ComputeRevision` | internal/blueprint/revision.go:41-49 | writes the salted stream of the root, out of its document |
| `Values.DecodeEncode` | internal/blueprint/resolve.go:252-267 | encoding a decoded value and decoding it again loses nothing, as long as keys carry no tag of their own |
| `InitScripts.InitScripts` | internal/server/server.go:131-165 | the three loops compute the merge of the two lists |
| `InitScripts.MergeOfDistinct` | internal/server/server.go:129-165 | with distinct names: the parent's items with the child's put over those of their name, then the child's new ones in order; nameless items of the child are dropped |
| `InitScripts.ByNameMerge` | internal/server/server.go:129-165 | by name, the merge is the parent's items overridden by the child's |
| `InitScripts.MergeIsAssociative` | internal/server/server.go:129-165 | merging script lists with distinct names is associative |
| `MergeStrategy.FindStrategy` | internal/blueprint/resolve.go:196-221 | finds an answer for some order of looking through the strategies, exact path before suffix before glob before bare key |
| `MergeStrategy.RegisteredOrderIsIrrelevant` | internal/server/server.go:118-166 | with the registered strategies there is one answer, whatever the order |
| `MergeStrategy.AppStartMatches` | internal/server/server.go:124-128 | the start command of any application is merged by the child winning |
| `ListStrategies.StrategyByKeys` | internal/blueprint/resolve.go:196-230 | a list is merged by script names exactly under the key initScripts; the child's list wins under claimSpec.accessModes and for apps.*.start; every other list is the child's |
| `Merge.MergeYAMLNodesWithTags` | internal/blueprint/resolve.go:108-180 | succeeds exactly when every list a strategy merges decodes, and then gives the merge |
| `Merge.MergeSequenceNodes` | internal/blueprint/resolve.go:232-270 | the child's list, or the strategy's result on decoded values |
| `MergeLaws.MergeKeyByKey` | internal/blueprint/resolve.go:125-177 | under each key: the merge of both values, the only value, or nothing for a withheld key the child does not have |
| `MergeLaws.MergeKeyOrder` | internal/blueprint/resolve.go:134-177 | the child's keys in order, then the parent's others in order |
| `MergeLaws.MergeByPaths` | internal/blueprint/resolve.go:102-270 | at every path of keys: the child's value where it has one, except that mappings of both come together and lists with a strategy are merged; where the child has none, the parent's, if both sides are mappings where the child's part ends and the next key is inherited at all |
| `MergeLaws.MergedListAssociative` | internal/blueprint/resolve.go:236-270 | three lists under one key merge to the same list either way, through decoding and encoding |
| `MergeLaws.MergeAssociative` | internal/blueprint/resolve.go:102-180 | merging is associative along a template chain, key order included, and neither order fails |
| `CelDisplay.RestoreDisplay` | internal/blueprint/validate_raw.go:390-436 | reading a displayed tree back gives the tree exactly when no scalar that is no expression begins like a displayed one |
| `Resubmission.CodecKeeps` | internal/blueprint/resolve.go:252-267 | decoding and encoding keeps a tree's content exactly when every scalar has a tag the decoder knows, so no expression survives it |
| `Resubmission.ResubmissionIsStable` | internal/blueprint/resolve.go:239-249 | a resolved view shown, read back and submitted again keeps content and revision, exactly when no list with a strategy is inherited with an expression in it |
| `Resubmission.InheritedExpressionIsLost` | internal/blueprint/resolve.go:252-267 | a parent whose list of access modes holds an expression fails that condition: resubmitting the view changes its content |
| `Inheritance.BlueprintManager.ResolveRawTemplate` | internal/blueprint/resolve.go:33-100 | the recursion ends on every finite set of blueprints and computes the resolution |
| `Inheritance.BlueprintManager.ResolveInheritance` | internal/blueprint/resolve.go:15-31 | whatever the order of the keys: all resolve and are replaced, or nothing changes and some blueprint's error is returned |
| `Inheritance.ResolveIffChain` | internal/blueprint/resolve.go:33-100 | a blueprint resolves exactly when its templates lead to a root and the merges succeed; the result is the fold from the root down and its chain has no key twice |
| `Inheritance.ResolveErrors` | internal/blueprint/resolve.go:35-79 | a missing template is reported exactly when the way up ends at it, a cycle exactly when it comes back to that key, a failed merge exactly when there is a way to a root whose merges fail |
| `Inheritance.ResolveAnywhere` | internal/blueprint/resolve.go:67 | what a blueprint resolves to does not depend on who asked |
| `OrgBlueprints.LoadOrgBlueprints` | internal/blueprint/orgstore.go:178-228 | succeeds exactly when every row parses to a mapping and no key is taken, and adds each row under its key |
| `OrgBlueprints.BuildOrgRawBlueprint` | internal/blueprint/orgstore.go:88-147 | a row resolved against blueprints already resolved |
| `OrgBlueprints.DescribingMapping` | internal/blueprint/validate_raw.go:375-389 | which mapping of a row describes the blueprint: under the key blueprint or the root itself |
| `OrgBlueprints.TemplateIs` | internal/blueprint/orgstore.go:108-112 | the template is the text under the key template of a blueprint that decodes, else none |
| `OrgBlueprints.RequestAgreesWithLoad` | internal/blueprint/orgstore.go:88-147 | after a load, a row built for a request equals what the load made of it, content and revision, but for the last name of its chain |
| `OrgBlueprints.AncestorsInScope` | internal/blueprint/orgstore.go:72-87 | with slash-free names every ancestor is global or of the same organization |
| `Includes.ExpansionFailsIff` | internal/blueprint/blueprint.go:1507-1594 | with any files already on the stack, expansion fails exactly when some way from include to include meets a file missing, unparsable or empty, or one it came by |
| `Includes.ExpansionLeavesIncludesIff` | internal/blueprint/blueprint.go:1512-1594 | with any files already on the stack, a successful expansion leaves an include exactly when a file that is nothing but an include was inlined |
| `Includes.FileExpansionFailsIff` | internal/blueprint/blueprint.go:1272-1296 | the expansion of a blueprint file starts with the file itself on the stack, so an include of it is a cycle at once |
| `Includes.ExpansionByPaths` | internal/blueprint/blueprint.go:1507-1594 | at every path into the tree the result has the kind, tag, keys, order or scalar of what stood there, and in the place of an include the expansion of the file it names from that file's directory |
| `Includes.NothingToExpand` | internal/blueprint/blueprint.go:1512-1548 | a tree without includes expands to itself |
| `Includes.ProcessesAllReferences` | internal/blueprint/blueprint.go:1512-1548 | every include in the tree is resolved, no more |
| `Injection.WorkloadStore.InjectIntoWorkload` | internal/helm/inject.go:330-404 | the workload with the spec appended, labelled and recorded, or nothing changed |
| `Injection.InjectedMarks` | internal/helm/inject.go:368-392 | the labels and annotations of an injected workload: marks over those of the spec over its own |
| `Injection.WorkloadStore.EjectFromWorkload` | internal/helm/inject.go:406-481 | the workload without what its state lists, or nothing changed |
| `Injection.EjectAfterEdits` | internal/helm/inject.go:406-481 | however a workload was edited meanwhile, ejection gives back exactly what is not injected, in order, and the recorded process sharing |
| `Injection.EjectUndoesInject` | internal/helm/inject.go:330-481 | ejecting right after injecting gives the workload back, no process sharing read as false |
| `Injection.CallsTrack` | internal/helm/inject.go:330-481 | after any calls, failing ones included, the workload is what it was or that with one spec injected |
| `Injection.StateListsInjected` | internal/helm/inject.go:341-371 | after any calls the recorded state lists exactly the names the workload has beyond its own, which come first and unchanged |
| `Injection.InjectionSpecFromTemplate` | internal/helm/inject.go:238-327 | renames, drops and keeps as the specification function says |
| `Injection.VolumeAfter` | internal/helm/inject.go:238-296 | foreign Secrets stay behind; everything else comes along under the prefix with its source, shared claims renamed |
| `Injection.LabelsAfter` | internal/helm/inject.go:298-319 | the spec carries four labels of the workspace pod, its id and its job |
| `Injection.MountsMatchVolumes` | internal/helm/inject.go:242-268 | no volume is mounted that is not injected, and every mount of an injected volume is kept |
| `Injection.SpecFits` | internal/helm/inject.go:238-327 | the spec of any workspace fits a workload without names of that prefix |
| `Globs.GlobMatchLower` | internal/workspace/query.go:626-652 | the recursive matcher decides the wildcard language |
| `Globs.GlobConcat` | internal/workspace/query.go:617-652 | a pattern in two parts matches the texts in two parts |
| `Globs.GlobPieces` | internal/workspace/query.go:626-652 | the empty pattern, a star, a question mark and a character match what they say |
| `Query.PushedFrom` | internal/workspace/query.go:393-437 | every pushed restriction is one of the filter's own conditions |
| `Query.WantedMeets` | internal/workspace/query.go:186-212 | every workspace in scope that matches the filters meets the narrowed options |
| `Query.PushdownLosesNothingIff` | internal/workspace/query.go:314-324 | over one snapshot, filtering the narrowed listing gives what filtering the full one gives, order included, exactly when every wanted workspace has the pushed text in the case asked for |
| `Query.PushdownLosesNothing` | internal/workspace/query.go:314-324 | so nothing is lost when all text agrees in letter case |
| `Query.OtherCaseIsLost` | internal/workspace/query.go:314-324 | a label stored in another case than queried is lost by the pushdown |
| `Query.IntersectUsernames` | internal/workspace/query.go:288-306 | keeps the first operand's names found in the second, no list restricting nothing |
| `Query.CommonIs` | internal/workspace/query.go:288-306 | the names in common are the first operand's that the second has, case apart, in order |
| `Query.PushdownOptionsFromPayload` | internal/workspace/query.go:384-432 | the options collected from the conditions that can be pushed |
| `Query.GetWorkspaces` | internal/workspace/workspace.go:212-392 | live pods, releases without a live pod of their name, injected pods |
| `Query.EverythingListed` | internal/workspace/workspace.go:212-392 | the full listing has every pod with what details need, injected ones if labelled so, and every release without such a pod of its name |
| `Query.MatchesCondition` | internal/workspace/query.go:482-546 | one condition on one workspace |
| `Query.EqualOrNot` | internal/workspace/query.go:499-520 | an EQ query finds, in order, what is in scope and has a text its pattern describes, the NE query the rest, absent fields included |
| `Query.ExistsOrNot` | internal/workspace/query.go:492-497 | EXISTS true and EXISTS false split what is in scope by whether the field is there |
| `Query.OneOf` | internal/workspace/query.go:522-531 | an IN query finds what equals one of the values, case apart |
| `Query.EvaluateFilters` | internal/workspace/query.go:460-480 | conditions are gone through until one decides |
| `Query.AllIsIntersectionAnyIsUnion` | internal/workspace/query.go:460-480 | all-of finds what every condition finds alone, any-of what some condition does, in the order of the listing |
| `Query.QueryWorkspaces` | internal/workspace/query.go:330-380 | the wanted workspaces of the narrowed listing; an error only for a selector that does not parse or a condition that cannot be evaluated |
| `PodState.AnalyzePod` | internal/workspace/podstate.go:138-414 | the snapshot of a pod depends on the events through what is recorded as pulling and whether one is critical |
| `PodState.RecordsWhatPulls` | internal/workspace/podstate.go:156-187 | in every order of the events what is recorded is whether some path's latest pull event is Pulling, exactly when a path that pulls pulls for certain: only Pulling events at its latest time |
| `PodState.ExtremeOrders` | internal/workspace/podstate.go:156-187 | two permutations of any events: one is recorded as pulling whenever some latest event is Pulling, the other only when some path certainly pulls |
| `PodState.AnyOrderSameSnapshot` | internal/workspace/podstate.go:143-414 | the same events in any order and number give the same stage, status, restart count and presence of a critical error, exactly when an earlier guard decides or whatever pulls, pulls for certain |
| `PodState.TieDependsOnOrder` | internal/workspace/podstate.go:176-186 | with a tie at a path's latest time the order does make a difference |
| `PodState.RunningIff` | internal/workspace/podstate.go:389-401 | running exactly when no earlier guard fires and all containers are ready |
| `PodState.EarlyStages` | internal/workspace/podstate.go:195-264 | node lost, stopping, terminating, stopped, scheduling and pulling, each exactly in its case |
| `PodState.LateStages` | internal/workspace/podstate.go:224-414 | initializing, starting and failed, each exactly in its case: the first init container not completed, else the first container waiting for a reason, else readiness |
| `PodState.StatusGroups` | internal/workspace/podstate.go:77-105 | which stages make each status |
| `PodState.RestartsAreTheSum` | internal/workspace/helpers.go:38-52 | a container more adds its restarts; order and whether it is an init container make no difference |
| `PodState.CriticalIff` | internal/workspace/podstate.go:416-464 | which events are critical errors |
| `PodState.CriticalMeansFailed` | internal/workspace/podstate.go:243-414 | a critical error is reported of failed workspaces alone |
| `PodState.ReportIsDetermined` | internal/workspace/podstate.go:721-731 | in whatever order the known events are listed there is one report, exactly under that condition |
| `PodState.WatchLoop` | internal/workspace/podstate.go:873-1022 | what it returns is what the last pod and the latest event of each uid give; no earlier report was final; each count of each event that came is announced once, and nothing else |
| `Informers.MatchesInjectedAlone` | internal/helm/informer.go:223-237 | a selector that demands injected pods matches no others |
| `Informers.RequiresInjected` | internal/helm/informer.go:223-237 | exactly when some requirement is equality with true alone |
| `Informers.StartInjectedInformers` | internal/helm/informer.go:111-120 | one cluster-wide informer as soon as a star is listed, else one for each namespace |
| `Informers.WorkspaceInformers.ListPods` | internal/helm/informer.go:167-207 | whenever the informers answer, the answer is the API server's, and they answer exactly when a synced one covers the listing |
| `ReloadWatcher.NothingAfterClose` | internal/blueprint/watch.go:272-302 | once Close has returned no callback is running or will ever start |
| `ReloadWatcher.ReloadFollowsSchedule` | internal/blueprint/watch.go:243-302 | whenever things have settled, a scheduled reload was followed by a callback that starts after it, or Close cut off a timer scheduled by it or later |
| `ReloadWatcher.ReloadBeforeClose` | internal/blueprint/watch.go:243-302 | a reload scheduled before Close is followed by a callback that starts after it or is cut off by Close, whenever Close comes |
| `ReloadWatcher.OneArmed` | internal/blueprint/watch.go:245-250 | only the latest timer is ever armed |
| `ReloadWatcher.Watcher.CallbackEnters` | internal/blueprint/watch.go:251-257 | a callback starts exactly when the watcher is open, and is counted before the mutex is given back |
| `ReloadWatcher.Watcher.EndClose` | internal/blueprint/watch.go:290-291 | Close comes back exactly when no callback is running |
| `LineDiff.DiffLines` | internal/workspace/diff.go:238-277 | the rows projected to a side are exactly that side's lines, numbered and in order |
| `LineDiff.RowsCountLines` | internal/workspace/diff.go:238-277 | equal, changed and removed rows count the left lines, equal, changed and added the right |

## Left out

- WebProxyUpdate.UpdateResourcesAndNetwork: stated for ports that are not negative; the server lets no other through, and LabelKeepsRouteIffPortNotNegative says what a negative one does. Also for workspaces under their lock none of whose claims ever stood stale, which the source does not check; SafeWhateverOthersDoIff and TakeOverIffLapsed say that without it another workspace can take the label's claim at any moment of the update.
- WebProxyUpdate.PrepareWebProxyUpdate: stated for workspaces none of whose claims ever stood stale, for the same reason.
- Parsing and printing of YAML and JSON, CEL evaluation, SHA-256 and the cut to 48 bits, Helm, chart rendering, identity and authorization clients: calls into code not shown.
- Merge keys (`<<`), keys that are not scalars, binary scalars and the spelling of numbers in lists that a strategy decodes; the encoder's natural order of digits in keys is taken bytewise. The laws use only that the order is a function of the keys.
- Nodes of included files are replaced in place in the source; `Includes` returns new trees, so sharing between aliases of one node is not captured.
- `resolveRawTemplate` also writes own node, chain and revision onto the root blueprint it was given; here each resolution returns a new record.
- Recursive anchors: an alias that contains itself has no finite tree, and the source does not stop on one.
- DeleteUserWorkspaces, the mint made before an injection, and lock use outside provision, stop and terminate: they do not run under the workspace lock.
- `Workspace.lock` keeps its lock object after a failed acquire; a request builds its own workspace object, so a second call on the same object is not modelled.
- KeepAlive: a loop around Renew.
- Which error comes first when several lists do not decode or several blueprints do not resolve.
- Messages of pod states, the last failure, warnings about stuck pods and the delay before pulling is reported.
- Conditions on fields that cannot be pushed down, sorting and paging: the evaluation of such a condition is a parameter.
- The order of listings of several injection namespaces, which arrive concurrently: taken as one list.
- Network policies, in-place resizing, storage claims, headless services, certificates: other calls with no invariant the shown code decides.
- Reinitializing the watcher when its directory is replaced, and a second Close.
- Redaction and rendering before a diff, and the matcher that makes the opcodes.
