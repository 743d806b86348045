# Arubacloud resource operator: model and proofs

The operator manages nine kinds of Kubernetes custom resources (Project, Vpc, Subnet, SecurityGroup,
SecurityRule, BlockStorage, ElasticIp, KeyPair, CloudServer). Every object goes through one state machine:
a reconcile reads the object, authenticates, checks a five-minute phase timeout, checks for a deletion mark,
runs the handler of the stored phase, and ends in `Next`, which advances the status on a 20-second grid.
This project models that step, the CloudServer handlers with their volume diff, the condition list, the HTTP
answer classification, the per-tenant token cache and the Vault lease loop, and proves what they keep over
unbounded runs.

`dafny verify dfyconfig.toml` checks everything.

## How the model is laid out

- `Api`, `Helper`: the stored objects and the answers of the remote cloud.
- `Conditions`, `Volumes`: the two utility loops, as methods proved against recursive specifications.
- `Engine`: one reconcile step as a function of the stored object and of everything the environment decides
  (clock, read, authentication, readable references, answers of the remote cloud, fate of each write).
- `Operator`: the same step in the operator's own form, classes whose methods change an in-memory copy, send
  requests and write to an API server; each method is proved to do what the `Engine` function says.
- `Steps`: facts about every plan of the engine; `Runs`: arbitrary interleavings of the operator's steps with
  users' edits, deletions and finalizer changes of one object.
- `PhaseGraph`, `Identity`, `References`, `Recording`, `Convergence`, `Progress`, `ServerUpdates`, `Deletion`,
  `Failures`, `Reasons`, `Debounce`, `Residence`, `Register`, `VolumeAgreement`, `Lifecycle`: theorems about steps
  and runs.
- `Witnesses`: complete runs from the birth of an object, one for every edge of the lifecycle graph and one for
  each exception in the table.
- `Fleet`: whole clusters, in any interleaving. `Fleet.HistoryIsARun` carries every run theorem over to every
  object of a cluster; the order between objects is proved there.
- `Tokens`, `Lease`: the credential schedulers.

A write lands as a whole or is rejected without effect, and a rejected write discards the copy in memory.
Answers, lost writes and clock readings are unrestricted unless a lemma says otherwise.

## Where the code and its comments differ

- reconciler.go:166 says a failed resource waits for a spec change; the code never looks at it again
  (`Deletion.FailedIsStuck`).
- cloudserver_controller.go:206 says a generation mismatch triggers a property update; the step that enters
  Updating has already made the generations equal, so an edit that lands outside Updating is never sent until
  another one lands (`ServerUpdates.NoPutUntilEdit`; `Witnesses.LoneEditOccurs` is such a run, and
  `ServerUpdates.ServerConvergence` says exactly which edits arrive).
- cloudserver_controller.go:266 says the resolved identifiers are stored; the elastic IP's is shadowed and the
  field is emptied, so it agrees with the request exactly when the spec names no elastic IP
  (`ServerUpdates.ServerUpdateForgetsElasticIp`; `Witnesses.ElasticIpIsForgotten` is such a run).
- `Synchronized` being True does not mean Created: it is True exactly when the step of the last landed write was
  confirmed by the remote cloud (`Register.TrueIffLastWriteConfirmed`), which also happens in Provisioning and
  Failed (`Witnesses.TrueWithoutCreated`), and a Created server can lose it (`Register.CreatedButNotTrue`,
  `Witnesses.CreatedWithoutTrue`).
- An edit made while a resource is provisioning is marked observed without being sent
  (`Witnesses.MissedEditOccurs`; the exact condition is in `Convergence.SpecConvergence`).

## Model

| member | source | states |
|---|---|---|
| Conditions.UpdateConditions | internal/util/conditions.go:9-33 | The loop that overwrites the first entry of a type in place, or appends one, computes the register update `Updated`. |
| Conditions.UpdatedIsARegister | internal/util/conditions.go:9-33 | The entry of the type is then the one just written, with the new status, reason, message and time, except that rewriting the same status and reason keeps the old entry; entries of other types keep values and order; a second entry never appears. |
| Conditions.UpdatedFramesOthers | internal/util/conditions.go:9-33 | Looking up any other type gives the same entry as before. |
| Volumes.CalculateVolumeChanges | internal/util/cloudserver_util.go:5-33 | The two map-filling and two filtering loops return the filters of desired by current and of current by desired. |
| Volumes.WithoutActsEntrywise | internal/util/cloudserver_util.go:18-30 | The filter distributes over concatenation, so it keeps order. |
| Volumes.WithoutCounts | internal/util/cloudserver_util.go:18-30 | The filter keeps every occurrence of a value absent from the other list and none of the others. |
| Volumes.DiffReachesDesired | internal/util/cloudserver_util.go:5-33 | For all lists, duplicates included: the two results are disjoint, applying them to the current set gives the desired set, and both are empty iff the sets are equal. |
| Volumes.DiffAgainstStaleRecord | internal/util/cloudserver_util.go:5-33 | A diff computed against one set and applied to another reaches the desired set iff every surplus element was recorded and nothing both recorded and desired is missing. |
| Operator.HelperClient.DoAPIRequest | internal/client/helper.go:90-175 | One request: success iff the response is readable, its code is 200, 201, 202 or 204 (or 404 or 405 to a DELETE) and, save for a DELETE, its body is empty or parses; otherwise the API error or plain error of the classification; the exchange is on record. |
| Helper.SuccessIff | internal/client/helper.go:135-148 | Which raw answers are successes, and that a success tells the identifier and state of the parsed body, and nothing when there is none or for a DELETE. |
| Helper.ErrorCodeIff | internal/client/helper.go:150-174 | An API error with a code iff a readable, parseable or empty answer of that code from 400 to 599 that is no success. |
| Operator.HelperClient.SetAPIToken | internal/client/helper.go:85-87 | Sets the token used by later requests. |
| Operator.ApiServer.Get | internal/reconciler/reconciler.go:112-118 | Reads the stored object into the fresh copy, or reports it missing. |
| Operator.ApiServer.UpdateStatus | internal/reconciler/reconciler.go:287-290 | A status write replaces the stored status and nothing else, or has no effect. |
| Operator.ApiServer.Update | internal/reconciler/reconciler.go:386-392 | A metadata write replaces spec and finalizers and nothing else, or has no effect; a marked object without finalizers goes. |
| Operator.Reconciler.WriteStatus | internal/reconciler/reconciler.go:276-294 | The second half of Next: start time only on a phase change, phase, observed generation and condition in memory, then the status write. |
| Operator.Reconciler.Next | internal/reconciler/reconciler.go:241-294 | Debounce, start time only on a phase change, phase, observed generation, condition, then the status write: the whole new state of store and copy. |
| Operator.Reconciler.NextToFailedOnApiError | internal/reconciler/reconciler.go:297-362 | 400, 404, server and plain errors retry in place; other client errors go to Failed. |
| Operator.Reconciler.HandlePhaseTimeout | internal/reconciler/reconciler.go:174-215 | Reports and performs the move to Failed iff the phase is Creating, Provisioning, Updating or Deleting and its start is more than 300 s back, and otherwise changes nothing. |
| Operator.Reconciler.HandleToDelete | internal/reconciler/reconciler.go:218-238 | Reports and performs the move to Deleting for a marked object outside Deleting and Failed, and otherwise changes nothing. |
| Operator.Reconciler.GetID | internal/reconciler/reconciler.go:561-692 | A reference yields an identifier iff its object is readable and has a non-empty ResourceID. |
| Operator.Reconciler.GetIDs | internal/controller/cloudserver_controller.go:363-372 | The resolution loop yields the identifiers element by element, or nothing if one does not resolve. |
| References.LookupIff | internal/reconciler/reconciler.go:561-692 | A reference resolves, to the identifier stored there, iff its object is readable and the identifier is not empty. |
| References.AttachmentsResolveIff | internal/controller/cloudserver_controller.go:210-249 | A server's attachments resolve iff every subnet, every security group and the elastic IP, if there is one, is readable with an identifier. |
| References.CreateResolvesIff | internal/controller/securityrule_controller.go:73-94 | For each kind, a create's references resolve iff every object it needs is readable with an identifier. |
| Operator.Reconciler.ResolveAttachments | internal/controller/cloudserver_controller.go:210-249 | Subnets, security groups and the optional elastic IP of a server, resolved together or not at all. |
| Operator.Reconciler.ResolveForCreate | internal/controller/securityrule_controller.go:73-94 | The references of a create request, by kind, resolved together or not at all. |
| Operator.Reconciler.InitializeResource | internal/reconciler/reconciler.go:365-376 | Adds the finalizer with its own write, then moves to Creating; a rejected finalizer write retries in the empty phase. |
| Operator.Reconciler.HandleCreating | internal/reconciler/reconciler.go:398-430 | Resolve, create, record: the store, the exchanges and the requested wake-up are those of the create plan. |
| Operator.Reconciler.RecordCreated | internal/reconciler/reconciler.go:404-429 | Records identifier and links, and moves to Provisioning or Created by the reported state. |
| Operator.Reconciler.RecordLinks | internal/controller/securityrule_controller.go:120-122 | Each kind records the links it has; an absent elastic IP leaves the field. |
| Operator.Reconciler.HandleProvisioning | internal/reconciler/reconciler.go:452-494 | Polls the resource and moves by its state; a Project does nothing here. |
| Operator.Reconciler.HandleUpdating | internal/reconciler/reconciler.go:433-449 | Sends the update and moves to Created, or handles the failure. |
| Operator.Reconciler.UpdateCloudServer | internal/controller/cloudserver_controller.go:199-279 | The property update when the generations differ, then the volumes. |
| Operator.Reconciler.ManageDataVolumesInUpdate | internal/controller/cloudserver_controller.go:282-328 | Resolves the desired volumes, sends the diff if there is one, and records the desired list only after it was acknowledged. |
| Operator.Reconciler.CheckForUpdates | internal/reconciler/reconciler.go:497-520 | Enters Updating iff the observed generation differs. |
| Operator.Reconciler.HandleCreated | internal/controller/cloudserver_controller.go:331-360 | A server first compares volumes, then generations; the other kinds only generations. |
| Operator.Reconciler.HandleDeletion | internal/reconciler/reconciler.go:379-395 | DELETE first, then the finalizer's removal with its own write. |
| Operator.Reconciler.Dispatch | internal/reconciler/reconciler.go:149-168 | The handler of the stored phase. |
| Operator.Reconciler.Reconcile | internal/reconciler/reconciler.go:104-171 | One whole step on a fresh copy does to cluster, remote cloud and work queue what `Engine.Reconcile` says, and touches no other object. |
| Runs.AlwaysConsistent | internal/reconciler/reconciler.go:365-395 | In every run: our finalizer is on in Creating, Provisioning, Created and Updating; Deleting needs a deletion mark; Deleted is never stored; a Project never provisions; nothing is on record before Creating is left; the observed generation never exceeds the generation. |
| PhaseGraph.RunsFollowGraph | internal/reconciler/reconciler.go:149-168 | In every run, with any answers, timeouts, edits and lost writes, the status changes only by landed writes and each follows an edge of the graph of its kind. |
| PhaseGraph.NeverBack | internal/reconciler/reconciler.go:217-238 | No run returns to an earlier stage of the lifecycle: Creating is never re-entered, Failed has no exit. |
| Identity.CreateAccounting | internal/reconciler/reconciler.go:398-430 | Acknowledged creates are one if a recording write landed, plus those whose status write was rejected; the status names exactly the resource on record. |
| Identity.RequestsGoHome | internal/controller/securityrule_controller.go:115-183 | After the recording write no create is sent and every GET, PUT, attach and DELETE goes to the address of the create on record. |
| Identity.RecordIsFinal | internal/reconciler/reconciler.go:404-405 | The record is never replaced. |
| Identity.StepReleases | internal/reconciler/reconciler.go:380-392 | A step takes our finalizer off only in Deleting, after its DELETE of the recorded address was acknowledged. |
| Identity.NoOrphan | internal/reconciler/reconciler.go:365-395 | In every run, an object with a resource on record loses our finalizer or leaves the cluster only after that resource was deleted. |
| Identity.ForeignFinalizersStay | internal/reconciler/reconciler.go:365-395 | A step keeps the finalizers of others in their order, and the object in the cluster while there is one or no deletion mark. |
| Identity.AddressesAreDistinct | internal/controller/securityrule_controller.go:115-183 | Two resources of a kind share an address iff they have the same identifier in the same project, Vpc and security group, as far as the kind nests. |
| Recording.CreateAddress | internal/controller/securityrule_controller.go:73-113 | A create is a POST under the project, the Vpc and the security group that the spec's references resolve to, each identifier in its own place, as far as the kind nests. |
| Recording.LaterAddress | internal/controller/securityrule_controller.go:115-183 | Every GET, PUT, volume POST and DELETE goes, in its own phase, to the resource, project, Vpc and security group that the status names, each in its own place. |
| Recording.RequestsNameTheirParents | internal/client/arubasubnet_client.go:57-90 | In every run, from the recording write on, every request goes to the resource the recorded create returned, under what the spec's references resolved to when that create was sent. |
| Recording.StatusNamesLastRequest | internal/controller/cloudserver_controller.go:162-174 | In every run and for all nine kinds, the identifiers in the status are exactly those of the last acknowledged create or update whose status write landed, save a server's elastic IP after an update. |
| Convergence.SentIsCurrentIff | internal/reconciler/reconciler.go:398-449 | Bookkeeping for all nine kinds, on which the two convergence theorems rest: an unmarked object's current spec is the last one acknowledged iff no edit landed since that acknowledgement. |
| Convergence.SpecConvergence | internal/reconciler/reconciler.go:278-287 | For the eight kinds other than CloudServer: an object Created with its generation observed has had exactly that generation's spec acknowledged iff no edit landed while it was Provisioning since the last acknowledged request. |
| Convergence.NoEditWhileProvisioning | internal/reconciler/reconciler.go:452-494 | Runs without edits in Provisioning meet that condition. |
| Progress.NoLivelock | internal/reconciler/reconciler.go:497-520 | For the same eight kinds, entries into Updating are at most the landed edits E, and phase changes at most 2E + 5. |
| Progress.ServerNoLivelock | internal/controller/cloudserver_controller.go:331-360 | While the data volume references resolve alike in every step, a CloudServer's entries into Updating are at most its landed edits E plus one, and its phase changes at most 2(E + 1) + 5. |
| Progress.ObservedGenerationIsARegister | internal/reconciler/reconciler.go:282-287 | For all kinds, the observed generation is the generation at the last landed write and lags by the edits since. |
| ServerUpdates.ServerUpdateIsSentIff | internal/controller/cloudserver_controller.go:207-264 | A server step in Updating whose references resolve sends the property update iff an edit landed after the last landed status write. |
| ServerUpdates.LoneEditIsNotSent | internal/controller/cloudserver_controller.go:199-265 | Neither the step that enters Updating because of an edit nor the step after it sends that edit. |
| ServerUpdates.NoPutUntilEdit | internal/controller/cloudserver_controller.go:206-209 | In every run, from any moment at which a server is not Updating with an edit unobserved, no step of any continuation sends its property update until another edit lands. |
| ServerUpdates.UpdateSentIff | internal/controller/cloudserver_controller.go:206-264 | A server step in Updating has an update acknowledged iff the generations differ, the object is unmarked, the step is not cut short, the attachments resolve and the PUT is answered with success. |
| ServerUpdates.ServerConvergence | internal/controller/cloudserver_controller.go:199-279 | In every run, an unmarked server past its create has had its current spec acknowledged iff its last edit was taken up: it landed before the create, or in Updating and met a step whose update was accepted before any other status write landed; at rest, every other edit is lost. |
| ServerUpdates.ServerUpdateForgetsElasticIp | internal/controller/cloudserver_controller.go:242-273 | A recorded property update leaves the elastic IP field empty, so the status agrees with the acknowledged request iff the spec names no elastic IP. |
| Deletion.DeletionIsQuiet | internal/reconciler/reconciler.go:136-168 | In every run, once an object is marked, the only remote call left is DELETE, at most one per step. |
| Deletion.FailedIsStuck | internal/reconciler/reconciler.go:165-167 | A failed object with our finalizer stays as it is whatever users do, and the operator calls nothing for it. |
| Failures.FatalAnswers | internal/reconciler/reconciler.go:297-362 | A failed exchange leads to Failed iff its raw answer is a 4xx other than 400 and 404, readable, empty or parseable, and not a 405 to DELETE; all others retry in the same phase; and the reason tells from the raw answer alone which of the four groups it was in. |
| Failures.ExactCausesOfFailed | internal/reconciler/reconciler.go:174-215 | A landed write enters Failed iff one of the four phases started more than 300 s before, an answer was fatal, or the resource reported failure; it reports a retry, which leaves the phase and asks for a wake-up, iff an exchange failed and none was fatal, or a needed reference did not resolve, or the finalizer write was rejected. |
| Reasons.ReasonTellsCause | internal/reconciler/reconciler.go:296-520 | The reason a landed write leaves is true of its step, for each of the thirteen reasons: timeout, deletion mark, first step, state of the remote resource, differing volumes or generations, group of the raw answer, or a hold-up. |
| Debounce.SkipsIff | internal/reconciler/reconciler.go:257-275 | For every status and move: a write is skipped iff it is a retry in a phase other than the first whose start is set, the clock is not before it, and the elapsed time is not a multiple of 20 s. |
| Debounce.SkippedRetryWakesOnGrid | internal/reconciler/reconciler.go:272-274 | A skipped retry changes nothing stored and asks to wake at start plus an exact multiple of 20 s, where it is not skipped. |
| Residence.SleepsIffDone | internal/reconciler/reconciler.go:104-171 | A step ends without an error and without asking to be woken iff the object is done: failed, Created with generation and volumes settled, released after its DELETE, or a Project in Provisioning. |
| Residence.ReturnTells | internal/reconciler/reconciler.go:104-294 | What a step asks of the work queue: 20 s after a landed write (and at once unless the object failed), the rest of the interval after a debounced retry, an error after a rejected write or a step that did not get to run, nothing when the object is done. |
| Residence.StartIsEntry | internal/reconciler/reconciler.go:276-280 | In every run, whatever is retried, debounced, edited or lost, the stored start time is the clock of the step that entered the current phase. |
| Residence.FailsOnTime | internal/reconciler/reconciler.go:192-204 | In every run, a landed write leaves the object in Failed iff it is in one of the four phases and entered it more than 300 s before, or an answer was fatal, or the resource reported failure. |
| Residence.BoundedResidence | internal/reconciler/reconciler.go:192-204 | If steps run, writes land, the clock does not go back and wake-ups come within delta, no object carrying our finalizer is in a transitional phase later than 5 min + 20 s + delta after the step that entered it. |
| Register.WriteStores | internal/reconciler/reconciler.go:276-290 | Everything a landed write stores: phase, message, generation, start time, and the entry, which keeps its message and time iff status and reason are the same. |
| Register.ConditionIsTheLastVerdict | internal/reconciler/reconciler.go:285-285 | In every run the list holds at most the Synchronized entry, with status and reason of the last landed write and the time that verdict first stood. |
| Register.TransitionTimeNeverDecreases | internal/util/conditions.go:12-24 | With a clock that does not go back, at any two moments of a run, the stored entry once present stays present and its transition time never decreases. |
| Register.TrueIffConfirmed | internal/reconciler/reconciler.go:278-287 | A landed write leaves Synchronized True iff its step was confirmed: by an acknowledged status request, an acknowledged update or a create not answered as under way (any create of a Project); for a server in Updating, iff every lookup succeeded and every request was acknowledged. |
| Register.TrueIffLastWriteConfirmed | internal/reconciler/reconciler.go:285-285 | In every run, Synchronized is True iff the step of the last landed write was confirmed in that sense. |
| Register.CreatedButNotTrue | internal/controller/cloudserver_controller.go:336-340 | In every run, an object in Created is not True iff the last landed write came from a step that found it in Created, which is a CloudServer one of whose data volumes did not resolve. |
| Register.SynchronizedMeaning | internal/reconciler/reconciler.go:420-429 | For the eight kinds Created implies Synchronized True; for all kinds True implies Provisioning, Created or Failed. |
| Register.PollSetsTrue | internal/reconciler/reconciler.go:459-493 | The status requests among these: an answered poll whose write lands sets True whichever phase its state picks, Created, Failed or Provisioning. |
| VolumeAgreement.StepKeepsAgreement | internal/controller/cloudserver_controller.go:317-324 | From agreement, a step ends with the recorded volumes attached iff it is not one whose attach/detach was acknowledged and whose status write was rejected. |
| VolumeAgreement.RecordedIsAttached | internal/controller/cloudserver_controller.go:317-324 | In every run in which the writes after acknowledged attach/detach calls land, the recorded volumes are the remotely attached ones at all times. |
| VolumeAgreement.PassAfterLostWrite | internal/controller/cloudserver_controller.go:282-328 | After a lost write, a later pass that lands, with or without a request, restores agreement iff every surplus volume was on the stale record and no recorded and desired volume is missing remotely. |
| VolumeAgreement.ResendIsIdempotent | internal/controller/cloudserver_controller.go:299-321 | While the references resolve to the same volumes, any number of passes whose writes are lost, then one that lands, leave exactly those volumes attached and recorded. |
| VolumeAgreement.OnePassSettles | internal/controller/cloudserver_controller.go:331-360 | With stable references and smooth timely steps, a Created server is quiet at once or after one pass through Updating, with the desired volumes recorded. |
| Lifecycle.CreationCompletes | internal/reconciler/reconciler.go:365-430 | A new object of any kind whose references resolve is Created after two unhindered steps, or after three, with a poll of the new resource, when its create is answered as under way (never for a Project); one create goes out and the status addresses the resource it made. |
| Lifecycle.UpdateCompletes | internal/reconciler/reconciler.go:433-449 | An edited Created object of the eight kinds is Created with the edit observed after two unhindered steps, which send exactly its new spec to its own address. |
| Lifecycle.DeletingStep | internal/client/helper.go:136-148 | A DELETE answered with success, 404 or 405 takes our finalizer off, and the object goes iff no other finalizer is left. |
| Lifecycle.DeletionCompletes | internal/reconciler/reconciler.go:218-238 | A marked object with only our finalizer is gone after two unhindered steps that send exactly one request, the DELETE of its resource. |
| Fleet.HistoryIsARun | internal/controller/securityrule_controller.go:49-52 | In every interleaving of a cluster, the turns of each object form a run that ends in the stored object. |
| Fleet.StoredIdIsOwn | internal/reconciler/reconciler.go:572-577 | A stored non-empty ResourceID was returned by that object's own acknowledged create and recorded by an earlier entry. |
| Fleet.CreatesUseRecordedIds | internal/controller/cloudserver_controller.go:76-114 | In every interleaving, a create request carries for each reference a non-empty identifier that the referenced object's own create returned and that was recorded earlier. |
| Fleet.ListsMatch | internal/controller/cloudserver_controller.go:96-114 | The subnet and security group lists are resolved element by element. |
| Fleet.UpdatesUseRecordedIds | internal/controller/cloudserver_controller.go:210-249 | The same of a server's property updates: each subnet, security group and elastic IP identifier was returned by the referenced object's own create and recorded earlier. |
| Fleet.AttachesUseRecordedIds | internal/controller/cloudserver_controller.go:282-310 | Each volume a server is told to attach is one its spec names, by an identifier that volume's own create returned and that was recorded earlier. |
| Fleet.DetachesWereAttached | internal/controller/cloudserver_controller.go:311-324 | Each volume a server is told to detach was attached by an earlier acknowledged request of its own, under such an identifier. |
| Fleet.CreatesAreFounded | internal/reconciler/reconciler.go:561-692 | Every acknowledged create of every kind rests on a chain of earlier recorded creates of all it refers to, down to Projects. |
| Fleet.ChainsAreShort | internal/reconciler/reconciler.go:561-692 | A chain of acknowledged creates, each resting on the next, has at most as many members as the rank of its first kind allows, and never more than four. |
| Fleet.ChainToProject | internal/controller/securityrule_controller.go:73-94 | From every acknowledged create such a chain leads to the create of a Project. |
| Fleet.RuleComesLast | internal/controller/securityrule_controller.go:73-94 | A security rule's create follows the create of a security group, which follows that of a Vpc, which follows that of a Project. |
| Tokens.TokenCache.Get | internal/client/oauth_client.go:60-67 | The entry of the tenant, the empty tenant reading that of "public". |
| Tokens.TokenCache.Set | internal/client/oauth_client.go:69-84 | Replaces the tenant's entry and no other. |
| Tokens.TokenManager.SetClientIdAndSecret | internal/client/oauth_client.go:105-111 | Sets the credentials of later logins and leaves the cache. |
| Tokens.TokenManager.GetActiveToken | internal/client/oauth_client.go:123-132 | Serves the tenant's cached token iff at least 10 s are left of its `expires_in` seconds since it was retrieved. |
| Tokens.TokenManager.GetAccessToken | internal/client/oauth_client.go:135-158 | Serves the cache only when asked to; otherwise logs in and caches the token for the tenant, with the credentials it was issued to. |
| Tokens.Authenticator.Authenticate | internal/reconciler/reconciler.go:523-558 | Which operations one authentication performs, when it succeeds, and which token the HTTP client then carries. |
| Tokens.AuthenticationEffect | internal/reconciler/reconciler.go:523-558 | One authentication succeeds iff a token is served, or the tenant's credentials are at hand and the login is issued a token; the credentials and the one entry it replaces are exact. |
| Tokens.ServesLastIssue | internal/client/oauth_client.go:123-166 | In every interleaving, a lookup serves the token of the last login for the tenant that was issued one iff at least 10 s of it are left. |
| Tokens.ServesFirst | internal/client/oauth_client.go:60-84 | Before any such login, it serves what it served at the start. |
| Tokens.AccessTouchesItsSlot | internal/client/oauth_client.go:69-84 | An access changes what is served for no tenant of another entry; two tenants share an entry iff equal or the pair "" and "public". |
| Tokens.StaticCredentials | internal/reconciler/reconciler.go:523-558 | With Vault disabled, in every interleaving of the operations of any authentications, every cached token was issued to the configured credentials. |
| Tokens.OwnCredentialsIff | internal/reconciler/reconciler.go:534-553 | With Vault enabled, whatever interleaves, the token an authentication caches was issued to the credentials it set itself iff the last credentials set between its two operations, if any, are the same. |
| Tokens.CachedTokensAreOwn | internal/reconciler/reconciler.go:534-550 | With Vault enabled and authentications one after another, every cached token was issued to credentials Vault returned for the tenant it is cached under. |
| Witnesses.EdgesOccur | internal/reconciler/reconciler.go:149-168 | The graph is exact: for each kind, every edge out of a phase that runs store is taken by the last turn of some run. |
| Witnesses.MissedEditOccurs | internal/reconciler/reconciler.go:282-285 | For each kind but Project, a run in which an object edited while Provisioning ends Created and observed although only its first spec was ever sent. |
| Witnesses.LoneEditOccurs | internal/controller/cloudserver_controller.go:206-209 | A run in which a server edited once while Created ends Created and observed although only its first spec was ever sent. |
| Witnesses.ElasticIpIsForgotten | internal/controller/cloudserver_controller.go:242-273 | A run in which a server's acknowledged property update carries an elastic IP and its status ends without one. |
| Witnesses.TrueWithoutCreated | internal/reconciler/reconciler.go:471-493 | For each kind but Project, runs that end in Failed and in Provisioning with Synchronized True. |
| Witnesses.CreatedWithoutTrue | internal/controller/cloudserver_controller.go:336-340 | A run that ends with a server in Created whose Synchronized is not True. |
| Witnesses.ServerCanCycle | internal/controller/cloudserver_controller.go:336-358 | When its volume reference resolves differently again and again, a server edited once goes through Updating any number of times: the bound of ServerNoLivelock needs its hypothesis. |
| Witnesses.ForgottenCreateOccurs | internal/reconciler/reconciler.go:398-430 | For each kind, a run that ends Created with two creates acknowledged and one of them forgotten with its lost write. |
| Witnesses.LostAttachOccurs | internal/controller/cloudserver_controller.go:317-324 | A run in which a lost write leaves a server's recorded volumes different from the attached ones. |
| Witnesses.UnfinishedDependencyOccurs | internal/reconciler/reconciler.go:561-692 | A cluster log in which a subnet is created in a Vpc that is still Provisioning. |
| Lease.AppRoleClient.Login | internal/client/vault_client.go:122-151 | A granted login replaces lease and renewability; a failed one leaves them. |
| Lease.AppRoleClient.RenewSelf | internal/client/vault_client.go:211-228 | A granted renewal replaces lease and renewability; a failed one leaves them. |
| Lease.AppRoleClient.AutoRenew | internal/client/vault_client.go:166-195 | Every wait of the loop, for any sequence of renewals and logins, is that of the lease then held with the margin fixed from the first, and the client ends with the lease and renewability it then holds. |
| Lease.LastGrantStands | internal/client/vault_client.go:186-192 | Whatever came before, from a timer that obtained a lease, by renewal or by the login after a refused renewal, until the next that does, the client holds exactly that lease. |
| Lease.FirstHoldStands | internal/client/vault_client.go:186-192 | Until the first such timer it holds the lease it started with. |
| Lease.WaitIs | internal/client/vault_client.go:175-183 | The margin is a fifth of the first lease and at least 10 s, and the wait is the lease less the margin or one second. |
| Lease.WaitWithinLease | internal/client/vault_client.go:175-183 | A lease over one second is never waited out, and a lease over the margin leaves the whole margin, at least 10 s. |
| Lease.WaitIsFourFifths | internal/client/vault_client.go:175-183 | For an unchanged lease of at least 50 s the wait is the ceiling of four fifths of it. |
| Lease.LeaseCoversEveryInstant | internal/client/vault_client.go:179-194 | If every timer obtains a lease over one second, by renewal or login, some lease granted at the start or by one of the timers is in force at every instant. |

## Left out

- Stale cache reads: a step reads the object and its references as they are stored; an older copy served by the
  client's cache is not modelled, so the statements about requests are about fresh reads.
- Time inside a step: a step has one clock reading, and the truncation of stored times to whole seconds is not
  modelled.
- Operator.Reconciler.Reconcile: the outcome of Authenticate is a parameter of the step; Authenticate itself is
  proved in Tokens.
- Operator.Reconciler.GetID: the seven lookup functions differ in the kind only and are one method; a failing read
  of a reference is the environment's choice.
- Operator.Reconciler.ResolveForCreate: the nine controllers' create closures are one method by kind.
- Operator.ApiServer.Update: users are assumed not to touch the operator's own finalizer or the status.
- Lease.AppRoleClient.AutoRenew: the endless loop is cancelled after any finite number of timers; starting and
  cancelling its goroutine, and the increment sent with a renewal, are not modelled.
- Tokens.CachedTokensAreOwn: stated for authentications one after another; for any interleaving, OwnCredentialsIff
  gives the exact condition.  The API token shared by all controllers is not modelled.
- Convergence.SpecConvergence: not stated for CloudServer, for which it is false (Witnesses.LoneEditOccurs);
  ServerUpdates.ServerConvergence gives the exact condition for that kind.
- VolumeAgreement.RecordedIsAttached: an attach/detach answered with a body that does not parse counts as failed and
  is taken not to apply.
- Request bodies: every value copied from the spec is one field, `settings`; message texts and URL formatting are
  left to the environment, identifiers in them correspond one by one.
- Which of the spec's values an update body carries: KeyPair and BlockStorage updates leave some out.
- HTTP transport, JSON, Keycloak and Vault wire calls, Kubernetes client internals, configuration, charts, CRDs and
  RBAC.
