# OPNsense management plugin: verified model

A Dafny model of the plugin that manages one or two OPNsense firewalls, with proofs of what its write paths
promise. `dafny verify dfyconfig.toml` checks everything. Paths below are relative to the repository root.

## What is modelled

**The verified write protocol** (`src/writers/verified.py`). `Protocol` describes one execution as a machine
that makes one firewall or audit call at a time: `Next` is the call that is due, `Observe` what its answer
leads to. Nothing is assumed of the answers; each call may be acknowledged, rejected, or fail with or
without having taken effect. `WriteGuarantees`, `WriteEvidence`, `WriteCauses` and `WriteOutcomes` prove what
every history of calls has in common. `Writer` is the same protocol as the object it is in the source, with
fields, in-place results, loops and early exits; each method is proved to follow the machine, so the results
hold of it. `Nodes` and `NodeOutcomes` add two honest firewalls, each with one table for NAT rules, filter rules and
aliases, `Concurrency` any number of writers of any of these and the host-pair lock, `AuditFile` and `AuditTrail` the
append-only file with torn lines, `Preflight` and `Listings` the checks that the protocol relies on.

**Revisions and comparisons.** `Canonical` is the canonical text behind every revision, `OptionTrees` the two
copies of the option-form conversion, `Matching` the flat comparison of stored and requested configuration.

**The catalog engine** (`src/management/engine.py`). `DottedEdit`, `CatalogValues` and `CatalogPayloads` cover
edits of nested dotted paths and the payload of a save; `Engine` is one mutation with its `partial` flag.

**Smaller cores.** `RevocationLists` and `CrlService` (CRLs, with the reason codes of section 5.3.1 and the CRL
number of section 5.2.3 of RFC 5280), `Backups` (the encrypted store, with every crash point recorded), `Carp`,
`Cluster`, `Divergence` and `DivergenceLaws` (roles and differences of a node pair), `Forms` and `FormLaws`
(rule and alias forms), `Retries` (bounded loops).

`Wrappers`, `Sorting`, `Text`, `JsonTrees` and `Histories` are shared foundations.

What a firewall, the audit file, the operating system or a random source contributes is a parameter: a
function from the number of a call to its outcome, over which every statement quantifies. Hashing,
encryption, PEM and XML checks are parameters too, with collision-freeness or decrypt-after-encrypt as an
explicit premise where it is needed.

## Where the code departs from its description

- Deleting a dotted field does not erase it where a literal dotted key shadows the nested value
  (`DottedEdit.DropErasesUnlessShadowed`, `DottedEdit.DropLeavesShadowedValue`).
- An alias whose content has a comma does not survive an unchanged edit; the others do
  (`FormLaws.AliasEditRoundTrip`). A host alias of two addresses is sent differently the second time
  (`FormLaws.UnchangedAliasIsSentDifferently`).
- The final raise of `_request`, marked unreachable in the source, is reached exactly when a retrying request
  is configured with no attempts (`Retries.Request`).
- Of a VIP that a node lists with two different statuses the write gate sees only the last one, and so can accept
  what preflight refuses (`Carp.GateOverlooksRepeatedVip`). The two disagree in no other case
  (`Carp.GateIffPreflight`).
- A backup for which only the final `chmod` fails is reported as not saved although it is stored
  (`Backups.BackupStore.Create`).
- A key file that a crash tore is never replaced, so that no backup can be created any more
  (`Backups.TornKeyIsFinal`).
- A CRL change reports `partial` as false where the save was acknowledged and the readback lacked authentication
  (`CrlService.CrlService.Mutate`; a delete in `CrlService.AcknowledgedDeleteReportedUnsent`).
- A row appended after a torn line is glued to it and cannot be read back (`AuditFile.ReadableIffNotTorn`).

## Model

| member | source | states |
|---|---|---|
| Canonical.CanonicalTextUnambiguous | src/writers/audit.py:41-50 | Two JSON trees print to the same canonical text if and only if they are equal up to key order |
| Canonical.RevisionIdentifies | src/writers/audit.py:41-50 | With a collision-free digest, equal revisions mean equal objects, and conversely |
| Canonical.EqualIffNormal | src/writers/audit.py:49 | Sorting keys loses exactly their order |
| Canonical.PrintPrefix | src/writers/audit.py:49 | A value can be decoded unambiguously from the front of any text that it begins |
| OptionTrees.SelectedIdempotent | src/writers/verified.py:57-63 | Converting an option form twice is converting it once, for every tree |
| OptionTrees.EngineSelectedIdempotent | src/management/engine.py:17-29 | The same for the engine's copy, lists and empty objects included |
| OptionTrees.CopiesAgree | src/management/engine.py:17-29 | Both copies agree on trees without lists and empty objects |
| OptionTrees.NormalizeEmptyAfterSelected | src/management/engine.py:230-234 | The engine's empty-option pass changes nothing that its conversion returns |
| Matching.FlatRefinesTree | src/writers/verified.py:66-91 | On dot-free keys the flat comparison holds exactly when every leaf path of the wanted tree is observed with the same value, letter case and word order aside where the source ignores them |
| Matching.MatchesIffEveryLeafMatches | src/writers/verified.py:77-91 | The same for `matches` itself, after conversion of the observed object |
| Matching.MatchingIsPreorder | src/writers/verified.py:77-91 | Matching is reflexive and transitive on canonical trees |
| Listings.CompleteListing | src/writers/verified.py:137-157 | Against an honest listing, one that passes the count shows every row, so a row it lacks is absent |
| Listings.ScanPages | src/management/engine.py:344-357 | The page loop returns the verdict of the scan, requests each page once up to the one that decides, and has looked at every page when it reports absence |
| Listings.ScanReadsUpToLastPage | src/management/engine.py:344-357 | The verdict depends on no page after the deciding one |
| Listings.AbsenceByExhaustion | src/management/engine.py:344-357 | Against a fixed table absence is reported exactly when the object is missing and there are at most 200000 rows; a present object is never reported absent |
| Preflight.PlanMeansSafe | src/writers/verified.py:176-242 | A plan exists only if synchronisation covers the resource and firewall sections only, runs one way to exactly the configured peer, and this node is master of all shared VIPs |
| WriteGuarantees.ObserveStep | src/writers/verified.py:332-412 | Every answer keeps the state consistent and moves the execution strictly forward |
| WriteGuarantees.AlwaysConsistent | src/writers/verified.py:332-412 | Every reachable state is consistent: what it reports is backed by what it has done |
| WriteGuarantees.AtMostOnce | src/writers/verified.py:244-259 | No purpose is served by two POSTs: one main verb, one rollback delete, one apply each, one restart, one peer delete and one peer apply, each to its node and verb |
| WriteEvidence.HonestSuccess | src/writers/verified.py:332-412 | `ok` is reported only after, in this order, the persisted "started" row, the acknowledged write and apply, a matching local read, with a peer a matching peer read, and the persisted "ok" row |
| WriteEvidence.VerifiedRollback | src/writers/verified.py:385-397 | A rollback is verified only after its acknowledged delete and apply, and observed absence on every node |
| WriteCauses.PostsFollowStartedRow | src/writers/verified.py:343-346 | Every POST follows this execution's persisted "started" row |
| WriteCauses.RefusalSendsNothing | src/writers/verified.py:347-358 | A conflict or an unsafe pair means that nothing was sent to either node |
| WriteCauses.RollbackNeedsRejectedCreate | src/writers/verified.py:383-389 | A rollback delete comes right after an explicitly rejected apply of an acknowledged create and names just the UUID it was given |
| WriteCauses.RejectedCreateIsRolledBack | src/writers/verified.py:383-389 | After a rejected apply of a create, the rollback delete is the very next call |
| WriteCauses.RollbackIffRejectedCreate | src/writers/verified.py:383-389 | In finished executions a rollback delete was sent if and only if there was such a rejected create |
| WriteCauses.PushIsPreflighted | src/writers/verified.py:251-256 | A synchronisation is pushed only right after preflight found the plan that the execution began with |
| WriteCauses.PeerDeleteIsQualified | src/writers/verified.py:293-310 | A peer delete is sent only if before the main delete both nodes held exactly the requested rule at the caller's revision, and right before it the plan was unchanged, the local node held none and the peer still that one |
| WriteOutcomes.FailureHasACause | src/writers/verified.py:332-412 | A finished execution without success had a call that failed or showed something else, so success is reported whenever everything went as required |
| WriteOutcomes.OutcomeIsInTheLog | src/writers/verified.py:400-412 | The last call is the final row; success is reported exactly if an "ok" row was persisted there, and an audit error exactly if it was not persisted |
| Nodes.IdsReadIsExact | src/writers/verified.py:280-291 | Reading an honest node's DNAT rules yields exactly the rules it holds, lockout rows aside |
| Nodes.HeldBeforePeerDelete | src/writers/verified.py:298-302 | Right before a peer delete the local node holds no user rule and the peer exactly the requested one |
| Nodes.CleanupRemovesJustTheRule | src/writers/verified.py:293-315 | Without outside writers an acknowledged peer delete removed exactly the requested rule; both nodes stay without user rules and no generated lockout row is lost |
| Nodes.DeletesNameUuids | src/writers/verified.py:46-54 | Every delete of an admitted request, a rollback's included, names a UUID |
| Nodes.LockoutsStay | src/writers/verified.py:284-286 | A delete removes whatever row it names, and yet no call of an admitted request removes a generated lockout row from any table, for none is named by a UUID |
| NodeOutcomes.SuccessIsReal | src/writers/verified.py:332-412 | Without outside writers a reported `ok` over honest nodes means that the local node stores a match of the requested object, or lacks it after a delete, and has loaded what it stores of this resource, and that the peer stores or lacks it, too, whether it was pushed there or came with an automatic synchronisation between the reads |
| NodeOutcomes.LastReadShows | src/writers/verified.py:370-377 | The call before the final row of a success is the matching read of the peer or, without one, of the local node |
| Concurrency.LockKeyIffSamePair | src/writers/verified.py:324-326 | Two writers share a lock key exactly if they write to the same unordered pair of hosts |
| Concurrency.WriteLocks.LockFor | src/writers/verified.py:327-328 | A key keeps its lock for good, and different keys have different locks |
| Concurrency.WriteLocks.SharedIffSamePair | src/writers/verified.py:324-329 | Two writers wait for each other exactly if they write to the same unordered pair |
| Concurrency.MutualExclusion | src/writers/verified.py:329-330 | At most one writer of a pair is between its first and its last row |
| Concurrency.NoLostUpdate | src/writers/verified.py:348-360 | In every interleaving of any number of writers of any resources, an update or delete is sent in a state whose object has the revision its caller named |
| Concurrency.OverwritesWhatWasSeen | src/writers/verified.py:348-360 | With a collision-free digest, what is overwritten is the very object the caller had loaded |
| Concurrency.SecondHolderIsRefused | src/writers/verified.py:348-351 | Two holders of one revision cannot both overwrite once the first has changed the hash, unless an add or set in the same table or a synchronisation of the host restored that revision in between |
| Concurrency.OverwritesFormAChain | src/writers/verified.py:348-360 | Where no other set or delete of the object and no synchronisation of its host came in between, the next writer's revision is the hash of what an update left; after a delete that took effect, a next overwrite needs an add to that table in between |
| Concurrency.ConcurrentRunsAreRuns | src/writers/verified.py:317-330 | In every interleaving each writer's calls form an execution over a network that only its own calls change |
| Concurrency.ConcurrentCleanup | src/writers/verified.py:293-315 | Whatever other writers do, an acknowledged peer delete was of just the requested last rule |
| Concurrency.ConcurrentSuccessIsReal | src/writers/verified.py:329-412 | Whatever other writers of the pair do, when a writer that reports `ok` still holds the lock, both nodes are as requested |
| Concurrency.LockoutsAlwaysStay | src/writers/verified.py:284-286 | In every interleaving of admitted requests every generated lockout row stays in every table |
| AuditFile.ReadableIffNotTorn | src/writers/audit.py:99-103 | An appended row can be read back as its own line exactly if the file did not end in a torn line |
| AuditFile.AuditLog.Append | src/writers/audit.py:99-103 | An append adds its whole line, or fails having added a prefix of it; nothing is ever removed |
| AuditTrail.OkMeansAllAppended | src/writers/verified.py:343-346 | Once an append has failed the execution is over and unsuccessful |
| AuditTrail.SuccessIsDurable | src/writers/verified.py:400-412 | A successful execution adds exactly its rows to an untorn file, each on its own line, from its "started" to its "ok" row |
| Writer.VerifiedFirewallWriter.Search | src/writers/verified.py:137-157 | The rows, or the problem that the protocol reads from the answer |
| Writer.VerifiedFirewallWriter.UserRules | src/writers/verified.py:280-291 | The loop collects exactly the identifiers of the user rules or refuses an unknown row |
| Writer.VerifiedFirewallWriter.Verify | src/writers/verified.py:168-171 | The comparison with what is expected, or absence from a complete listing |
| Writer.VerifiedFirewallWriter.Sync | src/writers/verified.py:244-278 | Synchronisation follows the protocol, reads the peer at most the configured number of times and has waited 1 + 2 + ... + (k - 1) backoffs before the k-th read |
| Writer.VerifiedFirewallWriter.FinishLastDnatDelete | src/writers/verified.py:293-315 | The clean-up follows the protocol and updates the shared result in place |
| Writer.VerifiedFirewallWriter.Undo | src/writers/verified.py:385-399 | The rollback follows the protocol and ends with the reported rollback |
| Writer.VerifiedFirewallWriter.ExecuteLocked | src/writers/verified.py:332-412 | The writer's calls are a complete history of the protocol, and its result is the one the protocol reports |
| Writer.VerifiedFirewallWriter.Execute | src/writers/verified.py:317-341 | Malformed identifiers and revisions and payloads without the resource's object make no call and no row; any other request is executed as above, and when all its rows were persisted the file grew by exactly them |
| DottedEdit.PutReadsBack | src/management/engine.py:53-73 | A value that is put under a dotted name is what the name reads |
| DottedEdit.PutElsewhere | src/management/engine.py:64-73 | Putting a value leaves every path apart from its target as it was |
| DottedEdit.PutOtherName | src/management/engine.py:64-73 | Putting a value leaves every independent name as it was |
| DottedEdit.DropElsewhere | src/management/engine.py:76-85 | Dropping a name leaves every path apart from its target as it was |
| DottedEdit.DropErasesUnlessShadowed | src/management/engine.py:76-85 | A dropped name reads as missing if and only if no literal dotted key shadows a nested value |
| DottedEdit.DropLeavesShadowedValue | src/management/engine.py:76-85 | A concrete object where the nested value survives the drop |
| CatalogValues.Values | src/management/engine.py:212-276 | The passes over defaults, withheld fields, submitted values and required fields yield the specified payload or refuse |
| CatalogPayloads.UpdateReads | src/management/engine.py:212-276 | In the payload of an update every written field reads as its encoded value and every other as before |
| CatalogPayloads.UpdateWithholds | src/management/engine.py:235-237 | Read-only and unsupplied write-only fields are not sent, exactly unless shadowed |
| CatalogPayloads.UpdateKeepsBlankSecret | src/management/engine.py:244-245 | A blank ordinary secret keeps its stored value |
| CatalogPayloads.UpdateKeepsOtherPaths | src/management/engine.py:212-276 | With names that are not prefixes of one another, every path outside the catalogued fields is unchanged |
| CatalogPayloads.CreateHoldsOnlyCatalogued | src/management/engine.py:218-227 | Every leaf of a create payload lies in a catalogued field |
| Engine.AbsentFromTable | src/management/engine.py:344-357 | If every page that a successful delete scan read came from one fixed table, the object is not in it |
| Engine.ManagementService.ApplyAll | src/management/engine.py:337-342 | Apply paths are sent once each, in order, up to the first that is not acknowledged |
| Engine.ManagementService.Scan | src/management/engine.py:344-357 | The scan of a node ends without a problem exactly with pages that show the object absent |
| Engine.ManagementService.Mutate | src/management/engine.py:313-408 | `partial` is false exactly if no POST was sent or the save was answered with validations; an identifier is reported exactly once the save was confirmed; success means every mutation acknowledged, readback after the last one on every node, and a persisted "ok" row; the save carries the specified payload after a comparison with the caller's revision and a persisted "started" row |
| Engine.ManagementService.Submit | src/management/engine.py:286-311 | A refused request makes no call; for any other, `partial` and the identifier are exact |
| RevocationLists.ReadIsReadable | src/management/crl.py:87-124 | An accepted CRL answer has seven comma-joined lists of well-formed references and numeric counters |
| RevocationLists.JoinedRefs | src/management/crl.py:154-163 | Joining references with commas and splitting them again are inverse, the empty list and the empty text included |
| RevocationLists.GatheredIsPartition | src/management/crl.py:150-163 | Accepted reason lists hold offered references only, and none twice anywhere |
| RevocationLists.PartitionIsGathered | src/management/crl.py:150-163 | Conversely every such family of lists is accepted |
| CrlService.GatherLists | src/management/crl.py:150-163 | The loops over reasons and references with their `seen` set compute exactly that |
| CrlService.Validate | src/management/crl.py:135-174 | Validation yields the specified payload or refuses |
| CrlService.RevocationMovesOne | src/management/crl.py:208-241 | A verified revocation lists the certificate for the requested reason and no other, every other certificate keeps its reasons, none is listed twice, and the CRL number grows by one |
| CrlService.RunsSupersede | src/management/crl.py:208-241 | Over any sequence of verified revocations a certificate ends under exactly the reason it was last revoked for, or under its old reasons |
| CrlService.SerialCountsWrites | src/management/crl.py:231-240 | Over any sequence of verified operations the CRL number counts the writes since the last delete |
| CrlService.VerifiedRevokeRevokes | src/management/crl.py:208-217 | A verified revoke request is a verified revocation of the certificate and reason it names |
| CrlService.CrlService.Mutate | src/management/crl.py:176-256 | A request is refused without a POST exactly as its opening says; otherwise exactly one POST is sent, of the payload validated from what was read; success means that it was acknowledged and read back; on failure after a POST `partial` is false if and only if the save was answered with validations or lacked authentication, or it was acknowledged and the readback lacked authentication |
| CrlService.AcknowledgedDeleteReportedUnsent | src/management/crl.py:242-256 | In a concrete world a delete is sent and acknowledged, the readback lacks authentication, and the failure is reported with `partial` false |
| Backups.EnvelopeFits | src/management/backups.py:28-29 | By the length of a serialized envelope, every accepted payload makes one that fits the limit under which it is read back |
| Backups.BackupStore.EnsureKey | src/management/backups.py:102-128 | A stored key is never replaced, none is made while a backup exists, and a first key whose writing stops early is left torn at just that byte |
| Backups.BackupStore.Create | src/management/backups.py:165-197 | The store gains exactly the downloaded backup if and only if the access was recorded, the body is good, the key is there or can be made, and nothing fails up to the replacement; otherwise its backups stay; success is reported exactly if the final `chmod` works, too; a first key cut short leaves a torn key file, and with one every creation fails |
| Backups.BackupStore.Read | src/management/backups.py:233-237 | A backup is read exactly if it is live and the access was recorded, and its bytes are those created |
| Backups.BackupStore.Delete | src/management/backups.py:243-252 | Exactly the named live backup is removed, or nothing |
| Backups.BackupStore.List | src/management/backups.py:225-231 | The metadata of exactly the live backups, newest first and, since the sort is stable, by identifier within one date |
| Backups.Collect | src/management/backups.py:151-157 | The chunk loop yields the whole body exactly if it is within the limit and a backup document |
| Backups.KeyNeverChanges | src/management/backups.py:102-128 | From any crash point to any later one a complete key stays what it was |
| Backups.CrashSafe | src/management/backups.py:174-196 | Between any two crash points a stored backup stays readable with the same bytes unless a step in between removed just it, and while it exists the key stays |
| Backups.BackupsStay | src/management/backups.py:165-252 | Over any sequence of operations, each possibly stopped at any crash point with the store opened again, a backup that is not deleted stays with its metadata and bytes |
| Backups.BackupsWereCreated | src/management/backups.py:165-252 | Over any such sequence every readable backup was there from the start or is exactly what a creation of that identifier stored |
| Backups.TornKeyIsFinal | src/management/backups.py:102-128 | Over any such sequence a torn key file stays as it is, and nothing is ever stored beside it |
| Carp.CollectRows | src/collectors/carp.py:104-117 | The loop keeps exactly the CARP rows |
| Carp.CollectCarpStatus | src/collectors/carp.py:99-144 | Collecting raises exactly if an active VIP cannot be ranked outside maintenance; otherwise the node is enabled exactly if it has VIPs, a master or backup outside maintenance is led by a VIP of that status that no active one precedes, and the node is disabled exactly if it has no VIPs or, outside maintenance, no active one |
| Carp.UniformRole | src/collectors/carp.py:82-96 | A node whose VIPs all are MASTER is classified master, and likewise for BACKUP |
| Carp.GateIffPreflight | __init__.py:454-468 | The CARP part of preflight accepts a node as master if and only if the write gate names it and no VIP occurs with two statuses on either node |
| Carp.GateOverlooksRepeatedVip | __init__.py:458-467 | Two concrete answers that are collected to a pair which the gate accepts and preflight refuses |
| Cluster.ClusterClient.MasterSide | src/client/cluster.py:61-88 | The side whose role alone is master, else A; collecting only what is not cached |
| Cluster.ClusterClient.MasterAndBackup | src/client/cluster.py:90-94 | Master and backup are the two different nodes |
| Cluster.CarpDecidersAgree | src/client/cluster.py:73-88 | Gate, preflight, `master_side` and the role-pair divergence agree, and listing the hosts the other way round names the same node |
| Cluster.WritesGoToTheMaster | __init__.py:436-468 | A cluster write goes to the node that preflight accepts as master of the other, and is refused exactly if there is none or not exactly two hosts |
| Divergence.DiffNamed | src/divergence.py:123-179 | The loop over all names in order lists the differences of one category |
| Divergence.DiffCerts | src/divergence.py:182-210 | The two loops list the certificates present on one node only |
| Divergence.Compute | src/divergence.py:213-226 | The list is a permutation of all differences, sorted by severity, category and key |
| DivergenceLaws.ReportedIffDifferent | src/divergence.py:123-226 | In the final list a service, gateway or interface occurs, with both values, exactly when its values differ |
| DivergenceLaws.CertReportedIffOneSided | src/divergence.py:182-226 | In the final list a certificate occurs exactly when one node has it and the other does not, on the right side |
| DivergenceLaws.AllKeyed | src/divergence.py:213-226 | With named objects every difference is determined by its category and key |
| DivergenceLaws.SwapFlips | src/divergence.py:213-226 | Swapping the nodes gives the same list with both values exchanged |
| Forms.NormalizeRow | src/routes/firewall.py:108-130 | The loops and updates build the specified form values |
| FormLaws.RuleEditRoundTrip | src/routes/firewall.py:68-130 | Editing any accepted filter or NAT rule without changing it sends the same object |
| FormLaws.AliasEditRoundTrip | src/routes/firewall.py:71-78 | The same for an alias if and only if its content has no comma |
| FormLaws.UnchangedAliasIsSentDifferently | src/routes/firewall.py:71-78 | A concrete accepted alias whose unchanged edit sends another object |
| Retries.WaitingClosedForm | src/writers/verified.py:264-275 | Before attempt k a loop has waited backoff times k(k-1)/2 |
| Retries.WaitingIsBounded | src/writers/verified.py:128-133 | Within the constructor's bounds that is at most 90 seconds |
| Retries.VerifyItem | src/writers/hasync_writer.py:127-185 | The least attempt that shows what is expected, or the bound, with its waiting |
| Retries.VerifyRobust | src/writers/hasync_writer.py:189-261 | The least attempt whose fingerprint equals the local one, or the bound |
| Retries.VerifyRevision | src/writers/hasync_writer.py:276-318 | The least attempt on which both revisions are known and equal, or the bound |
| Retries.VerifiedIffSomeGood | src/writers/hasync_writer.py:155-185 | A bounded loop verifies if and only if one of its allowed attempts succeeds |
| Retries.Request | src/client/opnsense_client.py:99-154 | A POST is sent exactly once; the outcome is that of the first response that is not transient or of the last one allowed; the final raise is reached exactly if a retrying request has no attempts |
| Retries.DelaysAreBounded | src/client/opnsense_client.py:156-159 | The delays before n further requests add up to at most n times the maximum delay |

## Left out

- Concurrency.NoLostUpdate: covers writers with one lock key. Writers on different host pairs use different locks, outside administrators may write at any time, automatic synchronisation is taken to reach a peer only when the writer that awaits it reads there, and an effect is taken to happen before its call returns.
- Nodes.CleanupRemovesJustTheRule: takes the effect of a synchronisation on the peer's tables as arbitrary and reads as honest; what the XMLRPC merge does is not part of this model.
- Nodes.LockoutsStay: a synchronisation is taken to leave the lockout rows alone, which a node generates from its own settings.
- NodeOutcomes.SuccessIsReal: that the peer has loaded what it stores is not stated, for the effect of a synchronisation on it is left open.
- Preflight.PlanMeansSafe: the address that the configured target parses to and the interface addresses are given as values; URL and address parsing are not modelled.
- Writer.VerifiedFirewallWriter.Execute: the lock is taken in `Concurrency`, not in this method; detail texts, audit time stamps, users, hosts and durations are left to the rendering of a row. The number of attempts is required to be positive, which the source's constructor enforces with its range of 1 to 10. A payload whose resource value is neither an object nor null, on which the source fails with an attribute error during readback, is executed as one that expects absence.
- Writer.VerifiedFirewallWriter.Verify: a stored object that as a whole has the shape of an option form does not match, where the source fails with an attribute error.
- Matching.MatchesIffEveryLeafMatches: Python's rendering of a list inside a text is a parameter.
- Listings.CompleteListing: row identifiers that are not texts count as empty text.
- DottedEdit.PutReadsBack: nested objects are values; the aliasing of Python dictionaries that the source avoids by deep copies is not captured.
- Engine.ManagementService.Mutate: the `prepare` and `verify` hooks of single modules are left out, as is the list of rejected fields in an error. An object that as a whole has the shape of an option form is refused as an invalid response, where the source would fail with an attribute error.
- Engine.ManagementService.Scan: a total is read as an integer or a decimal text with at most one sign; Python also accepts spaces, underscores and a plus sign. A listed row that is empty or has the shape of an option form reads as an empty identifier, where the source fails with an attribute error.
- Carp.CollectCarpStatus: `int` on text is a parameter; interface and advbase of a VIP are not used in any decision and are dropped.
- Divergence.Compute: explanatory texts are dropped; a missing name is an empty text, and values are compared structurally, so that Python's equality of `True` and `1` is not captured.
- FormLaws.RuleEditRoundTrip: letter case and digits are those of ASCII.
- Backups.BackupStore.Create: identifiers are taken to be fresh and dates to have at most 40 characters; symbolic links, replaced directories and read errors are left out, and one process at a time uses the store.
- Backups.EnvelopeFits: the parts of a serialized envelope other than the ciphertext are bounded together, by one premise on the serializer.
- Retries.Request: delays are counted in a unit of their own instead of floating-point seconds.
- Floating-point numbers in JSON documents and Python's limit on the digits of an integer.
- HTTP, TLS, Flask handlers, permission probing, configuration loading and the user interface.
- The catalogue data, certificate checks, and SHA-256, AES-GCM, XML and PEM themselves.
- The earlier writers for aliases, NAT, DHCP, Unbound, WireGuard and one-to-one NAT, and the registry of operations.
- `AuditLog.tail` and `AuditLog.iter_all`, which split lines differently.
- The ten-second cache of the master side for reads and the method that fills the probes from collected statuses; a write always collects the status of both nodes.
- Collectors other than CARP, metrics and overview aggregation.
