# otherix: protocols, allocators and codecs of the control plane, verified

A Dafny model of the parts of otherix that hold protocol state, survive crashes, allocate, or encode:
refresh-token families over etcd, compare-and-set node rows, peer blob serving, the HA join and the
cluster CA, image-cache eviction, session credentials and password hashes, certificate names and
extension scanners, listener shutdown and supervised restart, and the mock agent's two views of a
migration. `dafny verify dfyconfig.toml` checks everything.

How the model is laid out:

- Protocols with several callers are machines over atomic steps (an etcd read or transaction, a
  mutex-held section, one file write, one channel operation). Their theorems hold for every run: any
  number of calls, any interleaving, a failure or crash between any two steps.
- Code that updates objects in place is a class with those fields, and a loop is a loop with its
  invariants; each method is proved against a specification, and the promised properties are proved
  about that specification.
- Libraries stay abstract: JSON, argon2id, ECDSA, X.509 chain checking, URL and address parsing and case
  folding are functions given from outside, with the laws used stated as predicates. Clocks, random
  values, file-system and network outcomes are parameters or steps.

| file | component |
|---|---|
| RefreshTokens, RefreshTokenProofs, RefreshTokenTheorems, RefreshTokenSessions | refresh-token families, replay and logout |
| RefreshTokenLateBarrier, RefreshTokenLogoutAll, RefreshTokenLogoutRace | burns and LogoutAll, and exactly when they are final |
| NodeRow, NodeRowRuns | compare-and-set on a node row |
| BlobServe, BlobServeRuns, BlobServeTheorems | peer blob serving |
| InitialCluster, ClusterJoin, CaBootstrap | HA join and the cluster CA |
| ImageCache | image-cache eviction |
| Base64, Text, SessionCred, Password | codecs |
| Dedup, Sans, CertCache, Csr | certificate names, reuse and extension scanners |
| Listeners, Supervision | listener shutdown, restart backoff |
| Migrations | mock migrations |

Properties that turned out to need a condition, each with the exact one:

- A burned refresh-token family stays dead in every run if and only if the latency of a barrier (clock
  reading to commit) plus the longest lifetime a token was issued for is at most the lifetime barriers are sized by plus
  24 hours (`RefreshTokenLateBarrier.BurnIsExact`): expiry cleanup may otherwise reap the barrier while a
  token of the family is still active. With one lifetime throughout that is a latency of 24 hours.
- LogoutAll burns every family that had an active token when it began if and only if it finishes reading
  families before that token, valid then, expires (`RefreshTokenLogoutAll.LogoutAllKillsFamilies`,
  `RefreshTokenLogoutRace.LogoutAllIsExact`). Otherwise a rotation may replace the listed token, cleanup reap
  it, and LogoutAll find nothing to read, while the child lives on.
- A node that crashed between writing the CA certificate and the key, as any node may
  (`CaBootstrap.HalfAPairHappens`), can hold a CA again if and only if it is in join mode
  (`CaBootstrap.HalfAPairRecoversIff`).
- A resumed join starts from exactly the redeeming boot's initial-cluster if and only if the sidecar was
  written and that string has white space at neither end (`ClusterJoin.ResumesWithRedeemedCluster`);
  `ClusterJoin.CrashBeforeSidecarIsRefused` and `ClusterJoin.SpacedNameIsTrimmed` are lives in which it does
  not.
- Port and token accounting of the blob serve manager holds throughout a run if and only if no expired
  timer's callback claims a port that has meanwhile gone to another serve
  (`BlobServeTheorems.AccountingIsExact`), because the callback claims by port but tears down the serve
  it captured; `BlobServeTheorems.LateCallbackOrphans` is such a run.
- The extension scanners are right on every short-form length; their exact answers on long-form ones are
  `Csr.ScannerReadsCA` and `Csr.ScannerOnLongKeyUsage`, and `Csr.LongCAIsMissed` and
  `Csr.LongKeyUsageIsMisread` are inputs on which those differ from the decoded meaning.
- A session credential verifies after signing exactly before its expiry, except when an unset expiry is
  stamped onto the zero time (`SessionCred.SignThenVerify`, `SessionCred.StampIsZeroIff`).
- An eviction pass conserves bytes if and only if no blob of positive size was removed by a deletion that
  then failed on its sidecar (`ImageCache.PassConservesIff`, `ImageCache.StuckSidecarLosesBytes`).
- Restart waits stay within the cap if and only if the minimum does, never shrink if and only if the minimum
  is not negative or not below the cap, and reach the cap if and only if the minimum equals it or is positive
  and below it (`Supervision.WaitsAreCappedIff`, `Supervision.WaitsNeverShrinkIff`,
  `Supervision.CapIsReachedIff`, `Supervision.UnboundedWaits`).
- Migration progress goes back between two instants if and only if the record has settled as failed by the
  later one and the ramp had left zero at the earlier (`Migrations.ProgressIsMonotoneIff`).

Where code and comments differ the code is followed: the certificate cache accepts a leaf with exactly
thirty days left, though its comment asks for more.

## Model

| member | source | states |
|---|---|---|
| `RefreshTokenTheorems.AtMostOneActive` | internal/auth/service.go:179-234 | in every reachable state a family has at most one unrevoked token, whatever logins, refreshes, logouts and cleanups interleave |
| `RefreshTokenTheorems.FamilyIsOneChain` | internal/auth/service.go:126-234 | all tokens ever created in a family are one parent chain of one user, in commit order, with no repeats |
| `RefreshTokenTheorems.RotatesAtMostOnce` | internal/etcdstore/refresh_tokens.go:343-402 | two successful Refresh calls never rotate the same token nor hand out the same child |
| `RefreshTokenTheorems.RevocationIsPermanent` | internal/etcdstore/refresh_tokens.go:141-173 | a revoked or reaped token is never active again, even under writes of rows read earlier |
| `RefreshTokenTheorems.BarredFamilyIsFrozen` | internal/etcdstore/refresh_tokens.go:212-240 | once its barrier is committed in time, no rotation ever extends the family, even one that read its row before |
| `RefreshTokenTheorems.BurnedFamilyIsDead` | internal/auth/service.go:236-245 | when a burn returns, every token ever created in the family is dead, then and ever after |
| `RefreshTokenTheorems.BurnIsFinal` | internal/auth/service.go:188-245 | no stored row of a burned family is ever unrevoked again |
| `RefreshTokenLogoutAll.LogoutAllKillsFamilies` | internal/etcdstore/refresh_tokens.go:163-224 | when LogoutAll returns, every family of the user with an active token when it began is burned: every token ever created in it, children rotated in meanwhile included, is dead then and ever after, provided families were read before that token expired |
| `RefreshTokenLogoutRace.LogoutAllIsExact` | internal/etcdstore/refresh_tokens.go:178-205 | a family with an active, unexpired token can outlive LogoutAll if and only if the call may still be reading families after that token expired |
| `RefreshTokenLogoutRace.ChildSurvives` | internal/etcdstore/refresh_tokens.go:191-193 | the run: LogoutAll lists a valid token, which then expires; its rotation commits, cleanup reaps it, LogoutAll finds no row to read, and the child stays active |
| `RefreshTokenLogoutAll.RunUnreaped` | internal/etcdstore/refresh_tokens.go:406-454 | at every point of every run an unexpired token is stored and indexed, because cleanup deletes expired tokens only |
| `RefreshTokenLogoutAll.LogoutAllKillsActiveTokens` | internal/auth/service.go:262-264 | whatever the timing, each token of the user active when LogoutAll began is itself dead when it returns |
| `RefreshTokenSessions.ReplayBurnsFamily` | internal/auth/service.go:175-245 | a Refresh that presents a token revoked by then never wins a child; if it returns, it has failed, found the token reaped, or burned the family, all of whose tokens are dead from then on |
| `RefreshTokenSessions.LogoutEndsToken` | internal/auth/service.go:247-259 | when Logout returns without an error, the token it presented is inactive then and ever after |
| `RefreshTokenSessions.RunHashes` | internal/etcdstore/refresh_tokens.go:94-137 | in every run hashes tell tokens apart, each hash index entry leads to the token of its hash, and every active token has one |
| `RefreshTokenTheorems.RunKeeps` | internal/etcdstore/refresh_tokens.go:105-454 | the protocol invariant (rows, indexes, chains, barriers, and what each call still knows) holds at every point of every run |
| `RefreshTokenTheorems.RunEvolves` | internal/etcdstore/refresh_tokens.go:105-454 | between any two points of a run history only grows, dead tokens stay dead and barred chains stay put |
| `RefreshTokenLateBarrier.BurnIsExact` | internal/etcdstore/refresh_tokens.go:66-74 | a token can outlive a completed burn of its family if and only if barrier latency plus the longest token lifetime exceeds the lifetime barriers are sized by plus 24 hours |
| `RefreshTokenProofs.RotateKeeps` | internal/etcdstore/refresh_tokens.go:343-402 | a rotation commit keeps the invariant: the parent was its chain's last token, the child extends it, and no barred family grows |
| `RefreshTokenProofs.ParentIsLast` | internal/etcdstore/refresh_tokens.go:343-402 | an active token is the last of its family's chain |
| `RefreshTokenProofs.RotateUnbarred` | internal/etcdstore/refresh_tokens.go:372-402 | a rotation that passes the barrier check on a live parent is of a family never barred |
| `RefreshTokenProofs.LoginKeeps` | internal/auth/service.go:126-173 | a login starts a new one-token chain and disturbs no other |
| `RefreshTokenProofs.BarKeeps` | internal/etcdstore/refresh_tokens.go:230-240 | a barrier put keeps the invariant and outlives every token of its family when timely |
| `RefreshTokenProofs.RangeCovers` | internal/etcdstore/refresh_tokens.go:244-275 | the family index read by a sweep covers every active token of the family |
| `RefreshTokenProofs.CleanupCovers` | internal/etcdstore/refresh_tokens.go:406-454 | when cleanup finds a barrier expired, its expired-token list already covers every active token of that family |
| `RefreshTokenProofs.CallStays` | internal/auth/service.go:179-264 | what a call in flight relies on survives every step other calls take |
| `RefreshTokenProofs.MoveKeeps` | internal/etcdstore/refresh_tokens.go:120-454 | every step of every call keeps the store invariant and its own |
| `NodeRow.NodeKey.Attempt` | internal/etcdstore/node_row.go:29-50 | one read-mutate-commit under any foreign writes: commits mutate of the row current at the commit, or writes nothing; a lost race had a foreign write in between; an error leaves it done once or not at all |
| `NodeRow.NodeKey.CasNodeUpdate` | internal/etcdstore/node_row.go:28-52 | the attempt that ended the call, every earlier one lost to a foreign write and wrote nothing; giving up means five such losses |
| `NodeRow.NodeKey.Interfere` | internal/etcdstore/nodes.go:312-328 | foreign commits move the row's revision away from any revision read before, unless there were none |
| `NodeRowRuns.RowIsFoldOfCommits` | internal/etcdstore/node_row.go:28-52 | with any number of callers and other writers the row is always the fold of all commits in commit order |
| `NodeRowRuns.SuccessIsAtomic` | internal/etcdstore/node_row.go:36-48 | a successful call committed exactly once, replacing the live row then current by its mutate of that row |
| `NodeRowRuns.GivingUpMeansFiveForeignCommits` | internal/etcdstore/node_row.go:29-51 | a call that gives up wrote nothing, and others committed at least five times since it began |
| `NodeRowRuns.NoFieldIsLost` | internal/etcdstore/node_row.go:17-52 | a field the mutate leaves alone keeps the value it had just before the commit |
| `BlobServe.PortAllocator.Reserve` | internal/agent/migration/ports.go:39-49 | reserves the lowest free port of the range, or fails exactly when none is free |
| `BlobServe.ServeTokenStore.Verify` | internal/agent/blobserve.go:318-326 | accepts a token exactly for the digest it was primed with |
| `BlobServe.BlobServeManager.Serve` | internal/agent/blobserve.go:109-188 | a call succeeds exactly when open, unraced, bound and with a free port; a failed one gives back all it took, also when it loses the race against Close |
| `BlobServe.BlobServeManager.OnTimer` | internal/agent/blobserve.go:155-161 | a fired callback claims whatever holds the port and tears down the serve it captured, or does nothing |
| `BlobServe.BlobServeManager.TakeServeByToken` | internal/agent/blobserve.go:232-244 | claims an entry with that token, removing exactly it, or finds none |
| `BlobServe.BlobServeManager.StopByToken` | internal/agent/blobserve.go:217-258 | stops exactly a serve carrying the token: timer, listener, port, token and entry; changes nothing when there is none |
| `BlobServe.BlobServeManager.Close` | internal/agent/blobserve.go:266-288 | tears down every registered serve, giving back exactly their ports, tokens, listeners and timers; a second Close changes nothing |
| `BlobServeRuns.StepKeeps` | internal/agent/blobserve.go:109-288 | every mutex-level step whose timer claims only its own serve keeps ports, tokens, entries and serve phases consistent |
| `BlobServeRuns.ForeignClaimBreaks` | internal/agent/blobserve.go:155-161 | a timer callback that claims another serve's entry always breaks that consistency |
| `BlobServeTheorems.AccountingIsExact` | internal/agent/blobserve.go:109-288 | over any run the accounting holds throughout if and only if every timer claim finds its own serve or nothing |
| `BlobServeTheorems.PortsAreConserved` | internal/agent/blobserve.go:109-258 | reserved ports are the disjoint union of those of in-flight, registered and claimed-but-unreleased serves, and no serve is released twice |
| `BlobServeTheorems.VerifyIsExact` | internal/agent/blobserve.go:301-326 | at all times a token verifies for a digest exactly when a primed, not yet torn down serve carries both |
| `BlobServeTheorems.QuiescentIsClean` | internal/agent/blobserve.go:260-288 | once closed with every call returned and every claim torn down, no port is reserved, no token verifies, and every serve ever registered was released exactly once |
| `BlobServeTheorems.CloseIsFinal` | internal/agent/blobserve.go:163-288 | from then on this stays so in every continuation, new Serve calls included |
| `BlobServeTheorems.LateCallbackOrphans` | internal/agent/blobserve.go:155-161 | a concrete run in which a late callback orphans another serve, at any port |
| `ClusterJoin.Disk.EnsureClusterCAForJoin` | cmd/api/main.go:119-206 | the boot code, crashing after any file operation, does to the disk and returns exactly what the boot function says |
| `ClusterJoin.DiskIsNeverMisleading` | cmd/api/main.go:119-262 | over any sequence of boots, each with its own configuration, and crashes, a sidecar exists only with a complete CA pair and holds the initial-cluster of the redeeming boot's join, and the token file goes only after the pair is persisted |
| `ClusterJoin.NeverRedeemsAgain` | cmd/api/main.go:119-160 | once the CA pair or the member dir is on disk no later boot, however configured, contacts the network |
| `ClusterJoin.ResumesWithRedeemedCluster` | cmd/api/main.go:227-262 | over any life, a boot with the CA but no member dir starts from exactly the redeeming join's initial-cluster if and only if the sidecar was written and that string has white space at neither end; its outcome otherwise is given too |
| `ClusterJoin.FirstStartIsFromRedeemedJoin` | cmd/api/main.go:119-206 | in any life etcd has started exactly when its member dir exists, and it first started from the initial-cluster of the join that redeemed the token, trimmed if the boot was a resumed one |
| `ClusterJoin.CrashBeforeSidecarIsRefused` | cmd/api/main.go:131-140 | a life in which the redeeming boot crashes between key and sidecar, after which every boot refuses |
| `ClusterJoin.SpacedNameIsTrimmed` | cmd/api/main.go:227-233 | a life in which a name with a leading space is resumed with a different, trimmed string |
| `ClusterJoin.PlainJoinSurvivesSidecar` | cmd/api/main.go:227-294 | the initial-cluster of any join whose names and canonical peer URLs are free of white space has white space at neither end |
| `Text.TrimIsIdleIff` | cmd/api/main.go:227-233 | trimming leaves a string alone exactly when neither end is white space |
| `InitialCluster.BuildInitialCluster` | cmd/api/main.go:269-294 | the map-and-order loop renders one name=url per canonical peer URL, first-seen order, last name wins, self added last |
| `InitialCluster.ListsEachPeerOnce` | cmd/api/main.go:269-294 | every canonical URL is listed exactly once, in order of first appearance, and no other is |
| `InitialCluster.SelfIsListedOnce` | cmd/api/main.go:264-294 | however the membership echoes this node, not at all, nameless, under another name or several times, exactly one entry has its peer URL, under its configured name |
| `InitialCluster.NoOtherEntryHasSelfName` | cmd/api/main.go:208-221 | when the collision check passes, no other entry carries this node's name |
| `InitialCluster.NameCollision` | cmd/api/main.go:213-221 | reports a collision exactly when a member has this name at another canonical peer URL |
| `InitialCluster.SlashedEchoIsSelf` | cmd/api/main.go:276-311 | a membership that echoes this node with a trailing slash still yields exactly one entry for both spellings |
| `InitialCluster.RenderSplitsBack` | cmd/api/main.go:287-294 | the rendered string splits at commas back into exactly its entries |
| `CaBootstrap.CaDisk.LoadOrGenerate` | internal/auth/ca_disk.go:38-136 | every return and crash case by the same load and write effects the replicas' machine takes; a boot that returns a CA leaves exactly that pair on disk, a pair is never replaced, half a pair never completed, a mismatched pair never loaded |
| `CaBootstrap.CaStore.CreateCACert` | internal/etcdstore/ca_certs.go:98-128 | inserts the active row exactly when there is none |
| `CaBootstrap.CaStore.BootstrapClusterCA` | internal/api/ca_bootstrap.go:48-103 | which outcome each combination of racing sibling, lookup error, ambiguous insert error and refetch error gives; success and divergence report what the one active row says at the end, and a row is never replaced |
| `CaBootstrap.StepKeeps` | internal/api/ca_bootstrap.go:48-103 | every step of every replica, joining or not, keeps the invariant; the active row and a complete pair never change, nor half a pair outside join mode |
| `CaBootstrap.ReplicasAgree` | internal/api/ca_bootstrap.go:48-103 | any two replicas that complete their bootstrap, at any times of any interleaving, hold the same CA, the active row's |
| `CaBootstrap.NodeKeepsItsCa` | internal/auth/ca_disk.go:38-73 | across restarts a node, joining or not, holds the CA it first held or none; it never obtains a second |
| `CaBootstrap.HalfAPairRecoversIff` | internal/auth/ca_disk.go:55-59 | a node that crashed between the two writes can ever hold a CA again if and only if it is in join mode |
| `CaBootstrap.HalfAPairHappens` | internal/auth/cp_cert.go:331-345 | from empty disks any replica, joining or not, may die between the two writes |
| `CaBootstrap.JoinerCompletes` | cmd/api/main.go:131-178 | a joining node overwrites its half pair with whatever CA it fetches next |
| `ImageCache.ImageStore.Sweep` | internal/agent/imagecachesweeper.go:70-112 | a pass removes exactly the deletable blobs of the shortest coldest-first run reaching the target; reaching it brings the listed total within the ceiling and frees enough for the floor; every early exit is characterised |
| `ImageCache.ImageStore.Evict` | internal/agent/imagecachesweeper.go:85-105 | the eviction loop: what is removed, what is counted, where it stops, and cancellation |
| `ImageCache.ImageStore.Delete` | internal/agent/artifactstore/store.go:220-231 | fails exactly when a file is there and cannot be removed, absent files being no error; the blob goes before the sidecar |
| `ImageCache.BytesToReclaim` | internal/agent/imagecachesweeper.go:118-144 | the least amount that satisfies both limits, the floor skipped when the probe fails |
| `ImageCache.ColdestFirst` | internal/agent/imagecachesweeper.go:157-172 | a permutation of the entries that stat, sorted by modification time |
| `ImageCache.PassConserves` | internal/agent/imagecachesweeper.go:85-105 | bytes before equal bytes after plus those counted plus those removed by a deletion that failed on the sidecar |
| `ImageCache.PassConservesIff` | internal/agent/imagecachesweeper.go:85-105 | bytes before equal bytes after plus those counted if and only if no visited victim of positive size failed on its sidecar |
| `ImageCache.StuckSidecarLosesBytes` | internal/agent/artifactstore/store.go:224-229 | one blob whose sidecar sticks is gone and not counted |
| `ImageCache.EvictionIsLru` | internal/agent/imagecachesweeper.go:85-172 | a candidate colder than an evicted one stays only if it was locked or its blob could not be removed |
| `ImageCache.OvershootIsLessThanLast` | internal/agent/imagecachesweeper.go:85-105 | a pass that reaches its target overshoots by less than the last blob it deleted |
| `ImageCache.MissMeansNothingLeft` | internal/agent/imagecachesweeper.go:106-111 | a pass misses its target only if every candidate was removed, locked or failed |
| `Base64.DecodeEncode` | internal/auth/sessioncred.go:190-193 | decoding undoes encoding for every byte string in both alphabets, and encodings contain no separator of the formats built on them |
| `Base64.CanonicalIff` | internal/auth/sessioncred.go:146-166 | a decodable string is the encoding of what it decodes to exactly when it has no line breaks and zero leftover bits |
| `SessionCred.SignThenVerify` | internal/auth/sessioncred.go:96-179 | verifying a signed credential returns the stamped claims exactly while now is before expiry, and reports expiry from then on |
| `SessionCred.StampIsZeroIff` | internal/auth/sessioncred.go:100-103 | the stamped expiry is the zero time exactly when unset at one instant |
| `SessionCred.VerifiedWasMinted` | internal/auth/sessioncred.go:133-179 | under ideal signatures every token that verifies, however made, carries minted, unexpired claims; one reported expired was minted too |
| `Text.SplitJoin` | internal/auth/sessioncred.go:141-144 | splitting undoes joining for parts free of the separator |
| `Text.JoinSplit` | internal/auth/password.go:75-78 | the pieces of any split are free of the separator and join back to the string |
| `Text.NumberOfDecimal` | internal/auth/password.go:61-66 | the printed decimal of a number reads back as that number |
| `Password.SplitsInSix` | internal/auth/password.go:61-78 | the printed hash splits into exactly the six fields it was made of |
| `Password.CostsReadBack` | internal/auth/password.go:88-92 | the cost field scans back to the same memory, time and threads exactly when they fit 32, 32 and 8 bits; others are refused, never truncated |
| `Password.VersionReadsBack` | internal/auth/password.go:80-86 | exactly version 19 is accepted |
| `Password.ParseShow` | internal/auth/password.go:48-110 | parsing undoes printing for every salt, exactly when the costs fit and the digest has at most 1024 bytes |
| `Password.HashThenVerify` | internal/auth/password.go:48-112 | a hash made under any cost accepts its password whatever cost is active later, and another exactly when argon2 maps both to one digest; it is never malformed |
| `Sans.EqualIsSameKey` | internal/auth/cp_cert.go:225-237 | address equality, with IPv4 in IPv6 form, is equality of shortest forms |
| `Sans.MergeUniqueSANs` | internal/auth/cp_cert.go:214-240 | the merge keeps the first occurrence of each folded name and each non-nil address, in order |
| `Sans.MergeIsIdempotent` | internal/auth/cp_cert.go:214-240 | merging a merged list changes nothing |
| `Sans.MergeInStages` | internal/auth/cp_cert.go:214-240 | merging in two stages equals merging at once |
| `Dedup.FirstsDistinct` | internal/auth/cp_cert.go:214-240 | no two kept elements share a key |
| `Dedup.FirstsKeys` | internal/auth/cp_cert.go:214-240 | every key of the input is kept, and no other |
| `Dedup.FirstAtIsExact` | internal/auth/cp_cert.go:214-240 | the kept positions are exactly the first ones of their keys |
| `Dedup.FirstsPositions` | internal/auth/cp_cert.go:214-240 | the kept elements are those at the kept positions, in the original order |
| `Sans.ClassifySANs` | internal/auth/cp_cert.go:192-204 | the loop sorts each non-empty entry into names or addresses, in order |
| `Sans.ClassificationIsExact` | internal/auth/cp_cert.go:192-204 | an entry is a name exactly when non-empty and no address, an address is listed exactly when some entry parses to it |
| `Sans.AppendUniqueDns` | internal/auth/csr.go:337-344 | appends exactly when no case-insensitive match is listed |
| `Sans.AppendUniqueIp` | internal/auth/csr.go:347-354 | appends exactly when no equal address is listed |
| `Sans.LeafSans` | internal/auth/csr.go:279-302 | the leaf carries the fixed names, then each endpoint host once in order, names and addresses apart |
| `Sans.LeafDnsIsExact` | internal/auth/csr.go:279-302 | the leaf's names are distinct, begin with the fixed ones, and cover exactly those and the endpoint hosts that are names |
| `CertCache.CertCacheValid` | internal/auth/cp_cert.go:261-312 | accepts exactly when the leaf has thirty days left, covers the expected names and addresses, and chains; each rejection names a true reason |
| `CertCache.MergedLeafIsReusedIff` | internal/auth/cp_cert.go:80-312 | a leaf signed for a merged set is accepted exactly under the same valid CA, for expected sets it was merged from, and from its start to thirty days before its end |
| `CertCache.FreshLeafIsReused` | internal/auth/cp_cert.go:64-312 | a replica reuses the leaf it has just signed for what it merged |
| `Csr.ScannerReadsCA` | internal/auth/csr.go:151-158 | on every BasicConstraints value the scanner reports cA when the length is in short form, with or without a path length, and its exact answer in long form |
| `Csr.ScannerReadsKeyUsage` | internal/auth/csr.go:170-205 | on every short-form KeyUsage value the scanner reports exactly keyCertSign or cRLSign |
| `Csr.ScannerReadsWrappedKeyUsage` | internal/auth/csr.go:175-184 | the same through an octet-string wrapper |
| `Csr.ScannerOnLongKeyUsage` | internal/auth/csr.go:185-205 | in long form the scanner's answer is that of octet 3 |
| `Csr.LongCAIsMissed` | internal/auth/csr.go:151-158 | a long-form BasicConstraints value with cA set that the scanner does not report |
| `Csr.LongKeyUsageIsMisreadIff` | internal/auth/csr.go:185-205 | of a family of long-form KeyUsage values, the scanner misreads exactly those whose unused-bit count and flags disagree on bits 5 and 6 |
| `Csr.LongKeyUsageIsMisread` | internal/auth/csr.go:185-205 | one of them with keyCertSign set is missed, and one with neither bit is reported |
| `Csr.ValidateExtensions` | internal/auth/csr.go:131-145 | finds the first forbidden extension, or none exactly when there is none |
| `Listeners.SendsNeverBlock` | internal/agent/gateway.go:134-147 | in every interleaving a listener about to send finds room in the channel |
| `Listeners.ReturnIsComplete` | internal/agent/gateway.go:153-181 | the main routine returns only after one outcome per launched listener with all listeners gone; a gateway returns the first error received |
| `Listeners.AgentResult` | internal/agent/server.go:277-314 | an agent's result is the first outcome it received or, after a signal, the control server's shutdown error |
| `Listeners.StepKeeps` | internal/agent/server.go:552-568 | received plus still-to-drain outcomes make up the launched listeners, and every exit is one outcome, at every step |
| `Listeners.NeverStuck` | internal/agent/gateway.go:153-181 | after a signal or an outcome some step of the program is always possible until it has returned |
| `Listeners.RunsAreShort` | internal/agent/gateway.go:134-181 | every run ends within three steps a listener and four more |
| `Listeners.GatewayDrain` | internal/agent/gateway.go:153-176 | the select and drain loop receive exactly two outcomes and keep the first error |
| `Supervision.RunSupervised` | internal/agent/server.go:776-807 | one wait per failure, none after a clean end, each the doubled minimum up to the cap, shutdown ending the wait it falls in |
| `Supervision.WaitsAreCappedIff` | internal/agent/server.go:755-807 | waits never exceed the cap if and only if the minimum does not |
| `Supervision.WaitsNeverShrinkIff` | internal/agent/server.go:755-807 | waits never shrink if and only if the minimum is not negative or not below the cap |
| `Supervision.CapIsReachedIff` | internal/agent/server.go:755-807 | the cap is reached if and only if the minimum equals it or is positive and below it |
| `Supervision.UnboundedWaits` | internal/agent/server.go:799-804 | a minimum above the cap is waited in full, and a negative one shrinks |
| `Migrations.MockState.Take` | internal/agentmock/migrations.go:68-97 | takes the oldest queued outcome with its defaults filled in, or a default success, touching no other queue |
| `Migrations.MockState.StartOutgoing` | internal/agentmock/migrations.go:188-263 | creates a record and a task with one creation time, delay and end |
| `Migrations.MockState.Cancel` | internal/agentmock/migrations.go:295-316 | from then on the migration reads cancelled without progress at every instant, while its task and every other migration read as before |
| `Migrations.ViewsMoveTogether` | internal/agentmock/migrations.go:325-406 | until a cancel the migration and its task change phase at the same instants |
| `Migrations.ProgressIsHundredIffCompleted` | internal/agentmock/migrations.go:345-381 | progress is within 0 and 100, and is 100 exactly when settled as completed |
| `Migrations.ProgressIsMonotoneIff` | internal/agentmock/migrations.go:345-381 | progress goes back between two instants if and only if the record settled as failed by the later and a hundredth of the active half had passed at the earlier |
| `Migrations.FailureDropsProgress` | internal/agentmock/migrations.go:367-375 | a failed migration's progress drops from 80 to 0 |

## Left out

- RefreshTokenTheorems.BurnIsFinal: assumes barriers land in time, because the code does not otherwise promise it; `BurnIsExact` shows the bound is exact. One clock is shared by all processes.
- RefreshTokenLogoutAll.LogoutAllKillsActiveTokens: says nothing of a child rotated in during the call; `LogoutAllKillsFamilies` does, under the condition `LogoutAllIsExact` shows to be exact.
- NodeRow.NodeKey.CasNodeUpdate: a row is its soft-delete mark and a map of fields; decoding errors are the transaction-error outcome.
- ImageCache.BytesToReclaim: sums are unbounded integers; 64-bit overflow of a partition's total is not modelled.
- Migrations.ProgressIsMonotoneIff: the multiplication by 100 is unbounded; delays of years, where it would overflow, are not modelled.
- Refresh tokens: access-token signing, API tokens, rate limits, user agents and addresses; a token's revocation time is a flag.
- Refresh tokens: generated ids and hashes are taken to be fresh; concurrent writes to one transaction's rows follow etcd's serialisation.
- Blob serving: the TLS listener and the HTTP handler; live tokens are taken to be distinct.
- HA join: PEM contents, file modes and the wire protocol of the CA fetch; operator deletion of files.
- Cluster CA: rotation, deactivation and retirement of CA rows after bootstrap.
- Image cache: the ticker, the nudge channel and the orphaned-metadata sweep after a pass.
- ImageCache.ImageStore.Sweep: the listing is the store throughout the pass; blobs that others add or remove meanwhile are not modelled, except that one missing when it is stat'ed is no candidate.
- Session credentials: strings are taken to be valid UTF-8, and JSON to be a faithful codec of the claims it can print.
- Passwords: argon2id itself, and constant-time comparison.
- Certificates: the CSR's own parsing, signature and key-type checks, PEM, serial numbers, and auto-detection of host names.
- Listeners: the grace period and the bounded wait for background loops (`awaitDone`).
- Mock agent: incoming migrations, other task types and the HTTP layer.
- All other packages: HTTP handlers, reconcilers, networking, storage pools and the CLI, which hold little protocol state of their own.
