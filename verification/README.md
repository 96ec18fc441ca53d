# hansa in Dafny

A hansa is a small federation of agents that share their memories. Its members are recorded in a
signed, hash-chained log that several processes extend under an advisory lock and compact into
signed checkpoints. Each member publishes a saga, a k-means summary of its records. A query asks
the best-matching peers under a record budget, and the hits are assembled into a prompt.

This project models that core and proves what it promises, in four parts.

**The membership log.** `wire.dfy`, `records.dfy` and `codec.dfy` hold the bytes that are signed
and a decoder for them. `members.dfy` and `chain.dfy` hold the verified replay. `history.dfy` says
what a log means: it measures a log against every link its skipper has ever signed, checkpoints
included. `registry.dfy` and `hansa.dfy` hold the file registry, the head cache and the member
handle as classes whose methods change state, on any log content whatever. `protocol.dfy` is the
state machine in which any number of processes take the lock, read, append, rename, unlock, replay
without the lock, open handles through a head cache, die at any point, or put any content in the
place of the log. `guarantees.dfy` and `ledger.dfy` state what holds over every run, `opens.dfy`
what the head cache remembers when opens overlap and when they do not, and `tampering.dfy` what
readers can still rely on when the file has been rewritten. `attacks.dfy` has runs in which they
cannot, and shows that the assumptions made can be met.

**Saga construction.** `reservoir.dfy` proves the sampler uniform by counting over all sequences of
draws. `kmeans.dfy`, `seeding.dfy` and `lloyd.dfy` prove nearest assignment, k-means++ seeding and
the descent of Lloyd iteration.

**The membrane query.** `allocation.dfy` is the budget allocation, `ranking.dfy` the stable sort
with the position it gives every element, `fanout.dfy` the whole query for any order of arrival
and any deadline cut.

**Context assembly.** `sentences.dfy` splits and deduplicates sentences, `context.dfy` filters hits,
`assembly.dfy` ranks, cuts and builds, `coverage.dfy` says which sentences survive, and `toon.dfy`
prints a bundle and reads it back.

`basics.dfy` has shared definitions and facts about sequences and sums.

To verify everything: `dafny verify dfyconfig.toml`.

## How to read the model

- Methods stand where the source works by changing things step by step. Each is proved equal to a
  specification function, and the theorems are about that function.
- `Chain.Crypto` carries hashing, signing and signature checking as parameters. Nothing is assumed
  about them in general. Theorems name what they need: `RunVerifies` (the signatures made in the
  run verify), `Unforgeable` (nothing else verifies under the skipper's key than what it signed),
  `PinsKey` (no other key has the same id), `Fair` (the copies of the log that the skipper signs
  on hold only signatures of its own already made, and the hash does not confuse their links with
  its own); `Tampering.Assumed` is all four with lengths that fit. `Attacks.AssumptionsMet` and
  `Attacks.HarmMet` show that they can hold together, with and without harm. The hash is not
  assumed injective: statements about it hold or exhibit a collision.
- One append and one rename of the log file, and one read, one write of the temporary file and one
  rename of the head cache, are atomic steps. Between them other processes may act.
- Random draws, clock readings, saga scores, arrival orders, white-space and token rules and the
  printed form of a similarity are parameters; every theorem is for all of them.
- Similarities, distances and scores are exact reals.

## Where the code and its documentation differ

The model follows the code.

- `token_budget` says that the loop stops at the first item that overflows
  (crates/hansa/src/context.rs:239-241). It goes on (405-416). `Assembly.StopsAtFirstOverflow` says
  exactly when the two agree, `Assembly.LoopGoesOn` is the smallest case where they do not.
- The membrane's overview says local hits are always included
  (crates/hansa/src/membrane/mod.rs:18). The merged list is truncated
  (crates/hansa/src/membrane/query.rs:321-324). `FanOut.LocalAlwaysKeptIff` says when the promise
  holds whatever honest peers answer, which a caller can check beforehand; `FanOut.BestHitsReturned`
  says which hits are returned, and `FanOut.LocalHitCrowdedOut` is a local hit that is not.
- `sentence_dedup` promises that every unique sentence still appears
  (crates/hansa/src/context.rs:268-270). A hit dropped later by semantic deduplication leaves its
  new sentences marked as seen, and so does an item that the budget cuts. `Coverage.LosslessIff`
  says exactly when every sentence is in the bundle, `Coverage.SentenceLost` and
  `Coverage.BudgetLosesSentence` are sentences that are not.
- One who can write the log is said to be unable to forge or evict membership
  (crates/hansa/src/registry.rs:5-8, crates/hansa/src/chain.rs:14-16). Appending and compacting
  replay without the pinned id (crates/hansa/src/registry.rs:147, 226) and ask no head cache, so
  the skipper can be brought to sign on a log that is not its own or that has been cut back.
  `Tampering.IntegrityIff` says exactly when the promise holds: each time it signs, the skipper's
  copy replays for the pinned id to its last signed head, or the link only repeats an earlier one,
  or it is an event on a log of another hansa. `Attacks.ForeignCheckpointed` and
  `Attacks.RollbackExtended` are runs in which it does not.
- The head cache is said to catch a truncated chain that drops a later revoke
  (crates/hansa/src/head_cache.rs:3-8). `Tampering.RollbackRefused` is that promise under the same
  condition, and in `Attacks.RollbackExtended` the skipper has signed on the truncated chain.
- The same passage has a member remember its last verified head. Loading, comparing and storing are
  separate file operations without a lock (crates/hansa/src/head_cache.rs:77-84), and all stores of
  a directory share one temporary file (68-70), so the remembered height can fall.
  `Opens.StoreLowersIff` says exactly when, `Opens.OverlappingStoresLower` is a run after which a
  log cut back to its genesis is let through, and `Opens.CachesNeverRegress` the discipline that
  prevents it.
- A test calls the signed bytes unambiguous (crates/hansa/src/sign.rs:374). Length prefixes are
  cast to 32 bits (253-257). Lengths below 2^32 suffice: `Codec.DecodeCanonical`. One collision
  beyond that bound is `Codec.OversizedMembersCollide`.
- An open may be refused as a rollback without any rollback, if another open of the same cache
  directory overlaps it (crates/hansa/src/hansa.rs:238-247). `Opens.RefusedIffOutrun` gives the exact
  condition, `Opens.OverlappingOpensAlarm` a run, `Opens.AtomicOpensNeverAlarm` the discipline that
  prevents it.
- k-means++ can pick a point that is already a centroid although others remain, when a draw is
  exactly zero (crates/hansa/src/saga/build.rs:208-217). `Seeding.NextSeedIsNew` is the exact
  condition, `Seeding.ZeroDrawRepeats` the smallest case.
- The example for the table form shows its texts in quotes (crates/hansa/src/context.rs:589-597).
  `csv_field` quotes only texts that need it (708-717), as the rule below the example says.
  `Toon.DocumentedShape` is the example as it is printed.

## Model

| member | source | states |
|---|---|---|
| Codec.DecodeCanonical | crates/hansa/src/chain.rs:153-159 | A decoder recovers every link from its canonical bytes: all four bodies, all locations, any number of checkpoint members, lengths below 2^32 |
| Codec.CanonicalInjective | crates/hansa/src/chain.rs:67-105 | Equal canonical bytes mean equal links but for the signature |
| Codec.ReadMemberOf | crates/hansa/src/member.rs:28-52 | A member record is read back from its canonical bytes followed by anything |
| Codec.ReadGenesisOf | crates/hansa/src/genesis.rs:67-76 | A genesis is read back from its canonical bytes followed by anything |
| Codec.GenesisInjective | crates/hansa/src/genesis.rs:67-76 | Equal genesis bytes mean equal geneses |
| Codec.FramedInjective | crates/hansa/src/sign.rs:202-207 | Under one domain tag equal framed messages mean equal messages |
| Codec.DomainsDisjoint | crates/hansa/src/sign.rs:26-30 | No genesis-framed message equals a link-framed one, although the tags have different lengths |
| Codec.OversizedMembersCollide | crates/hansa/src/sign.rs:253-257 | Two different members with the same bytes, one of whose strings is 2^32 bytes long: a collision beyond the bound that suffices |
| Wire.LeRoundTrip | crates/hansa/src/sign.rs:232-245 | Little-endian integers read back |
| Members.SortedContents | crates/hansa/src/chain.rs:256-257 | The sorted list holds exactly the values of the active map, each once |
| Members.SortedIsSorted | crates/hansa/src/chain.rs:256-257 | The list is strictly ascending by tenant id |
| Members.LessIs | crates/hansa/src/chain.rs:256-257 | The order is by the first byte that differs, a prefix first |
| Members.MapOfSorted | crates/hansa/src/chain.rs:218-221 | Rebuilding the map from a checkpoint's member list gives back the map it was taken from |
| Chain.ReplayRoot | crates/hansa/src/chain.rs:189-228 | The checks on the first link, with each error, and the members a checkpoint carries |
| Chain.Replay | crates/hansa/src/chain.rs:188-265 | The loop returns the sorted outcome of the specified fold, or the error of the first bad link |
| Chain.ReplayAccepts | crates/hansa/src/chain.rs:227-254 | A list is accepted exactly when its root is good (a version 2 genesis numbered 0 with the zero hash, or a checkpoint, signed by the key the expected id is the hash of) and every later link continues the one before under the root's key; the head is then the last link's, the dimension the root's and the members the fold of the events |
| Chain.BadRoot | crates/hansa/src/chain.rs:189-228 | What a list with a bad root is refused for, error by error in the source's order, the genesis version among them |
| Chain.FirstBadLink | crates/hansa/src/chain.rs:230-254 | The first link that does not continue the one before it decides the error: unauthorized if only the signer is another, otherwise a break at its number |
| Chain.PrefixFails | crates/hansa/src/chain.rs:230-244 | What breaks a prefix breaks the whole list with the same error |
| History.StretchReplays | crates/hansa/src/chain.rs:188-265 | From the genesis or from any checkpoint, a stretch of the written history replays to the members, skipper and dimension of the whole history before it |
| History.ActiveIffLastAdmit | crates/hansa/src/chain.rs:241-251 | A tenant is active exactly when the last event about it is an admit, and then with that record |
| History.UncompactedReplays | crates/hansa/src/registry.rs:223-237 | The log the same events leave without any compaction replays to the fold of those events |
| History.CompactionPreservesMeaning | crates/hansa/src/registry.rs:142-159 | A log and its never-compacted twin replay to the same skipper, dimension and members |
| History.VerifiedIsRecorded | crates/hansa/src/chain.rs:237-239 | Any link that verifies under the skipper's key restates the link the skipper wrote at that sequence number |
| History.AcceptedExplained | crates/hansa/src/chain.rs:188-265 | If everything the skipper signed is in line with a history or continues nothing it signed, every accepted list made of its signatures restates a stretch of that history |
| History.IntegrityOfHistory | crates/hansa/src/chain.rs:188-265 | Any list whatever that replay accepts for the pinned id restates a stretch of the skipper's own history from the genesis or a checkpoint, and returns the members that history had there |
| History.HeadHashCommits | crates/hansa/src/chain.rs:153-164 | Two accepted lists with one head hash agree link by link on all but signatures, or two of their links collide under the hash |
| History.SameHashSameHistory | crates/hansa/src/chain.rs:227-254 | Without a collision they have equal length and equal members, and a genesis-rooted list never shares a head with a checkpoint-rooted one |
| History.SameStatementsSameHead | crates/hansa/src/chain.rs:153-164 | The replayed outcome does not depend on the signatures |
| Registry.FileRegistry.Found | crates/hansa/src/registry.rs:207-221 | Writes one signed genesis into an empty log and changes nothing otherwise; a log no one has touched stays a stretch of its history |
| Registry.FileRegistry.CheckpointLocked | crates/hansa/src/registry.rs:142-159 | On any log: two or more links that replay become one checkpoint, what does not replay is an error and stays; on a log no one has touched no member is gained or lost |
| Registry.FileRegistry.AppendNext | crates/hansa/src/registry.rs:223-237 | On any log: extends whatever head it replays to, or returns the replay error and changes nothing; on a log no one has touched the members change by exactly the event and at most 256 links remain |
| Registry.FileRegistry.Compact | crates/hansa/src/registry.rs:239-241 | On any log the effect of a checkpoint; success leaves at most one link |
| Registry.FileRegistry.Members | crates/hansa/src/registry.rs:62-68 | On any log the replayed members sorted by tenant id or the replay error, none before the founding; on a log no one has touched the members of its history |
| Registry.AppendKeepsLog | crates/hansa/src/registry.rs:223-230 | An appended event leaves a log that is a stretch of a well-formed history |
| Registry.CheckpointKeepsLog | crates/hansa/src/registry.rs:147-158 | So does a checkpoint of the replayed members |
| Registry.AppendMeans | crates/hansa/src/registry.rs:223-237 | The effect of an append on a log no one has touched: the event and nothing else, at most 256 links |
| Registry.CheckpointMeans | crates/hansa/src/registry.rs:142-159 | The effect of a checkpoint on a log no one has touched: the same members, one link |
| Registry.FoundSigns | crates/hansa/src/registry.rs:207-221 | On any log: an empty one gets a genesis of version 2, number 0, under the id and key of the skipper, with its signature over the framed genesis; any other stays |
| Registry.CheckpointSigns | crates/hansa/src/registry.rs:142-159 | On any log: two or more links that replay give way to one snapshot of the replayed members and the root's dimension, signed after the last link; otherwise nothing is written |
| Registry.AppendSigns | crates/hansa/src/registry.rs:223-237 | On any log that replays: the event is signed with the number and hash that come after the last link; up to 256 links it is added, beyond that all are collapsed; a log that does not replay is an error and stays |
| Registry.HeadCache.CheckAndRecord | crates/hansa/src/head_cache.rs:77-84 | One call with no other in between refuses exactly a lower head or another head at the same height; a refusal changes nothing and the remembered height does not fall |
| Handle.WrongIdRefused | crates/hansa/src/chain.rs:205-213 | A valid log offered under another id is refused with the id mismatch error |
| Handle.VerifiedHead | crates/hansa/src/hansa.rs:238 | Replaying a log under an id succeeds exactly when it is founded under that id, and then yields the head of the history |
| Handle.Open | crates/hansa/src/hansa.rs:197-247 | On any log content: every error of opening with its exact condition, among them another provided id than the skipper's own; what is founded; a success is under the id resolved, on a log rooted in it, and the cache then holds the number and hash of its last link, having remembered none later |
| Handle.Hansa.Admit | crates/hansa/src/hansa.rs:358-375 | On any log: fails without a key, on a log not rooted in the handle's own id, and on another dimension than the root's, with both dimensions in the error, and then changes nothing; a success has signed this admit after the last link of a log rooted in that id with the member's dimension. On a log no one has touched it adds exactly this member and all members keep the genesis dimension |
| Handle.Hansa.Revoke | crates/hansa/src/hansa.rs:391-402 | On any log the effect of the append; on a log no one has touched it removes exactly this tenant |
| Handle.Hansa.Compact | crates/hansa/src/hansa.rs:412-415 | Skipper only; on a log no one has touched the members stay |
| Protocol.DoKeeps | crates/hansa/src/registry.rs:112-124 | Every step of every process but tampering, including crashes and unlocked readers, keeps the protocol invariant |
| Protocol.Reachable | crates/hansa/src/registry.rs:207-241 | The invariant holds after every interleaving of those steps |
| Guarantees.EveryReaderVerifies | crates/hansa/src/registry.rs:187-205 | At any moment of any run a reader without the lock finds no log or one that replays to the members of the whole history |
| Guarantees.WritersNeverFork | crates/hansa/src/registry.rs:207-237 | Racing founders leave one genesis, sequence numbers are contiguous, every link has the hash of the one before, and the log is the end of that one chain |
| Guarantees.OnlyTheHolderWrites | crates/hansa/src/registry.rs:112-124 | In any run, tampered with or not, a step signs at most one link, only for the lock holder, and only what that process was asked to write; only such a step or tampering changes the log |
| Guarantees.AdmitGuarded | crates/hansa/src/hansa.rs:358-375 | Whatever the file holds, an admit goes on exactly when the log replays for the skipper's id and its root pins the member's dimension, and then only to the append of this member |
| Guarantees.OpenGuarded | crates/hansa/src/hansa.rs:238-247 | Whatever the file holds, an open goes on exactly when the log replays for the skipper's id, and has read the number and hash of its last link |
| Ledger.HistoryIsLedger | crates/hansa/src/registry.rs:223-228 | In every run the recorded admits and revokes are exactly the bodies the lock holders were asked to append, in the order they wrote them, and the members are their fold |
| Ledger.ReadersSeeLedger | crates/hansa/src/registry.rs:187-205 | In every untampered run the log replays to the fold of those bodies in lock order |
| Ledger.MembersStep | crates/hansa/src/registry.rs:142-159 | A step changes the recorded members by the body it appends, if any; a compaction and a threshold checkpoint leave them |
| Ledger.CallStory | crates/hansa/src/registry.rs:112-124 | Every lock holder was asked for its operation, took a free lock, has held it since, and nothing but its own append was recorded in that time |
| Ledger.NoLostUpdate | crates/hansa/src/registry.rs:223-237 | When an append reports success exactly its body was recorded, once, while its process held the lock and after it was asked for; other calls record nothing |
| Ledger.NothingForgotten | crates/hansa/src/registry.rs:127-138 | What has been recorded stays recorded, in its place |
| Ledger.RunsKeepMeaning | crates/hansa/src/registry.rs:142-159 | Over every untampered run the log replays to the same skipper, dimension and members as the never-compacted one |
| Guarantees.HistoryOnlyGrows | crates/hansa/src/registry.rs:127-138 | Nothing written is ever unwritten |
| Guarantees.LogStaysBounded | crates/hansa/src/registry.rs:228-234 | A completed append leaves at most 256 links; each crash costs at most one more until then |
| Guarantees.DimensionsAgree | crates/hansa/src/hansa.rs:358-375 | Although admit checks the dimension before it has the lock, every member in every run has the genesis dimension |
| Opens.RefusedIffOutrun | crates/hansa/src/hansa.rs:237-247 | In any run, opens overlapping or not, the check of an honest open refuses exactly when the cache it loads remembers a longer chain than the open read |
| Opens.AtomicOpensExclude | crates/hansa/src/head_cache.rs:61-84 | If opens of one cache directory do not overlap, then whatever happens to the log none finds its temporary file gone or another's, and none past its check falls behind the remembered head |
| Opens.CachesNeverRegress | crates/hansa/src/head_cache.rs:77-84 | If opens of one cache directory do not overlap, no run lowers the remembered height, whatever happens to the log |
| Opens.StoreLowersIff | crates/hansa/src/head_cache.rs:61-84 | In any run a store leaves the head of the last open to have written the shared temporary file, and lowers the remembered height exactly when another open was the last to store since that one's check, and stored a higher head |
| Opens.OverlappingStoresLower | crates/hansa/src/head_cache.rs:77-84 | A run of honest steps in which two opens overlap, the remembered height falls from 1 to 0, and a log cut back to its genesis is let through |
| Opens.AtomicOpensNeverAlarm | crates/hansa/src/hansa.rs:237-247 | If opens of one cache directory do not overlap, no run raises a false alarm, and no open is ever behind what its directory remembers |
| Opens.OverlappingOpensAlarm | crates/hansa/src/hansa.rs:237-247 | A run of honest steps with overlapping opens that raises one |
| Tampering.IntegrityIff | crates/hansa/src/chain.rs:14-16 | Whatever is put in the place of the log and whenever, every accepted list restates a stretch of the skipper's line of good links exactly when each signing was on a copy that replays for the pinned id to the last signed head, or repeated an earlier statement, or was an event on a foreign log |
| Tampering.FollowsItsCopy | crates/hansa/src/registry.rs:142-159 | In every run, tampered with or not, what a step signs follows the copy of the log its process has read: a genesis if that was empty, else an event or a snapshot of that copy, numbered and chained after its last link; it is added to the log, or as a snapshot takes its place |
| Tampering.HarmlessKeepsIntegrity | crates/hansa/src/registry.rs:5-8 | The direction that gives the promise |
| Tampering.HarmLasts | crates/hansa/src/registry.rs:147-158 | A link signed otherwise never comes in line with the history later |
| Tampering.LineWritten | crates/hansa/src/registry.rs:223-228 | In every run the good links form one well-formed history |
| Tampering.UntamperedHarmless | crates/hansa/src/registry.rs:223-237 | As long as nobody else touches the file, all that is signed is that one line |
| Tampering.RunIntegrity | crates/hansa/src/chain.rs:188-265 | So in untampered runs every accepted list restates a stretch of what has been signed |
| Tampering.CachesOnLine | crates/hansa/src/head_cache.rs:3-8 | After any run, tampered with or not, in which all signing was harmless, every head that opens read and left in cache directories is on the line of good links |
| Tampering.RefusedIffLower | crates/hansa/src/head_cache.rs:77-84 | In such a run a check refuses exactly when the head the open read is lower than the remembered one |
| Tampering.RollbackRefused | crates/hansa/src/head_cache.rs:3-8 | After such a run, of all lists replay accepts for the pinned id a cache directory refuses exactly those that end before the head it remembers, and one it lets through carries every event up to that head |
| Attacks.RollbackExtended | crates/hansa/src/registry.rs:226-228 | A run in which the log is cut back and the skipper signs on: the dropped revoke is gone, the log replays for the pinned id and the cache lets it through |
| Attacks.ForeignCheckpointed | crates/hansa/src/registry.rs:147-158 | A run in which the skipper compacts another key's log: its members come to be vouched for under the skipper's own id |
| Attacks.AssumptionsMet | crates/hansa/src/sign.rs:127-134 | Everything `Tampering.IntegrityIff` assumes holds together in a run that signs, harmlessly |
| Attacks.HarmMet | crates/hansa/src/registry.rs:147-158 | And in a run that compacts a foreign log, where the signing is harmful and integrity is lost |
| Reservoir.ReservoirSample | crates/hansa/src/saga/build.rs:76-93 | The sample is the whole source if it is small, else the source read at the slots the draws select |
| Reservoir.SlotsDistinct | crates/hansa/src/saga/build.rs:76-93 | Every slot holds a different source position |
| Reservoir.EachPositionEquallyLikely | crates/hansa/src/saga/build.rs:82-91 | Over all draw sequences each position is sampled in exactly target / n of them |
| Reservoir.EachSubsetEquallyLikely | crates/hansa/src/saga/build.rs:82-91 | Every set of target positions is the sample of exactly (n - target)! draw sequences |
| KMeans.SquaredDistance | crates/hansa/src/saga/build.rs:235-242 | The loop computes the squared distance |
| KMeans.DistSeparates | crates/hansa/src/saga/build.rs:235-242 | It is never negative and zero exactly between equal points |
| KMeans.NearestCentroid | crates/hansa/src/saga/build.rs:222-233 | The first centroid at the least distance; index 0 at infinity without centroids |
| KMeans.NearestIsBest | crates/hansa/src/saga/build.rs:125-130 | No assignment has a smaller inertia than the nearest one |
| KMeans.MeanIsLeast | crates/hansa/src/saga/build.rs:158-161 | The mean minimises a cluster's squared differences in each coordinate |
| KMeans.MovedToMeans | crates/hansa/src/saga/build.rs:153-162 | After the update each non-empty cluster's centroid is the mean of its points, and an empty one is unmoved |
| KMeans.MeansDescend | crates/hansa/src/saga/build.rs:143-162 | The update never raises the inertia |
| Lloyd.AssignStep | crates/hansa/src/saga/build.rs:125-130 | Every point is assigned to its nearest centroid and the inertia is the sum of their distances |
| Lloyd.SumClusters | crates/hansa/src/saga/build.rs:144-152 | The sums and counts of each cluster |
| Lloyd.UpdateStep | crates/hansa/src/saga/build.rs:143-162 | The in-place update of the centroids |
| Lloyd.ImprovedCostsNoMore | crates/hansa/src/saga/build.rs:123-163 | One update followed by reassignment never raises the inertia |
| Lloyd.InertiaNeverIncreases | crates/hansa/src/saga/build.rs:123-163 | Of the centroids after any two numbers of updates the later ones have no higher inertia |
| Lloyd.LoopEnds | crates/hansa/src/saga/build.rs:132-141 | The loop makes n updates: n is at most 20, and below 20 exactly when the last two inertias p and q, and no two consecutive ones before, have p positive and the change below a thousandth of p; it returns the n-th centroids |
| Lloyd.StopsOnce | crates/hansa/src/saga/build.rs:132-141 | Only one number of updates meets that description |
| Lloyd.NeverWorseThanSeeds | crates/hansa/src/saga/build.rs:119-163 | The returned centroids are at least as good as the seeds, under their own and under the returned assignment |
| Lloyd.ReportCoversSample | crates/hansa/src/saga/build.rs:165-178 | The reported cluster sizes sum to the sample size |
| Lloyd.Refine | crates/hansa/src/saga/build.rs:120-178 | The loop returns the centroids after that number of updates, each with the number of points whose first nearest centroid it is at the last assignment |
| Lloyd.KMeansLloyd | crates/hansa/src/saga/build.rs:109-179 | min(k, n) centroids: the seeds after that number of updates, with the numbers of points nearest to each, which sum to the sample |
| Seeding.Refresh | crates/hansa/src/saga/build.rs:193-199 | At every pick each stored distance is the least squared distance to all centroids so far |
| Seeding.Choose | crates/hansa/src/saga/build.rs:208-216 | The first point whose prefix sum reaches the threshold |
| Seeding.PlusPlus | crates/hansa/src/saga/build.rs:181-220 | Exactly max(k, 1) centroids: the first is the point drawn, and each later one is the point on whose stretch of the weights the draw falls, the weights being the least squared distances to the centroids before it; when they are all zero, the last centroid again |
| Seeding.PickedByWeight | crates/hansa/src/saga/build.rs:208-216 | A point is picked exactly when the threshold falls in a stretch as long as its weight |
| Seeding.NextSeedDrawn | crates/hansa/src/saga/build.rs:201-217 | The next seed is the point where the prefix sums of the weights first reach the draw's share of their total |
| Seeding.NextSeedIsNew | crates/hansa/src/saga/build.rs:201-217 | A pick is a new point exactly when one remains and the draw is positive or the first point is new |
| Seeding.ZeroDrawRepeats | crates/hansa/src/saga/build.rs:208-217 | A zero draw that repeats a centroid although another point remains |
| Seeding.SeedsSpread | crates/hansa/src/saga/build.rs:181-220 | Every seed is a sample point; with positive draws seeds repeat only when every sample point is a seed |
| Allocation.SharesNearlyFill | crates/hansa/src/membrane/allocation.rs:53-60 | The floored shares fall short of the total by less than one record a peer |
| Allocation.WantedIs | crates/hansa/src/membrane/allocation.rs:47-62 | What a peer starts from is its rounded share under those weights, or the floor if that is more |
| Allocation.LastAbove | crates/hansa/src/membrane/allocation.rs:67 | The last slot above the floor |
| Allocation.Trim | crates/hansa/src/membrane/allocation.rs:64-76 | The loop ends; it takes from the back only, no more than needed, and drops peers only when all are at the floor |
| Allocation.TrimmedUnique | crates/hansa/src/membrane/allocation.rs:64-76 | That description has one solution |
| Allocation.Fill | crates/hansa/src/membrane/allocation.rs:78-85 | The remainder is dealt round-robin from the front |
| Allocation.DealtSum | crates/hansa/src/membrane/allocation.rs:78-85 | Dealing adds exactly the remainder |
| Allocation.ProportionalAllocation | crates/hansa/src/membrane/allocation.rs:29-94 | The number of peers served, the first ones in order, each with at least the floor, the budgets together exactly the total; as trimming and dealing the floored shares gives; nothing for an empty input, a zero total or a zero cap |
| Allocation.AllocatedUnique | crates/hansa/src/membrane/allocation.rs:29-94 | Scores, total and floor determine the budgets |
| Allocation.AllocationExact | crates/hansa/src/membrane/allocation.rs:62-85 | The survivors number n if min is 0, else min(n, total / min); if there are any, the budgets sum to exactly the total and none is below the floor |
| Allocation.AllocationOrdered | crates/hansa/src/membrane/allocation.rs:27-85 | For descending scores the budgets never increase |
| Allocation.AllocationFair | crates/hansa/src/membrane/allocation.rs:47-85 | With weights that are the scores moved so that the least is 0.001, where no share is below the floor each budget is the proportional share rounded down, plus one for exactly the first peers |
| Ranking.RankedSorted | crates/hansa/src/membrane/query.rs:323 | The sort is descending |
| Ranking.RankedPermutes | crates/hansa/src/membrane/query.rs:323 | It keeps every element as often as it occurs |
| Ranking.RankedPlaces | crates/hansa/src/context.rs:393-401 | It puts each element exactly after those with a greater key and the earlier ones with the same key |
| Ranking.RankInjective | crates/hansa/src/context.rs:393-401 | No two elements have the same place |
| Ranking.RankOnto | crates/hansa/src/context.rs:393-401 | Every place is some element's |
| Ranking.SortedKeysUnique | crates/hansa/src/membrane/query.rs:323 | Two descending arrangements of the same elements have the same keys throughout |
| FanOut.BestPeersAsked | crates/hansa/src/membrane/query.rs:221-240 | The peers that may be asked are exactly the other members at or above the threshold, each as often as it is listed; the best eight are asked, or all if they are fewer, and none left out scores better |
| FanOut.Collect | crates/hansa/src/membrane/query.rs:275-300 | The remote hits are the batches of the peers that answered in time, in order of arrival, each once; attempted is completed plus dropped |
| FanOut.CollectedGathered | crates/hansa/src/membrane/query.rs:335-359 | The hits collected are, for each arrived peer in order, the hits its view holds, field by field, under the view's tenant |
| FanOut.CollectedIsSent | crates/hansa/src/membrane/query.rs:308-318 | The collected hits of a tenant are as many as its arrived views hold |
| FanOut.OrderIrrelevant | crates/hansa/src/membrane/query.rs:279-299 | Which hits are collected depends on who answered, not on the order |
| FanOut.RemoteWithinBudget | crates/hansa/src/membrane/query.rs:235-240 | If peers honour their limits, the remote hits are at most the remote budget, whoever answers |
| FanOut.BestHitsReturned | crates/hansa/src/membrane/query.rs:321-324 | The result is sorted and at most the cap long; a hit stands at its rank exactly when fewer than the cap come before it, otherwise every place holds another hit at least as similar, and of distinct hits it is not returned |
| FanOut.LocalAlwaysKeptIff | crates/hansa/src/membrane/mod.rs:18 | Whatever honest peers answer and whichever answer in time, the result holds every local hit exactly when there is none or the local hits and the remote budget together fit the cap; for a local-only query, exactly when the local hits fit it |
| FanOut.ResultIgnoresOrder | crates/hansa/src/membrane/query.rs:279-324 | The similarities returned do not depend on the order of arrival |
| FanOut.LocalHitCrowdedOut | crates/hansa/src/membrane/query.rs:321-324 | A local hit that is not returned |
| FanOut.CountHits | crates/hansa/src/membrane/query.rs:309-314 | The count for each peer that returned hits |
| FanOut.BumpManifests | crates/hansa/src/membrane/query.rs:308-318 | Every peer's total grows by its collected hits and no other changes |
| FanOut.BumpsSumToCollected | crates/hansa/src/membrane/query.rs:308-318 | The bumps account for every collected hit once |
| FanOut.ManifestsConserveHits | crates/hansa/src/manifest.rs:227-233 | Below saturation the stored totals grow, taken together, by exactly the number of collected hits |
| FanOut.ExecuteWithStats | crates/hansa/src/membrane/query.rs:191-325 | The whole query, in terms of what the peers answer: the collected hits are those of the views that arrived, in order, each with that view's tenant as its origin; each tenant's stored total grows by the hits of its arrived views; the statistics; and for a local-only query the first hits up to the cap |
| Sentences.SplitSentences | crates/hansa/src/context.rs:464-486 | The pieces are non-empty and concatenate to the text; every boundary and no inner place is a cut |
| Sentences.SplitUnique | crates/hansa/src/context.rs:464-486 | A text has only one such split |
| Sentences.DedupSentences | crates/hansa/src/context.rs:429-457 | The loop keeps the first piece of each key not yet seen, trimmed, in order; the text is the kept sentences in order with exactly ". " between each and the next, and one added "." exactly when the last has no end mark |
| Sentences.DedupLosesNothing | crates/hansa/src/context.rs:433-445 | Seen keys stay distinct and grow by exactly the kept pieces' keys; kept plus dropped are the non-blank pieces, each recorded |
| Sentences.TrimIs | crates/hansa/src/context.rs:434 | Trimming takes off the white space at both ends, all of it, and nothing else |
| Sentences.KeptAre | crates/hansa/src/context.rs:433-445 | The kept sentences are the trimmed first pieces of their keys, in order, and no others |
| Sentences.RebuiltComposed | crates/hansa/src/context.rs:446-455 | The rebuilt text is the kept sentences and the joints between them, and nothing else |
| Sentences.RebuiltBlank | crates/hansa/src/context.rs:446-455 | The rebuilt text is blank exactly when nothing was kept |
| Context.FindKeyIs | crates/hansa/src/context.rs:337-338 | The key search finds the first record with the key, or there is none |
| Context.FindNearIs | crates/hansa/src/context.rs:364-367 | The vector search finds the first near record, or there is none |
| Context.DotAndDist | crates/hansa/src/context.rs:679-684 | Twice the inner product is the sum of the square lengths less the squared distance |
| Context.NearIff | crates/hansa/src/context.rs:361-367 | Vectors of length one are near exactly when they have equal dimensions and their squared distance is at most 2 - 2 * threshold |
| Context.ResemblesIff | crates/hansa/src/context.rs:356-373 | So a hit is near an item exactly when both normalise, in one space, to vectors at most that far apart |
| Context.FateMeans | crates/hansa/src/context.rs:331-373 | What becomes of a hit, in terms of the eligible items: below the threshold, an item with its key, all its sentences seen, an item with a near vector, else kept |
| Context.EmptiedIff | crates/hansa/src/context.rs:349-352 | Sentence deduplication empties a text exactly when all its non-blank sentences have been seen |
| Context.KeptIsApart | crates/hansa/src/context.rs:330-391 | A kept hit shares no key with and is near no earlier kept item |
| Context.AfterKeeps | crates/hansa/src/context.rs:330-391 | Every hit keeps the three indices sound, items apart and sources repeat-free |
| Context.PooledSound | crates/hansa/src/context.rs:313-391 | So they are after any list of hits |
| Context.EveryOriginAttributed | crates/hansa/src/context.rs:337-373 | Every hit not below the threshold and not blank lands in the item its key or vector matches, and its origin is among that item's sources at the end |
| Context.EverySourceLanded | crates/hansa/src/context.rs:655-659 | Every source of an item is the origin of a hit that landed in it |
| Context.HitsAccountedFor | crates/hansa/src/context.rs:330-391 | Every hit is eligible, counted as dropped, or blank |
| Context.CountersAre | crates/hansa/src/context.rs:330-391 | Each counter of the filter is the number of hits that met its fate |
| Assembly.FilterOne | crates/hansa/src/context.rs:330-391 | One turn of the filter loop, with its indices into the growing list, does the specified step |
| Assembly.Build | crates/hansa/src/context.rs:312-422 | The three phases build the specified bundle |
| Assembly.BudgetHolds | crates/hansa/src/context.rs:403-420 | The token total is that of the kept items and within budget, as is their number |
| Assembly.NothingCutIff | crates/hansa/src/context.rs:405-420 | Nothing is cut exactly when all eligible items together fit the budgets |
| Assembly.PlaceHolds | crates/hansa/src/context.rs:405-420 | An eligible item that is not cut stands in the bundle at its place |
| Assembly.PlacesDistinct | crates/hansa/src/context.rs:405-420 | Different items stand in different places |
| Assembly.SkippedWouldNotFit | crates/hansa/src/context.rs:405-420 | Kept items stay in rank order, and every skipped item still would not fit the finished bundle |
| Assembly.StopsAtFirstOverflow | crates/hansa/src/context.rs:238-245 | The bundle is the prefix before the first overflow exactly when nothing later fits |
| Assembly.LoopGoesOn | crates/hansa/src/context.rs:405-416 | An item taken after one that overflowed |
| Assembly.ItemsApartAndOrdered | crates/hansa/src/context.rs:312-422 | Kept keys are distinct, kept vectors pairwise below the threshold, sources repeat-free, items in rank order |
| Assembly.KeptVectorsFarApart | crates/hansa/src/context.rs:356-373 | When normalising gives vectors of length one, any two items of a bundle whose vectors share a space have a squared distance above 2 - 2 * threshold |
| Assembly.CountersAddUp | crates/hansa/src/context.rs:312-422 | Hits are kept plus the four drop counters, and those sentence deduplication emptied, of which there are none with it off; each counter is the number of hits that met its fate |
| Coverage.OneContributor | crates/hansa/src/context.rs:344-352 | Each seen sentence was contributed by exactly one hit |
| Coverage.ContributorIs | crates/hansa/src/context.rs:344-380 | Its entry is the key of one of that hit's new sentences, and the hit was kept or a semantic duplicate |
| Coverage.EverySentenceSeen | crates/hansa/src/context.rs:344-345 | Every non-blank sentence of every hit that reaches the filter is on the list |
| Coverage.KeptContent | crates/hansa/src/context.rs:344-390 | A kept item's content is exactly its new sentences, composed as described |
| Coverage.CarriedMeans | crates/hansa/src/context.rs:268-270 | A carried sentence is in the content of one item of the bundle, with the origin of the first hit that had it, and no other item has a sentence with its key |
| Coverage.ItemFrom | crates/hansa/src/context.rs:374-416 | Every item of the bundle is what exactly one hit became |
| Coverage.SentencesAddUp | crates/hansa/src/context.rs:344-380 | Over a build, the non-blank sentences that reach the filter are the seen ones, plus the counted redundant ones, plus the repeats inside semantic duplicates, of which there are none without semantic deduplication |
| Coverage.LosslessIff | crates/hansa/src/context.rs:268-270 | Every seen sentence is carried by an item of the bundle exactly when no semantic duplicate brought a new sentence and the eligible items together fit the token and record budgets |
| Coverage.NothingLost | crates/hansa/src/context.rs:268-270 | Without semantic deduplication and with room for all eligible items each non-blank sentence that reaches the filter is carried by the bundle: an item's content contains a sentence with its key |
| Coverage.SentenceLost | crates/hansa/src/context.rs:344-373 | Two hits of which the second's only sentence is seen but carried nowhere |
| Coverage.BudgetLosesSentence | crates/hansa/src/context.rs:405-416 | Two hits of which the first is cut by the budget and the second has lost the sentence they share, so no item carries it; without sentence deduplication the second is in the bundle whole |
| Toon.RenderToon | crates/hansa/src/context.rs:601-626 | The loop prints the header and one row an item |
| Toon.MarkIs | crates/hansa/src/context.rs:606-615 | The mark of a remote hit is the high half of its tenant's first byte as a lower-case hexadecimal digit, that of a local one L |
| Toon.FieldShape | crates/hansa/src/context.rs:710-717 | A text is quoted exactly when it has a comma, a quote or a newline, and then grows by its two outer quotes and one for each inner |
| Toon.NoLeadingZero | crates/hansa/src/context.rs:603 | The item count is printed without leading zeros |
| Toon.DocumentedShape | crates/hansa/src/context.rs:589-597 | The documented example, but for the quotes around its texts |
| Toon.FieldRead | crates/hansa/src/context.rs:710-717 | A quote-aware reader gets any text back from its field |
| Toon.ToonRoundTrip | crates/hansa/src/context.rs:601-626 | From the printed bundle the reader recovers the item count and each source mark, printed similarity and exact text |
| Toon.ToonInjective | crates/hansa/src/context.rs:601-626 | Bundles that print alike have the same rows |

## Left out

- A malformed line of the log, a malformed head cache file and a failed read, which the source reports as errors; an unreadable manifest (read as empty) and a failed manifest write (ignored).
- FanOut.Collect: does not model the clock; the peers that answer before the deadline are a parameter.
- Reservoir.EachPositionEquallyLikely: counts draw sequences; that the generator makes each equally often is not modelled.
- Ed25519, BLAKE3 and key handling (crates/hansa/src/sign.rs:34-170): foreign functions, given as parameters.
- Sequence numbers are unbounded; the source counts in 64 bits.
- Member paths are the text that `to_string_lossy` gives; distinct paths with the same text are not told apart.
- Torn writes of the log or of the head cache's temporary file, the file lock's own implementation, JSON and hex transport, path handling: each file operation is one atomic step.
- Direct `append_link` calls without the lock by the skipper itself, and two skippers' keys signing in one run.
- Deleting the local saga file in `leave`, `join`'s saga writing, and the saga and query parts of the handle.
- Floating-point rounding, infinities and NaN: reals. `usefulness_factor` and saga scoring enter as the given score.
- 32-bit overflow of the running sum in the allocation: total plus the floors is taken to fit.
- Tag aggregation in sagas and the choice of k from the record count: easy members.
- Sending a batch over the channel and a worker's death: both show up as which peers' batches arrive.
- White-space, lower-casing and hashing of a text's normal form (crates/hansa/src/context.rs:686-706): one key function. `unit_normalise` and the tokenizer are parameters too.
- The byte offsets of the sentence splitter are character offsets; cuts are next to ASCII characters, where both agree.
- The other renderers: no quoting, so their output cannot be read back.
- crates/hansa/src/cache.rs, crates/hansa/src/migrate.rs, crates/hansa/src/hybrid_registry.rs, crates/hansa/src/membrane/async_query.rs, manifests' storage, key stores and the command line: plumbing, or the same pipeline again.
