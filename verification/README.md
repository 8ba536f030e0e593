# LeanBun: a verified model of its protocols, codecs and stores

LeanBun drives Lean's Lake build tool under evidence: coordinators take a build lock, write
execution records, reuse earlier builds, recover stale ones, publish immutable artifacts and
turn one terminal approval into one launch reservation. These Dafny modules model that
behaviour and prove its main promises for every input, every run and every interleaving.

`dafny verify dfyconfig.toml` checks the whole project.

## The parts

- **Strict JSON** (`Utf8`, `JsonGrammar`, `JsonSpec`, `JsonLexical`, `JsonTheorems`, `JsonParser`,
  `JsonTables`, `Diagnostic`). Derivation trees give the grammar of RFC 8259 with values, node counts and
  depths. `JsonSpec` is the parser as functions, `JsonParser` the class with its cursor and node
  budget. The parser's one leniency, whitespace inside a surrogate pair, is a production of the
  grammar. The printer's output is the yield of a derivation, so reading it back is a corollary.
- **SHA-256** (`Fips180`, `Sha256*`). The hasher over its 64-byte buffer refines sections 4.1.2,
  5.1.1 and 6.2.2 of FIPS 180-4, with the constants of its sections 4.2.2 and 5.3.3. The byte
  counter saturates, as in the code.
- **Execution, lock and recovery** (`Protocol*`, `ReuseCandidate`). One project and image: the lock
  file, the records, the per-record transition locks and any number of coordinators and
  recoveries, each file system call a step, each process able to stop anywhere. A step acts on
  the view of one execution, so every invariant is proved on views and lifted to states and runs.
  A release compares the lock file and then unlinks it. Mutual exclusion needs only that two
  releases of one execution do not overlap in between, and that is exactly what it needs: the
  first overlap, and only an overlap, opens a way to two held executions. That a running record
  keeps its lock needs, exactly, that besides no begin fails after its own rename. Record
  finality and reuse lineage need neither. A transition lock left behind, by a stop or by a
  failed unlink, is harmless to all of these, but leaves a record that runs forever behind a
  project lock that never goes away. Beside what never happens stands what can always be
  done: decisions are carried through, abandoned records are recovered, and exactly two kinds
  of project lock never come free.
- **Package keys** (`Package*`). The memoised search
  against a search without a memo, and what that one answers in terms of dependency paths. A
  package whose own source is missing is left out before its dependencies are looked at, so a
  cycle or a missing package reached only through it goes unnoticed, as in the code.
- **Publish-once artifact store** (`ArtifactStore*`). Private staging in slots, a lease that ends
  with its holder, one rename. Slot contents are arbitrary until the record is written, so
  partial copies, changing candidates and reused slot names are all covered.
- **Image store** (`ImageStore*`). A class for one caller with crashes at the four fault points, and
  a machine for competing publishers and recoveries in which directories have identities and an
  open file keeps writing to its directory after a rename. Candidates may change at any time.
  Runs in which they are stable (a finished copy matches the record, one cut short does not) are
  a special case; what an unstable candidate can do is shown, with the exact condition under
  which the object is safe all the same.
- **Coordinator wire codec** (`Wire*`). Requests, their identity, the 21-field envelope, the cursor.
- **One-shot approval** (`Approval*`). Values are consumed by the stage they are passed to; slots
  survive a restart only once synced. The clock is arbitrary: the order of times comes from the
  checks.
- **Execution records** (`Execution*`). Strings are UTF-16 units; keywords, digests, identifiers and
  timestamps have their real spellings, and paths and targets their real syntax. What the reader
  accepts, what each coordinator writes, and exactly when the two agree.
- **Layering check and artifact tree** (`Layering`, `Artifact*`).

Conventions: SHA-256 outside its own modules is an arbitrary function, and a result that needs it
injective says so for the texts actually hashed. Execution, process and token identifiers are
natural numbers; execution identifiers compare as they do in the code. Times are natural numbers.

## Model

| member | source | states |
|---|---|---|
| JsonTheorems.ParserIsExact | rust/crates/leanbun-codec/src/lib.rs:53-145 | On UTF-8 text the parser returns a value if and only if the text derives in the grammar of RFC 8259 (sections 2 to 7, plus whitespace inside a surrogate pair) with no lone surrogate, no repeated decoded key, depth at most 128 and at most 100,000 values; every derivation then has that value and that node count; the three encoding failures never occur |
| JsonTables.ParsesExactly | rust/crates/leanbun-codec/src/lib.rs:53-145 | A text is parsed if and only if it derives a value with no repeated key, nothing inside more than 128 arrays and objects, and no more than 100,000 values |
| JsonTheorems.DerivationDecides | rust/crates/leanbun-codec/src/lib.rs:53-145 | For any derivation of the text, admissible or not, the parser returns its value, consumes the whole text and counts its nodes, or rejects exactly when a limit or a repeated key forbids it |
| JsonTheorems.ValueOver | rust/crates/leanbun-codec/src/lib.rs:75-145 | At any nesting and any node count so far, each value, array, object and member list is read over exactly the bytes it derives, or refused exactly when depth, nodes or keys forbid it (proved jointly with the lemmas for elements and members) |
| JsonTheorems.ValueTakes | rust/crates/leanbun-codec/src/lib.rs:75-145 | Whatever the parser accepts from a position on has a derivation over exactly the bytes it consumed, and no rejection is an encoding failure |
| JsonLexical.SurrogatesCoverSupplementaryPlanes | rust/crates/leanbun-codec/src/lib.rs:176-194 | The surrogate arithmetic maps valid pairs one to one onto 0x10000..0x10FFFF, so the invalid-scalar branch cannot fire |
| JsonLexical.EscapeOver | rust/crates/leanbun-codec/src/lib.rs:166-214 | Every derivable escape, including a surrogate pair with whitespace before and inside its second half, is decoded to the UTF-8 of its scalar |
| JsonTables.ShortEscapes | rust/crates/leanbun-codec/src/lib.rs:166-175 | The two-character escapes are those of section 7 of RFC 8259, each with its character |
| JsonTables.HexDigits | rust/crates/leanbun-codec/src/lib.rs:202-214 | Hexadecimal digits have their values in either case |
| JsonTables.WhiteSpace | rust/crates/leanbun-codec/src/lib.rs:297-302 | White space is space, tab, line feed and carriage return |
| JsonLexical.StringTakes | rust/crates/leanbun-codec/src/lib.rs:147-164 | An accepted string body is a sequence of whole scalars and escapes and its output is the UTF-8 of their text, so the invalid-UTF-8 result cannot fire |
| JsonLexical.NumberOver | rust/crates/leanbun-codec/src/lib.rs:216-254 | Every derivable number is taken whole and preserved as written |
| JsonLexical.NumberTakes | rust/crates/leanbun-codec/src/lib.rs:216-254 | Every accepted number derives in section 6 of RFC 8259 from exactly the bytes consumed |
| Utf8.RecogniserIsExact | rust/crates/leanbun-codec/src/lib.rs:147-164 | The byte-range test of section 4 of RFC 3629 accepts exactly the encodings of scalar sequences |
| Utf8.EncodeInvertsDecode | rust/crates/leanbun-codec/src/lib.rs:196-200 | A scalar read from bytes encodes back to those bytes |
| Utf8.EncodeAllInjective | rust/crates/leanbun-codec/src/lib.rs:196-200 | Two scalar sequences with the same encoding are equal |
| JsonParser.Parser.ParseOne | rust/crates/leanbun-codec/src/lib.rs:75-103 | The recursive method, its node budget and its cursor agree with the specification at every depth |
| JsonParser.Parser.ParseArray | rust/crates/leanbun-codec/src/lib.rs:105-120 | The array loop reads what the specification reads and leaves the cursor where it ends |
| JsonParser.Parser.ParseObject | rust/crates/leanbun-codec/src/lib.rs:122-145 | The object loop, with its duplicate-key check, reads what the specification reads |
| JsonParser.Parser.ParseString | rust/crates/leanbun-codec/src/lib.rs:147-164 | The string loop over raw runs and escapes yields the specified bytes and cursor |
| JsonParser.Parser.ParseEscape | rust/crates/leanbun-codec/src/lib.rs:166-200 | The escape method extends the output by exactly the specified bytes, or fails with the specified detail |
| JsonParser.Parser.ReadHexQuad | rust/crates/leanbun-codec/src/lib.rs:202-214 | The four-digit loop computes the specified value and fails where the specification does |
| JsonParser.Parser.ParseNumber | rust/crates/leanbun-codec/src/lib.rs:216-248 | The number method accepts and slices what the specification does |
| JsonParser.ParseStrictJson | rust/crates/leanbun-codec/src/lib.rs:53-73 | The imperative parser returns the specified result for every byte string |
| DiagnosticJson.PushJsonString | rust/crates/leanbun-core/src/diagnostic.rs:179-198 | Appends the quoted derivation of the text: every scalar plain, with a short escape, or as \u00xx |
| DiagnosticJson.ItemsMean | rust/crates/leanbun-core/src/diagnostic.rs:179-198 | The printed pieces are grammatical and mean exactly the text |
| JsonTables.PrintedIsShortest | rust/crates/leanbun-core/src/diagnostic.rs:179-198 | No grammatical spelling of a text is shorter than the printed one |
| DiagnosticJson.ToCanonicalJson | rust/crates/leanbun-core/src/diagnostic.rs:160-176 | The printer's output is the yield of one derivation with the four fields in order |
| DiagnosticJson.PrintThenParse | rust/crates/leanbun-core/src/diagnostic.rs:160-198 | For every diagnostic the strict parser reads the printed text back to exactly its code, severity, message and evidence if it carries at most 99,995 evidence strings, and rejects it otherwise |
| DiagnosticJson.JsonDeterminesDiagnostic | rust/crates/leanbun-core/src/diagnostic.rs:143-176 | Two diagnostics with the same JSON value are equal |
| Sha256Stream.HashChunks | rust/crates/leanbun-core/src/sha256.rs:106-160 | However a message under 2^61 bytes is cut into chunks, updating with each and finalising gives the FIPS 180-4 hash of the concatenation; its constants are those of the next rows |
| Sha256Constants.RoundConstantsAreCubeRoots | rust/crates/leanbun-core/src/sha256.rs:14-79 | Each of the 64 round constants is the first 32 bits of the fraction of the cube root of the prime of the same rank |
| Sha256Constants.InitialHashIsSquareRoots | rust/crates/leanbun-core/src/sha256.rs:3-12 | Each word of the initial hash value is the first 32 bits of the fraction of the square root of the prime of the same rank |
| Sha256Constants.PrimesInOrder | rust/crates/leanbun-core/src/sha256.rs:14-79 | The 64 primes start at 2 and leave none out |
| Fips180.Rotations | rust/crates/leanbun-core/src/sha256.rs:162-206 | The rotations and shifts that are used are the built-in rotations and divisions by powers of two |
| Sha256Stream.Sha256Hasher.Update | rust/crates/leanbun-core/src/sha256.rs:106-135 | After any update the state is the compression of all whole blocks of the message so far and the buffer holds the rest |
| Sha256Stream.Sha256Hasher.Finalize | rust/crates/leanbun-core/src/sha256.rs:137-160 | The padding written block by block is that of section 5.1.1, with one block or two, and the digest is the specified hash for the saturated bit length |
| Sha256Stream.Sha256Hasher.AbsorbPadding | rust/crates/leanbun-core/src/sha256.rs:137-157 | The two-branch padding absorbs exactly the padded tail of the message |
| Sha256Stream.CompressBlock | rust/crates/leanbun-core/src/sha256.rs:162-206 | The in-place compression turns the state array into the section 6.2.2 intermediate hash |
| Sha256Stream.FillSchedule | rust/crates/leanbun-core/src/sha256.rs:163-178 | The schedule loop computes the 64 words of step 1 of section 6.2.2 |
| Sha256Stream.RunRounds | rust/crates/leanbun-core/src/sha256.rs:180-201 | The 64-round loop computes steps 2 and 3 of section 6.2.2 |
| Sha256Stream.PadLayout | rust/crates/leanbun-core/src/sha256.rs:137-157 | The padded message is the message, the bit 1, the least number of zero bytes and the length, on a block boundary |
| Fips180.ZeroBytesAreLeast | rust/crates/leanbun-core/src/sha256.rs:142-151 | The chosen zero padding is the smallest that completes a block |
| ProtocolSafety.BaseStep | src/adapters/execution-record-store.ts:330-509 | Every step of every coordinator or recovery keeps the base invariant and only lets a record appear or become terminal |
| ProtocolSafety.RecordFinality | src/adapters/execution-record-store.ts:429-509 | From any point of any run, with stops and recoveries in any number: a record keeps its begin-time fields, becomes terminal at most once, and never changes again |
| ProtocolMutex.LockedStepKept | src/adapters/build-lock-store.ts:170-274 | Every step of a run whose releases do not overlap keeps the lock invariant: who holds what and which lock file stands; that running records keep their lock is part of it when no begin fails late |
| ProtocolMutex.MutualExclusion | src/adapters/build-lock-store.ts:170-274 | In every run in which releases of one execution do not overlap, whatever else stops or fails: at most one execution is between acquire and release, the lock file names it, and every coordinator past acquire holds its execution |
| ProtocolMutex.RunningKeepsLock | src/application/controlled-build-probe.ts:205-263 | In every such run in which, besides, no begin fails after its own rename, every running record has its own lock file in place |
| ProtocolMutex.ReleaseIsFinal | src/application/recover-execution.ts:225-231 | When releases do not overlap, the only step that removes a held execution's lock is a release of that execution; a recovery does it only with the coordinator absent and the record terminal, and when no begin fails late nobody does it while the record runs; that the lock does come free is the matter of ProtocolProgress and ProtocolRelease |
| ProtocolProgress.RecoveryRecovers | src/application/recover-execution.ts:345-381 | In every run without overlaps, a running record behind its lock, with its coordinator gone and its transition free, can be recovered: then it is failed at the recovery's time, the lock is free, and nothing else has changed |
| ProtocolProgress.RecoveryReleases | src/application/recover-execution.ts:225-250 | A finished record left behind its lock is released by a recovery and otherwise left alone |
| ProtocolProgress.FinishableExactly | src/adapters/execution-record-store.ts:429-509 | In every run without overlaps and late begin failures, a running record can still be finished if and only if its transition lock has not been left behind |
| ProtocolProgress.DecisionIsRecorded | src/application/controlled-build-probe.ts:445-476 | In every run without overlaps, whatever a working coordinator may decide can be carried through unless its transition lock was left behind: the record ends with exactly that status, time and outcome, the lock is free, and nothing else has changed |
| ProtocolProgress.FailedBeginReleases | src/application/controlled-build-probe.ts:224-263 | A coordinator whose begin fails before its rename can clean up and free its lock, and leaves no record |
| ProtocolLifecycle.ExecutionCompletes | src/application/controlled-build-probe.ts:181-476 | In every run, whatever has stopped or failed: once the lock is free a new execution of either kind can be carried through to any decision its coordinator may take, and leaves exactly its record behind |
| ProtocolLifecycle.StatusesFit | src/application/reuse-transaction.ts:217-260 | In every run only builds complete, with evidence; only reuses repeat, and name their source; failures have neither |
| ProtocolLifecycle.BeginFindsNothing | src/adapters/execution-record-store.ts:373-397 | In every run a coordinator that begins finds neither a record nor a transition lock of its execution |
| ProtocolRelease.LockFreesExactly | src/adapters/build-lock-store.ts:170-274 | In every run without overlaps and late begin failures, a project lock can still come free unless its running record was stranded, or its coordinator is gone and left no record; and exactly then it cannot |
| ProtocolRelease.DesertedForever | src/adapters/build-lock-store.ts:170-274 | The lock of a coordinator that is gone and left no record is never released |
| ProtocolRelease.LostForever | src/application/recover-execution.ts:253-275 | In every run a running record whose lock is gone, with its coordinator, is never finished, since a recovery finishes only what it has seen locked |
| ProtocolMutex.LockActor | src/application/controlled-build-probe.ts:181-263 | On the acting process's own view: acquire, begin, finalise, release and recovery keep the lock, the record and the history consistent, with or without late begin failures |
| ProtocolMutex.LockNeighbour | src/application/recover-execution.ts:150-231 | A coordinator and a recovery of the same execution never disturb each other once the coordinator was found absent |
| ProtocolLimits.ExclusionExactly | src/adapters/build-lock-store.ts:257-271 | In any run so far free of overlaps, the next step causes none if and only if no continuation free of overlaps ever holds two executions |
| ProtocolLimits.OverlapLosesExclusion | src/adapters/build-lock-store.ts:257-271 | From any state with two releases of one execution between comparing and unlinking, a continuation holds two executions at once |
| ProtocolLimits.RunningKeepsLockExactly | src/adapters/execution-record-store.ts:406-411 | In any run so far free of overlaps and late begin failures, the next step is neither if and only if no continuation free of both ever leaves a running record without its lock |
| ProtocolLimits.OverlapLosesLock | src/adapters/build-lock-store.ts:257-271 | From any state with such an overlap a continuation leaves a running record without its lock |
| ProtocolLimits.LateLosesLock | src/application/controlled-build-probe.ts:224-263 | From any state in which a coordinator cleans up after a late begin failure, with its lock in place and no recovery about to unlink it, three steps of that coordinator leave its record running and no lock |
| ProtocolLimits.TwoRecoveriesBreakExclusion | src/adapters/build-lock-store.ts:257-271 | Two recoveries of one terminal execution, each between comparing and unlinking, leave two executions held at once: a run from the initial state with no other fault |
| ProtocolLimits.LateBeginFailureLeavesRunning | src/adapters/execution-record-store.ts:406-411 | A begin that fails after its own rename lets its caller release the lock while the record runs: a run from the initial state without overlaps |
| ProtocolLimits.StrandedForever | src/adapters/execution-record-store.ts:461-472 | In every run: a running record whose transition lock has been left behind keeps running, unchanged, forever; nobody ever finalises it, its own coordinator included |
| ProtocolLimits.StrandedBlocksEveryone | src/adapters/execution-record-store.ts:461-472 | In every run without overlaps and late begin failures the lock of such a record stays too, and no other execution is ever held again |
| ProtocolLimits.StrandsExactly | src/adapters/execution-record-store.ts:419-426 | A step strands a record if and only if it was stranded, or it runs and the step takes its process out of the transition and leaves the lock |
| ProtocolLimits.TransitionsCanStrand | src/adapters/execution-record-store.ts:419-426 | Any process inside a transition of a running record can stop there, and a coordinator that has begun its record can go on working with the lock left behind, since a failed unlink is swallowed; both leave such a record |
| ProtocolReuse.ReuseLineage | src/application/reuse-transaction.ts:234-260 | In every run each reused record names a record in the store that is completed, has the same identity, and carries the same evidence; chains have length one |
| ProtocolReuse.ReuseIsBest | src/application/reuse-candidate.ts:123-156 | In every run whose releases do not overlap, at the rename that publishes a reused record its source is still completed, has the same identity and evidence, and no other such record finished later, or at the same time with a greater execution id |
| ProtocolReuse.NoRivalCompletes | src/application/reuse-transaction.ts:106-164 | While one coordinator verifies or is about to reuse, no other execution of the project and image completes; needs only that releases have not overlapped |
| ReuseCandidate.SelectsBestSource | src/application/reuse-candidate.ts:55-98 | Filtering, sorting and taking the first selects the completed record of the identity, with evidence, that finished last and of those the one with the greatest id; and nothing only when there is none |
| ReuseCandidate.BestIsNewest | src/application/reuse-candidate.ts:55-98 | The best source is the newest, said without the selection's own order |
| ReuseCandidate.SelectionIgnoresOrder | src/application/reuse-candidate.ts:86-98 | The selection does not depend on the order in which records are listed |
| PackageGraph.DerivedExactly | rust/crates/leanbun-build/src/package_reuse.rs:137-174 | A package has a key if and only if every dependency path from it is free of repetition and leads only to present, sourced packages with an acceptable dependency list |
| PackageRules.HasKeyExactly | rust/crates/leanbun-build/src/package_reuse.rs:53-174 | A package has a key if and only if the four context texts are 1 to 512, 128, 128 and 256 bytes on one line, and whatever a path from it leads to is present, sourced, has at most 4,096 dependencies with none listed twice, and was not met on the way |
| PackageGraph.EligibleExactly | rust/crates/leanbun-build/src/package_reuse.rs:118-135 | When the search fails nowhere, a package is left out exactly when some path below it reaches an unsourced package |
| PackageGraph.DerivedPathsAreClean | rust/crates/leanbun-build/src/package_reuse.rs:137-174 | No path from a derived package ever revisits a package: its closure is acyclic |
| PackageGraph.WhyNotDerived | rust/crates/leanbun-build/src/package_reuse.rs:144-165 | Every refusal is explained by a path: a cycle by a revisit, a missing package, an unsourced one, or an unacceptable list |
| PackageGraph.OnlyClosureMatters | rust/crates/leanbun-build/src/package_reuse.rs:137-174 | Two locks that agree below a package, up to the order of dependency lists, give it the same tree, whatever else they hold |
| PackageOrder.SortIgnoresOrder | rust/crates/leanbun-build/src/package_reuse.rs:75-81 | Sorting distinct dependencies by package key gives the same list for every arrangement |
| PackageOrder.SortAscends | rust/crates/leanbun-build/src/package_reuse.rs:75-81 | What is hashed is what was listed, ascending: scope before name, byte by byte, the shorter text first |
| Bytes.TextLessMeans | rust/crates/leanbun-build/src/lib.rs:65 | One text precedes another if and only if it is smaller at the first difference, or ends there |
| PackageOrder.IncreasingIsUnique | rust/crates/leanbun-build/src/package_reuse.rs:75-81 | A strictly increasing dependency list is determined by its members |
| PackageSearch.Search.DerivePackageKey | rust/crates/leanbun-build/src/package_reuse.rs:137-174 | The memoised search answers exactly what the search without a memo answers for the same node and path, restores the visiting set on every success, only extends the memo, and terminates |
| PackageSearch.PackageBuildKeys | rust/crates/leanbun-build/src/package_reuse.rs:118-135 | On success every package searches without error and the map holds exactly the derivable packages, each with its recursive key; an error is the error of some package |
| PackageSearch.CompletesAt | rust/crates/leanbun-build/src/package_reuse.rs:154-173 | Keys collected in listed order and sorted when hashing give the recursive key of the package |
| PackageSearch.EqualBuildKeys | rust/crates/leanbun-build/src/package_reuse.rs:53-110 | For packages of any two locks and contexts, equal keys force equal contexts, equal sources and equal dependency trees, unless two of the hashed texts collide |
| PackageKeys.EqualKeysEqualTrees | rust/crates/leanbun-build/src/package_reuse.rs:53-110 | Without a collision among the texts hashed for two trees, equal keys force the trees and contexts to be equal all the way down |
| PackageKeys.PreimageCut | rust/crates/leanbun-build/src/package_reuse.rs:87-109 | The hashed text of a package determines its source, context and every dependency name and key |
| PackageKeys.DerivedIsSmall | rust/crates/leanbun-build/src/package_reuse.rs:76-86 | Every derived tree has at most 4,096 dependencies at each node |
| ArtifactStoreSafety.SafeStep | rust/crates/leanbun-build/src/package_reuse.rs:257-322 | Every step of any number of publishers, readers and materialisers, with stops, keeps the store invariant and only seals an object |
| ArtifactStoreSafety.PublishedOnce | rust/crates/leanbun-build/src/package_reuse.rs:306-321 | At most one rename into place ever succeeds, and the object's contents and record never change afterwards |
| ArtifactStoreSafety.RenameFindsFreePath | rust/crates/leanbun-build/src/package_reuse.rs:306-315 | Whoever passes the second look under the lease finds the path free, and publishes exactly its own copy with the digest it computed |
| ArtifactStoreSafety.OnlyRenamePublishes | rust/crates/leanbun-build/src/package_reuse.rs:303-315 | An object becomes visible only by the rename of a live lease holder; abandoned slots never do |
| ArtifactStoreSafety.SuccessMatchesRecord | rust/crates/leanbun-build/src/package_reuse.rs:324-401 | Every success and every delivered copy is about a sealed object whose bytes hash to its recorded digest, even if candidates change while they are copied; that it is the publisher's own digest is the next row |
| ArtifactStoreReuse.PublisherGetsItsOwn | rust/crates/leanbun-build/src/package_reuse.rs:274-401 | In every run a publisher succeeds only for the digest it hashed of its own candidate, whoever published the object |
| ArtifactStoreReuse.ReusesExactly | rust/crates/leanbun-build/src/package_reuse.rs:274-401 | A publisher that finds a sealed, matching object, at its first or its second look, can come to success if and only if the digest it hashed is the recorded one |
| ArtifactStoreReuse.DeliversExactly | rust/crates/leanbun-build/src/package_reuse.rs:324-370 | Whoever has verified can hand out any copy that hashes to the recorded digest, and no other |
| ArtifactStoreReuse.SecondLookDiscards | rust/crates/leanbun-build/src/package_reuse.rs:306-312 | A publisher that finds the object at its second look removes its own staging and only that |
| ArtifactStoreSafety.OrphanIsRefusedForever | rust/crates/leanbun-build/src/package_reuse.rs:313-320 | After a stop between rename and chmod the object never changes and no verification ever succeeds |
| ArtifactStoreSafety.StopAfterRenameOrphans | rust/crates/leanbun-build/src/package_reuse.rs:313-315 | That stop is possible whenever a publisher has just renamed |
| ArtifactStoreSafety.SealedMatchAlwaysVerifies | rust/crates/leanbun-build/src/package_reuse.rs:372-400 | At every later point a sealed object whose bytes match its record is accepted by a verification if and only if that expects no digest or the recorded one |
| ArtifactStoreSafety.NeighbourStep | rust/crates/leanbun-build/src/package_reuse.rs:403-430 | A process's claims about the lease, the object and its own slot survive any step of another process |
| ArtifactStoreRun.LonePublisherSucceeds | rust/crates/leanbun-build/src/package_reuse.rs:257-322 | For any content, a lone publisher with a stable candidate publishes it, seals it and verifies it: a concrete run that succeeds |
| ImageStore.Store.PublishOrReuseWithFault | rust/crates/leanbun-build/src/reuse.rs:48-120 | For each fault point and each state found: the exact result, the exact lock, staging and object left for the key, and nothing else changed |
| ImageStore.Store.Recover | rust/crates/leanbun-build/src/reuse.rs:122-171 | Which of reused, aborted, published or an error, each exactly when; success leaves no lock and a verified object or nothing; objects are never touched and errors change nothing |
| ImageStore.Store.Verify | rust/crates/leanbun-build/src/reuse.rs:173-184 | Succeeds if and only if the object is there with its exact record and matching bytes |
| ImageStore.Store.CrashThenRecover | rust/crates/leanbun-build/src/reuse.rs:95-171 | A crash at any of the four points followed by recovery ends with no lock and no staging, and a verified object unless nothing had been copied |
| ImageStoreSafety.SafeStep | rust/crates/leanbun-build/src/reuse.rs:48-171 | Every step of competing publishers and recoveries, each file system call a step, keeps the directory invariant and the object's place; with stable candidates its bytes too |
| ImageStoreSafety.ObjectNeverChanges | rust/crates/leanbun-build/src/reuse.rs:48-171 | In every run with stable candidates the object, once there, keeps its directory and bytes, they match the record, and the record is complete |
| ImageStoreSafety.ObjectStays | rust/crates/leanbun-build/src/reuse.rs:48-171 | In every run, whatever the candidates do, the object once there keeps its directory and its complete record |
| ImageStoreSafety.ObjectStaysExactly | rust/crates/leanbun-build/src/reuse.rs:95-167 | In every run, at the one rename into place: the object's bytes never change afterwards if and only if no live process is still copying into the renamed directory |
| ImageStoreSafety.ObjectMatchesExactly | rust/crates/leanbun-build/src/reuse.rs:95-167 | And they match the record at every later point if and only if, besides, they match it at the rename |
| ImageStoreSafety.OnlyCompleteIsRenamed | rust/crates/leanbun-build/src/reuse.rs:115-167 | In every run what is renamed into place, by a publisher or a recovery, is the only directory and has its whole record; with stable candidates its bytes match the record |
| ImageStoreSafety.FinishersSucceed | rust/crates/leanbun-build/src/reuse.rs:115-119 | In every run a publisher that renamed or found the object can finish successfully, and a recovery if and only if the object's bytes match the record |
| ImageStoreRun.UnstableCandidateIsPublished | rust/crates/leanbun-build/src/reuse.rs:61-108 | If the candidate changes between hashing and copying, a lone publisher reports success for bytes that do not match the record: for every such bytes, a run from the initial state |
| ImageStoreRun.LiveCopyRewritesObject | rust/crates/leanbun-build/src/reuse.rs:95-167 | If the candidate grows while it is copied, a recovery can publish and verify the staging while its publisher still copies, and that publisher's next write changes the verified object: for every matching and every later bytes |
| ImageStoreProgress.PublisherCompletes | rust/crates/leanbun-build/src/reuse.rs:85-120 | With nothing in its way a publisher puts exactly what it copied under a complete record and leaves no lock and no staging |
| ImageStoreProgress.PublisherReuses | rust/crates/leanbun-build/src/reuse.rs:78-84 | A publisher that finds a recorded object takes it as it is and changes nothing |
| ImageStoreProgress.RecoveryCompletes | rust/crates/leanbun-build/src/reuse.rs:146-167 | A recovery that finds good staging, its record whole or not yet there, publishes that staging and removes the lock |
| ImageStoreProgress.RecoveryAborts | rust/crates/leanbun-build/src/reuse.rs:142-145 | A recovery that finds no staging removes the lock and changes nothing else |
| ImageStoreProgress.RecoveryReuses | rust/crates/leanbun-build/src/reuse.rs:127-133 | A recovery that finds a good object removes the lock and changes nothing else |
| ImageStoreProgress.GoesOnExactly | rust/crates/leanbun-build/src/reuse.rs:48-184 | At each point a process can go on if and only if the files are as that point needs them |
| ImageStoreSafety.NeighbourStep | rust/crates/leanbun-build/src/reuse.rs:85-171 | Staging claims of one process survive any step of another, since only one process fills a staging directory; the claims about bytes are those made for stable candidates |
| WireCodec.DecodeInvertsEncode | rust/crates/leanbun-approval-macos/src/coordinator_wire.rs:68-252 | Decoding the encoding of any request the validating constructors build gives back that request |
| WireCodec.EncodeInvertsDecode | rust/crates/leanbun-approval-macos/src/coordinator_wire.rs:154-252 | Every accepted byte string is the encoding of the valid request it decodes to; which requests are valid is the next row |
| WireRules.AcceptedExactly | rust/crates/leanbun-approval-macos/src/coordinator_wire.rs:154-252 | Bytes decode to a request if and only if they are its encoding, both UIDs are equal and not 0, the requirement, the nonce and the six lineage digests are not zero, there are at most 32 groups, strictly increasing and without the GID, it expires after it is issued and within 60,000 ms, signing identifier and team have their syntax, and its digest is the hash of its identity |
| WireRules.RefusedExactly | rust/crates/leanbun-approval-macos/src/coordinator_request.rs:249-289 | Which check refuses a request whose parts are good, in order |
| WireRules.IdentityNames | rust/crates/leanbun-approval-macos/src/coordinator_request.rs:309-384 | Every value of a request is hashed under its own name |
| WireCodec.PrefixRefused | rust/crates/leanbun-approval-macos/src/coordinator_wire.rs:270-275 | Every proper prefix of an encoding is refused as truncated |
| WireCodec.ExtensionRefused | rust/crates/leanbun-approval-macos/src/coordinator_wire.rs:201-206 | Every proper extension is refused for trailing bytes, or as oversized past 4,096 bytes |
| WireCodec.EncodedSize | rust/crates/leanbun-approval-macos/src/coordinator_wire.rs:68-70 | An encoding has exactly 563 bytes plus the signing identifier plus four per group: at most 819, within the 1,024 reserved and the 4,096 allowed |
| WireEnvelope.ParsesEnvelope | rust/crates/leanbun-approval-macos/src/coordinator_wire.rs:163-206 | Every envelope of 21 fitting fields is parsed to those fields |
| WireEnvelope.ParsedIsEnvelope | rust/crates/leanbun-approval-macos/src/coordinator_wire.rs:163-206 | Every parsed byte string is the envelope of 21 numbered fields of at most 256 bytes |
| WireEnvelope.CutFramesTruncate | rust/crates/leanbun-approval-macos/src/coordinator_wire.rs:270-275 | Any cut inside the fields is reported as truncation and nothing else |
| WireCodec.GroupsRoundTrip | rust/crates/leanbun-approval-macos/src/coordinator_wire.rs:317-327 | Group lists read back from their bytes |
| WireCodec.GroupsBytes | rust/crates/leanbun-approval-macos/src/coordinator_wire.rs:317-327 | Every multiple of four bytes is the encoding of the groups read from it |
| WireCodec.ReadIsFields | rust/crates/leanbun-approval-macos/src/coordinator_wire.rs:208-251 | Twenty-one fields that read as a request are exactly its fields, and the request is valid |
| WireCodec.ReadsFields | rust/crates/leanbun-approval-macos/src/coordinator_wire.rs:208-251 | The fields of a valid request read back as that request |
| WireCursor.Cursor.Take | rust/crates/leanbun-approval-macos/src/coordinator_wire.rs:270-275 | Takes exactly the next bytes, or fails without moving |
| WireCursor.ReadFields | rust/crates/leanbun-approval-macos/src/coordinator_wire.rs:177-200 | The field loop over the cursor parses what the specification parses, with the same rejection |
| WireCursor.DecodeFields | rust/crates/leanbun-approval-macos/src/coordinator_wire.rs:154-206 | The envelope decoder agrees with the specification on every byte string, including which rejection |
| WireCursor.DecodeRequest | rust/crates/leanbun-approval-macos/src/coordinator_wire.rs:154-252 | The whole decoder agrees with the specification on every byte string |
| WireCursor.EncodeRequest | rust/crates/leanbun-approval-macos/src/coordinator_wire.rs:68-152 | The appending encoder writes exactly the specified bytes |
| WireRequest.IdentityDeterminesRequest | rust/crates/leanbun-approval-macos/src/coordinator_request.rs:309-393 | Two valid requests with the same identity digest are the same request, unless their identity texts collide |
| WireRequest.IdentityFieldsInjective | rust/crates/leanbun-approval-macos/src/coordinator_request.rs:386-393 | The length-prefixed identity fields determine every value |
| ApprovalSafety.OneApprovalOneReservation | rust/crates/leanbun-approval-macos/src/launch_reservation.rs:202-275 | Across restarts, concurrent callers and failures after slot creation: each challenge yields at most one consumption record and at most one reservation, and no intent is reserved twice |
| ApprovalSafety.ReservationClockChain | rust/crates/leanbun-approval-macos/src/launch_reservation.rs:202-310 | Every reservation descends from its challenge's consumption record through one plan, and responded, consumed, observed, verified, granted, observed again, prepared, reserved and durable times are in order and before that challenge's expiry |
| ApprovalSafety.IntegrityChecksNeverFire | rust/crates/leanbun-approval-macos/src/launch_intent.rs:194-207 | The repeated digest checks never refuse a value the pipeline made: a candidate is refused as invalid exactly when its plan differs from its proof |
| ApprovalSafety.SafeStep | rust/crates/leanbun-approval-macos/src/replay.rs:167-232 | Every stage, loss of a value and restart keeps the invariant of slots, values and history |
| ApprovalSafety.CarrierStep | rust/crates/leanbun-approval-macos/src/replay.rs:167-202 | At most one live value carries a challenge's approval, because the slot is created exclusively |
| ApprovalSafety.RestartStep | rust/crates/leanbun-approval-macos/src/replay.rs:204-222 | Losing every value and any slot not yet synced keeps the invariant |
| ApprovalSafety.TokenStep | rust/crates/leanbun-approval-macos/src/proof.rs:170-249 | Each stage passes on digests, lineage and an ordered clock chain from its input |
| Approval.ValidateClaim | rust/crates/leanbun-approval-macos/src/replay.rs:234-257 | A claim is accepted exactly inside its response and expiry times |
| ApprovalRun.TimelyClaimReserves | rust/crates/leanbun-approval-macos/src/launch_reservation.rs:202-275 | Every claim answered in time, with a plan its fresh preflight confirms, can be carried through to one reservation for its challenge: a concrete run that succeeds |
| ApprovalRules.ReservesExactly | rust/crates/leanbun-approval-macos/src/launch_reservation.rs:202-310 | One stage after the other, a claim becomes a reservation if and only if it is of the request that is run, its fresh preflight finds what the plan says, executable and environment are there, and all nine times are in order before the expiry; and the reservation is of that claim, plan and time |
| Layering.Closure | scripts/check-crate-layering.ts:154-167 | Terminates and returns exactly the crates reachable from the root, and fails if and only if one of them is not in the graph |
| Layering.CheckLayering | scripts/check-crate-layering.ts:169-261 | The report is empty if and only if the graph is layered; the check throws exactly when evidence or codec reaches a missing crate; a historical crate is reported for a root exactly when the root reaches it |
| Layering.CheckRoot | scripts/check-crate-layering.ts:228-248 | For one mainline root: no complaint if and only if it reaches no historical crate, nothing missing, and obeys the lock split |
| Layering.CheckEvidence | scripts/check-crate-layering.ts:181-190 | Evidence reaches only itself, codec and core if and only if there is no complaint |
| Layering.CheckCodec | scripts/check-crate-layering.ts:192-210 | Codec stays below evidence and its consumers depend on it directly if and only if there is no complaint |
| Layering.ClosedHoldsReachable | scripts/check-crate-layering.ts:154-167 | A set closed under dependencies that holds the root holds everything reachable |
| ArtifactTree.SameStreamSameFiles | rust/crates/leanbun-build/src/lib.rs:53-126 | Two trees whose files are read whole (the two inspections agree, and tell the number of bytes read) feed the hasher the same bytes if and only if they hold the same relative paths, kinds, executable bits and contents, whatever order their directories are listed in |
| ArtifactTree.ListCut | rust/crates/leanbun-build/src/lib.rs:70-123 | For files read whole, the hashed bytes determine the sorted list of entries |
| ArtifactTree.PathsDiffer | rust/crates/leanbun-build/src/lib.rs:128-171 | Different entries of a tree have different relative paths |
| ArtifactHash.CollectEntries | rust/crates/leanbun-build/src/lib.rs:128-171 | The recursive walk pushes exactly the entries below a directory and fails exactly on a path that is not UTF-8, a special file or too many entries |
| ArtifactHash.HashEntries | rust/crates/leanbun-build/src/lib.rs:68-125 | The loop feeds exactly the entry bytes, with the size inspected before the bytes read, and fails exactly past a file or tree limit, or when a file's size or executable bits are different after it has been read |
| ArtifactHash.ProjectArtifactBytes | rust/crates/leanbun-build/src/lib.rs:53-126 | Walk, sort and loop together feed the tree's stream, or refuse exactly on a path that is not UTF-8, a special file, a limit, or a file whose size or executable bits changed while it was read |
| ArtifactHash.AcceptedMeans | rust/crates/leanbun-build/src/lib.rs:53-126 | In numbers: no special file, at most 500,000 entries with UTF-8 paths, each file at most 2^30 bytes and unchanged, and 2^34 bytes in all |
| ArtifactHash.ShortReadCollides | rust/crates/leanbun-build/src/lib.rs:100-123 | When a file is read short and restored before it is inspected again the stream is ambiguous: for every mode and content, two different accepted trees feed the hasher the same bytes |
| ExecutionRoundTrip.OutcomeRoundTrip | rust/crates/leanbun-evidence/src/execution_record.rs:366-487 | The reader takes an encoded outcome back unchanged if and only if its numbers are in range and it obeys the cross-field rules |
| ExecutionRoundTrip.OutcomeCanonical | rust/crates/leanbun-evidence/src/execution_record.rs:366-487 | Every accepted outcome object is the encoding of the outcome it decodes to, up to an exit code of -0 for 0: no unknown, missing or reinterpreted field |
| ExecutionRoundTrip.OutcomeAcceptedExactly | rust/crates/leanbun-evidence/src/execution_record.rs:366-487 | An object decodes to an outcome if and only if it is, up to that spelling, the encoding of that outcome, whose numbers are in range and which obeys the cross-field rules |
| ExecutionRoundTrip.TreeRoundTrip | rust/crates/leanbun-evidence/src/execution_record.rs:505-526 | A reuse tree reads back if and only if its counts are in range and it has no more files than entries |
| ExecutionDocument.DocumentRoundTrip | rust/crates/leanbun-evidence/src/execution_record.rs:229-364 | A whole record reads back unchanged if and only if it obeys the rules on path, target, policy digests, recovery identity, times and outcome |
| ExecutionDocument.DocumentCanonical | rust/crates/leanbun-evidence/src/execution_record.rs:229-364 | Every accepted document is, up to that spelling, the encoding of the record it decodes to |
| ExecutionDocument.DocumentAcceptedExactly | rust/crates/leanbun-evidence/src/execution_record.rs:229-364 | A document decodes to a record if and only if it is, up to that spelling, the encoding of that record, which obeys the rules on ranges, path, target, policy digests, recovery identity, times and outcome |
| ExecutionRules.RecordAcceptedExactly | rust/crates/leanbun-evidence/src/execution_record.rs:229-364 | The same without the reader's own predicates: a path of names after slashes, printable and at most 4,096 bytes, with its digest; a target of 1 to 256 units; one policy that fits the status; a recovery identity whole or absent; an end that fits the status and is not before the start; and an outcome as in the next row |
| ExecutionRules.OutcomeRules | rust/crates/leanbun-evidence/src/execution_record.rs:366-487 | What an outcome may say, status by status, with numbers up to 2^53 - 1 and messages up to 1,024 units |
| ExecutionDocument.BegunIsReadable | rust/crates/leanbun-evidence/src/execution_record.rs:257-300 | A running record is readable as soon as it is begun if and only if its project path has no control character and at most 4,096 bytes |
| ExecutionDocument.FinalizedIsReadable | rust/crates/leanbun-evidence/src/execution_record.rs:229-364 | A record finalised by any coordinator is readable if and only if its project path has no control character and at most 4,096 bytes, its clock did not run backwards and its outcome is acceptable |
| ExecutionDocument.BuildRecordIsReadable | src/application/controlled-build-probe.ts:445-473 | The record of every finished build, however its process ended, is readable if and only if the path is readable, it does not finish before it starts, its numbers are in range and, when it completed, no tree counts more files than entries |
| ExecutionDocument.ErrorRecordsAreReadable | src/application/controlled-build-probe.ts:365-378 | Each of the three records that carry an error's message is readable if and only if, besides path, time and exit code, the cut at 1,024 units does not fall after a high surrogate |
| ExecutionDocument.ReuseRecordIsReadable | src/application/reuse-transaction.ts:244-260 | The record of a granted reuse is readable if and only if the path is readable, it does not finish before it starts, and its count and evidence are in range |
| ExecutionDocument.DenialRecordIsReadable | src/application/reuse-transaction.ts:217-233 | The record of a denied or cancelled reuse, with the message the coordinator composes, is readable if and only if the path is readable, it does not finish before it starts and its artifact count is in range |
| ExecutionDocument.RecoveryRecordIsReadable | src/application/recover-execution.ts:345-361 | The record of every recovered execution, with the message the recovery composes, is readable if and only if the path is readable, it does not finish before it starts and its artifact count is in range |
| ExecutionWriters.BuildAccepted | src/application/controlled-build-probe.ts:445-473 | The outcome of a finished build is accepted, as completed if it succeeded and as failed otherwise, exactly when its numbers are in range and, when it succeeded, no tree counts more files than entries |
| ExecutionWriters.CompletedExactly | src/application/controlled-build-probe.ts:400-473 | A finished build is recorded as completed, with evidence and no failure stage, if and only if Lake exited with 0 on its own and each of the seven observations holds; otherwise it is failed, without evidence, with stage post-build-verification exactly when the process ended on its own; every observation is told as it was made |
| ExecutionWriters.FirstEventDecides | src/adapters/build-sandbox.ts:165-192 | The first of deadline, abort and exit decides how a process ended, and the rest change nothing |
| ExecutionWriters.ReusedExactly | src/application/reuse-transaction.ts:170-256 | A reuse is recorded as reused, repeating its candidate's evidence, if and only if nothing cancelled it, every check passed, the artifacts were observed and the candidate has evidence; otherwise it tells what it found and why it was denied |
| ExecutionWriters.FailuresTell | src/application/controlled-build-probe.ts:288-297 | The records that carry an error's message tell their stage, the first 1,024 units of the message, after Lake has run the exit code, and nothing else |
| ExecutionWriters.RecoveryTells | src/application/recover-execution.ts:320-361 | A recovery records a failure, tells what it observed, and says whether all of it is as the execution left it |
| ExecutionWriters.FailuresAccepted | src/application/controlled-build-probe.ts:288-297 | An outcome with an error's message cut to 1,024 units is accepted exactly when the cut leaves no half of a surrogate pair |
| ExecutionWriters.SliceBreaksPair | src/application/controlled-build-probe.ts:365-378 | Cutting a well-formed message at 1,024 units breaks it exactly when the last kept unit is a high surrogate |
| ExecutionWriters.TriggerExactlyForSignal | src/adapters/build-sandbox.ts:165-192 | Whatever deadlines, aborts and exits arrive in whatever order, a trigger signal is recorded exactly for signal termination |
| ExecutionWriters.AuditedAccepted | src/application/reuse-transaction.ts:217-233 | Denied reuse and recovery outcomes are accepted exactly when their own message and count are in range |
| ExecutionWriters.ReusedEvidenceAccepted | src/application/reuse-transaction.ts:260-301 | Evidence accepted in a completed build is accepted again in every record that reuses it |
| ExecutionText.TextOrderIsClockOrder | rust/crates/leanbun-evidence/src/execution_record.rs:302-322 | Comparing two canonical timestamps as texts, as the reader does, compares the milliseconds of the clock, leap years included |
| ExecutionText.ParseMoment | rust/crates/leanbun-evidence/src/project_binding.rs:250-297 | A text is accepted as a timestamp if and only if it is the spelling of a moment of the calendar, which is then its value |
| ExecutionText.ParseDigest | rust/crates/leanbun-core/src/identity.rs:33-47 | A text is accepted as a digest if and only if it is the lower-case hexadecimal of 32 bytes, which are then its value |
| ExecutionRules.UuidExactly | rust/crates/leanbun-core/src/identity.rs:120-140 | The accepted identifiers are the dashed lower-case spellings of UUIDs of version 4 and the variant of RFC 9562 |
| ExecutionRules.CalendarExactly | rust/crates/leanbun-evidence/src/project_binding.rs:268-297 | The accepted moments are those of the Gregorian calendar in the years 1 to 9999 |
| ExecutionRules.Format | rust/crates/leanbun-evidence/src/project_binding.rs:250-262 | A moment is written with its marks in the fixed format of 24 characters |
| ExecutionRules.GregorianYears | rust/crates/leanbun-evidence/src/project_binding.rs:289-294 | The days before a year are 365 for each year and one for every fourth, but not every hundredth, save every four-hundredth |
| ExecutionRules.SizeIsEncoding | rust/crates/leanbun-evidence/src/execution_record.rs:262-263 | The size a path is limited by is that of its UTF-8 encoding |
| ExecutionRules.CanonicalIsPath | rust/crates/leanbun-evidence/src/execution_record.rs:528-541 | The canonical paths are the root and the names after slashes that are not empty, not dots and printable |
| ExecutionRules.TargetExactly | rust/crates/leanbun-core/src/identity.rs:175-185 | Targets are 1 to 256 units without a leading dash, two dots together, or a control |
| ExecutionText.ResolvedIsCanonical | rust/crates/leanbun-evidence/src/execution_record.rs:528-541 | A path made of the names a resolved directory has is canonical to the reader if and only if no name holds a control character |

## Left out

- Process spawning, signals, sandbox profiles, `lsof`, Git, terminal and ACL queries: foreign calls; their results are inputs of a step or absent.
- fsync, permission bits and symlink checks beyond one sealed flag per artifact object and one synced flag per approval slot.
- Clocks and random identifiers: parameters of the steps; execution and process identifiers are fresh.
- Inspection, manifest matching and image evidence: a coordinator's decision is an input of `Decide`, and an ineligible reuse decides to fail.
- Command line, reports, diagnostics text and help output.
- The fixed contract tables of the approval crate, and `evaluateBuildAuthorization`: finite tables.
- The launch environment assembly of `launch_intent.rs` and the fresh Lake preflight of the plan crate: their outcomes are inputs of `PrepareIntent` and `ReverifyAt`.
- The text forms of approval records: each stage's hashed text is a value with the same fields, so the JSON spelling is not modelled.
- Lock files, execution locks and records as bytes in the protocol: a lock file is its owner and whether it is written; the fields of a record that reuse does not compare are one number each.
- The lock-file retry loop after an existing lock: a waiting coordinator is one that has not created its lock yet or stops.
- A recovery's other refusals (missing identity, changed project path, active project processes): a recovery that refuses stops.
- Reading the record directory entry by entry: selection sees the store at one point. Under mutual exclusion only a recovery's failed record could appear meanwhile, and it is no candidate.
- WireRequest.IdentityDeterminesRequest: the identity is built as a value, not by appending in a loop.
- Approval.ValidateClaim: the stages are functions of the clock; slot creation and syncing are steps of the machine, so a slot's file name and bytes are not modelled.
- ArtifactHash.ProjectArtifactBytes: takes the tree as one value with each file's metadata before and after reading; entries that appear or vanish between the walk and the loop are not modelled.
- Layering.CheckLayering: the report is a set of complaints; their wording and sorting are not modelled, nor are the reading of Cargo metadata and the comparison with its default members.
- ExecutionDocument.DocumentRoundTrip: field names are constants, any other name being refused by number; the digest of a project path is a parameter, the reader's limit of 65,536 bytes on the file is left out, and all failures are one refusal.
- The order of fields in JSON objects and the text of records: covered by the strict parser, which preserves numbers as written; in records a number is an integer, -0, or anything else.
- `validRecord` and `validOutcome` of the TypeScript reader: the Rust reader is the one modelled.
- DiagnosticJson.PrintThenParse: diagnostic codes are arbitrary texts rather than the fixed list.
