# Verified model of the short-drama control plane

A Dafny 4.11 model of the parts of the repository whose correctness is hard to see by reading, with proofs.
`dafny verify dfyconfig.toml` checks everything.

## What is modelled

**The atomic Canary ledger** (`Ledger*.dfy`). An at-most-once submission protocol over a PostgreSQL database.
`LedgerTables` has the rows and the claim binding, `LedgerSchema` the CHECK constraints, unique indexes and triggers
of migrations 0007 and 0008, `LedgerClassify` row selection and the pure classifier. `LedgerMachine` is a transition
system at the grain of one statement: concurrent claim and record transactions, row locks, a commit whose
acknowledgement may be lost, rollbacks, crashes that drop permits and receipts, a classification read after a
failure, and an environment step (`Foreign`) that may commit anything the constraints and triggers allow.
`LedgerSafety` holds the invariant every step keeps; `LedgerTheorems`, `LedgerOutcomes` and `LedgerCosts` hold the
results over whole runs. `LedgerQuiet` is the special case in which no foreign commit puts a row into what a claimed or
in-flight binding selects; there the conditions on selected rows always hold. `LedgerStore` has the one-shot permit, the
receipt and the store as objects, each method equal to a transaction function, and proves that an uninterrupted
transaction is a run of the machine. `LedgerWitnesses` builds the runs in which the ledger's answers disagree.

**History replay at the promotion boundary** (`StatusMonotonicity.dfy`). The occurrence map, the ancestry worklist, and
the relation between successive records that they decide.

**The creative compiler** (`Creative*.dfy`, `Subtitle*.dfy`). The sample contract as a declarative predicate and as the
source's single pass with running tallies; the compiler; the contracts it instantiates; subtitles and voice timing.

**Codecs and loops.** PNG chunks and the reviewed image profile (`Png*.dfy`), asset packs with their manifest as JSON
bytes (`AssetPack*.dfy`, `CanonicalJson.dfy`, `Utf8.dfy`), the output closure, the steps of a run with the pack inside
it and report-last publication (`OutputClosure.dfy`, `Stage*.dfy`, `Publication.dfy`), the two-reviewer metrics
(`ReviewMetrics.dfy`, `SampleMetrics.dfy`), the PDF object walk (`PdfWalk.dfy`), evidence bundles (`KeyedSort.dfy`,
`EvidenceBundles.dfy`).

## Assumptions

- Identifiers and digests taken over a whole document are injective: they are datatype constructors (`StableId`, `Id`,
  `Digest`, `TreeSha`, `BundleId`), or a function with an injectivity hypothesis stated where it is used (`Faithful`,
  `Injective`). The truncation of an identifier to twenty hexadecimal digits is part of that assumption.
- The clock, the outcome of a commit, and the session are parameters or steps of the environment.
- The image validator of an asset pack is any predicate; files reach it only between one byte and 512 MiB (`Sound`).
  Python turns no integer of more than 4,300 digits into text, so no valid asset version carries one (`ValidVersion`).
- zlib, CRC-32, the catalog of a report and decimal division are functions with their inverse or accuracy property as a
  hypothesis (`Inverts`, `decode(encode(c))`, `Accurate`). `Accurate` covers every division rounded to 28 digits.
- Creating a file is atomic, and nobody else writes to a directory that publication has claimed.
- Python object identities stay with their objects during one walk of a PDF graph.

## What the proofs found

- The reviewed maximum cost is stored as NUMERIC(18,6) and compared with the unrounded value afterwards. A cost that is
  not a whole number of millionths makes its own committed claim classify as CONFLICT, or as CORRUPTION beside foreign
  rows (`StorableCosts`, `CommittedClaimAnswer`, `CommittedClaimInAnyRun`), and a cost below half a millionth rounds to
  zero and fails the CHECK (`ClaimRowsPassChecks`). `SevenDecimalClaimConflicts` is a whole claim that this happens to.
  Such a claim gets a permit and can never record its task (`RoundedCostNeverOwns`).
- `record_owned_task` can answer RESUME_OWNED_TASK for rows that classification then calls CORRUPTION: it accepts a claim
  whose Run is at HUMAN_GATE, and it does not see rows that other clients insert after its reads. In every run the two
  agree exactly when the claim's queries find only its own rows, and the Run is RUNNING or the provider state is a
  terminal failure (`RecordAgreesInEveryRun`). `HumanGateDisagreement` and `ForeignEventDisagreement` are runs from an
  empty ledger that end in the two disagreements.
- A dialogue line of white space passes the sample contract and stops subtitle printing; subtitles are printed exactly
  when no line is blank (`SubtitlesForSample`). `SubtitlesOfBlankSample` is a whole valid sample that is refused.
- Four-decimal rates cannot move a decision at the sizes a sample has; at twenty thousand cases they can
  (`ManyCasesMoveARate`).
- Adding rows to a claim never upgrades its answer, and that rests on the schema: the classifier by itself would turn
  CORRUPTION into another answer on rows that lack only the acceptance event of an owned task (`DegradationIsExact`), and
  the foreign key with append-only events keeps such rows from ever being read (`NotUpgradable`).
- Two tests of the source never fire alone: the contiguity test of PNG data chunks (`ContiguityIsImplied`) and the
  test that every scene and character is referenced (`CountsImplyReferences`).

## Model

| member | source | states |
|---|---|---|
| LedgerTheorems.AtMostOncePermit | src/sdc/evidence_ledger.py:391-546 | In every run of claims, records, rollbacks, lost acknowledgements, crashes and allowed foreign commits, no two permits come from bindings that share a run, authorization id or digest, plan, execution, nonce or fingerprint |
| LedgerTheorems.Conservation | src/sdc/evidence_ledger.py:138-169 | Acceptances, receipts, consumed permits, permits, claims and claim events never exceed one another in that order |
| LedgerTheorems.ClaimedStaysClaimed | src/sdc/evidence_ledger.py:1016-1044 | Once claimed, no reachable state classifies a binding as unclaimed again, under any update the schema allows |
| LedgerTheorems.ResumeIsStable | src/sdc/evidence_ledger.py:1095-1142 | Whatever task and submission time a state resumes, every later state that resumes one resumes the same |
| LedgerTheorems.AcceptedTaskIsTheResumedTask | src/sdc/evidence_ledger.py:589-725 | A resumed task is the one its receipt recorded, with the recorded time |
| LedgerTheorems.OtherStepsAreInvisible | src/sdc/evidence_ledger.py:927-1014 | One step of another binding changes neither the rows selected for a claim nor its classification |
| LedgerTheorems.InterferenceFreedom | src/sdc/evidence_ledger.py:343-360 | The same over whole runs of other bindings |
| LedgerTheorems.WaitingFollowsLockOrder | src/sdc/evidence_ledger.py:391-403 | A waiting transaction waits for one further along the lock order |
| LedgerTheorems.NoDeadlock | src/sdc/evidence_ledger.py:568-589 | In every reachable state with an open transaction some transaction can take its next statement |
| LedgerTheorems.ReadsToCommitAreExclusive | src/sdc/evidence_ledger.py:945-947 | From the first read to the commit no two transactions overlap, across all Runs and both protocols |
| LedgerTheorems.ClaimedAnswer | src/sdc/evidence_ledger.py:727-772 | The rows a claim left behind are always found by its own queries |
| LedgerSafety.StepKeepsInv | migrations/versions/0008_atomic_canary_ledger.py:178-338 | Every enabled step, foreign commits included, keeps durable claims, disjoint keys, exclusive locks and the bookkeeping of permits |
| LedgerSafety.RunKeepsInv | src/sdc/evidence_ledger.py:391-546 | Every legal run keeps them |
| LedgerSafety.DurableSurvives | migrations/versions/0008_atomic_canary_ledger.py:178-275 | Append-only triggers and the identity trigger keep a claim's three rows recognisable for ever |
| LedgerSafety.OwnershipIsNotRepeated | src/sdc/evidence_ledger.py:589-641 | A claim that owns a task never passes the checks before the ownership write again |
| LedgerClassify.ExtraRowsOnlyDegrade | src/sdc/evidence_ledger.py:927-1142 | Whatever rows are added to a complete claim read from a consistent database, in one snapshot or three reads, the answer stays the same or becomes CORRUPTION |
| LedgerClassify.NotUpgradable | migrations/versions/0008_atomic_canary_ledger.py:24-130 | No reads of a consistent database find an owned Attempt without its acceptance event |
| LedgerClassify.DegradationIsExact | src/sdc/evidence_ledger.py:1016-1142 | The classifier alone, on any complete claim: supersets answer the same or CORRUPTION exactly unless the rows match and lack only the acceptance event of an owned task in an answerable state |
| LedgerTheorems.InsertsOnlyDegrade | src/sdc/evidence_ledger.py:1016-1142 | In every reachable state, a commit that only inserts rows leaves the answer for a claim or turns it into CORRUPTION |
| LedgerOutcomes.UnownedClaimInAnyRun | src/sdc/evidence_ledger.py:1016-1093 | In every run a claim without a task is gated, and as SUBMISSION_UNKNOWN exactly when its queries find only its own rows, in the stated row and Run states |
| LedgerOutcomes.CommittedClaimInAnyRun | src/sdc/evidence_ledger.py:516-545 | After a commit whose acknowledgement was lost, reclassification is a gate, and SUBMISSION_UNKNOWN exactly when the queries find only the new rows and the stored cost is exact |
| LedgerOutcomes.RecordAgreesInAnyRun | src/sdc/evidence_ledger.py:641-725 | In every state that keeps the invariant, the answer of a committing record is the classification of the committed rows exactly when the queries find only the claim's own rows, the stored cost is exact, and the Run is RUNNING or the provider state is terminal |
| LedgerCosts.RecordAgreesInEveryRun | src/sdc/evidence_ledger.py:641-725 | In every legal run the cost is always exact there, so the selected rows and the Run and provider states decide; otherwise the classification is CORRUPTION |
| LedgerCosts.RoundedCostNeverOwns | src/sdc/evidence_ledger.py:1169-1205 | In every legal run every recorded ownership, and every task at the ownership write, belongs to a claim whose cost its column holds exactly |
| LedgerWitnesses.HumanGateDisagreement | src/sdc/evidence_ledger.py:641-725 | For every admissible binding, a legal quiet run from an empty ledger ends with a record that resumes a task and rows that classify as CORRUPTION |
| LedgerWitnesses.ForeignEventDisagreement | src/sdc/evidence_ledger.py:641-725 | For every admissible binding, a legal run with the Run RUNNING in which an event inserted after the record's reads has the same effect |
| LedgerOutcomes.OwnedClaimIsNotWrittenAgain | src/sdc/evidence_ledger.py:589-641 | No later receipt, of whatever task id, reaches the ownership write of an owned claim |
| LedgerOutcomes.StorableCosts | src/sdc/evidence_ledger.py:1169-1205 | A cost survives the column exactly when it is a whole number of millionths |
| LedgerOutcomes.StoredCostRange | migrations/versions/0007_evidence_bound_authorization.py:36-64 | Which costs stay positive after storage |
| LedgerOutcomes.ClaimRowsPassChecks | migrations/versions/0008_atomic_canary_ledger.py:24-53 | The inserted rows satisfy both CHECK constraints exactly when the cost is at least half a millionth |
| LedgerOutcomes.OwnershipPassesCheckAndTrigger | migrations/versions/0008_atomic_canary_ledger.py:202-264 | The ownership update satisfies the CHECK and the identity trigger |
| LedgerOutcomes.AdmittedClaimHasTimeLeft | src/sdc/evidence_ledger.py:892-915 | An admitted claim leaves more than twenty seconds after the socket bound before all three deadlines |
| LedgerOutcomes.UnselectedClaimCommits | src/sdc/evidence_ledger.py:444-510 | With nothing selected the inserts commit exactly when the cost is not rounded away and the names are free |
| LedgerOutcomes.UnownedRecordCommits | src/sdc/evidence_ledger.py:641-700 | After the checks before it, the ownership write commits exactly when the task id and the names of the acceptance event are free |
| LedgerStore.PostPermit.Consume | src/sdc/evidence_ledger.py:138-143 | Succeeds once |
| LedgerStore.PostPermit.IssueReceipt | src/sdc/evidence_ledger.py:145-169 | Succeeds once, only after consumption, for a well-formed task and state; otherwise the source's error |
| LedgerStore.CanaryLedgerStore.Claim | src/sdc/evidence_ledger.py:383-545 | The whole claim transaction equals its specification, a permit only on an acknowledged commit |
| LedgerStore.CanaryLedgerStore.RecordOwnedTask | src/sdc/evidence_ledger.py:547-725 | The whole record transaction equals its specification |
| LedgerStore.StoreClaimIsAMachineRun | src/sdc/evidence_ledger.py:391-515 | A claim that yields a permit is a legal run of the interleaved machine with the same database and permit |
| LedgerStore.StoreRecordIsAMachineRun | src/sdc/evidence_ledger.py:560-700 | A committing record is a legal run of the machine |
| LedgerStore.ReplayedReceipt | src/sdc/evidence_ledger.py:589-625 | In every state after a record, any receipt for that claim writes nothing; the answer is the classification, never SUBMISSION_UNKNOWN, and CONFLICT for another task id where the recorded task is resumed |
| LedgerStore.ReplayRightAfterRecord | src/sdc/evidence_ledger.py:589-725 | On the rows a record just committed, the same receipt again gets the same answer and a receipt for another task gets CONFLICT, with any clock and session outcome, and nothing is written |
| LedgerStore.SecondClaimIsRefused | src/sdc/evidence_ledger.py:404-443 | After a claim, a binding sharing any key gets no permit and writes nothing |
| StatusMonotonicity.ObservationOccurrenceMap | src/sdc/generated_reference_asset_promotion.py:3796-3824 | Succeeds exactly on canonical documents with unaliased anchors, and returns their map |
| StatusMonotonicity.CompleteAncestry | src/sdc/generated_reference_asset_promotion.py:3871-3879 | The worklist stops on every finite graph, cycles included, with exactly the anchors reachable from the targets |
| StatusMonotonicity.VerifyFinalRecordMonotonicity | src/sdc/generated_reference_asset_promotion.py:3836-3886 | Accepts exactly when the later record continues the earlier one |
| StatusMonotonicity.ContinuesItself | src/sdc/generated_reference_asset_promotion.py:3840-3886 | A record continues itself exactly when it can be read |
| StatusMonotonicity.ContinuesTransitively | src/sdc/generated_reference_asset_promotion.py:3848-3886 | Continuation is transitive, because retained occurrences keep their predecessor edges |
| StatusMonotonicity.RetainedEdges | src/sdc/generated_reference_asset_promotion.py:3850-3869 | A byte-identical occurrence has the same predecessors in both records |
| StatusMonotonicity.HistoryNeverShrinks | src/sdc/generated_reference_asset_promotion.py:3836-3886 | Along any chain of accepted records the last continues the first |
| CreativeValidator.ValidateCreativeSample | src/sdc/contracts.py:491-586 | The single pass accepts exactly the samples of the declarative contract |
| CreativeValidator.CheckShots | src/sdc/contracts.py:524-571 | The loop over the shots, with what its tallies stand for |
| CreativeValidator.CountsImplyReferences | src/sdc/contracts.py:575-586 | The reference-closure test follows from the two count tests |
| CreativeTheorems.SceneBlocks | src/sdc/contracts.py:543-548 | Each scene's shots are a prefix and the matching suffix of the shot sequence |
| CreativeTheorems.DialogueOrder | src/sdc/contracts.py:508-585 | Dialogue references read shot by shot are the whole dialogue in ordinal order, which no validator tests |
| CreativeTotality.ScenesTileTheTimeline | src/sdc/contracts.py:615-623 | Scene starts are prefix sums and the scenes cover the sample |
| CreativeTotality.SceneDialogueOrder | src/sdc/compiler.py:163-205 | Dialogue read scene by scene is the dialogue in order |
| CreativeTotality.NirAccepts | src/sdc/contracts.py:611-651 | The narrative contract accepts what the compiler builds |
| CreativeTotality.StoryboardAccepts | src/sdc/contracts.py:676-730 | So does the storyboard contract, unique asset bindings included |
| CreativeTotality.PirAccepts | src/sdc/contracts.py:739-760 | So does the production contract |
| CreativeTotality.CompilationAccepts | src/sdc/contracts.py:832-926 | So does the closure over scenes, bibles, dialogue, cues, jobs and assembly |
| CreativePipeline.CompileCreativeSample | src/sdc/compiler.py:154-326 | Returns the compilation exactly when every contract on the way accepts |
| CreativePipeline.CompilerIsTotal | src/sdc/compiler.py:154-326 | For every validated sample every contract accepts |
| CreativePipeline.CheckPirTimeline | src/sdc/contracts.py:739-760 | The cursor loop decides the production contract |
| Subtitles.TimestampRoundTrip | src/sdc/creative_media.py:670-674 | A printed time decodes to the exact millisecond, for every number of hours |
| Subtitles.RenderSrt | src/sdc/creative_media.py:677-697 | Prints exactly ordered, non-empty, non-blank subtitles, and says which test failed |
| Subtitles.CleanIsEmptyExactlyForBlank | src/sdc/creative_media.py:685-687 | The emptiness test is a test for white space; cleaned texts are one line |
| SubtitleDecoder.SrtRoundTrip | src/sdc/creative_media.py:677-697 | Reading a printed document gives back every interval and every cleaned text |
| CreativeMedia.CheckVoiceTracks | src/sdc/creative_media.py:709-759 | The timing tests of the audio master accept exactly fitting voice tracks |
| CreativeMedia.DialogueTimingIsAccepted | src/sdc/contracts.py:508-522 | The dialogue of a validated sample passes the timing tests of both media steps |
| CreativeMedia.SubtitlesForSample | src/sdc/creative_sample.py:1443-1447 | Subtitles exist exactly when no line is blank, and decode to the dialogue |
| CreativeWitness.SampleIsValid | src/sdc/contracts.py:491-586 | A whole sample that the contract accepts whatever its one line says, a blank one included |
| CreativeMedia.SubtitlesFollowTheShots | src/sdc/compiler.py:207-271 | Subtitle k is the k-th reference met when reading the shots in order |
| PngCodec.ParseExactlyUndoesPrint | src/sdc/asset_pack.py:66-92 | Parsing bytes gives chunks exactly when the bytes are those chunks printed, within the chunk budget |
| PngCodec.ReadChunks | src/sdc/asset_pack.py:70-92 | The offset loop computes that parse |
| PngCodec.FrameOfPrinted | src/sdc/creative_pilot.py:119-125 | A printed chunk is read back from its frame |
| PngProfile.ValidateSanitizedPng | src/sdc/asset_pack.py:66-136 | Accepts exactly the signature followed by one header, data chunks and one empty end, printed, with an accepted image inside |
| PngProfile.PrintsExactlyParsed | src/sdc/asset_pack.py:66-92 | At most one chunk sequence prints as given bytes |
| PngProfile.ContiguityIsImplied | src/sdc/asset_pack.py:99-101 | The contiguity test is implied by the tests before it |
| PngProfile.CheckSkeleton | src/sdc/asset_pack.py:93-101 | The boundary, metadata and count tests accept exactly one header, one run of data and one end |
| PngProfile.PixelSizeIsBounded | src/sdc/asset_pack.py:107-121 | An accepted image decodes to at most 64,004,096 bytes |
| PngProfile.CheckFilters | src/sdc/asset_pack.py:134-136 | The stride loop tests one filter byte for every scan line |
| PngProfile.PrintedImageIsAccepted | src/sdc/creative_pilot.py:128-139 | Every image of the profile, printed, is accepted |
| PngProfile.PlaceholderIsAccepted | src/sdc/creative_pilot.py:128-139 | So is every synthetic placeholder |
| AssetPacks.ExistingIsThePackTree | src/sdc/asset_pack.py:247-287 | An existing directory passes exactly when it is the tree of that manifest and those objects |
| AssetPackStore.Gather | src/sdc/asset_pack.py:378-397 | Sources are accepted exactly when they close over the versions, match their digests, are images, and agree where digests agree |
| AssetPackStore.PackStore.Freeze | src/sdc/asset_pack.py:372-438 | Adds the pack tree under a new id, or checks the existing one and changes nothing |
| AssetPackStore.FreezeTwice | src/sdc/asset_pack.py:408-411 | A second freeze leaves the store alone and answers the same pack, not created |
| AssetPackStore.WriteObjects | src/sdc/asset_pack.py:417-423 | The written tree is a function of the objects |
| AssetPackVerify.VerifyPack | src/sdc/asset_pack.py:290-369 | Accepts exactly packs whose identity, catalog, descriptor and tree hold |
| AssetPackManifest.ManifestReadsBack | src/sdc/asset_pack.py:162-233 | The printed manifest bytes, escapes and UTF-8 included, read back as the pack id and descriptor |
| AssetPackManifest.ManifestIsSmall | src/sdc/contracts.py:140-280 | The field bounds of at most four versions keep every manifest under 600,000 bytes, far below the limit of verification |
| AssetPackManifest.ManifestKeysAreSorted | src/sdc/asset_pack.py:215-233 | Every object of the printed documents has its keys in ascending order |
| CanonicalJson.ParseUndoesPrint | src/sdc/asset_pack.py:215-233 | Reading a printed JSON document gives back the value, for texts, numbers, lists and objects of any depth |
| AssetPackAgreement.FrozenPackVerifies | src/sdc/asset_pack.py:372-438 | Whatever can be frozen verifies under its own id, shared digests included |
| AssetPackAgreement.FreezeThenVerify | src/sdc/asset_pack.py:290-438 | A pack just created is accepted with the same id and object count |
| AssetPackAgreement.VerifiedPacksAgree | src/sdc/asset_pack.py:290-369 | Two verified packs of one sample are the same tree |
| OutputClosure.VerifyOutput | src/sdc/creative_sample.py:766-808 | The closure verifier accepts exactly trees that are what their report catalogs |
| OutputClosure.ReportDeterminesTree | src/sdc/creative_sample.py:766-808 | Equal report bytes mean equal files and equal directories |
| OutputClosure.SealedStageIsAccepted | src/sdc/creative_sample.py:1594-1634 | A stage sealed by its report is accepted exactly when it is small and has no empty file and no unused directory |
| Publication.PublishCompletedStage | src/sdc/creative_sample.py:1303-1334 | Publishes exactly when the name is free and the stage is accepted; the target is then the stage, and no earlier state of it holds a report |
| Publication.OnlyTheStageVerifies | src/sdc/creative_sample.py:1316-1331 | A recorded state of the target that verifies is the whole stage |
| Publication.UnfinishedStageNeverVerifies | src/sdc/creative_sample.py:766-771 | No cut-off state of a stage that is marked first and reported last verifies |
| StageRun.RunIsMarked | src/sdc/creative_sample.py:1405-1627 | The steps of a run are such a stage, whatever it imports and computes |
| StageRun.CutOffRunNeverVerifies | src/sdc/creative_sample.py:1405-1627 | Wherever a run is cut off, what it leaves does not verify |
| StageRun.FinishedRunIsAccepted | src/sdc/creative_sample.py:1594-1634 | A run that reaches its end leaves a stage that verifies exactly when it is small and has no empty file |
| StageRun.PublishFinishedRun | src/sdc/creative_sample.py:1303-1334 | Publishing it succeeds exactly for a free name and such a stage, and the target is the whole run |
| StagePack.PackSubtree | src/sdc/asset_pack.py:417-424 | What a finished run holds below its pack directory is exactly the tree of the pack |
| StagePack.FinishedRunHoldsItsPack | src/sdc/creative_sample.py:909-915 | The pack inside the output of a finished run passes verification against the sample, under its own id |
| ReviewMetrics.DeriveReviewMetrics | src/sdc/creative_sample.py:392-503 | Accepts exactly well-shaped reviews in storyboard order, and returns rates of the folded counts |
| ReviewMetrics.FirstSceneShots | src/sdc/creative_sample.py:405-410 | The remembered-scenes loop finds exactly the first shot of every scene |
| ReviewMetrics.RoundingKeepsThreshold | src/sdc/creative_sample.py:383-386 | Below a thousand cases the rounded rate reaches a threshold exactly when the counts do |
| ReviewMetrics.RateInRange | src/sdc/contracts.py:777-785 | Rounded rates stay in the contract ranges |
| ReviewMetrics.NoDuplicatesMeansDistinct | src/sdc/creative_sample.py:466-467 | The duplicate count is zero exactly when all media differ |
| SampleMetrics.FoldIsBounded | src/sdc/creative_sample.py:136-146 | Passes never exceed totals, and attempts plus first passes never exceed two per shot |
| SampleMetrics.SampleDecision | src/sdc/contracts.py:805-820 | For every compiled sample and admitted reviews the metrics exist, and PASS_SAMPLE and STOP hold exactly on the integer counts |
| SampleMetrics.PassBoundsAttempts | src/sdc/contracts.py:805-820 | A passing sample averages at most a take and a quarter per shot |
| SampleMetrics.ReviewersAreInterchangeable | src/sdc/creative_sample.py:345-376 | Exchanging the two reviewers changes no count |
| PdfWalk.WalkPdfObjectGraph | src/sdc/ark_entitlement.py:305-343 | A normal return means everything reachable is passive and resolves; other errors mean it is not; it gives up only on a graph that is itself too large, by edges among distinct reachable objects or by a chain without repetition; it always stops |
| PdfWalk.SmallGraph | src/sdc/ark_entitlement.py:305-343 | A graph of few objects and edges, cyclic or not, is never too large |
| PdfWalk.DecideGraph | src/sdc/ark_entitlement.py:305-343 | On every graph that is not too large the walk decides exactly |
| PdfWalk.ScreenEntitlementPdf | src/sdc/ark_entitlement.py:85-136 | The same with the lists and limits of the entitlement gate |
| KeyedSort.SortingForgetsOrder | src/sdc/evidence.py:103-128 | Sorting by a key that ends strictly ascending gives one result for every arrangement |
| KeyedSort.AscendingIsTheOnlyOrder | src/sdc/contracts.py:1422-1430 | Strictly ascending arrangements of the same items are equal |
| EvidenceBundles.OrderOfPartsDoesNotMatter | src/sdc/evidence.py:92-153 | One bundle, or none, for every permutation of objects, members and captures |
| EvidenceBundles.BuildingIsCanonical | src/sdc/contracts.py:1421-1457 | A valid content built again from its own parts is the same bundle |
| EvidenceBundles.CurrentMeansEveryCaptureHolds | src/sdc/evidence.py:201-216 | A bundle is current exactly from its assembly to its first expiry, and then every capture is in force |
| EvidenceBundles.VerifyObject | src/sdc/evidence.py:242-264 | The chunk loop with early exit returns the bytes exactly when size and digest match |
| EvidenceBundles.VerifyBundle | src/sdc/evidence.py:277-289 | Returns every member with bytes of its digest exactly when every declared object is intact |

## Left out

- Sessions, network, Temporal, FFmpeg processes, path and link checks, and text screening by pattern, length or Unicode form: operating-system and library behaviour. Contracts that screen a text and then copy it verbatim are modelled without the screening.
- Foreign-key locks, and the branches of the ledger that reject time stamps without a time zone.
- The promotion gates, decision projections and request or sidecar contracts of the promotion file: straight-line comparisons and literal data.
- `compile_story`: the same cursor loop as the modelled compiler, with fewer constraints.
- Derivation of the identifiers a sample carries from their own content, and the enumerations of shot sizes, angles and movements: the compiler is proved total for more samples than the contract admits.
- Cost, elapsed time and failure counters of the metrics: plain sums and copies.
- AssetPacks.ManifestDescriptor: sorts the object catalog by digest alone; the source sorts by digest and size, which differ only where one digest has two sizes.
- PngProfile.PlaceholderIsAccepted: assumes that fourteen compressed bytes fit in one chunk, since the compressor is any function with the inverse property.
- PdfWalk.WalkPdfObjectGraph: an indirect key resolves to the same object every time it is asked.
- OutputClosure.VerifyOutput: the closure part; the checks of the documents' contents after it are comparisons field by field.
- Publication.PublishCompletedStage: directories of one depth are made in any order, where the source also sorts them by name; the content checks of the verifier and the removal of the stage are not in it.
- StageRun.FinishedRunIsAccepted: the closure part of verification; of the content checks after it only the asset pack is modelled (`FinishedRunHoldsItsPack`).
- StageRun.PublishFinishedRun: the closure part as well; the contents of the files are parameters, and the report is modelled as its catalog.
