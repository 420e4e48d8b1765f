# Verification of joeydb-go

joeydb-go is a Go client for JoeyDB: it writes facts under an idempotency key
with bounded retries, validates and encodes typed write and query requests,
strictly parses ingestion batches and compiles them into facts writes.  This
project models those parts in Dafny and proves what their documentation and
comments promise of them.

`dafny verify dfyconfig.toml` checks everything.

## How it is laid out

| files | what they hold |
|---|---|
| `Server`, `KeyedWrite`, `KeyedWriteProperties`, `ObservedRuns`, `CommitPlacement`, `Reconciliation` | a node, its network and its other users as an adversary's script; `writeExact` against every script; what every run guarantees; what it does by what the network did; on which logs it commits; several runs under one key |
| `WriteTypes`, `Ownership`, `TripleStore`, `OrderFreedom`, `Refusals`, `OrderIndependence`, `Sharpness`, `WriteValidation`, `WriteErrors` | the typed write, the ownership check and the pairwise relation it decides, a triple store that refuses mutations of facts that are not active, when order is immaterial on it, what acceptance has to do with that and how sharp it is, the whole validator, and what its errors say |
| `Json`, `WriteWire`, `WriteBytes`, `WriteFeatures`, `Authoring` | wire trees and their decoder, the vocabulary a tree uses, and the way of a typed write from the caller to the retry loop |
| `Surrogates`, `StrictJson`, `JsonPaths` | the two strict JSON scanners, and what the paths they report mean |
| `JsonText`, `Ingest`, `IngestValidation`, `IngestIdentity`, `IngestCompiler`, `IngestCanonical`, `IngestProperties`, `IngestReadBack`, `IngestOwnership`, `IngestErrors`, `IngestRecords`, `Ingestion` | batches, their identities and size check, the validator and what its errors say, the compiler, its output written out, and what it guarantees |
| `SemanticKey`, `Query`, `QueryErrors`, `QueryWire`, `WireOrder` | framed semantic keys, the typed query, what its errors say and its encoding, the order of names on the wire |
| `Wrappers`, `Text`, `Keys`, `Permutations`, `Reporting` | option and result types, decimals and UTF-8, key syntax, sequences up to order, first broken rules |

Code that changes state in the original is a method or a class here (the
uncertainty record, the ownership table, the fact-target map, the running digest,
the token inspector, the size budget, the feature flags, every loop that keeps a
set); each is proved against a function or a predicate, and the promises are
proved about those.  A Go string is a Dafny string with one char per byte; an
integer width is stated where it can wrap.

What is taken from outside the code is always a parameter or a named hypothesis:

- The environment of a keyed write may lose a request, hold it back and deliver it
  during any later attempt or after the run, process it and lose the reply, damage
  the reply, answer in the node's place, swap the log, and let others write, at any
  time.  It may not answer a request it committed with a fully read non-2xx reply,
  nor commit a request that failed before it was sent or that the node refused:
  this is what `possiblySubmitted` relies on (`session.go:299-303`).  Nor may a
  reply claim a commit that did not happen on the log it names.
- What a typed write means is a store of facts, some of them active under an ID, and
  a request that names a fact by ID when it is not active is refused as a whole
  (`docs/SAFETY.md:37-42`, `write/types.go:155-212`).
- SHA-256 is a function into 64 hexadecimal digits.  That it does not collide on the
  texts at hand is the hypothesis `CollisionFree` or `Separates`, which speaks of
  the digest alone and appears only where identity of digests must mean identity
  of contents; that different values have different texts is proved.
- Quoting a JSON string yields valid UTF-8, at least the bytes of the string and
  two quotation marks, opens with one, and on valid UTF-8 ends where it says: no
  quoted string is another one and more.

Four places where the code and what one may expect of it part:

- The identity recheck and the resend are two steps, and nothing is checked before
  the first attempt.  If the log is swapped away before an attempt and back before
  the recheck, one run can commit one key on two logs (`OneRunMayCommitOnTwoLogs`).
  A run commits a key of its own exactly on the logs its requests find
  (`OwnKeyCommitsExactlyWhereRequestsLand`), hence on the pinned log alone exactly
  when the swaps before the first attempt, those between a recheck and a resend,
  and late requests leave it there (`PinnedLogOnlyExactlyWhen`).
- An `UncertainOperationError` is also returned when no attempt can have
  committed, namely when the identity recheck after a plain API error fails
  (`UncertainExactlyWhen`, `UncertaintyNamesTheFirstDoubt`).
- Validation cannot see which facts are active.  An accepted write may retract a
  slot and, by fact ID, a fact in that slot, and is then refused in one order and
  not in the other (`AValidRequestMayDependOnItsOrder`); and it may ensure a triple
  and retract or correct all the facts that bear it.  An accepted request is
  order-free on a store exactly when some fact it names is not active, so that it
  is refused anyway, or it drops no fact it names and no ensured triple loses its
  last bearers to facts it forgets by ID (`AcceptedMutationsCommuteExactlyWhen`).
  Looking at pairs of mutations is not enough (`PairsAreNotEnough`).
- Two claims of a trusted batch that assert one triple with different confidence
  or evidence are distinct to the ingest validator, and their compiled write is
  one the write validator refuses (`CompiledRequestIsValidExactlyWhen`,
  `AValidBatchMayBeRefused`).

## Model

| member | source | states |
|---|---|---|
| Server.AtMostOneCommitPerLog | session.go:186-193 | whatever requests a fresh node gets, from whomever and across whichever log swaps, a key commits at most once per log and its receipt is the committed body |
| Server.ProcessKeepsConsistency | session.go:186-193 | serving one request keeps receipts and commits in agreement; unless it conflicts, the key is then held with that body |
| Server.DisturbKeepsConsistency | session.go:193-279 | log swaps and other sessions' writes lose nothing recorded and add nothing in this run's name |
| KeyedWrite.NormalizedAttempts | types.go:185-191 | a policy of no stated attempts means one, 1 to 10 are kept, and others are refused |
| KeyedWrite.WriteUncertainty.Note | session.go:289-297 | the first possibly submitted attempt is recorded and never replaced |
| KeyedWrite.BetweenAttempts | session.go:242-277 | recheck, backoff and sleep either all pass, as a round of the trace, or stop the run with exactly the report of that stop |
| KeyedWrite.StoppedByContext | session.go:194-207 | a done context ends the run with the uncertainty, the stopped retry or the bare context error its history calls for |
| KeyedWrite.WriteExact | session.go:175-280 | against every script, the loop makes the run the trace predicate describes, leaves the world that run leaves, and returns the run's verdict; entry refusals touch nothing |
| ObservedRuns.RefusedAtEntryExactlyWhen | session.go:176-185 | before anything is sent, a session not preflighted, a key outside the alphabet, the limits or the prefix, and a body over the limit are refused, in this order |
| ObservedRuns.SucceedsExactlyWhen | session.go:305-337 | an attempt succeeds exactly when a reply without error, within the advertised size, has the replay header, says committed with the pinned 32-hex identity, and decodes |
| ObservedRuns.AttemptFailsExactly | session.go:209-232 | by what the network and the node did: whether an attempt succeeds, and otherwise with which error |
| ObservedRuns.SubmittedExactlyWhen | session.go:299-303 | an attempt may have committed exactly when the network broke or a 2xx reply was read that is no success |
| ObservedRuns.WorthRepeatingExactlyWhen | session.go:339-346 | worth repeating are breaks of the network and refusals that are declared retryable or have status 429; not a failure before sending, a reply that was read, or a conflict |
| ObservedRuns.FailuresCarryTheirRequestID | errors.go:229-238 | the request ID of a failure is the one handed out with the request or the reply |
| ObservedRuns.RecheckedExactlyWhen | session.go:234-242 | after its k-th write a run rechecks the identity exactly when k is below MaxAttempts and the error is a transport error, or an API error that is retryable or has status 429; otherwise the run is over |
| ObservedRuns.RecheckPassesExactlyWhen | session.go:242-252 | the recheck lets a run go on exactly when introspection answered in schema 1 or later with the pinned 32-hex identity |
| ObservedRuns.UncertainRunsNameTheirStop | session.go:242-277 | by the event that ended an uncertain run: its identity cause, its stop cause and the identity it observed |
| KeyedWriteProperties.ExchangeKeepsConsistency | client.go:91-186 | no outcome of one request, however the network behaves, breaks the once-per-log record |
| KeyedWriteProperties.RunKeepsConsistency | session.go:193-279 | after any number of attempts the node is consistent and extends what it was |
| KeyedWriteProperties.HappenKeepsConsistency | session.go:193-279 | whatever happens before an attempt, late requests of the run included, loses nothing recorded, and while no request of the run is under way it adds nothing in its name |
| KeyedWriteProperties.ValidatedReplyIsGenuine | session.go:305-337 | a reply that passes every success check means that the pinned log holds the key with these bytes, and if the node sent it, that it was serving that log |
| KeyedWriteProperties.ValidatedSuccessIsHeld | session.go:210-232 | an attempt without failure leaves the caller's bytes under the key on the pinned log |
| KeyedWriteProperties.CertainFailureChangesNothing | session.go:299-303 | a failure that possiblySubmitted calls certain changed nothing on any log |
| KeyedWriteProperties.CertainFailuresCommitNothing | session.go:299-303 | a prefix of certain failures contains no commit of this run, and none follows however much happens later |
| KeyedWriteProperties.EveryResendIsChecked | session.go:242-278 | every resend is of the same key and body, at most MaxAttempts in all, and follows a repeatable failure, a recheck that saw the pinned log, a non-negative backoff with the right retry index and an uninterrupted sleep |
| KeyedWriteProperties.EarlierAttemptsFailed | session.go:233-241 | every attempt that was followed by anything failed in a repeatable way |
| KeyedWriteProperties.NilErrorMeansValidatedSuccess | session.go:210-232 | no error is returned exactly when the run's last event is a validated success |
| KeyedWriteProperties.SuccessIsExactlyOnce | session.go:193-232 | after success, and whatever happens later, the pinned log holds a receipt for the key with the caller's bytes, and exactly one commit on that log carries the key |
| KeyedWriteProperties.UncertainExactlyWhen | session.go:210-277 | uncertainty is reported exactly when the run failed and some attempt may have been submitted or the identity recheck stopped it |
| KeyedWriteProperties.UncertaintyNamesTheFirstDoubt | session.go:360-385 | cause and uncertain request ID are those of the first possibly submitted attempt, Last is set exactly when the final attempt is another; without a submitted one they are the final attempt's |
| KeyedWriteProperties.FailuresNameTheirStop | session.go:194-277 | for each kind of returned error: which response, stop cause, identity cause and observed identity it carries, and that a mismatch report names a log other than the pinned one |
| KeyedWriteProperties.OrdinaryErrorMeansNothingCommitted | session.go:194-277 | any error other than an uncertainty report proves that no attempt of the run committed on any log, nor will later |
| KeyedWriteProperties.LostRequestLooksLikeLostResponse | session.go:299-303 | a lost request and a lost response give the client the same outcome, and only one of them committed |
| KeyedWriteProperties.TraceIsDetermined | session.go:193-279 | a script allows exactly one trace |
| Reconciliation.ReconciledExactlyOnce | docs/SAFETY.md:132-149 | once one of several runs of a write under one key has succeeded, however uncertain the others, the key has exactly one commit on the pinned log over all of them, and a run that found it held left it as it was |
| Reconciliation.OrdinaryErrorsCommitNothing | session.go:194-277 | when every run under the key ends in an ordinary error, none has committed anything on any log |
| KeyedWriteProperties.OneRunMayCommitOnTwoLogs | session.go:242-252 | a concrete script on which a successful run commits its key on two logs |
| CommitPlacement.CommitsAreFirstTouches | session.go:186-193 | on every log, the key is committed by the request that first found that log, the run's or anybody's, unless the log held the key at the start |
| CommitPlacement.AttemptCommitsExactlyWhen | session.go:208-209 | an attempt adds a commit exactly when the node serves it while on a log where nobody has written the key |
| CommitPlacement.OwnKeyCommitsExactlyWhereRequestsLand | session.go:193-279 | a key nobody else writes is committed on exactly the logs that some request of the run finds, at once or late; which log that is depends on the swaps alone |
| CommitPlacement.OneLogExactlyWhen | session.go:186-193 | such a key is committed on one log only exactly when all requests of the run that land find one log |
| CommitPlacement.WithoutSwapsOneLog | session.go:186-193 | while the log is not swapped, a run commits on no other log than the one served at the start, whoever else writes the key |
| CommitPlacement.ResendFinds | session.go:242-252 | with a truthful recheck, a resend finds the pinned log, or the last one swapped in since the recheck |
| CommitPlacement.PinnedLogOnlyExactlyWhen | session.go:186-279 | with truthful rechecks, all commits of a run lie on the pinned log exactly when its served first attempt finds that log, no served resend follows a swap away since its recheck, and late requests find it too |
| Ownership.Table.ClaimSlot | write/validate.go:294-311 | claiming a slot fails exactly as the list of earlier claims demands, and otherwise records it |
| Ownership.Table.ClaimExact | write/validate.go:312-328 | the same for an exact triple |
| Ownership.Table.CheckDestination | write/validate.go:359-373 | a destination is refused exactly when an earlier claim covers it, and the error names that claim |
| Ownership.ClaimRecords | write/validate.go:330-343 | the first pass claims what ensure and replace records own, in order, or stops at the first conflict |
| Ownership.ClaimRetractions | write/validate.go:344-357 | the second pass does so for exact and slot retractions |
| Ownership.CheckAppends | write/validate.go:374-380 | the third pass finds the first appended record inside something claimed |
| Ownership.CheckCorrections | write/validate.go:381-387 | the fourth pass does so for correction replacements |
| Ownership.ValidateOwnership | write/validate.go:292-388 | the map-based passes accept exactly the requests in which no two mutations interfere |
| Ownership.ClaimPhaseExactly | write/validate.go:330-357 | a claim error is that of the least claim that conflicts with an earlier one |
| Ownership.AcceptedExactlyWhenNonInterfering | write/validate.go:292-388 | there is an ownership error exactly when some pair of claims, or of a claim and a destination, conflicts |
| TripleStore.EffectsCommute | write/types.go:17-26 | two independent elementary effects commute on every store that is clear of them |
| OrderIndependence.ClaimsAreTheMutations | write/validate.go:330-387 | the claims and destinations validated are those of the request's mutations, in order |
| OrderIndependence.ReorderingKeepsAcceptance | write/validate.go:292-388 | permuting any of the request's lists does not change whether ownership accepts it |
| OrderIndependence.DifferentMutationsAreIndependent | write/validate.go:254-261 | in an accepted request that names no fact twice, any two different mutations are independent |
| Refusals.CarriedOutExactlyWhen | write/types.go:155-212 | a list of mutations is refused exactly when some fact it names by ID is not active at the start or is dropped, for its slot or triple, by a mutation listed before the one that names it |
| Refusals.OrderFreeExactlyWhenSettled | write/types.go:155-212 | independent mutations that ensure no triple and name no fact twice come to the same in every order, refusal included, exactly when some named fact is inactive, or no named fact is dropped and no ensured triple loses its last bearers to facts forgotten by ID |
| OrderIndependence.AcceptedMutationsCommuteExactlyWhen | write/validate.go:292-388 | an accepted request that names no fact twice comes to the same in every order of its mutations, refusal included, on exactly those stores |
| OrderIndependence.AcceptedMutationsCommute | write/validate.go:292-388 | so on such a store any given order of them leads where the listed one does, or is refused as it is |
| OrderIndependence.ReorderedRequestsAgreeExactlyWhen | write/validate.go:292-388 | permuting the lists of an accepted request that names no fact twice changes nothing on a store, refusal included, exactly when every order is refused or no slot or triple retraction drops a fact that another retraction names |
| OrderIndependence.ReorderedRequestsAgree | write/validate.go:292-388 | on such a store any permutation is accepted and comes to the same |
| Sharpness.EnsureAndForgetCommuteExactlyWhen | write/types.go:155-158 | ensuring a triple commutes with retracting or correcting a fact by ID exactly unless that fact is active and alone bears the triple |
| Sharpness.PairsAreNotEnough | write/types.go:155-158 | a store on which an ensure and two retractions by ID of active facts commute in every pair and yet not all together |
| Sharpness.RefusedPairsExactly | write/validate.go:292-388 | a refused pair of mutations, corrections of active facts included, commutes on every store exactly when it is one of a named handful |
| WriteValidation.ExactUnixNano | write/validate.go:226-229 | the wrapped nanoseconds name the instant exactly when it fits an int64 |
| WriteValidation.ObjectError | write/validate.go:164-178 | an object passes exactly when it is a labelled entity or a number within the JavaScript-safe limit |
| WriteValidation.VocabularyError | write/validate.go:26-39 | a vocabulary mode is given exactly when records or corrections need one, and is create or reject |
| WriteValidation.TransactionTimeError | write/validate.go:211-224 | a transaction time passes unless it is an instant that an int64 of nanoseconds cannot hold |
| WriteValidation.DeadlineError | write/validate.go:180-209 | a deadline passes exactly when it is absent, whole positive milliseconds, or a positive instant within int64 nanoseconds |
| WriteValidation.FactIDError | write/validate.go:241-252 | a fact ID passes exactly when it is the canonical decimal of a positive u64 |
| WriteValidation.RecordError | write/validate.go:131-162 | a record passes exactly when labels, object, mode, exclusions and deadline are in order |
| WriteValidation.FactMap.Claim | write/validate.go:254-261 | naming a fact again is an error that names the first place; otherwise the map records it |
| WriteValidation.ValidateRecords | write/validate.go:41-45 | all records, up to the first invalid one |
| WriteValidation.ValidateRetraction | write/validate.go:48-79 | one retraction: its selector's checks in order, then its fact target |
| WriteValidation.ValidateRetractions | write/validate.go:47-79 | all retractions, filling the fact targets |
| WriteValidation.ValidateCorrections | write/validate.go:81-96 | all corrections, sharing the fact targets of the lists before them |
| WriteValidation.ValidateExpirations | write/validate.go:98-113 | all expirations, likewise |
| WriteValidation.ValidatePersistence | write/validate.go:115-123 | all persistence entries, likewise |
| WriteValidation.TargetsAreTheMutations | write/validate.go:47-123 | the facts that go through the target map are those the request's mutations name, in order |
| WriteValidation.FirstErrorExactly | write/validate.go:41-123 | going through all entries finds nothing exactly when each is sound and no fact is named twice across the four lists |
| WriteValidation.NoErrorExactlyWhenValid | write/validate.go:16-129 | no rule is violated exactly when the request is valid, as defined without reference to any order |
| WriteValidation.Validate | write/validate.go:16-129 | returns the first violated rule with its path, and nothing exactly for valid requests |
| WriteErrors.ErrorsNameTheFirstBrokenRule | write/validate.go:16-388 | going through all there is to look at, in order, the error's code names the rule broken at the first place where one is, its path is that place and its owner the earlier target repeated or run into; none exactly when no rule is broken |
| WriteValidation.ValidRequestsCommuteExactlyWhen | write/validate.go:16-129 | a valid request comes to the same in every order of its mutations, refusal included, exactly when some fact it names is inactive, or it drops no fact it names and no ensured triple loses its last bearers to facts it forgets by ID |
| WriteValidation.AValidRequestMayDependOnItsOrder | docs/SAFETY.md:37-42 | two valid requests with the same two retractions, by slot and by ID, one of them refused and the other not |
| WriteWire.DeadlineReadsBack | write/encode.go:181-195 | ttl_ms times a million is the duration, and expires_at_ns is the instant |
| WriteWire.RecordReadsBack | write/encode.go:171-179 | a valid record is recovered from its wire object |
| WriteWire.ObjectReadsBack | write/encode.go:31-42 | an entity string or a number literal gives the object back |
| WriteWire.RetractionReadsBack | write/encode.go:123-139 | a valid retraction is recovered, whichever its selector |
| WriteWire.CorrectionReadsBack | write/encode.go:140-145 | so is a valid correction |
| WriteWire.ExpirationReadsBack | write/encode.go:146-150 | and a valid expiration |
| WriteWire.PersistenceReadsBack | write/encode.go:151-153 | and a persistence entry |
| WriteWire.TimeReadsBack | write/encode.go:154-162 | a transaction time stays present, zero and negative included, and exact |
| WriteWire.EncodingReadsBack | write/encode.go:107-164 | every valid request is recovered from its wire tree, up to the two spellings of transaction time |
| WriteBytes.BytesIdentifyRequests | write/encode.go:104-106 | two valid requests have the same bytes exactly when they differ in nothing but the spelling of the transaction time |
| WriteWire.Encode | write/encode.go:107-164 | encodes exactly the valid requests, to a tree that decodes back, and otherwise reports the validation error |
| WriteFeatures.SurveyRecords | write/validate.go:413-425 | after the record loop the flags show exactly the kinds, forms and modes of the records |
| WriteFeatures.SurveyRetractions | write/validate.go:426-437 | likewise for retractions and their selectors |
| WriteFeatures.SurveyCorrections | write/validate.go:438-442 | likewise for correction replacements, whose modes do not count |
| WriteFeatures.SurveyExpirations | write/validate.go:443-446 | likewise for the deadlines of expirations |
| WriteFeatures.FindFeatures | write/validate.go:391-499 | each feature list is the fixed list cut down to what the request uses |
| WriteFeatures.SelectIsDistinct | write/validate.go:449-498 | cutting a fixed list down keeps exactly the used words, each once |
| WriteFeatures.FeaturesAreDistinct | write/validate.go:449-498 | no list names a word twice |
| WriteFeatures.FeaturesAreTheWireVocabulary | write/validate.go:390-499 | for every valid request, Features is exactly the vocabulary read off the tree that Encode emits |
| Authoring.ValidateWriteFeatures | authoring.go:117-155 | nothing is missing exactly when every needed word of every category is advertised |
| Authoring.FirstMissing | session.go:410-417 | within a category, the word reported is the first that is not advertised |
| Authoring.AdmittedExactlyWhenAdvertised | authoring.go:67-72 | a valid request passes the gate exactly when its wire tree uses nothing that is not advertised |
| Authoring.RecordModesPassExactlyWhen | authoring.go:143-148 | the record modes of a valid request are advertised exactly when every record of its wire tree has its mode advertised, "append" if it states none |
| Authoring.KeysResolveExactly | authoring.go:80-115 | an unset key is refused, a full key resolves to itself when it fits, a suffix to prefix and suffix, and an error names the key |
| Authoring.RefusedExactlyWhen | authoring.go:56-78 | each refusal has its own cause, looked for once those before it are ruled out |
| Authoring.SuffixResolvesExactlyWhen | authoring.go:83-104 | a suffix resolves exactly when it is a token, is not prefixed already and leaves room for the prefix |
| Authoring.PrefixIsAppliedOnce | authoring.go:27-31 | the resolved key is prefix and suffix once, is itself a full key, is refused as a suffix, and comes from no other suffix |
| Authoring.SemanticKeyFitsExactlyWhen | semantic_key.go:28-50 | a semantic key fits exactly when prefix, namespace and 44 more bytes do and the prefix does not begin it |
| Authoring.ResolvedKeysAreAccepted | session.go:176-185 | a resolved key is never refused by the write path; only the body can be too large |
| Authoring.WriteRequest | authoring.go:56-78 | encoding, preflight, features and key are checked in that order; a refusal sends nothing, and otherwise the retry protocol gets exactly the encoded bytes and the resolved key |
| Surrogates.ParseJSONHex4 | ingest/strict.go:195-214 | four hexadecimal digits and nothing else, and their value |
| Surrogates.FourDigits | ingest/strict.go:195-214 | what four hexadecimal digits are worth, digit by digit and in either case |
| Surrogates.HalvesByTheirTopBits | ingest/strict.go:141-179 | the halves of a pair are told by their top six bits |
| Surrogates.RejectUnpairedJSONSurrogates | ingest/strict.go:141-179 | for every byte string, stays in bounds, accepts exactly if surrogate escapes are paired, and names the first that is not |
| Surrogates.FaultExactlyWhenUnpaired | ingest/strict.go:141-179 | there is a first fault exactly when some surrogate escape stands alone |
| Surrogates.LiteralIsLexed | ingest/strict.go:144-161 | a written string literal is lexed as the units it was written from |
| Surrogates.PieceAtATime | ingest/strict.go:141-179 | a literal or a character between literals contributes its own pairing and nothing else |
| Surrogates.PairedExactlyWhenEveryLiteralIs | ingest/strict.go:141-179 | on a text written from literals with well-formed escapes, pairing holds exactly if it holds inside each literal by itself |
| StrictJson.Inspector.WalkValue | ingest/strict.go:67-136 | one value: the recursive walk over decoder state and captured null path does what the function over token sequences says |
| StrictJson.Inspector.WalkObject | ingest/strict.go:87-116 | an object: keys, duplicates, children and closing token, likewise |
| StrictJson.Inspector.WalkArray | ingest/strict.go:117-131 | an array, likewise |
| StrictJson.InspectJSON | ingest/strict.go:62-139 | the result of the walk from depth one at the empty path |
| StrictJson.FaultlessExactlyWhen | ingest/strict.go:67-136 | a document has no fault exactly when no object repeats a key at any level and nesting stays within the limit |
| StrictJson.WalkRefines | ingest/strict.go:67-136 | at any depth and path, followed by any tokens, the walk reports the document's first fault or consumes exactly the document and reports its first null |
| StrictJson.WalkFieldsRefines | ingest/strict.go:87-116 | the same from inside an object, with the keys seen so far |
| StrictJson.WalkItemsRefines | ingest/strict.go:117-131 | the same from inside an array, with the index reached |
| StrictJson.WalkRefinesTheTree | ingest/strict.go:62-139 | the same from the top: success exactly for duplicate-free documents of at most 64 levels |
| JsonPaths.WalkNamesTheFirst | ingest/strict.go:62-139 | the walk stops exactly when a name is repeated in one object or a value lies below level 64, and names the first such place in document order, with dots and brackets; otherwise it names the place of the first null |
| Ingest.Budget.Consume | ingest/ingest.go:234-240 | a size over the remainder changes nothing; any other is subtracted, and the remainder never goes negative |
| Ingest.Budget.ConsumeEach | ingest/ingest.go:241-260 | a list of sizes is refused exactly when its sum exceeds what remains |
| Ingest.ClaimsExceed | ingest/ingest.go:262-278 | so are all claims with their evidence |
| Ingest.TypedBatchExceedsInputLimit | ingest/ingest.go:232-280 | the running budget reports excess exactly when the sum of all sizes exceeds the limit |
| Ingest.RawSizeIsALowerBound | ingest/ingest.go:232-280 | that sum never exceeds the length of the canonical encoding |
| Ingest.IdentityIsTheMeaning | ingest/ingest.go:104-113 | two claim identities are equal exactly when profile, producer, source and everything the claims say are |
| JsonText.TextsDiffer | ingest/ingest.go:504-540 | two JSON values whose strings are valid UTF-8 have one compact text exactly when they are one value |
| IngestIdentity.ValidBatchIsLegible | ingest/ingest.go:283-438 | every string of a valid batch is valid UTF-8, so what follows holds of all valid batches |
| IngestIdentity.EntitiesIdentifyClaims | ingest/ingest.go:504-540 | short of a collision, claims of any two batches have one entity exactly when profile, producer but for the run, source digest and everything the claims say but the external ID agree |
| IngestIdentity.DistinctEntitiesExactlyWhen | ingest/ingest.go:504-540 | short of a collision, claim entities are distinct exactly when no two claims say the same |
| Ingest.EntitiesIgnoreTheRun | ingest/ingest.go:645-658 | a claim entity depends on neither run ID, external ID nor artifact |
| IngestValidation.ObjectError | ingest/ingest.go:559-589 | exactly one form is given, and a number exactly if it is the canonical decimal of a value within the safe limit |
| IngestValidation.HeadExactly | ingest/ingest.go:287-368 | the checks of schema, profile, producer, source and claim count pass exactly when those are valid |
| IngestValidation.EvidenceExactly | ingest/ingest.go:419-435 | the checks of an evidence list pass exactly when each item is valid |
| IngestValidation.ClaimExactly | ingest/ingest.go:370-435 | a claim passes its checks exactly when it is valid |
| IngestValidation.ClaimsExactly | ingest/ingest.go:369-436 | the claim loop finds nothing exactly when every claim is valid and no external ID is used twice |
| IngestValidation.NoErrorExactlyWhenValid | ingest/ingest.go:283-438 | a batch breaks no rule exactly when it is valid |
| IngestValidation.ValidateSemanticClaimUniqueness | ingest/ingest.go:504-540 | reports the first claim whose entity was met before, and none exactly if entities are distinct |
| IngestValidation.Validate | ingest/ingest.go:283-438 | returns the first broken rule with its path, and nothing exactly for valid batches |
| IngestErrors.ErrorsNameTheFirstBrokenRule | ingest/ingest.go:283-589 | going through all there is to look at, in order, the error's code names the rule broken at the first place where one is, and its path is that place; none exactly when no rule is broken |
| IngestCompiler.CompileHead | ingest/ingest.go:602-640 | the records about batch, producer and source, in order |
| IngestCompiler.CompileClaim | ingest/ingest.go:665-683 | the records about one claim and, for trusted facts, the claim itself |
| IngestCompiler.CompileRecords | ingest/ingest.go:601-690 | fails exactly on a repeated claim entity; otherwise all records and the claim entities in claim order |
| IngestCompiler.CompileValidated | ingest/ingest.go:205-230 | after validation only the enforced size limit can fail: the duplicate branch is unreachable |
| IngestCompiler.Compile | ingest/ingest.go:194-230 | size check, validation and canonical limit in that order; digests are those of the very bytes returned |
| IngestCompiler.TooLargeExactlyWhen | ingest/ingest.go:192-214 | a batch without other faults is reported too large exactly when its canonical encoding is |
| IngestRecords.RecordsInFull | ingest/ingest.go:601-690 | the records of a compiled batch are these, with every subject, predicate and object written out, in this order |
| IngestRecords.CompiledInFull | ingest/ingest.go:205-230 | digests, record count, entities and the canonical text of the output, written out |
| IngestCanonical.BatchReadsBack | ingest/ingest.go:46-96 | the canonical JSON of any batch reads back as the batch |
| IngestCanonical.ClaimReadsBack | ingest/ingest.go:77-96 | so does the JSON of any claim |
| IngestCanonical.CanonicalFormIsStrict | ingest/ingest.go:160-176 | the strict walk accepts the canonical form of any batch, consumes all of it and finds no null |
| IngestProperties.RecordCount | ingest/ingest.go:616-684 | six records, four more with a source, and per claim six and one each for confidence, source and trust |
| IngestProperties.EntitiesAreDistinct | ingest/ingest.go:642-663 | after validation the returned entities are pairwise distinct |
| IngestProperties.EntitiesAreStable | ingest/ingest.go:642-663 | another run, other external IDs or another artifact give the same entities |
| IngestProperties.EntitiesFollowTheClaims | ingest/ingest.go:642-663 | rearranging the claims rearranges the entities in the same way |
| IngestProperties.ProvenanceCannotBeForged | ingest/ingest.go:542-557 | records about subjects outside the reserved namespaces are exactly the candidate triples in order for trusted facts and none for proposals; all others are provenance |
| IngestProperties.CompiledRecordsAreValid | ingest/ingest.go:605-684 | every record of a valid batch meets the write package's record rules |
| IngestProperties.EntitiesAreLabels | ingest/ingest.go:602-658 | every derived entity name is a valid label |
| IngestReadBack.ClaimsAreOnRecord | ingest/ingest.go:669-680 | under each predicate, the request states of a claim's entity exactly that part of that claim |
| IngestReadBack.AcceptedExactlyWhenAsserted | ingest/ingest.go:665-683 | a claim goes on record as accepted exactly when its triple is among the records, which is under the trusted profile, and as proposed otherwise |
| IngestReadBack.ClaimsReadBack | ingest/ingest.go:669-698 | reading a claim's entity off the records gives the claim back, short of external ID and evidence |
| IngestReadBack.BatchIsOnRecord | ingest/ingest.go:616-618 | the batch entity lists the claim entities in order, and the only manifest holds the canonical batch |
| IngestReadBack.ObjectReadsBack | ingest/ingest.go:692-698 | objectValue loses nothing of a valid object |
| IngestOwnership.OwnershipAcceptsExactlyWhen | write/validate.go:292-388 | the write package's ownership check accepts a compiled batch exactly when it is a knowledge proposal or no two claims assert one triple |
| IngestOwnership.CompiledRequestIsValidExactlyWhen | ingest/ingest.go:601-690 | and so does its whole validation |
| IngestOwnership.EnsuresRepeatExactlyWhen | ingest/ingest.go:616-684 | the triples a valid batch ensures are pairwise distinct under just that condition |
| IngestOwnership.CompilerEncodesAsTheTypedWrite | ingest/ingest.go:144-158 | the compiler's private encoder gives the tree that the typed encoder gives for the same records |
| IngestOwnership.CompiledBytesAreTheTypedBytes | ingest/ingest.go:685-689 | hence every valid batch is sent as the bytes of the typed write |
| IngestOwnership.AValidBatchMayBeRefused | ingest/ingest.go:681-683 | a concrete valid trusted batch whose compiled write is not a valid typed write |
| Ingestion.IngestionKeyFitsExactlyWhen | ingestion.go:62-67 | the derived key is accepted exactly when the prefix leaves 71 bytes |
| Ingestion.KeysIdentifyBatches | ingestion.go:62-69 | short of a collision one key means one batch and the same bytes, so ingesting again replays and cannot conflict |
| Ingestion.IngestBatch | ingestion.go:31-73 | preflight, compilation, size and key are checked in that order; a refusal sends nothing, and otherwise the retry protocol gets the compiled bytes under the derived key, which it does not refuse |
| Ingestion.RefusedExactlyWhen | ingestion.go:31-67 | an ingestion is refused for the session, the batch or its size, the size of the write, or the key, in this order, and exactly then |
| SemanticKey.ValidSemanticKeyNamespace | semantic_key.go:66-83 | accepts exactly 1 to 32 bytes of the namespace alphabet beginning with a letter |
| SemanticKey.NamespacesInFull | semantic_key.go:66-83 | the valid namespaces, by their alphabet |
| SemanticKey.Digest.WriteUint64 | semantic_key.go:90-94 | appends eight big-endian bytes |
| SemanticKey.Digest.WriteFrame | semantic_key.go:85-88 | appends length and value |
| SemanticKey.BigEndianBytes | semantic_key.go:90-94 | the bytes of a big-endian number, the most significant first |
| SemanticKey.StreamInFull | semantic_key.go:40-47 | the digested bytes are those of the domain, the namespace, the number of parts and the parts, each text after its length in eight bytes |
| SemanticKey.FrameReadsBack | semantic_key.go:85-88 | a frame reads back whatever follows it |
| SemanticKey.FramesReadBack | semantic_key.go:44-46 | so does a counted list of frames |
| SemanticKey.StreamReadsBack | semantic_key.go:40-46 | the digested bytes determine namespace and parts, with boundaries, order, empty and missing parts |
| SemanticKey.SemanticKey | semantic_key.go:31-51 | the suffix of every valid namespace is namespace, colon and the digest of that stream |
| SemanticKey.SuffixesSplitAtTheColon | semantic_key.go:48-50 | equal suffixes have equal namespaces and equal digests |
| SemanticKey.KeysIdentifyOperations | semantic_key.go:22-26 | short of a collision on the two streams, two operations share a key exactly when namespace and parts are equal |
| Query.ValidateLabels | query/validate.go:91-116 | a position passes exactly when absent, or nonempty, without empty, ill-encoded or repeated labels |
| Query.ValidateFilter | query/validate.go:51-89 | a filter passes exactly when it is All alone, or constrains something consistently |
| Query.ValidateOrder | query/validate.go:193-230 | an order passes exactly when fields are known and distinct, directions known, and a numeric key stands alone with a numeric filter |
| Query.Validate | query/validate.go:15-49 | returns the first violated rule, and nothing exactly for valid queries |
| QueryErrors.ErrorsNameTheFirstBrokenRule | query/validate.go:15-230 | going through all there is to look at, in order, the error's code names the rule broken at the first place where one is, and its path is that place; none exactly when no rule is broken |
| QueryWire.EscapingIsExact | query/encode.go:129-134 | escaping is inverted by unescaping, never yields exactly one leading question mark, and reaches every other wire label |
| QueryWire.LabelsReadBack | query/encode.go:115-127 | a scalar or list of labels is recovered |
| QueryWire.RangeReadsBack | query/encode.go:136-155 | a numeric range is recovered with exactly the bounds present, zero included |
| QueryWire.FilterReadsBack | query/encode.go:62-68 | a valid filter is recovered |
| QueryWire.OptimizationReadsBack | query/encode.go:88-91 | so is a forced or automatic optimization |
| QueryWire.ConstraintReadsBack | query/encode.go:92-98 | watermark and log identity give the read constraint back |
| QueryWire.EncodeLabels | query/encode.go:115-127 | builds the wire form of a position |
| QueryWire.EncodingReadsBack | query/encode.go:58-108 | every valid query is recovered from its wire tree, and one that states no consistency as strict |
| QueryWire.EmptyFilterMeansAll | query/encode.go:28-33 | the wire filter is empty exactly when the caller used All |
| QueryWire.Encode | query/encode.go:58-108 | encodes exactly the valid queries, to a tree that decodes back, and otherwise reports the validation error |
| WireOrder.RecordInOrder | write/encode.go:57-66 | a record on the wire has its names in the order of the struct, those left out aside |
| WireOrder.RequestInOrder | write/encode.go:46-55 | so has a write request |
| WireOrder.MutationsAreInOrder | write/encode.go:68-95 | so have its retractions, corrections and expirations |
| WireOrder.QueryInOrder | query/encode.go:15-26 | so has a query |
| WireOrder.SelectorsAreInOrder | write/encode.go:74-83 | so have the selectors of a retraction |
| WireOrder.QueryPartsAreInOrder | query/encode.go:28-55 | so have the filter, ranges, return, optimization and orders of a query |
| WireOrder.BatchPartsAreInOrder | ingest/ingest.go:55-102 | so have the other objects of a batch, and the identity of its producer |
| WireOrder.BatchInOrder | ingest/ingest.go:46-96 | so has a canonical batch, which is digested |
| WireOrder.ClaimInOrder | ingest/ingest.go:77-96 | so has a claim in it |
| WireOrder.IdentityInOrder | ingest/ingest.go:104-113 | so has the identity a claim's entity is digested from |

## Left out

- HTTP transport, headers, URL and configuration checks, reading of bodies: `client.go` appears only as the outcomes of one request.
- Aliasing of the caller's body slice: bodies are values, so the defensive copy of `writeExact` has nothing to protect.
- Wrapped errors: `errors.As` is a test of the outermost error.
- Expiry of receipts on the node, and any node behaviour beyond one receipt per key and log, which compares bodies where the node compares their digests.
- Instants are unbounded integers of nanoseconds since the epoch: time zones, monotonic readings and overflow of Go's own seconds counter are not modelled.
- The text of JSON: trees stand for it, except for the length, the encoding and the distinctness of digested texts; which characters `encoding/json` escapes is not modelled.
- The JSON grammar: the token walk starts from the tokens and syntax errors that `json.Decoder` reports; `UseNumber`, unknown fields and trailing content are not modelled.
- SHA-256, hexadecimal and base64 themselves.
- Media types: `mime.ParseMediaType` and the comparisons around it are one predicate.
- Most of `validateCapabilities`, `cloneCapabilities`, constructors and accessors: only the key and prefix limits they establish are used.
- Unset tags that no constructor of the package yields, such as an automatic optimization carrying a representation.
- Result decoding (`write/response.go`, `query/results.go`, `query_results.go`) and error classification (`classify.go`): two-branch checks and a fixed cascade.
- Message texts of errors: an error is its code, its path and, for a conflict, the path it names.
- Refusals.OrderFreeExactlyWhenSettled: counts the facts an order adds and does not give them IDs, so it does not say that two orders assign the same IDs.
- What else depends on the state of the database: labels unknown under reject, the cardinality of a slot that is retracted or replaced (here a removal takes whatever is there), and deadlines no longer in the future.
- IngestCompiler.CompileRecords: works on the record list; the private record struct is the typed record without tense and deadline.
