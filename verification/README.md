# Verified model of the aplane signing SDK

The SDK signs Algorand transaction groups together with signers it does not trust
blindly: a signer plans a group, the client freezes the planned bytes, collects
component signatures from the user's signer and from cosigners, has the group assembled
and compares the result with what it froze. This project models that choreography and
the pieces around it, and proves what every run keeps, whatever the signers answer.

A run is modelled by a method that returns the log of every message it sent together
with the reply that came back. A `World` of arbitrary functions answers: each reply may
depend on everything sent before, may be malformed, may be an error, and may never
arrive. `Safe` says of a log that each message was sent at the right moment with the
right content; it is proved of every run, failing ones included. `RunConforms` says the
same against what the caller prepared: which transactions, addresses, arguments, limits and
app-call information each message carries, and what the result holds in every slot.

| module | models |
|---|---|
| `Basics`, `Hex` | results, counting facts, hexadecimal text |
| `Transactions`, `Plan` | canonical groups, budget dummies, the plan validator |
| `Requests` | wire shapes and the local validators |
| `Exchange` | the four endpoints, with the log of messages |
| `Gathering` | one component request per (client, key) pair |
| `Prepared`, `Roles`, `BoundedRoles`, `GuardedRoles`, `PrimarySlots`, `TargetOrder` | classifying prepared slots; slots signed outright |
| `BoundedFlow`, `BoundedSigning` | the bounded-cosigner flow, step by step and as whole runs |
| `GuardedFlow`, `GuardedSigning` | the guarded flow over a frozen group, step by step and as whole runs |
| `PreparedGuarded`, `PreparedSigning` | the guarded flow from a prepared group, and the choice between the flows |
| `Conformance`, `BoundedConformance`, `GuardedConformance` | what messages and results owe to the prepared slots and the signer's key inventory |
| `Outcome` | what a returned group is worth to the caller |
| `AbiArguments` | reference arrays and tuple packing of ABI calls (ARC-4) |
| `KeyCache` | the revision-labelled key cache |
| `PaymentGroup` | the payment group balance check and what it guarantees |
| `MergeGroup` | merging several signers' outputs |
| `CancelRace` | the request, its watcher goroutine and the shared `sync.Once` |
| `SetupDeadline` | the pausable enrolment deadline |
| `AlgokitAccount` | the single in-flight AlgoKit signing call |

The transaction codec, the group hash, the ABI codec and base64 are datatypes of
functions with stated laws: decoding undoes encoding. That the group hash is injective
is a hypothesis of the one lemma that needs it. Integers are unbounded, as in Python.

## Where the code does not keep a promise

Each of these has a lemma with a concrete case and a lemma with the exact condition.

- Go looks at the resource bounds of a guarded slot only after the plan
  (`go/guarded.go:416`, `go/guarded.go:162`), so a group can be planned, accepted and then
  turned away locally: `PreparedGuarded.RejectedAfterPlan`. This happens exactly when a
  guarded slot's published resources are out of bounds, which the caller can see
  beforehand: `PreparedGuarded.LateFailureExactly`. Python checks while classifying and
  never fails late; the two rules differ on nothing else: `GuardedRoles.EagerStartsExactly`.
- A fee change in a group of one needs no new group ID: `Plan.SingletonFeeNeedsNoGroupId`.
  `Plan.GroupIdTruthful` gives the condition, at least two planned transactions.
- `go/client.go:1012-1014` promises that a deadline landing together with a successful
  response cannot fire a spurious cancel. Between the return of the HTTP call and the
  closing of `done` it can: `CancelRace.SpuriousCancel`; exactly when:
  `CancelRace.CancelFollowsExactly`.
- After a refresh that breaks off half-way, the plain `list_keys()` serves the half it
  kept: `KeyCache.PlainListCanBePartial`; exactly when: `KeyCache.PlainListAfterRefresh`.
  The revision-checked listing is not affected.
- The payment group check looks at the last snapshot of a sender only, so it can accept a
  group that the account cannot pay: `PaymentGroup.LastSnapshotWins`. Whatever the balances
  are, every order is solvent exactly when each sender's outlay fits its spare balance:
  `PaymentGroup.SolventExactly`. The check also counts what a sender pays itself, so it can
  turn away a solvent group: `PaymentGroup.SelfPaymentTurnedAway`; with one snapshot per
  sender it is exact when nobody pays itself: `PaymentGroup.ExactWithoutSelfPayment`.
- A slot written with white space passes Python's canonical decode but no signed
  transaction can match it: `Transactions.SpacedSlot`; exactly when:
  `Transactions.SignsSlotExactly`. A bounded run with such a plan never returns a group:
  `BoundedSigning.SpacedPlanNeverReturns`. The prepared guarded flow re-encodes the plan
  and is not affected: `Outcome.ReencodedIsPlain`.
- With a request-ID factory that repeats, a late AlgoKit cancel can name the next call:
  `AlgokitAccount.RepeatedIdCanBeHit`; for any sequence of IDs, exactly when it repeats:
  `AlgokitAccount.HitExactlyIfRepeated`.

## Model

| member | source | states |
|---|---|---|
| BoundedSigning.SignPreparedBoundedGroup | python/aplanesdk/signer.py:5497-5745 | the first message leaves exactly when every slot fits the flow and one has a bounded-cosigner key; for any signers the log is safe, every message carries the prepared slots' own transactions, addresses, arguments and app-call information, and a request left unanswered is cancelled at once; a returned group holds in slot i the prepared transaction up to reported group ID and fee rises, its fee at most what the slot's bounded key advertises, then canonical dummies; a failing run names its cause |
| BoundedSigning.RunJob | python/aplanesdk/signer.py:5595-5745 | the same for a classified job; the only local rejection possible is a bad assembly identifier of the caller |
| BoundedConformance.ClassifiesExactly | python/aplanesdk/signer.py:5518-5591 | a slot is taken exactly when it has a transaction and an address, its key is known, its published resources are in bounds and its flow is a supported one; it is cosigned exactly when its key is a bounded-cosigner key |
| BoundedConformance.SlotConformsAsClassified | python/aplanesdk/signer.py:5518-5591 | the plan entry decodes to the slot's transaction and carries its own address, sender, arguments and published resources; the fee limit is the key's own; a resolver is shown the key's own cosigner |
| BoundedConformance.StepConforms | python/aplanesdk/signer.py:5609-5735 | every message sent at the right moment conforms to the prepared slots |
| Conformance.FaithfulConforms | python/aplanesdk/signer.py:5361-5374 | a faithful result keeps every slot within what its own key advertises |
| Conformance.PublishedIsSelected | go/guarded.go:482-513 | the resources selected are exactly those the key publishes for spending, or for the rekey authorization its first rekey operation demands |
| Conformance.EncodedDecodes | python/aplanesdk/signer.py:856-879 | the text sent for a transaction decodes to that transaction |
| Conformance.CosignerAskConforms | python/aplanesdk/signer.py:5031-5049 | a cosigner is asked only about slots routed to it by their own description, and shown the prepared app-call information of every slot |
| BoundedSigning.UserFirst | python/aplanesdk/signer.py:5664-5705 | no cosigner hears of the group before the plan is good, all base components are held and all primary slots are signed over the frozen bytes |
| BoundedSigning.FrozenBytes | python/aplanesdk/signer.py:5596-5735 | every message after the plan carries the planned group text for text, in order |
| BoundedSigning.Provenance | python/aplanesdk/signer.py:5643-5727 | every bounded target has exactly one assembly entry, made of the component and cosigner signature released for it, under their request identifiers |
| BoundedSigning.SpacedPlanNeverReturns | python/aplanesdk/signer.py:5189-5254 | a run whose accepted plan holds a slot that is not plain hex text returns no group |
| BoundedFlow.AcceptedCosignerIsNoCause | python/aplanesdk/signer.py:5690-5705 | a cosigner reply the client accepts is never the cause of a failure |
| BoundedFlow.FreezePlan | python/aplanesdk/signer.py:5595-5608 | succeeds only with a canonical, acceptable plan within the fee limits; fails with BadPlan only if there is none |
| BoundedFlow.BuildBaseRequest | python/aplanesdk/signer.py:5609-5642 | the request passes its own check under any well-formed identifier, describes every prepared slot as it was planned, and lists each target under its own account |
| BoundedFlow.KeepComponents | python/aplanesdk/signer.py:5643-5662 | accepts exactly the replies that name each target once, under its account and kind, and nothing else |
| BoundedFlow.CollectBase | python/aplanesdk/signer.py:5609-5662 | the base exchange keeps the log safe; each kept component is the reply's own |
| BoundedFlow.BuildPrimaryEntries | python/aplanesdk/signer.py:5440-5477 | the entries submit the frozen group, ask for exactly the primary slots, each under its own authority and arguments, declare every other slot as it was planned, and pass their own check |
| BoundedFlow.SignPrimaries | python/aplanesdk/signer.py:5432-5494 | on success every primary slot is signed over its frozen bytes |
| BoundedFlow.GatherCosigners | python/aplanesdk/signer.py:5674-5705 | each target's cosigner signature comes from an accepted reply to a request that listed it under its own route |
| BoundedFlow.BuildAssembly | python/aplanesdk/signer.py:5707-5735 | the assembly request covers every slot once, repeats only collected material, and passes on each dummy's own signed blob |
| BoundedFlow.Assemble | python/aplanesdk/signer.py:5728-5736 | a returned group is the answer to the assembly and signs every frozen slot |
| BoundedRoles.ClassifiedRolesOk | python/aplanesdk/signer.py:5518-5593 | classified slots fit together: one role per slot, resources in bounds, an entry per slot in the right mode |
| BoundedRoles.PlanEntriesOk | python/aplanesdk/signer.py:5595-5595 | the plan request built from a classified group always passes its own check |
| Roles.Classify | python/aplanesdk/signer.py:5518-5593 | succeeds exactly when every slot classifies and at least one is cosigned; gives each slot its one role |
| GuardedSigning.SignGuardedGroup | go/guarded.go:126-238 | for any signers: the log is safe; a returned group has the submitted length and signs the submitted bytes slot by slot; a failing run names its cause; targets that do not pass are refused before any message |
| PreparedGuarded.SignPreparedGuardedGroup | python/aplanesdk/signer.py:4906-5028 | the first message leaves exactly when every slot fits the flow and one has a guarded key; the plan request and every later message carry the prepared slots' own transactions, addresses, arguments and app-call information; then the plan fails the run, or a plan accepted for a group out of bounds is followed by a local rejection (never when bounds are checked while classifying), or the rest is a safe run over the plan's own bytes whose result holds the prepared transactions; the only other local rejection is a bad assembly identifier |
| PreparedGuarded.LateFailureExactly | go/guarded.go:392-466 | a local rejection follows an accepted plan exactly when some guarded slot's resources are out of bounds |
| PreparedGuarded.RejectedAfterPlan | go/guarded.go:412-427 | a slot with a program of 20000 bytes is planned, the plan is accepted, and the run is rejected locally |
| PreparedGuarded.PlanAndSign | go/guarded.go:446-480 | the three-way account of a run from a classified group |
| GuardedConformance.ClassifiesExactly | python/aplanesdk/signer.py:4925-4996 | a slot is taken exactly when it has a transaction, an address and a known key, declares no budget of its own, and its flow is guarded with published resources (in bounds, if looked at) or ordinary |
| GuardedConformance.SlotConformsAsClassified | python/aplanesdk/signer.py:4925-4996 | the plan entry decodes to the slot's transaction and carries its own address, sender, arguments and app-call information |
| GuardedConformance.StepConforms | python/aplanesdk/signer.py:5844-5933 | every message sent at the right moment conforms to the prepared slots |
| GuardedFlow.InfoForExactly | python/aplanesdk/signer.py:5815-5823 | every slot's own app-call information is listed under its position, and nothing else is |
| PreparedSigning.SignPreparedGroup | python/aplanesdk/signer.py:5748-5786 | a message leaves exactly when one of the two flows can start, which is then the only one that can; the run is a run of that flow and conforms to the prepared slots; a mixed group is refused outright |
| PreparedSigning.FlowKinds | python/aplanesdk/signer.py:5165-5186 | succeeds exactly when every key lookup does, and tells which flows occur |
| GuardedRoles.EagerStartsExactly | python/aplanesdk/signer.py:4969-4973 | checking bounds while classifying turns away exactly the groups that are out of bounds |
| PreparedGuarded.AdoptPlan | go/guarded.go:446-480 | adopts a plan exactly when some canonical reading of it is acceptable; the adopted options place every slot once, and pass the target check exactly when the resources are in bounds |
| PreparedGuarded.AdoptedFaithful | go/guarded.go:246-281 | slot-by-slot agreement with an adopted plan makes the result faithful to the originals |
| GuardedSigning.UserFirst | python/aplanesdk/signer.py:5844-5904 | no message to another client than the user's, and no cosigner request at all, leaves before every user signature is held and every primary slot is signed |
| GuardedSigning.FrozenBytes | python/aplanesdk/signer.py:5825-5933 | every message carries the submitted group text for text, in order |
| GuardedSigning.Provenance | python/aplanesdk/signer.py:5825-5924 | every guarded target has exactly one assembly entry; both signatures come from replies to requests that listed it with the right account, client and key, and the source identifiers are those requests' |
| GuardedSigning.Admit | python/aplanesdk/signer.py:5808-5842 | accepts exactly the non-empty, distinct, in-range targets with an account and bounded resources, over a well-formed group |
| GuardedRoles.ClassifiedRolesOk | python/aplanesdk/signer.py:4906-4999 | under either rule, classified guarded and primary slots fit together and can be planned |
| GuardedFlow.PlaceEntries | python/aplanesdk/signer.py:5052-5143 | succeeds exactly when primary, guarded and passthrough positions are distinct, in range and cover the group; then the entries pass their own check and ask for primary slots only |
| GuardedFlow.SignPrimaries | go/guarded.go:706-808 | primary slots are signed only once every user signature is held, over the submitted bytes |
| GuardedFlow.BuildTargets | python/aplanesdk/signer.py:5906-5924 | succeeds exactly when every target has both signatures, and joins them in order |
| GuardedFlow.PlacedCovers | go/guarded.go:126-238 | targets, given passthrough and primary items split the group when every position has one role |
| GuardedFlow.Assemble | go/guarded.go:126-238 | a returned group is the answer to the assembly and signs every submitted slot |
| Gathering.GatherSignatures | go/guarded.go:592-652 | one request per (client, key) pair; each target's signature is from its own pair's reply; fails for want of a route, before sending anything, exactly when a target has none |
| Gathering.ReplySupplies | python/aplanesdk/signer.py:4815-4857 | an accepted reply supplies a signature for exactly the positions asked about |
| Gathering.Merge | python/aplanesdk/signer.py:5690-5705 | one route's signatures never overwrite another target's |
| Gathering.GroupByRoute | python/aplanesdk/signer.py:5674-5687 | sorts every target under its own route, or reports that one has none |
| Exchange.RequestComponents | python/aplanesdk/signer.py:4161-4215 | sends only checked requests; succeeds only on a well-formed answer to exactly this request; silence on a request that may wait for an operator is followed by its cancel; on failure the recorded reply says why |
| Exchange.SignRequests | python/aplanesdk/signer.py:4465-4531 | sends only checked entries, under the caller's well-formed identifier or a new one; silence is followed by a cancel under that identifier and nothing else is; on failure the recorded reply says why |
| Exchange.RequestAssemble | python/aplanesdk/signer.py:4217-4279 | strips planning data from passthrough items; succeeds only on a complete answer under the same identifier |
| Exchange.PlanRequests | python/aplanesdk/signer.py:4590-4624 | sends only checked entries, once |
| Exchange.ChosenIdOk | go/types.go:489-507 | generated identifiers always pass the identifier check |
| Exchange.FreshIdsDiffer | go/client.go:57-63 | different random tokens give different identifiers |
| Outcome.VerifiedIsFaithful | python/aplanesdk/signer.py:5377-5414 | slot-by-slot verification of an acceptable plan yields the end-to-end identity |
| Outcome.ReencodingKeepsBytes | go/guarded.go:446-466 | re-encoding a canonical plan yields the plan's own bytes, and its text up to case unless it held spaces |
| Outcome.ReencodedIsPlain | go/guarded.go:463-466 | a re-encoded group is plain hex text, whatever the plan looked like |
| Transactions.DecodeCanonicalGroup | python/aplanesdk/signer.py:5189-5254 | returns the only transaction list of which the texts are the canonical bytes and which is validly grouped; nothing exactly when there is none |
| Transactions.CheckGroupId | python/aplanesdk/signer.py:5230-5254 | a lone transaction has no group ID, several carry the hash of the cleared group |
| Transactions.GroupIdShared | python/aplanesdk/signer.py:5230-5254 | the transactions of a canonical group share one group ID, the hash of the group |
| Transactions.ValidateDummies | python/aplanesdk/signer.py:4882-4897 | accepts exactly the zero-fee self payments whose notes are their offsets |
| Transactions.DummyIs | python/aplanesdk/signer.py:4882-4897 | a dummy is the dummy account's zero-fee payment of nothing to itself, field for field |
| Transactions.SignsSlotIdentity | python/aplanesdk/signer.py:5389-5414 | passing the text comparison pins the inner transaction itself |
| Transactions.SignsSlotExactly | go/guarded.go:264-281 | text comparison and decoded comparison accept the same signed transactions for plain hex text; a text with white space is matched by none |
| Transactions.SpacedSlot | python/aplanesdk/signer.py:5389-5414 | any canonical slot with a space in front decodes as before and is matched by no signed transaction |
| Transactions.VerifyAssembledGroup | go/guarded.go:246-256 | same length and every slot over its canonical bytes, if and only if |
| Plan.ValidatePlan | python/aplanesdk/signer.py:5264-5358 | accepts exactly: original with fee raises at the listed distinct positions, group IDs replaced only when reported, a suffix of canonical dummies, truthful counts and total |
| Plan.FeeRise | python/aplanesdk/signer.py:5335-5350 | accepts the positions exactly when each changed only as permitted, and yields the true rise of the total |
| Plan.CollectFeePositions | python/aplanesdk/signer.py:5302-5322 | the listed positions, if distinct and in range |
| Plan.ValidateTargetFees | python/aplanesdk/signer.py:5361-5374 | every limited position exists and keeps within its limit, if and only if |
| Plan.FeeConservation | python/aplanesdk/signer.py:5264-5358 | an accepted plan costs the original total plus the declared delta, never less than the original |
| Plan.NoReportNoChange | python/aplanesdk/signer.py:5277-5350 | an accepted plan without a report is the original group |
| Plan.PlanKeeps | python/aplanesdk/signer.py:5335-5350 | an accepted plan leaves every field alone but fees at reported positions and a reported group ID |
| Plan.ReportIsTruthful | python/aplanesdk/signer.py:5282-5358 | the counts, positions and total of an accepted report are as it says, and a new group ID has a reason |
| Plan.GroupIdTruthful | python/aplanesdk/signer.py:5230-5254 | with an injective hash the group ID moves exactly when at least two transactions result and a fee or the membership changed; then it was reported |
| Plan.SingletonFeeNeedsNoGroupId | python/aplanesdk/signer.py:5264-5358 | a lone transaction's fee rises in an accepted plan that reports no new group ID |
| PrimarySlots.CheckPrimaries | python/aplanesdk/signer.py:5478-5494 | accepts exactly when every primary slot is filled over its frozen bytes, and keeps the signer's own blobs |
| PrimarySlots.SignDummies | python/aplanesdk/signer.py:4860-4879 | signs exactly canonical dummies, at consecutive positions |
| TargetOrder.SortByIndexSorts | python/aplanesdk/signer.py:5814-5814 | targets are processed in index order, none lost or added |
| Requests.ValidateEntries | python/aplanesdk/signer.py:1470-1511 | per-entry modes and the mixing rules, if and only if |
| Requests.ModeIs | python/aplanesdk/signer.py:1447-1467 | the three modes, by the fields filled |
| Requests.ValidateSignReply | go/client.go:1071-1093 | every slot but the foreign ones is filled, and every appended one, if and only if |
| Requests.ValidateComponentRequest | go/component_unified.go:8-73 | accepts exactly the splits into targets, context and a contiguous dummy suffix, one kind throughout |
| Requests.ComponentPartition | go/component_unified.go:8-73 | an accepted request gives every position exactly one of the three parts, dummies last, and the sizes add up |
| Requests.TargetsUniform | go/component_unified.go:8-73 | an accepted request is of one kind, for one user account or under one cosigner key |
| Requests.ComponentRequestForOk | go/guarded.go:654-685 | a request over distinct in-range positions with a contiguous dummy suffix and a non-empty user key passes its own check |
| Requests.OthersComplement | go/guarded.go:654-677 | the contextual positions are exactly the remaining ones, each once |
| Requests.ValidateResponse | go/component_unified.go:82-112 | well-formed components at distinct positions, if and only if |
| Requests.ValidateResponseFor | go/component_unified.go:116-133 | accepts exactly the replies with one component per requested position, of the requested kind |
| Requests.CountingDecides | go/component_unified.go:116-133 | distinct positions of the expected kinds, in equal number, are exactly the requested ones |
| Requests.ValidateAssemblyRequest | go/types.go:401-461 | accepts exactly the splits into targets and passthrough with complete material |
| Requests.AssemblyPartition | go/types.go:401-461 | an accepted assembly gives every position exactly one of the two parts, and the sizes add up |
| Requests.MaterialComplete | go/types.go:401-461 | every accepted target brings a cosigner signature and the user material of its own kind only |
| Requests.ValidateAssemblyResponse | go/types.go:463-479 | identified and every slot filled, if and only if |
| AbiArguments.ReferenceArrays.Resolve | python/aplanesdk/signer.py:2362-2400 | growing the arrays in place computes the pure resolution |
| AbiArguments.ResolveFresh | python/aplanesdk/signer.py:2362-2400 | the final arrays extend the initial ones by new values, each once |
| AbiArguments.ResolveFaithful | python/aplanesdk/signer.py:2362-2400 | every index dereferences in the final arrays to the value it was resolved for, despite later appends |
| AbiArguments.NothingSpurious | python/aplanesdk/signer.py:2362-2400 | only values some argument refers to are added, never the sender or the called application |
| AbiArguments.ResolveAgain | python/aplanesdk/signer.py:2362-2400 | resolving again against the final arrays, or any extension, gives the same indexes and adds nothing |
| AbiArguments.EncodeArguments | python/aplanesdk/signer.py:2286-2359 | encodes exactly when no transaction argument, no index over 255 and no encoder failure occurs; the first application argument is the selector, arguments follow one by one, from the fifteenth on as one tuple when there are more than fifteen; the arrays are those that result |
| AbiArguments.BasicTypeAt | python/aplanesdk/signer.py:2314-2324 | each argument is encoded under its declared type, a reference as uint8 |
| AbiArguments.EncodedCallArrives | python/aplanesdk/signer.py:2286-2359 | whenever a call encodes, at most sixteen application arguments result, and the callee reads argument k at position k, a reference as an index of at most 255 that dereferences to it in the arrays sent along |
| AbiArguments.PackingFaithful | python/aplanesdk/signer.py:2344-2359 | for any number of arguments at most sixteen result, and unpacking recovers every value |
| AbiArguments.CallReadsBack | python/aplanesdk/signer.py:2286-2359 | an encoded call fits the limit and reads back to the values it was made of |
| AbiArguments.ArgumentArrives | python/aplanesdk/signer.py:2286-2359 | argument k arrives in position k, a reference as an index for the value given |
| KeyCache.Client.ListIfKeysetChanged | python/aplanesdk/signer.py:3081-3100 | succeeds exactly when the status call answers unlocked and either a non-empty cache carries the reported revision or the fetch after it comes back whole; one call in the first case, two in the second, with the value and label of each |
| KeyCache.Client.FetchKeys | python/aplanesdk/signer.py:3025-3079 | succeeds exactly on a whole reply; an answered fetch leaves the last key per address of what parsed and drops the label, also when it breaks off; an unanswered one changes nothing |
| KeyCache.Client.KeyInfo | python/aplanesdk/signer.py:3102-3114 | a cached key without a call; else exactly one fetch, whose last key under the address is the answer, failing exactly when the fetch does |
| KeyCache.Client.ChangeKeys | python/aplanesdk/signer.py:3991-4046 | an accepted key change empties the cache and drops the label |
| KeyCache.RunAgrees | python/aplanesdk/signer.py:3012-3114 | after every run of calls the label was taken no later than the contents, and a labelled cache is a whole reply |
| KeyCache.CachedAnswerIsCurrent | python/aplanesdk/signer.py:3081-3100 | after every run, a cached answer is the whole inventory as of the status call, and a fetched one that of the later call |
| KeyCache.CachedAnswerIsVerbatim | python/aplanesdk/signer.py:3081-3100 | with no address listed twice, both answers are verbatim |
| KeyCache.CollapseKeepsLast | python/aplanesdk/signer.py:3076-3077 | the dictionary holds the last key listed under each address, and nothing else |
| KeyCache.LookupAnswers | python/aplanesdk/signer.py:3102-3114 | "no such key" is said only of an inventory just fetched whole |
| KeyCache.UnlabelledFetchesAgain | python/aplanesdk/signer.py:3039-3040 | a broken-off refresh or a key change makes the next checked listing fetch again |
| KeyCache.PlainListAfterRefresh | python/aplanesdk/signer.py:3022-3023 | the plain listing after a refresh that kept a key is complete exactly when every entry parsed |
| KeyCache.PlainListCanBePartial | python/aplanesdk/signer.py:3022-3023 | a concrete signer for which the plain listing silently serves half the inventory |
| PaymentGroup.ValidatePaymentGroup | python/aplanesdk/signer.py:2209-2232 | accepts exactly the groups whose senders each afford all their payments by the last figure checked; names a sender that cannot |
| PaymentGroup.AvailableIs | python/aplanesdk/signer.py:2219-2221 | the figure that counts is that of the sender's last check carrying one, zero without any |
| PaymentGroup.PreparableIs | python/aplanesdk/signer.py:3159-3184 | a payment is prepared exactly for two named parties, from an account that can spare it and sign |
| PaymentGroup.PreparePaymentGroup | python/aplanesdk/signer.py:3779-3804 | succeeds exactly when every payment can be prepared and the group check passes; reports the first that cannot |
| PaymentGroup.SolventExactly | python/aplanesdk/signer.py:2209-2232 | for any balances: every order keeps every sender at or above its minimum after every prefix exactly when each sender's outlay fits its spare balance |
| PaymentGroup.AcceptedIsSolvent | python/aplanesdk/signer.py:2209-2232 | executed in any order with receiver credits, from balances that cover the last figures checked, an accepted group keeps every sender at or above its minimum after every prefix |
| PaymentGroup.PreparedIsSolvent | python/aplanesdk/signer.py:3159-3210 | the same from one account snapshot per sender |
| PaymentGroup.AcceptedExactly | python/aplanesdk/signer.py:2214-2232 | with one snapshot per sender, acceptance asks for the outlay plus what the sender pays itself |
| PaymentGroup.ExactWithoutSelfPayment | python/aplanesdk/signer.py:2226-2232 | unless a sender pays itself, acceptance and solvency in every order coincide |
| PaymentGroup.SelfPaymentTurnedAway | python/aplanesdk/signer.py:2214-2232 | a rejected group that is solvent in every order |
| PaymentGroup.LastSnapshotWins | python/aplanesdk/signer.py:2219-2221 | an accepted group that the first snapshot's account cannot pay |
| PaymentGroup.OneOrderExactly | python/aplanesdk/signer.py:2209-2232 | when no sender is paid by another account, one order is solvent exactly when each outlay fits |
| MergeGroup.AssembleGroup | go/encoding.go:47-81 | succeeds exactly when every slot has one owner and decodes; the result encodes the contributions one after the other, each at the sum of the earlier lengths; an error names a faulty slot |
| MergeGroup.JoinedUnique | go/encoding.go:77-77 | blobs can be joined in order in one way only |
| MergeGroup.FindOwner | go/encoding.go:60-71 | the only owner's value, or that there are several, or none, if and only if |
| MergeGroup.MergeUndoesSplit | go/encoding.go:42-81 | merging any split of non-empty blobs among the signers succeeds, and the result decodes to the blobs in slot order |
| MergeGroup.SignerOrderIrrelevant | go/encoding.go:42-81 | the order of the signers' lists does not matter to the contributions |
| MergeGroup.SignerOrderSameResult | go/encoding.go:42-81 | nor to the merged result |
| MergeGroup.BadOwnershipRejected | go/encoding.go:60-71 | a slot with no owner or several makes the merge impossible |
| MergeGroup.HexArrayToBase64 | go/encoding.go:30-40 | succeeds exactly when every string is hex; the result encodes the decoded bytes one after the other in order |
| CancelRace.AtMostOneCancel | go/client.go:1001-1043 | in every interleaving at most one cancel, none without approval, none unless the context ended in time; a made call that failed has sent exactly when it did |
| CancelRace.CancelFollowsExactly | go/component_client.go:40-79 | the points at which the end of the context can still lead to a cancel, if and only if |
| CancelRace.SpuriousCancel | go/client.go:1012-1043 | a run that cancels a call that had already succeeded |
| CancelRace.NeverStuck | go/client.go:1001-1043 | neither goroutine deadlocks, the watcher never leaks, and every run is finite |
| SetupDeadline.DeadlineIsSafe | python/aplanesdk/signer.py:6229-6307 | over every interleaving: never both complete and timed out, an expiry never closes a completed connection, completion took less than the timeout outside prompts, a time-out no less |
| SetupDeadline.CompletesExactlyInTime | python/aplanesdk/signer.py:6229-6307 | with no prompt open a ready connection completes exactly when less than the timeout passed outside prompts |
| SetupDeadline.CompletionIsFinal | python/aplanesdk/signer.py:6243-6253 | timers that fire after completion change nothing |
| SetupDeadline.NothingLeftNeverCompletes | python/aplanesdk/signer.py:6263-6272 | once no time is left, clamped or not, no later step completes |
| SetupDeadline.ExpiryTakesEffect | python/aplanesdk/signer.py:6243-6253 | a timer that gets the lock before completion times the set-up out and closes the socket; after it, nothing happens |
| SetupDeadline.ThinkingIsFree | python/aplanesdk/signer.py:6255-6272 | from the start, through a prompt of any length, the set-up completes exactly when the rest took less than the timeout |
| SetupDeadline.StallTimesOut | python/aplanesdk/signer.py:6285-6307 | a connection that stalls is timed out and its socket closed |
| AlgokitAccount.SingleInFlight | python/aplanesdk/algokit.py:88-118 | for every interleaving and any identifier factory at most one call is between begin and end, and a cancel names an identifier that was current when the lock was read |
| AlgokitAccount.OnlyOwnerFrees | python/aplanesdk/algokit.py:88-100 | a refused call leaves the slot, the owner's exit frees it, nothing else touches it |
| AlgokitAccount.CancelHitsNoOther | python/aplanesdk/algokit.py:102-118 | with identifiers that never repeat, a cancel about to be sent cannot hit a call that has yet to begin |
| AlgokitAccount.HitExactlyIfRepeated | python/aplanesdk/algokit.py:88-118 | for any sequence of identifiers: some run that draws them in order brings a late cancel to name a call that has yet to begin, exactly when an identifier repeats |
| AlgokitAccount.RepeatedIdCanBeHit | python/aplanesdk/algokit.py:88-118 | a schedule for any repeated identifier |
| AlgokitAccount.Account.Sign | python/aplanesdk/algokit.py:120-178 | requests go out for exactly the listed positions in order; every exit of the owner frees the slot; succeeds exactly on an unregrouped reply of the right length that decodes |
| Hex.RoundTrip | go/encoding.go:84-91 | decoding undoes encoding |
| Hex.EncodeText | go/encoding.go:88-91 | two lower-case digits per byte, the high one first |
| Hex.MatchesReencoding | python/aplanesdk/signer.py:5389-5414 | a text equals its re-encoding up to case exactly when it holds digits only |

## Left out

- HTTP, status codes, JSON types and error texts: a reply is an arbitrary value, a refusal or silence.
- The `/status` call that discovers the approval wait, and key lookups during classification, have no entry in the log of messages; a lookup is a function that may fail.
- Best-effort cancellation in the flows follows Python: it is sent when no answer arrives. The Go race is modelled apart, in `CancelRace`.
- What `CancelSignRequest` itself does with its own deadline: in `CancelRace` a post counts as sent when it starts.
- Request identifiers: Go's ASCII rule is modelled; Python's character test is wider.
- `Plan.FeeRise`: models Python's unbounded sums, not the 64-bit totals of Go.
- `BoundedRoles.ClassifiedRolesOk`: follows Python, which checks resource bounds while classifying; Go's bounded flow leaves them to the requests it builds later.
- Cosigner resolvers and the single-client default: a routing is any function from targets to a client and key.
- `GuardedFlow.Assemble`: follows Go's final comparison, which Python's `sign_guarded_group` does not make.
- The order in which a map of routes is visited is left arbitrary, so the proofs hold for any order; requests list their positions in target order.
- Fields of a transaction other than those the clients inspect are one opaque part; signing, hashing and msgpack are the codec's parameters.
- `PaymentGroup.Execute`: ignores where fees go, which can only help a sender.
- Float rounding of deadlines: time is real-valued in `SetupDeadline`.
- `AlgokitAccount.Account.Sign`: one call with nobody interfering; interleavings are the state machine's.
- Types of ABI values, addresses and the method signature hash are the ABI library's parameters.
- Simulation wrappers, asset transfer and key registration groups, key generation parameters, configuration files, SSH tunnels and host keys, and the TypeScript client: easy members or other copies of the same choreography.
