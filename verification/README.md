# QX Chain pallets: a verified model

This project models the three custom pallets of QX Chain as one on-chain state machine and proves
what holds in every state it can reach and over every run it can make.

* `pallet-qx-ai` keeps two id counters, a request map, a request-to-worker map, a result map, an
  online flag and one bounded queue per worker. `Ais.dfy` holds its storage and calls.
* `pallet-qx-kilt-permissions` keeps worker identities and credentials and answers whether a DID
  verifies at the current block. `Kilts.dfy` holds its storage, calls and scans.
* `pallet-qx-faucet` pays out drips from a pot under a cooldown, a lifetime cap and a keep-alive
  transfer. `Faucets.dfy` holds it, `Balances.dfy` the transfers it uses.
* `Runtimes.dfy` composes the pallets over one block number and one ledger, fixes the constants and
  the pot account, and dispatches calls: a call commits all its writes or none.

Each pallet appears twice. A datatype (`Kilt`, `Ai`, `Faucet`) is its storage as a value, with one
function per call that says what the call does as a single checked step, by direct lookup. A class
(`KiltPermissions`, `AiPallet`, `FaucetPallet`) has the same storage as fields, and its methods work
as the pallet does: scanning the identity map in an arbitrary order and stopping at the first match,
writing the counter and the request before it is known whether the queue has room. Every method is
proved against the function. `Runtime.Dispatch` runs a method on the live storage, puts the saved
storage back on failure, and is proved to be exactly one step of the machine, from any state the
identity scans work in, so also on a chain that has reused a request id. `Runs.Replay` chains
such calls and block changes, and goes through exactly the run.

A run is any sequence of events: a new block with a number no lower than the last, a dispatched call
with any origin and arguments, or an arbitrary change of balances made elsewhere in the runtime.
`Runs.dfy`, `CredentialTerms.dfy`, `Completion.dfy`, `FaucetRuns.dfy` and `Wraparound.dfy` prove the
results about runs. `Answers.dfy` says for every call, with no reference to the functions above, which
answer it gives exactly when, errors included, and what it leaves behind: in terms of the storage
maps, queues, balances, block number and hash alone. `Primitives.dfy`, `MapSums.dfy` and
`Sequences.dfy` hold integers and shared lemmas.

Points where the model is explicit about the code:

* Block numbers and ids are 32-bit. Block arithmetic saturates. The id counters use a plain `+ 1`,
  and the release profile leaves overflow checks off, so they wrap to zero after the last id. That
  alone breaks nothing: `Made` and `Answered` count the ids handed out, all 2^32 of them when a
  counter is back at zero and id zero is taken, and the invariant is stated in these counts. It is
  kept by exactly those steps that do not accept a request under an id already stored, and a run has
  no such step exactly when it accepts no more requests than ids are left. Results about request ids
  are stated for these runs (`ReuseFree`), and a reachable state is the end of one. The other step is
  not a hypothetical one: from every genesis some run leads up to it, and it replaces a stored
  request by another (`Wraparound`).
* The hash behind `generate_did` is a parameter. It is assumed to yield 32 bytes and to have no
  collisions on accounts; a function with these properties exists for 32-byte accounts.
* The spacing of claims fails at the very last block number, where the saturated sum stops growing.
  The rate bound therefore holds in some windows and not in others: it is proved for exactly the
  windows that end below that block, lie beyond it, or are long enough for the lifetime cap.
* Fees and transfers between accounts are balance changes made elsewhere in the runtime. The results
  about balances allow any of them: the ledgers carry their net effect as a term, and the drain
  bound counts what they bring into the pot.
* `docs/api-reference.md:273` promises a 30-day default validity and line 281 a permanent
  revocation. The code does neither: a credential issued without a period never expires, a revoked
  one can be issued again, and the model follows the code. Suspension, on the other hand, belongs
  to the identity and outlives both revoking and re-issuing the credential.
* Verifying a DID that has a credential but no registered owner succeeds, and suspending such a DID
  does nothing, as in the code.

## Model

| member | source | states |
|---|---|---|
| Runtimes.StepInv | pallets/pallet-qx-ai/src/lib.rs:230-252 | every step from an invariant state keeps the whole-chain invariant if and only if it does not accept a request under an id already stored |
| Runs.InvThroughoutIffReuseFree | pallets/pallet-qx-ai/src/lib.rs:230-231 | the invariant holds at every point of a run if and only if no step of the run accepts a request under an id already stored |
| Runs.ReachableInv | pallets/pallet-qx-ai/src/lib.rs:230-347 | every reachable state satisfies the invariant: queues are the increasing lists of open requests, ids are dense, results and completed requests correspond one to one, requests made = results stored + all queue lengths, identities agree, claim records are spaced |
| Runs.ReuseFreeIffIdsLast | pallets/pallet-qx-ai/src/lib.rs:230-246 | a run accepts no request under an id already stored if and only if the ids handed out before it and the requests it accepts come to at most 2^32 |
| Runs.ShortRunsReuseFree | pallets/pallet-qx-ai/src/lib.rs:231 | a run with no more events than ids left reuses none |
| Wraparound.IdsRunOut | pallets/pallet-qx-ai/src/lib.rs:230-231 | from every genesis, if a queue can hold anything, some run hands out all 2^32 ids without reusing one and ends where a further request is accepted under a stored id |
| Wraparound.ReuseTakesFirstId | pallets/pallet-qx-ai/src/lib.rs:230-246 | once all ids are handed out, whatever happens before the next request is accepted, refused requests included, that request is stored over request zero |
| Wraparound.ReuseLosesRequest | pallets/pallet-qx-ai/src/lib.rs:230-246 | every genesis has a run that reaches a stored request and a step after it that makes its fields another request's |
| Ais.EnqueuedKeepsInv | pallets/pallet-qx-ai/src/lib.rs:230-252 | storing and queueing a request keeps queues, ids, results and the conservation equation in agreement |
| Ais.CompletedKeepsInv | pallets/pallet-qx-ai/src/lib.rs:319-347 | completing an open request keeps them in agreement, even with the last inference id |
| Ais.CompletedLengths | pallets/pallet-qx-ai/src/lib.rs:342-347 | a completion takes exactly one entry out of all queues together |
| Ais.CompletedQueues | pallets/pallet-qx-ai/src/lib.rs:336-347 | a completion removes its id from its worker's queue in place, keeping the order, and leaves every other queue alone |
| Ais.CompletedResults | pallets/pallet-qx-ai/src/lib.rs:325-340 | after a completion each completed request still has exactly one result and each result its completed request |
| Ais.InferenceIdsSuffice | pallets/pallet-qx-ai/src/lib.rs:319-320 | while anything is open fewer results than requests are stored, so a result never takes the place of another |
| Ais.OpenCountsQueue | pallets/pallet-qx-ai/src/lib.rs:248-252 | the queue length equals the number of open requests counted in the request map |
| Ais.QueuesDetermined | pallets/pallet-qx-ai/src/lib.rs:248-252 | the request map alone determines every queue |
| Ais.NoSharedIds | pallets/pallet-qx-ai/src/lib.rs:248-252 | no id waits in two queues |
| Ais.EarlyWritesOrphan | pallets/pallet-qx-ai/src/lib.rs:230-252 | the writes made before a failing queue push would, without roll-back, break the invariant |
| Ais.AiPallet.SubmitRequest | pallets/pallet-qx-ai/src/lib.rs:208-265 | the write-early call succeeds and fails, with the same error, as the step that checks before it writes; a full queue leaves exactly the counter, request and worker writes behind, any other failure nothing |
| Answers.StatusAnswers | pallets/pallet-qx-ai/src/lib.rs:275-293 | the status call is accepted, for either flag, exactly from a registered signer with a credential, within its term, and stores that flag; each of the four errors is given exactly under its own condition |
| Answers.RequestAnswers | pallets/pallet-qx-ai/src/lib.rs:214-252 | which error a request gets, told from the target's identity, credential, term and count of open requests in the request map |
| Answers.RequestLeaves | pallets/pallet-qx-ai/src/lib.rs:230-252 | an accepted request takes the next id, is stored as asked for and goes to the end of its worker's queue; nothing else changes |
| Answers.InferenceAnswers | pallets/pallet-qx-ai/src/lib.rs:304-317 | which error a result gets: after the identity errors, not found iff the id was not handed out, not assigned iff the request is another worker's, already assigned iff it is the caller's and in no queue; accepted iff it waits in the caller's queue |
| Answers.InferenceLeaves | pallets/pallet-qx-ai/src/lib.rs:319-347 | an accepted result is stored under the next inference id with the caller's hash, completes its request and takes its id out of every queue; nothing else changes |
| Ais.AiPallet.UpdateAiWorkerStatus | pallets/pallet-qx-ai/src/lib.rs:271-293 | scanning in any order, the call answers and stores what the lookup-based step does, which StatusAnswers decides |
| Ais.AiPallet.SubmitInference | pallets/pallet-qx-ai/src/lib.rs:299-347 | scanning in any order, the call answers and stores what the lookup-based step does, which InferenceAnswers and InferenceLeaves decide |
| Runtimes.Runtime.Dispatch | runtime/src/lib.rs:369-420 | from any state the scans work in, also past a reused id, a dispatched call is one atomic step: on error the whole state and every id is as before, the error is the step's, and the invariant is lost exactly by reusing an id |
| Runs.Replay | runtime/src/lib.rs:187-193 | a machine that begins blocks and dispatches calls one after the other ends in exactly the state of the run, failures rolled back on the way |
| Runtimes.GenesisInv | node/src/chain_spec/mainnet.rs:77-100 | an empty chain with any balances satisfies the invariant |
| Runtimes.AcceptedRequest | pallets/pallet-qx-ai/src/lib.rs:214-252 | an accepted request had a signer, a target whose DID verified, and room, and changed nothing but the request storage |
| Runtimes.AcceptedInference | pallets/pallet-qx-ai/src/lib.rs:304-347 | an accepted result came from the request's target, whose DID verified, while the request was open |
| Runtimes.CollisionFreeHashExists | pallets/pallet-qx-kilt-permissions/src/lib.rs:335-342 | the assumption on the hash is satisfiable |
| CredentialTerms.RequestAcceptedIff | pallets/pallet-qx-ai/src/lib.rs:214-252 | in every reachable state a request is accepted iff signed, the target is registered, the block lies in the target's validity interval and fewer requests than the bound are open for it in the request map |
| CredentialTerms.InferenceAcceptedIff | pallets/pallet-qx-ai/src/lib.rs:304-317 | in every reachable state a result is accepted iff signed by a registered account within its validity interval for an id in its own queue |
| Runs.Lifecycle | pallets/pallet-qx-ai/src/lib.rs:236-246 | over every run from an invariant state that accepts no more requests than ids are left, stored requests keep every field but status, completed ones never change again, and results are never overwritten or removed |
| Runs.QueueHistory | pallets/pallet-qx-ai/src/lib.rs:248-252 | over any run that reuses no id a worker's queue is its start plus the requests accepted since, in order, less exactly the ones it completed, one slot per completion |
| Runs.QueueDrains | pallets/pallet-qx-ai/src/lib.rs:342-347 | over any run that reuses no id, with no new requests, a queue is empty exactly after as many completions as it had entries, however interleaved, and keeps the order of the rest meanwhile |
| Runs.QueueStep | pallets/pallet-qx-ai/src/lib.rs:342-347 | one step appends to a queue, takes one id out of it, or leaves it alone |
| Runs.RequestWasAccepted | pallets/pallet-qx-ai/src/lib.rs:217-243 | after every run from genesis that reuses no id, every stored request goes back to a step signed by its customer at its creation block, where its target's DID verified and the queue had room |
| Runs.ResultWasEarned | pallets/pallet-qx-ai/src/lib.rs:307-334 | after every such run, every stored result goes back to a step signed by its worker at its submission block, where the stored DID was the worker's own and verified and the request was open |
| Completion.BatchCompletes | pallets/pallet-qx-ai/src/lib.rs:299-347 | any order of separately acceptable submissions is accepted throughout and ends in the state told by their set, results numbered in order of submission |
| Completion.Confluence | pallets/pallet-qx-ai/src/lib.rs:299-347 | any permutation of acceptable submissions is acceptable too; both orders are accepted throughout and end in the same chain state up to a bijective renumbering of the new inference ids |
| Completion.WholeQueueDrains | pallets/pallet-qx-ai/src/lib.rs:342-347 | submitting a whole queue in any order empties it and leaves every other queue as it was |
| Kilts.KiltPermissions.VerifyWorkerCredential | pallets/pallet-qx-kilt-permissions/src/lib.rs:345-375 | the scan, in any iteration order, answers what a direct lookup of the credential and the DID's owner answers |
| Kilts.KiltPermissions.SuspendScan | pallets/pallet-qx-kilt-permissions/src/lib.rs:315-321 | the scan with break, in any order, suspends the DID's owner and nobody else |
| Kilts.KiltPermissions.SuspendWorker | pallets/pallet-qx-kilt-permissions/src/lib.rs:302-329 | root only; the end block is the saturated sum with the given or default period |
| Kilts.KiltPermissions.SuspendWorkerCredential | pallets/pallet-qx-kilt-permissions/src/lib.rs:384-406 | the helper does what the root call does with that duration |
| Kilts.KiltPermissions.GenerateDid | pallets/pallet-qx-kilt-permissions/src/lib.rs:335-342 | the buffer filled in place is the first 32 bytes of the hash in order, or the whole hash followed by zeros |
| Runs.IdentitiesAreHashes | pallets/pallet-qx-kilt-permissions/src/lib.rs:216-236 | after every run from genesis both maps hold an account's hash, byte for byte, as its DID |
| Kilts.KiltPermissions.CreateWorkerDid | pallets/pallet-qx-kilt-permissions/src/lib.rs:209-244 | registers the signer once, within the length bounds, writing both maps |
| Answers.RegistrationAnswers | pallets/pallet-qx-kilt-permissions/src/lib.rs:209-241 | a signer not registered yet is accepted iff its name has at most 128 bytes and its description 512, with one error for each refusal, and is stored in both maps under its hash |
| Answers.GovernanceAnswers | pallets/pallet-qx-kilt-permissions/src/lib.rs:196-297 | naming a governance DID and revoking succeed exactly for sudo, also when there is nothing to revoke, and do just that |
| Answers.IssueAnswers | pallets/pallet-qx-kilt-permissions/src/lib.rs:249-279 | sudo issues exactly with at most 100 models; the credential ends with the period asked for, at the latest with the last block number, or never |
| Answers.SuspensionAnswers | pallets/pallet-qx-kilt-permissions/src/lib.rs:302-329 | sudo is never refused; the account whose hash is the DID, if registered, is suspended until the saturated end, and nothing else changes |
| Kilts.DidInjective | pallets/pallet-qx-kilt-permissions/src/lib.rs:335-342 | distinct accounts get distinct DIDs |
| Kilts.OwnerUnique | pallets/pallet-qx-kilt-permissions/src/lib.rs:209-241 | in every invariant state a DID has at most one owner |
| Kilts.LookupFindsOwner | pallets/pallet-qx-kilt-permissions/src/lib.rs:378-381 | the lookup finds a DID exactly for its only owner, and reports an account without DID exactly when it owns none |
| Kilts.VerifyReadsOwner | pallets/pallet-qx-kilt-permissions/src/lib.rs:345-381 | for a registered account verification reads exactly its credential and its own status |
| Kilts.SuspendOwned | pallets/pallet-qx-kilt-permissions/src/lib.rs:309-321 | suspending an owned DID changes exactly its owner's status |
| Kilts.SuspendUnowned | pallets/pallet-qx-kilt-permissions/src/lib.rs:309-321 | suspending a DID nobody owns changes nothing |
| Runs.IdentitiesLast | pallets/pallet-qx-kilt-permissions/src/lib.rs:216-236 | over any run identities are write-once, both maps agree, no status is Revoked and a suspended worker never becomes Active again |
| Runs.CredentialWasIssued | pallets/pallet-qx-kilt-permissions/src/lib.rs:255-271 | a stored credential is the one sudo last issued for its DID, with that issuer, models and expiry, not revoked since |
| Runs.GovernanceNamedLast | pallets/pallet-qx-kilt-permissions/src/lib.rs:194-204 | over any run the governance DID is the one sudo named last, or the initial one if none was named |
| Runs.IssuerInForce | pallets/pallet-qx-kilt-permissions/src/lib.rs:258-271 | a stored credential's issuer is the governance DID sudo had named last before issuing it, whatever was named since |
| Runs.WorkerRegistered | pallets/pallet-qx-kilt-permissions/src/lib.rs:214-236 | every identity goes back to its own account's registration at the recorded block |
| CredentialTerms.TermsDecide | pallets/pallet-qx-kilt-permissions/src/lib.rs:345-375 | verification at a block is membership of that block in the interval spanned by suspension end and expiry |
| CredentialTerms.TermsStep | pallets/pallet-qx-kilt-permissions/src/lib.rs:209-329 | the three terms of one DID evolve as a small automaton that sees only the event and the block number |
| CredentialTerms.ValidityInterval | pallets/pallet-qx-kilt-permissions/src/lib.rs:345-375 | while sudo leaves the DID alone it verifies iff the block is after the suspension end and not after the expiry, also across saturation and registration of its owner |
| CredentialTerms.ValidityConvex | pallets/pallet-qx-kilt-permissions/src/lib.rs:345-375 | between two valid moments of such a run there is no invalid one |
| CredentialTerms.LastReplacementStands | pallets/pallet-qx-kilt-permissions/src/lib.rs:249-297 | a DID has a credential after a run iff the last sudo call that replaced it was an issue: revoking removes it and issuing again brings it back |
| CredentialTerms.RevocationFreezes | pallets/pallet-qx-kilt-permissions/src/lib.rs:284-297 | from a state without its credential until sudo issues one, a worker is reported unknown and frozen as below, over every run |
| CredentialTerms.FrozenWhileInvalid | runtime/src/lib.rs:317-325 | over any run during which a worker's DID never verifies, also one that reuses ids, no request of the worker is accepted or completed and its queue and flag stay; and unless an id is reused every request made to it stays as well |
| CredentialTerms.SuspensionFreezes | runtime/src/lib.rs:317-325 | up to the end of a suspension, short of another one ending before the block reached, no run at all accepts or completes a request of the worker, changes its queue or flips its flag, and none that reuses no id changes a request made to it |
| CredentialTerms.ResuspensionLifts | pallets/pallet-qx-kilt-permissions/src/lib.rs:302-321 | a shorter suspension replaces a longer one: the worker verifies right after the shorter one, at a block where without it verification still says no |
| CredentialTerms.AcceptedStatus | pallets/pallet-qx-ai/src/lib.rs:275-284 | an online flag moves only by its own worker while its DID verifies |
| Faucets.GuardFromStorage | pallets/pallet-qx-faucet/src/lib.rs:167-235 | the query says yes exactly to a rested account with claims left while the pot holds a drip, the existential deposit playing no part; the pool says stale, exhausted or valid accordingly |
| Answers.ClaimAnswers | pallets/pallet-qx-faucet/src/lib.rs:101-132 | a claim is refused for the cooldown, then the lifetime cap, then a pot below a drip, then by keep-alive, each by its own error and exactly then |
| Answers.ClaimLeaves | pallets/pallet-qx-faucet/src/lib.rs:127-136 | a paid claim moves one drip, records this block and one claim more, and touches nothing else |
| Answers.FundingAnswers | pallets/pallet-qx-faucet/src/lib.rs:146-155 | funding is accepted, however dry the pot, exactly if signed and nothing or to oneself, or if the signer keeps the existential deposit and the pot reaches it |
| Answers.FundingLeaves | pallets/pallet-qx-faucet/src/lib.rs:146-155 | accepted funding moves its amount from the signer to the pot and touches nothing else |
| Faucets.RemainingCompletesCap | pallets/pallet-qx-faucet/src/lib.rs:205-209 | claims made and claims remaining come to the lifetime cap |
| Faucets.GuardsAgree | pallets/pallet-qx-faucet/src/lib.rs:104-132 | pool validation, the query and the call's own checks agree, and a claim succeeds exactly when they pass and the keep-alive transfer can be made |
| Faucets.SpacingExactlyBelowSaturation | pallets/pallet-qx-faucet/src/lib.rs:107-113 | a repeated claim keeps the cooldown iff it is not a saturated one at the last block number |
| Faucets.ClaimedKeepsInv | pallets/pallet-qx-faucet/src/lib.rs:134-136 | claim records keep (count - 1) * cooldown <= last claim <= now below the last block number |
| Faucets.FaucetPallet.Claim | pallets/pallet-qx-faucet/src/lib.rs:101-141 | pays between its checks and its records and changes nothing on failure; the answer is the one ClaimAnswers decides |
| Balances.TransferConserves | pallets/pallet-qx-faucet/src/lib.rs:127-132 | a transfer keeps the total issuance |
| Balances.TransferMoves | pallets/pallet-qx-faucet/src/lib.rs:127-132 | a transfer moves exactly its amount and touches no third account |
| FaucetRuns.ClaimHistory | pallets/pallet-qx-faucet/src/lib.rs:104-136 | a run's claims by an account are a cooldown apart below the last block number and are counted by the lifetime counter |
| FaucetRuns.RateBound | pallets/pallet-qx-faucet/src/lib.rs:104-136 | in every safe window of L blocks (below the last block number, beyond it, or with ceil(L / cooldown) no less than the lifetime cap) an account claims at most ceil(L / cooldown) times, and never more than its remaining claims |
| FaucetRuns.RateBoundAttained | pallets/pallet-qx-faucet/src/lib.rs:104-136 | every number of claims up to both caps is reached by some run of a fresh account, if the pot holds out |
| FaucetRuns.RateBoundFailsAtLastBlock | pallets/pallet-qx-faucet/src/lib.rs:107-113 | in every other window, for every configuration, an account that may claim at the last block number does so ceil(L / cooldown) + 1 times in that block |
| FaucetRuns.RateBoundIffSafeWindow | pallets/pallet-qx-faucet/src/lib.rs:104-136 | all runs keep the rate bound in a window if and only if the window is safe |
| FaucetRuns.IssuanceConstant | pallets/pallet-qx-faucet/src/lib.rs:119-155 | over any run the total issuance changes by exactly what is done elsewhere in the runtime; claims and funding keep it |
| FaucetRuns.FaucetLedger | pallets/pallet-qx-faucet/src/lib.rs:119-155 | over any run, pot + drip * claims by others = their initial values + what others paid in + the net effect on the pot of changes made elsewhere; the pot's own claims move nothing |
| FaucetRuns.PotStaysAlive | pallets/pallet-qx-faucet/src/lib.rs:127-132 | a pot at or above the existential deposit stays there over any run in which no change made elsewhere in the runtime itself takes it below |
| FaucetRuns.AccountLedger | pallets/pallet-qx-faucet/src/lib.rs:119-155 | over any run every other account ends with its start plus a drip per claim, less what it paid in, plus the net effect of changes made elsewhere |
| FaucetRuns.DrainBound | pallets/pallet-qx-faucet/src/lib.rs:119-132 | over any run drip * claims by others + existential deposit <= pot + drip * claims by others before + what entered the pot, whatever fees and transfers take place |
| FaucetRuns.DrainAttained | pallets/pallet-qx-faucet/src/lib.rs:119-132 | fresh accounts attain that bound: as long as the pot covers their drips and the deposit, all are paid, with nothing coming in |
| FaucetRuns.MainnetDrainBound | runtime/src/lib.rs:335-342 | from the mainnet genesis a run into which less than an existential deposit comes pays at most 99,999 claims |
| FaucetRuns.MainnetDrained | pallets/pallet-qx-faucet/src/lib.rs:217-235 | after every run from the mainnet genesis that paid 99,999 claims and whose funding and other changes to the pot cancel out, one drip is left and every claim by another account is refused; to a rested account with claims left the query says yes, the pool says valid and only keep-alive refuses |
| FaucetRuns.MainnetDrainAttained | pallets/pallet-qx-faucet/src/lib.rs:101-141 | some run of accepted claims alone pays exactly 99,999 from the mainnet genesis |
| FaucetRuns.QxLifetimeDraw | runtime/src/lib.rs:335-342 | on this chain no run lets an account draw more than 50 * 10^12 units in its life |
| FaucetRuns.QxDailyDraw | runtime/src/lib.rs:335-342 | nor more than one drip within 86,400,000 ms of blocks below the last block number |
| FaucetRuns.QxDrawAttained | runtime/src/lib.rs:335-342 | a fresh account can draw five drips, one every 14,400 blocks |
| Answers.QxKeepAlive | runtime/src/lib.rs:335-342 | a pot of 10^13 units up to 10^13 + 499 pays nobody else, from 10^13 + 500 on it pays |
| Answers.QxQueueBound | runtime/src/lib.rs:328-333 | a worker has at most 100 open requests, and a request is refused for a full queue exactly at 100 |
| Answers.QxDefaultSuspension | runtime/src/lib.rs:306-312 | a suspension without a period lasts through the 14,400 blocks of a day |
| Answers.PotSpellsSeed | runtime/src/lib.rs:344-358 | the pot account spells its seed and is padded with zeros |
| FaucetRuns.MainnetGenesisInv | node/src/chain_spec/mainnet.rs:60-71 | the mainnet balances form a genesis state |

## Left out

- Consensus, the node, RPC, the transaction pool, fees, weights, events and SCALE encoding: library plumbing; an origin is a tag on the call.
- `pallet_balances` internals (locks, holds, reserves, dust, providers): replaced by a transfer with the existential-deposit and overflow rules; other balance changes are one arbitrary event.
- Sudo calls outside the three pallets that rewrite storage or code (`system.set_storage`, `kill_storage`, a runtime upgrade): they can put any value into these pallets' storage, and no result covers a run that contains one.
- The hash function itself: a parameter assumed collision-free on accounts.
- `AllowedModels`, `NextModelId`, `AuthorizedWorkers` and `add_allowed_model`: no other rule reads them.
- The length bounds of prompts and outputs: enforced by their types when a call is decoded.
- `faucet_balance` as a runtime query: it is the pot's free balance.
- Runs.Replay: covers block changes and dispatched calls; a balance change made elsewhere is no call of these pallets, so the machine has no method for it.
