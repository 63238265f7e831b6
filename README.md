# Alok contract: a verified model of its transaction validation

The Alok CorDapp tracks "thought" records on a Corda ledger. Each record is an
`AlokState(thought, issuer, owner)`. The `AlokContract` decides whether a
proposed transaction is acceptable. A transaction consumes input states,
produces output states, and carries commands with their signer keys and an
optional time window. Two builders assemble proposals:

- `generateIssue` builds an issuance proposal.
- `generateMove` adds a transfer to an existing `TransactionBuilder`.

This project models that core in Dafny. It proves the contract's rules, the
grouping they rest on, and the link between the two builders and the
validator.

- `identity.dfy` (`Identity`): public keys as opaque values, with the
  platform's null key as a sentinel. A party is represented only by its owning
  key, because the platform compares parties by owning key.
- `model.dfy` (`AlokModel`): the state, its grouping key `WithoutOwner`, the
  retargeting `WithOwner`, `Participants` and the command kinds.
- `grouping.dfy` (`Grouping`): the platform's `groupStates`, stated as a
  partition of inputs and outputs by grouping key. Groups keyed by inputs come
  first, in order of first occurrence. Groups whose key occurs only among the
  outputs follow.
- `transactions.dfy` (`Transactions`): the ledger transaction the contract
  sees, the filters by type (`inputsOfType`, `outputsOfType`,
  `select<Commands>`), and the `TransactionBuilder` class that the builders
  change in place.
- `contract.dfy` (`AlokContract`):
  - `Verify` as a total function to `Accept | Reject(reason)`. The reason is
    the first check that fails, in the order the Kotlin code performs them.
  - The two builders.
  - The lemmas that connect the builders to the validator.
- `options.dfy` (`Options`): the optional value that stands for Kotlin's
  nullable types.

The validator checks its rules in the order of the Kotlin code:

- Issue checks `outputs.single()` before the time window. An untimed Issue
  group with two outputs is therefore rejected for output arity, not for the
  missing time window.
- Each exception is modelled as a rejection reason.
- A transaction that has exactly one Alok command but no Alok state is
  accepted, because the loop over groups never runs (`VerifyWithoutAlokStates`).

## Model

| member | source | states |
|---|---|---|
| `AlokModel.Participants` | cordapp-contracts-states/src/main/kotlin/com/template/StatesAndContracts.kt:89 | two parties, the owner first; a party is a participant exactly when it is the owner or the issuer |
| `AlokModel.WithoutOwner` | cordapp-contracts-states/src/main/kotlin/com/template/StatesAndContracts.kt:91 | the grouping key keeps thought and issuer and has the null-key party as owner |
| `AlokModel.WithOwner` | cordapp-contracts-states/src/main/kotlin/com/template/StatesAndContracts.kt:93-95 | the result has the new owner and the same grouping key as the original, so a moved state stays on its asset line |
| `AlokModel.SameGroupIff` | cordapp-contracts-states/src/main/kotlin/com/template/StatesAndContracts.kt:91 | two states share a grouping key if and only if they agree on thought and issuer, whatever their owners |
| `AlokModel.WithOwnerRoundTrip` | cordapp-contracts-states/src/main/kotlin/com/template/StatesAndContracts.kt:93-95 | handing a moved state back to its previous owner restores the original state |
| `Grouping.GroupStates` | cordapp-contracts-states/src/main/kotlin/com/template/StatesAndContracts.kt:27 | the groups partition the states: each group holds all inputs and outputs with its key and is non-empty; every state's group is present; no key appears twice; input-bearing groups come first, led by the first input's group |
| `Transactions.AlokStatesOfCounts` | cordapp-contracts-states/src/main/kotlin/com/template/StatesAndContracts.kt:27 | the type filter keeps every Alok state exactly as often as it occurs among the ledger states, duplicates included |
| `Transactions.AlokCommandsCounts` | cordapp-contracts-states/src/main/kotlin/com/template/StatesAndContracts.kt:29 | the command filter keeps every Alok command exactly as often as it occurs, duplicates included, and drops every other command |
| `Transactions.TransactionBuilder.constructor` | cordapp-contracts-states/src/main/kotlin/com/template/StatesAndContracts.kt:64 | a new builder holds its notary, no states, no commands and no time window |
| `Transactions.TransactionBuilder.AddInputState` | cordapp-contracts-states/src/main/kotlin/com/template/StatesAndContracts.kt:68 | appends one input; everything else is unchanged |
| `Transactions.TransactionBuilder.AddOutputState` | cordapp-contracts-states/src/main/kotlin/com/template/StatesAndContracts.kt:70 | appends one output tagged with its contract; everything else is unchanged |
| `Transactions.TransactionBuilder.AddCommand` | cordapp-contracts-states/src/main/kotlin/com/template/StatesAndContracts.kt:71 | appends one command; everything else is unchanged |
| `Transactions.TransactionBuilder.SetTimeWindow` | cordapp/src/main/kotlin/com/template/App.kt:67 | sets the time window; the states, commands and notary are unchanged |
| `AlokContract.CheckGroup` | cordapp-contracts-states/src/main/kotlin/com/template/StatesAndContracts.kt:34-55 | Move accepts a group if and only if it has one input, signed by that input's owner, and one output. Issue accepts if and only if there is one output, a window with an upper bound, the issuer's signature, a non-empty thought and no input. Any other Alok command is rejected as unknown |
| `AlokContract.CheckGroups` | cordapp-contracts-states/src/main/kotlin/com/template/StatesAndContracts.kt:33-57 | accepts if and only if every group passes; otherwise rejects with the reason of the first failing group, all earlier groups having passed |
| `AlokContract.Verify` | cordapp-contracts-states/src/main/kotlin/com/template/StatesAndContracts.kt:24-31 | without exactly one Alok command the transaction is rejected for command arity, whatever its states |
| `AlokContract.RepeatedCommandRejected` | cordapp-contracts-states/src/main/kotlin/com/template/StatesAndContracts.kt:29 | an Alok command that occurs twice, even as two equal copies, makes the transaction fail the single-command requirement |
| `AlokContract.VerifyAcceptsIff` | cordapp-contracts-states/src/main/kotlin/com/template/StatesAndContracts.kt:33-57 | all or nothing: accepted if and only if there is one Alok command and every asset line, taken as the group of one of its states, passes that command's rule |
| `AlokContract.RejectionNamesALine` | cordapp-contracts-states/src/main/kotlin/com/template/StatesAndContracts.kt:33-57 | with one Alok command, every rejection is the verdict of the group of some state of the transaction |
| `AlokContract.VerifyWithoutAlokStates` | cordapp-contracts-states/src/main/kotlin/com/template/StatesAndContracts.kt:33 | with one Alok command and no Alok state there is nothing to check and the transaction is accepted |
| `AlokContract.VerifyMoveIff` | cordapp-contracts-states/src/main/kotlin/com/template/StatesAndContracts.kt:35-42 | under a Move, accepted if and only if every asset line has exactly one input, signed by its owner, and exactly one output |
| `AlokContract.VerifyIssueIff` | cordapp-contracts-states/src/main/kotlin/com/template/StatesAndContracts.kt:44-53 | under an Issue, accepted if and only if every asset line has one output, signed by its issuer, with a non-empty thought and no input, and the window has an upper bound |
| `AlokContract.MoveConservesLines` | cordapp-contracts-states/src/main/kotlin/com/template/StatesAndContracts.kt:35-42 | an accepted Move has inputs and outputs with the same grouping keys and multiplicities, so equally many states and unchanged thought and issuer. No line is moved twice, and every consumed state's owner signed |
| `AlokContract.IssueCreatesFreshLines` | cordapp-contracts-states/src/main/kotlin/com/template/StatesAndContracts.kt:44-53 | an accepted Issue consumes no Alok state and creates at most one state per line. Every output has a thought and its issuer's signature, and the window has an upper bound whenever something is created |
| `AlokContract.UntimedIssueRejected` | cordapp-contracts-states/src/main/kotlin/com/template/StatesAndContracts.kt:46 | an Issue without a window upper bound is rejected as soon as it touches an Alok state |
| `AlokContract.UnknownCommandRejected` | cordapp-contracts-states/src/main/kotlin/com/template/StatesAndContracts.kt:54 | an Alok command other than Issue and Move is rejected as unknown as soon as there is an Alok state |
| `AlokContract.OtherCommandIgnored` | cordapp-contracts-states/src/main/kotlin/com/template/StatesAndContracts.kt:29 | inserting a command of another contract at any position leaves the verdict unchanged |
| `AlokContract.OtherStateIgnored` | cordapp-contracts-states/src/main/kotlin/com/template/StatesAndContracts.kt:27 | inserting an input and an output of another contract, each at any position, leaves the verdict unchanged |
| `AlokContract.OtherDataIgnored` | cordapp-contracts-states/src/main/kotlin/com/template/StatesAndContracts.kt:27 | inserting a state of another contract anywhere among the ledger states leaves the Alok states the contract sees unchanged |
| `AlokContract.SingleLineVerdict` | cordapp-contracts-states/src/main/kotlin/com/template/StatesAndContracts.kt:33-57 | when all Alok states share one grouping key, the verdict is that key's group's verdict |
| `AlokContract.GenerateIssue` | cordapp-contracts-states/src/main/kotlin/com/template/StatesAndContracts.kt:61-65 | a fresh builder for the notary: no input, the new state as the only output, one Issue command signed by the issuer's key, and no time window |
| `AlokContract.IssueProposalVerdict` | cordapp-contracts-states/src/main/kotlin/com/template/StatesAndContracts.kt:44-53 | the issuance proposal with a window is rejected as untimed without an upper bound and for an empty thought; otherwise it is accepted |
| `AlokContract.PrepareIssue` | cordapp/src/main/kotlin/com/template/App.kt:63-67 | the issue flow's builder, after generateIssue and a ten-second window from the current instant, holds the issuance proposal; it is accepted exactly when the thought is not empty and otherwise rejected for the empty thought |
| `AlokContract.GenerateMove` | cordapp-contracts-states/src/main/kotlin/com/template/StatesAndContracts.kt:67-72 | appends the consumed state, the same state under the new owner, and a Move command signed by the current owner's key. The previous contents are kept as a prefix, and notary and window are untouched; on an empty builder the result is the move proposal |
| `AlokContract.MoveVerdict` | cordapp-contracts-states/src/main/kotlin/com/template/StatesAndContracts.kt:35-41 | a one-input, one-output Move is rejected without the owner's signature and as not propagated when the output lies on another line; otherwise it is accepted |
| `AlokContract.GeneratedMoveVerifies` | cordapp-contracts-states/src/main/kotlin/com/template/StatesAndContracts.kt:67-72 | the proposal generateMove builds is accepted with any time window |
| `AlokContract.DoubleSpendPassesLocally` | cordapp/src/test/kotlin/com/template/ContractTests.kt:71-81 | two transfers of the same consumed state to different owners are each accepted by local validation |
| `AlokContract.ReissueRejected` | cordapp-contracts-states/src/main/kotlin/com/template/StatesAndContracts.kt:51 | an otherwise valid issuance that also consumes a state of the same line is rejected as a reissuance |

## Left out

- Flows, notary lookup, signature collection, finality and the REST and RPC
  clients (`App.kt`, `Client.kt`, `api/`): network orchestration and I/O. The
  clock reading the issue flow starts its window from is a parameter of
  `PrepareIssue`; the notary lookup and the flow's own identity are parameters
  too.
- Notary uniqueness: double spending is stopped by the notary, which is not
  part of this model. `DoubleSpendPassesLocally` states only that local
  validation admits it.
- Cryptography: keys are opaque values compared for equality. Signatures are
  not checked; the signer list supports only membership.
- X.500 names of parties: the contract compares parties only by owning key.
- `TemplateState`: unused by the contract.
- Platform internals of `TransactionBuilder`:
  - The check that an added input's notary matches the builder's notary.
  - Attachments.
  - Resolving input references to states; the model keeps each input together
    with its state.
  - The contract code attached to states.
  - The notary stored inside each state.
- `StateAndRef.state`: in the platform it is a transaction state wrapping the
  data. Here it holds the data directly.
- Exception messages: each thrown exception becomes a named rejection.
  Zero and several elements in a `single()` call become one arity reason that
  carries the count.
