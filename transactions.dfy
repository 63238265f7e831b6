/**
 * The ledger transaction the contract is handed, and the mutable builder that
 * assembles a proposal. Only what the contract reads is kept: the states, the
 * commands with their signer keys and the optional time window. Attachments,
 * notary checks, signatures and the resolution of input references are not
 * part of this model.
 */
module Transactions {
  import opened Options
  import opened Identity
  import opened AlokModel

  /** The data of a ledger state: an Alok state, or a state of some other contract. */
  datatype ContractState = AlokData(alok: AlokState) | OtherState(tag: nat)

  /** The position of a state among the outputs of the transaction that created it. */
  datatype StateRef = StateRef(txhash: nat, index: nat)

  /** A consumed state together with the reference it is consumed through. */
  datatype StateAndRef<T> = StateAndRef(state: T, ref: StateRef)

  /** A produced state, tagged with the name of the contract that governs it. */
  datatype TransactionState = TransactionState(data: ContractState, contract: string)

  /** The data of a command: one of the Alok commands, or a command of some other contract. */
  datatype CommandData = AlokCommand(kind: Commands) | OtherCommand(tag: nat)

  /** A command and the keys that signed for it. */
  datatype Command = Command(value: CommandData, signers: seq<PublicKey>)

  /** A validity window; either bound may be absent. Instants are plain integers. */
  datatype TimeWindow = TimeWindow(fromTime: Option<int>, untilTime: Option<int>)

  datatype LedgerTransaction = LedgerTransaction(
    inputs: seq<StateAndRef<ContractState>>,
    outputs: seq<TransactionState>,
    commands: seq<Command>,
    timeWindow: Option<TimeWindow>)

  /** The Alok states among some ledger states, in order (filterIsInstance). */
  function AlokStatesOf(cs: seq<ContractState>): (r: seq<AlokState>)
    ensures forall s :: s in r <==> AlokData(s) in cs
    ensures |r| <= |cs|
  {
    if cs == [] then []
    else
      assert cs == [cs[0]] + cs[1..];
      assert forall c :: c in cs <==> c == cs[0] || c in cs[1..];
      (if cs[0].AlokData? then [cs[0].alok] else []) + AlokStatesOf(cs[1..])
  }

  lemma {:induction false} AlokStatesOfAppend(a: seq<ContractState>, b: seq<ContractState>)
    ensures AlokStatesOf(a + b) == AlokStatesOf(a) + AlokStatesOf(b)
  {
    if a == [] {
      assert a + b == b;
    } else {
      assert (a + b)[0] == a[0] && (a + b)[1..] == a[1..] + b;
      AlokStatesOfAppend(a[1..], b);
    }
  }

  /** The filter keeps every Alok state as often as it occurs, duplicates included. */
  lemma {:induction false} AlokStatesOfCounts(cs: seq<ContractState>)
    ensures forall s :: multiset(AlokStatesOf(cs))[s] == multiset(cs)[AlokData(s)]
  {
    if cs != [] {
      assert cs == [cs[0]] + cs[1..];
      AlokStatesOfCounts(cs[1..]);
    }
  }

  function InputData(tx: LedgerTransaction): seq<ContractState>
  {
    seq(|tx.inputs|, i requires 0 <= i < |tx.inputs| => tx.inputs[i].state)
  }

  function OutputData(tx: LedgerTransaction): seq<ContractState>
  {
    seq(|tx.outputs|, i requires 0 <= i < |tx.outputs| => tx.outputs[i].data)
  }

  /** The Alok states the transaction consumes (inputsOfType). */
  function AlokInputs(tx: LedgerTransaction): seq<AlokState>
  {
    AlokStatesOf(InputData(tx))
  }

  /** The Alok states the transaction produces (outputsOfType). */
  function AlokOutputs(tx: LedgerTransaction): seq<AlokState>
  {
    AlokStatesOf(OutputData(tx))
  }

  /** The commands whose data is an Alok command, in order (select). */
  function AlokCommands(cs: seq<Command>): (r: seq<Command>)
    ensures forall c :: c in r <==> c in cs && c.value.AlokCommand?
    ensures |r| <= |cs|
  {
    if cs == [] then []
    else
      assert cs == [cs[0]] + cs[1..];
      assert forall c :: c in cs <==> c == cs[0] || c in cs[1..];
      (if cs[0].value.AlokCommand? then [cs[0]] else []) + AlokCommands(cs[1..])
  }

  lemma {:induction false} AlokCommandsAppend(a: seq<Command>, b: seq<Command>)
    ensures AlokCommands(a + b) == AlokCommands(a) + AlokCommands(b)
  {
    if a == [] {
      assert a + b == b;
    } else {
      assert (a + b)[0] == a[0] && (a + b)[1..] == a[1..] + b;
      AlokCommandsAppend(a[1..], b);
    }
  }

  /**
   * The filter keeps every Alok command as often as it occurs, duplicates
   * included, and no other command; so its length counts the Alok commands.
   */
  lemma {:induction false} AlokCommandsCounts(cs: seq<Command>)
    ensures forall c :: multiset(AlokCommands(cs))[c] == if c.value.AlokCommand? then multiset(cs)[c] else 0
  {
    if cs != [] {
      assert cs == [cs[0]] + cs[1..];
      AlokCommandsCounts(cs[1..]);
    }
  }

  /**
   * A proposal under construction. Inputs are kept with the states they
   * reference, as the ledger resolves them before verification.
   */
  class TransactionBuilder {
    var notary: Option<Party>
    var inputs: seq<StateAndRef<ContractState>>
    var outputs: seq<TransactionState>
    var commands: seq<Command>
    var timeWindow: Option<TimeWindow>

    constructor (notary: Option<Party>)
      ensures this.notary == notary
      ensures inputs == [] && outputs == [] && commands == [] && timeWindow == None
    {
      this.notary := notary;
      inputs, outputs, commands, timeWindow := [], [], [], None;
    }

    /** The transaction the builder's current contents amount to. */
    function ToLedgerTransaction(): LedgerTransaction
      reads this
    {
      LedgerTransaction(inputs, outputs, commands, timeWindow)
    }

    method AddInputState(input: StateAndRef<ContractState>)
      modifies this
      ensures inputs == old(inputs) + [input]
      ensures outputs == old(outputs) && commands == old(commands)
      ensures timeWindow == old(timeWindow) && notary == old(notary)
    {
      inputs := inputs + [input];
    }

    method AddOutputState(data: ContractState, contract: string)
      modifies this
      ensures outputs == old(outputs) + [TransactionState(data, contract)]
      ensures inputs == old(inputs) && commands == old(commands)
      ensures timeWindow == old(timeWindow) && notary == old(notary)
    {
      outputs := outputs + [TransactionState(data, contract)];
    }

    method AddCommand(command: Command)
      modifies this
      ensures commands == old(commands) + [command]
      ensures inputs == old(inputs) && outputs == old(outputs)
      ensures timeWindow == old(timeWindow) && notary == old(notary)
    {
      commands := commands + [command];
    }

    method SetTimeWindow(window: TimeWindow)
      modifies this
      ensures timeWindow == Some(window)
      ensures inputs == old(inputs) && outputs == old(outputs) && commands == old(commands)
      ensures notary == old(notary)
    {
      timeWindow := Some(window);
    }
  }
}
