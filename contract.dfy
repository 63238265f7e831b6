/**
 * The Alok contract: the validation rule a transaction must pass, and the two
 * builders that assemble issuance and transfer proposals.
 *
 * Validation is a total function: every exception the contract could throw
 * becomes a named rejection, and the first check that fails, in the order the
 * contract performs them, decides the reason.
 */
module AlokContract {
  import opened Options
  import opened Identity
  import opened AlokModel
  import opened Grouping
  import opened Transactions

  /** The name under which Alok output states are tied to this contract. */
  const ALOK_CONTRACT_ID: string := "com.template.AlokContract"

  datatype Rejection =
    | CommandArity(found: nat)     // not exactly one Alok command
    | InputArity(found: nat)       // a Move group without exactly one input
    | MissingOwnerSignature        // a Move not signed by the consumed state's owner
    | NotPropagated(found: nat)    // a Move group without exactly one output
    | OutputArity(found: nat)      // an Issue group without exactly one output
    | Untimed                      // an Issue without a time window that has an upper bound
    | MissingIssuerSignature       // an Issue not signed by the output's issuer
    | EmptyThought                 // an Issue whose output carries an empty thought
    | Reissuance                   // an Issue group that also consumes a state
    | UnknownCommand               // an Alok command that is neither Issue nor Move

  datatype Verdict = Accept | Reject(reason: Rejection)

  /** The transaction carries a time window and that window has an upper bound. */
  predicate HasUntilTime(timeWindow: Option<TimeWindow>)
  {
    timeWindow.Some? && timeWindow.value.untilTime.Some?
  }

  /** The rule of one command kind applied to one group. */
  function CheckGroup(kind: Commands, signers: seq<PublicKey>, timeWindow: Option<TimeWindow>, g: InOutGroup): (r: Verdict)
    ensures kind == Move ==>
      (r == Accept <==> |g.inputs| == 1 && g.inputs[0].owner.owningKey in signers && |g.outputs| == 1)
    ensures kind == Issue ==>
      (r == Accept <==>
        && |g.outputs| == 1
        && HasUntilTime(timeWindow)
        && g.outputs[0].issuer.owningKey in signers
        && g.outputs[0].thought != ""
        && g.inputs == [])
    ensures kind == Other ==> r == Reject(UnknownCommand)
  {
    match kind
    case Move =>
      if |g.inputs| != 1 then Reject(InputArity(|g.inputs|))
      else if g.inputs[0].owner.owningKey !in signers then Reject(MissingOwnerSignature)
      else if |g.outputs| != 1 then Reject(NotPropagated(|g.outputs|))
      else Accept
    case Issue =>
      if |g.outputs| != 1 then Reject(OutputArity(|g.outputs|))
      else if !HasUntilTime(timeWindow) then Reject(Untimed)
      else if g.outputs[0].issuer.owningKey !in signers then Reject(MissingIssuerSignature)
      else if g.outputs[0].thought == "" then Reject(EmptyThought)
      else if g.inputs != [] then Reject(Reissuance)
      else Accept
    case Other =>
      Reject(UnknownCommand)
  }

  /**
   * The groups checked in order: accepted when every group passes, otherwise
   * rejected for the reason of the first group that fails.
   */
  function CheckGroups(kind: Commands, signers: seq<PublicKey>, timeWindow: Option<TimeWindow>, gs: seq<InOutGroup>): (r: Verdict)
    ensures r == Accept <==> forall g :: g in gs ==> CheckGroup(kind, signers, timeWindow, g) == Accept
    ensures r.Reject? ==>
      exists i :: 0 <= i < |gs| && CheckGroup(kind, signers, timeWindow, gs[i]) == r &&
        forall j :: 0 <= j < i ==> CheckGroup(kind, signers, timeWindow, gs[j]) == Accept
  {
    if gs == [] then Accept
    else
      var v := CheckGroup(kind, signers, timeWindow, gs[0]);
      if v.Reject? then v
      else
        var rest := CheckGroups(kind, signers, timeWindow, gs[1..]);
        assert forall g :: g in gs <==> g == gs[0] || g in gs[1..];
        assert rest.Reject? ==>
          (exists i :: 0 <= i < |gs| && CheckGroup(kind, signers, timeWindow, gs[i]) == rest &&
            forall j :: 0 <= j < i ==> CheckGroup(kind, signers, timeWindow, gs[j]) == Accept) by {
          if rest.Reject? {
            var i :| 0 <= i < |gs[1..]| && CheckGroup(kind, signers, timeWindow, gs[1..][i]) == rest &&
              forall j :: 0 <= j < i ==> CheckGroup(kind, signers, timeWindow, gs[1..][j]) == Accept;
            assert CheckGroup(kind, signers, timeWindow, gs[i + 1]) == rest;
            forall j | 0 <= j < i + 1
              ensures CheckGroup(kind, signers, timeWindow, gs[j]) == Accept
            {
              if j > 0 { assert gs[j] == gs[1..][j - 1]; }
            }
          }
        }
        rest
  }

  /**
   * The contract's verify: the states are grouped by WithoutOwner, exactly one
   * Alok command must be present (commands of other contracts are ignored),
   * and every group must pass the rule of that command's kind.
   */
  function Verify(tx: LedgerTransaction): (r: Verdict)
    ensures |AlokCommands(tx.commands)| != 1 ==> r == Reject(CommandArity(|AlokCommands(tx.commands)|))
  {
    var groups := GroupStates(AlokInputs(tx), AlokOutputs(tx));
    var commands := AlokCommands(tx.commands);
    if |commands| != 1 then Reject(CommandArity(|commands|))
    else CheckGroups(commands[0].value.kind, commands[0].signers, tx.timeWindow, groups)
  }

  /**
   * The single-command requirement counts occurrences: an Alok command that
   * appears twice is rejected for command arity, even when both copies are equal.
   */
  lemma RepeatedCommandRejected(tx: LedgerTransaction, c: Command)
    requires c.value.AlokCommand? && multiset(tx.commands)[c] >= 2
    ensures Verify(tx).Reject? && Verify(tx).reason.CommandArity? && Verify(tx).reason.found >= 2
  {
    var r := AlokCommands(tx.commands);
    AlokCommandsCounts(tx.commands);
    assert multiset(r)[c] >= 2;
    assert |multiset(r)| == |r|;
    assert multiset(r) == multiset{c, c} + (multiset(r) - multiset{c, c});
  }

  /** Every asset line of the transaction, taken as the group of one of its states, passes the rule. */
  ghost predicate EveryLinePasses(kind: Commands, signers: seq<PublicKey>, timeWindow: Option<TimeWindow>,
                                  ins: seq<AlokState>, outs: seq<AlokState>)
  {
    forall s :: s in ins + outs ==> CheckGroup(kind, signers, timeWindow, GroupOf(ins, outs, WithoutOwner(s))) == Accept
  }

  /** Validity stated without the list of groups: one Alok command, and every asset line passes its rule. */
  ghost predicate ValidByLines(tx: LedgerTransaction)
  {
    var commands := AlokCommands(tx.commands);
    && |commands| == 1
    && EveryLinePasses(commands[0].value.kind, commands[0].signers, tx.timeWindow, AlokInputs(tx), AlokOutputs(tx))
  }

  /** All or nothing: a transaction is accepted exactly when every asset line in it passes. */
  lemma VerifyAcceptsIff(tx: LedgerTransaction)
    ensures Verify(tx) == Accept <==> ValidByLines(tx)
  {
    var ins, outs := AlokInputs(tx), AlokOutputs(tx);
    var commands := AlokCommands(tx.commands);
    if |commands| == 1 {
      var kind, signers, tw := commands[0].value.kind, commands[0].signers, tx.timeWindow;
      var groups := GroupStates(ins, outs);
      if Verify(tx) == Accept {
        forall s | s in ins + outs
          ensures CheckGroup(kind, signers, tw, GroupOf(ins, outs, WithoutOwner(s))) == Accept
        {
          assert GroupOf(ins, outs, WithoutOwner(s)) in groups;
        }
      }
      if EveryLinePasses(kind, signers, tw, ins, outs) {
        forall g | g in groups
          ensures CheckGroup(kind, signers, tw, g) == Accept
        {
          var s := if g.inputs != [] then g.inputs[0] else g.outputs[0];
          assert s in Select(ins, g.groupingKey) || s in Select(outs, g.groupingKey);
          assert s in ins + outs && WithoutOwner(s) == g.groupingKey;
        }
      }
    }
  }

  /** A rejected transaction with one Alok command is rejected for the reason of some asset line. */
  lemma RejectionNamesALine(tx: LedgerTransaction)
    requires |AlokCommands(tx.commands)| == 1 && Verify(tx).Reject?
    ensures
      var c := AlokCommands(tx.commands)[0];
      exists s :: s in AlokInputs(tx) + AlokOutputs(tx) &&
        CheckGroup(c.value.kind, c.signers, tx.timeWindow, GroupOf(AlokInputs(tx), AlokOutputs(tx), WithoutOwner(s))) == Verify(tx)
  {
    var ins, outs := AlokInputs(tx), AlokOutputs(tx);
    var c := AlokCommands(tx.commands)[0];
    var groups := GroupStates(ins, outs);
    var i :| 0 <= i < |groups| && CheckGroup(c.value.kind, c.signers, tx.timeWindow, groups[i]) == Verify(tx);
    var g := groups[i];
    assert g in groups;
    var s := if g.inputs != [] then g.inputs[0] else g.outputs[0];
    assert s in Select(ins, g.groupingKey) || s in Select(outs, g.groupingKey);
    assert s in ins + outs && WithoutOwner(s) == g.groupingKey;
  }

  /** With one Alok command and no Alok state there is no group to check, so the transaction is accepted. */
  lemma VerifyWithoutAlokStates(tx: LedgerTransaction)
    requires |AlokCommands(tx.commands)| == 1
    requires AlokInputs(tx) == [] && AlokOutputs(tx) == []
    ensures Verify(tx) == Accept
  {
    VerifyAcceptsIff(tx);
  }

  /** A Move is valid for asset line k: one input, signed by its owner, and one output. */
  ghost predicate MoveLineValid(ins: seq<AlokState>, outs: seq<AlokState>, signers: seq<PublicKey>, k: AlokState)
  {
    && |Select(ins, k)| == 1
    && Select(ins, k)[0].owner.owningKey in signers
    && |Select(outs, k)| == 1
  }

  /** An Issue is valid for asset line k: one output with a thought, signed by its issuer, a bounded window, no input. */
  ghost predicate IssueLineValid(ins: seq<AlokState>, outs: seq<AlokState>, signers: seq<PublicKey>,
                                 timeWindow: Option<TimeWindow>, k: AlokState)
  {
    && |Select(outs, k)| == 1
    && HasUntilTime(timeWindow)
    && Select(outs, k)[0].issuer.owningKey in signers
    && Select(outs, k)[0].thought != ""
    && Select(ins, k) == []
  }

  /** The Move rule per asset line: accepted exactly when every line has one input, signed by its owner, and one output. */
  lemma VerifyMoveIff(tx: LedgerTransaction, signers: seq<PublicKey>)
    requires AlokCommands(tx.commands) == [Command(AlokCommand(Move), signers)]
    ensures Verify(tx) == Accept <==>
      forall s :: s in AlokInputs(tx) + AlokOutputs(tx) ==>
        MoveLineValid(AlokInputs(tx), AlokOutputs(tx), signers, WithoutOwner(s))
  {
    VerifyAcceptsIff(tx);
  }

  /** The Issue rule per asset line: accepted exactly when every line satisfies the issuance conditions. */
  lemma VerifyIssueIff(tx: LedgerTransaction, signers: seq<PublicKey>)
    requires AlokCommands(tx.commands) == [Command(AlokCommand(Issue), signers)]
    ensures Verify(tx) == Accept <==>
      forall s :: s in AlokInputs(tx) + AlokOutputs(tx) ==>
        IssueLineValid(AlokInputs(tx), AlokOutputs(tx), signers, tx.timeWindow, WithoutOwner(s))
  {
    VerifyAcceptsIff(tx);
  }

  /** A key found at two positions occurs at least twice. */
  lemma RepeatedKeyCounts(ks: seq<AlokState>, i: nat, j: nat)
    requires i < j < |ks|
    ensures ks[i] == ks[j] ==> multiset(ks)[ks[j]] >= 2
  {
    assert ks == ks[..j] + ks[j..];
    assert ks[i] in ks[..j] && ks[j] in ks[j..];
  }

  /** Keys that each occur exactly once are distinct. */
  lemma CountsOfOneAreDistinct(ks: seq<AlokState>)
    requires forall k :: k in ks ==> multiset(ks)[k] == 1
    ensures Distinct(ks)
  {
    forall i, j | 0 <= i < j < |ks|
      ensures ks[i] != ks[j]
    {
      RepeatedKeyCounts(ks, i, j);
      assert ks[j] in ks;
    }
  }

  /** The member of a one-element sequence is its first element. */
  lemma OnlyMember(xs: seq<AlokState>, s: AlokState)
    requires |xs| == 1 && s in xs
    ensures xs[0] == s
  {
  }

  /** When every asset line has one input and one output, inputs and outputs hold the same keys equally often. */
  lemma SameKeyCounts(ins: seq<AlokState>, outs: seq<AlokState>)
    requires forall s :: s in ins + outs ==>
      |Select(ins, WithoutOwner(s))| == 1 && |Select(outs, WithoutOwner(s))| == 1
    ensures multiset(Keys(ins)) == multiset(Keys(outs))
  {
    forall k
      ensures multiset(Keys(ins))[k] == multiset(Keys(outs))[k]
    {
      SelectCountsKey(ins, k);
      SelectCountsKey(outs, k);
      if k in Keys(ins) {
        KeyHasState(ins, k);
      } else if k in Keys(outs) {
        KeyHasState(outs, k);
      }
    }
  }

  /** When every state's asset line holds exactly one of the states, their keys are distinct. */
  lemma OnePerLine(xs: seq<AlokState>)
    requires forall s :: s in xs ==> |Select(xs, WithoutOwner(s))| == 1
    ensures Distinct(Keys(xs))
  {
    forall k | k in Keys(xs)
      ensures multiset(Keys(xs))[k] == 1
    {
      SelectCountsKey(xs, k);
      KeyHasState(xs, k);
    }
    CountsOfOneAreDistinct(Keys(xs));
  }

  /**
   * When every asset line passes the Move rule, inputs and outputs hold the
   * same keys with the same multiplicities, no key occurs twice among the
   * inputs, and every input's owner signed.
   */
  lemma MoveLinesMatch(ins: seq<AlokState>, outs: seq<AlokState>, signers: seq<PublicKey>)
    requires forall s :: s in ins + outs ==> MoveLineValid(ins, outs, signers, WithoutOwner(s))
    ensures multiset(Keys(ins)) == multiset(Keys(outs))
    ensures |ins| == |outs|
    ensures Distinct(Keys(ins))
    ensures forall s :: s in ins ==> s.owner.owningKey in signers
  {
    assert forall s :: s in ins ==> s in ins + outs;
    SameKeyCounts(ins, outs);
    assert |ins| == |multiset(Keys(ins))| && |outs| == |multiset(Keys(outs))|;
    OnePerLine(ins);
    forall s | s in ins
      ensures s.owner.owningKey in signers
    {
      var line := Select(ins, WithoutOwner(s));
      assert s in ins + outs;
      OnlyMember(line, s);
    }
  }

  /** A sequence without members is empty. */
  lemma NoMemberEmpty(xs: seq<AlokState>)
    ensures (forall s :: s !in xs) ==> xs == []
  {
    if xs != [] {
      assert xs[0] in xs;
    }
  }

  /** When every asset line passes the Issue rule, no state is consumed. */
  lemma NothingConsumed(ins: seq<AlokState>, outs: seq<AlokState>, signers: seq<PublicKey>, timeWindow: Option<TimeWindow>)
    requires forall s :: s in ins + outs ==> IssueLineValid(ins, outs, signers, timeWindow, WithoutOwner(s))
    ensures ins == []
  {
    assert forall s :: s in ins ==> s in ins + outs;
    assert forall s :: s !in ins;
    NoMemberEmpty(ins);
  }

  /**
   * When every asset line passes the Issue rule, nothing is consumed, no key
   * occurs twice among the outputs, and every output has a thought and its
   * issuer's signature.
   */
  lemma IssueLinesFresh(ins: seq<AlokState>, outs: seq<AlokState>, signers: seq<PublicKey>, timeWindow: Option<TimeWindow>)
    requires forall s :: s in ins + outs ==> IssueLineValid(ins, outs, signers, timeWindow, WithoutOwner(s))
    ensures ins == []
    ensures Distinct(Keys(outs))
    ensures forall o :: o in outs ==> o.thought != "" && o.issuer.owningKey in signers
    ensures outs != [] ==> HasUntilTime(timeWindow)
  {
    NothingConsumed(ins, outs, signers, timeWindow);
    assert forall o :: o in outs ==> o in ins + outs;
    OnePerLine(outs);
    forall o | o in outs
      ensures o.thought != "" && o.issuer.owningKey in signers
    {
      var line := Select(outs, WithoutOwner(o));
      assert o in ins + outs;
      OnlyMember(line, o);
    }
    if outs != [] {
      assert outs[0] in ins + outs;
    }
  }

  /**
   * An accepted Move conserves the asset lines: the inputs and the outputs hold
   * the same grouping keys with the same multiplicities (so as many states come
   * out as go in, with thought and issuer unchanged), each line is moved at most
   * once, and every consumed state's owner signed.
   */
  lemma MoveConservesLines(tx: LedgerTransaction, signers: seq<PublicKey>)
    requires AlokCommands(tx.commands) == [Command(AlokCommand(Move), signers)]
    requires Verify(tx) == Accept
    ensures multiset(Keys(AlokInputs(tx))) == multiset(Keys(AlokOutputs(tx)))
    ensures |AlokInputs(tx)| == |AlokOutputs(tx)|
    ensures Distinct(Keys(AlokInputs(tx)))
    ensures forall s :: s in AlokInputs(tx) ==> s.owner.owningKey in signers
  {
    VerifyMoveIff(tx, signers);
    MoveLinesMatch(AlokInputs(tx), AlokOutputs(tx), signers);
  }

  /**
   * An accepted Issue consumes no Alok state, creates at most one state per
   * asset line, gives every output a thought and its issuer's signature, and
   * carries a bounded time window whenever it creates anything.
   */
  lemma IssueCreatesFreshLines(tx: LedgerTransaction, signers: seq<PublicKey>)
    requires AlokCommands(tx.commands) == [Command(AlokCommand(Issue), signers)]
    requires Verify(tx) == Accept
    ensures AlokInputs(tx) == []
    ensures Distinct(Keys(AlokOutputs(tx)))
    ensures forall o :: o in AlokOutputs(tx) ==> o.thought != "" && o.issuer.owningKey in signers
    ensures AlokOutputs(tx) != [] ==> HasUntilTime(tx.timeWindow)
  {
    VerifyIssueIff(tx, signers);
    IssueLinesFresh(AlokInputs(tx), AlokOutputs(tx), signers, tx.timeWindow);
  }

  /** An Issue without a bounded time window is rejected as soon as it touches any Alok state. */
  lemma UntimedIssueRejected(tx: LedgerTransaction, signers: seq<PublicKey>)
    requires AlokCommands(tx.commands) == [Command(AlokCommand(Issue), signers)]
    requires !HasUntilTime(tx.timeWindow)
    requires AlokInputs(tx) + AlokOutputs(tx) != []
    ensures Verify(tx).Reject?
  {
    VerifyIssueIff(tx, signers);
    assert (AlokInputs(tx) + AlokOutputs(tx))[0] in AlokInputs(tx) + AlokOutputs(tx);
  }

  /** An Alok command other than Issue and Move is rejected as soon as it touches any Alok state. */
  lemma UnknownCommandRejected(tx: LedgerTransaction, signers: seq<PublicKey>)
    requires AlokCommands(tx.commands) == [Command(AlokCommand(Other), signers)]
    requires AlokInputs(tx) + AlokOutputs(tx) != []
    ensures Verify(tx) == Reject(UnknownCommand)
  {
    VerifyAcceptsIff(tx);
    assert (AlokInputs(tx) + AlokOutputs(tx))[0] in AlokInputs(tx) + AlokOutputs(tx);
    RejectionNamesALine(tx);
  }

  /** A command of another contract, inserted at any position, does not change the verdict. */
  lemma OtherCommandIgnored(tx: LedgerTransaction, c: Command, i: nat)
    requires c.value.OtherCommand? && i <= |tx.commands|
    ensures Verify(tx.(commands := tx.commands[..i] + [c] + tx.commands[i..])) == Verify(tx)
  {
    var cs := tx.commands;
    assert cs == cs[..i] + cs[i..];
    AlokCommandsAppend(cs[..i], cs[i..]);
    AlokCommandsAppend(cs[..i], [c]);
    AlokCommandsAppend(cs[..i] + [c], cs[i..]);
    assert AlokCommands([c]) == [];
    var tx' := tx.(commands := cs[..i] + [c] + cs[i..]);
    assert AlokCommands(tx'.commands) == AlokCommands(cs);
    assert AlokInputs(tx') == AlokInputs(tx) && AlokOutputs(tx') == AlokOutputs(tx);
  }

  /** Inserting a state of another contract into a sequence of ledger states leaves its Alok states as they were. */
  lemma OtherDataIgnored(cs: seq<ContractState>, d: ContractState, i: nat)
    requires d.OtherState? && i <= |cs|
    ensures AlokStatesOf(cs[..i] + [d] + cs[i..]) == AlokStatesOf(cs)
  {
    var front, back := cs[..i], cs[i..];
    assert cs == front + back;
    assert AlokStatesOf([d]) == [] by {
      assert [d][1..] == [];
    }
    AlokStatesOfAppend(front, back);
    AlokStatesOfAppend(front, [d]);
    AlokStatesOfAppend(front + [d], back);
  }

  /**
   * A state of another contract, consumed at any input position and produced at
   * any output position, does not change the verdict.
   */
  lemma OtherStateIgnored(tx: LedgerTransaction, input: StateAndRef<ContractState>, i: nat,
                          output: TransactionState, j: nat)
    requires input.state.OtherState? && output.data.OtherState?
    requires i <= |tx.inputs| && j <= |tx.outputs|
    ensures Verify(tx.(inputs := tx.inputs[..i] + [input] + tx.inputs[i..],
                       outputs := tx.outputs[..j] + [output] + tx.outputs[j..])) == Verify(tx)
  {
    var tx' := tx.(inputs := tx.inputs[..i] + [input] + tx.inputs[i..],
                   outputs := tx.outputs[..j] + [output] + tx.outputs[j..]);
    assert InputData(tx') == InputData(tx)[..i] + [input.state] + InputData(tx)[i..];
    assert OutputData(tx') == OutputData(tx)[..j] + [output.data] + OutputData(tx)[j..];
    OtherDataIgnored(InputData(tx), input.state, i);
    OtherDataIgnored(OutputData(tx), output.data, j);
    assert AlokInputs(tx') == AlokInputs(tx) && AlokOutputs(tx') == AlokOutputs(tx);
    assert tx'.commands == tx.commands && tx'.timeWindow == tx.timeWindow;
  }

  /** A transaction whose Alok states all lie on one asset line is judged by that line's group alone. */
  lemma SingleLineVerdict(tx: LedgerTransaction, k: AlokState)
    requires |AlokCommands(tx.commands)| == 1
    requires AlokInputs(tx) + AlokOutputs(tx) != []
    requires forall s :: s in AlokInputs(tx) + AlokOutputs(tx) ==> WithoutOwner(s) == k
    ensures
      var c := AlokCommands(tx.commands)[0];
      Verify(tx) == CheckGroup(c.value.kind, c.signers, tx.timeWindow, GroupOf(AlokInputs(tx), AlokOutputs(tx), k))
  {
    var ins, outs := AlokInputs(tx), AlokOutputs(tx);
    var c := AlokCommands(tx.commands)[0];
    var groups := GroupStates(ins, outs);
    var line := GroupOf(ins, outs, k);
    var s0 := (ins + outs)[0];
    assert s0 in ins + outs;
    assert line in groups;
    forall g | g in groups
      ensures g == line
    {
      var s := if g.inputs != [] then g.inputs[0] else g.outputs[0];
      assert s in Select(ins, g.groupingKey) || s in Select(outs, g.groupingKey);
      assert s in ins + outs;
    }
  }

  /** The proposal generateIssue assembles, before any time window is set. */
  function IssueProposal(thought: string, issuer: Party, owner: Party): LedgerTransaction
  {
    LedgerTransaction(
      [],
      [TransactionState(AlokData(AlokState(thought, issuer, owner)), ALOK_CONTRACT_ID)],
      [Command(AlokCommand(Issue), [issuer.owningKey])],
      None)
  }

  /**
   * A new builder for the given notary holding no input, the new state as its
   * only output, one Issue command signed by the issuer's key, and no time window.
   */
  method GenerateIssue(thought: string, issuer: Party, owner: Party, notary: Party) returns (b: TransactionBuilder)
    ensures fresh(b) && b.notary == Some(notary)
    ensures b.ToLedgerTransaction() == IssueProposal(thought, issuer, owner)
  {
    b := new TransactionBuilder(Some(notary));
    b.AddOutputState(AlokData(AlokState(thought, issuer, owner)), ALOK_CONTRACT_ID);
    b.AddCommand(Command(AlokCommand(Issue), [issuer.owningKey]));
  }

  /**
   * An issuance proposal, once given a time window, is judged on the window and
   * the thought alone: untimed it is rejected, with an empty thought it is
   * rejected, and otherwise it is accepted.
   */
  lemma IssueProposalVerdict(thought: string, issuer: Party, owner: Party, timeWindow: Option<TimeWindow>)
    ensures Verify(IssueProposal(thought, issuer, owner).(timeWindow := timeWindow)) ==
      if !HasUntilTime(timeWindow) then Reject(Untimed)
      else if thought == "" then Reject(EmptyThought)
      else Accept
  {
    var tx := IssueProposal(thought, issuer, owner).(timeWindow := timeWindow);
    var st := AlokState(thought, issuer, owner);
    assert InputData(tx) == [];
    assert OutputData(tx) == [AlokData(st)];
    assert AlokStatesOf([AlokData(st)]) == [st] + AlokStatesOf([]);
    assert AlokCommands(tx.commands) == tx.commands + AlokCommands([]);
    assert AlokInputs(tx) + AlokOutputs(tx) == [st];
    SingleLineVerdict(tx, WithoutOwner(st));
    assert Select([st], WithoutOwner(st)) == [st] + Select([], WithoutOwner(st));
  }

  /** The window that starts at an instant and lasts for a duration (TimeWindow.fromStartAndDuration). */
  function FromStartAndDuration(start: int, duration: nat): (w: TimeWindow)
    ensures w.fromTime == Some(start) && w.untilTime.Some? && w.untilTime.value - start == duration
  {
    TimeWindow(Some(start), Some(start + duration))
  }

  /**
   * The issuance step of the issue flow: generateIssue, then a ten-second
   * window from the current instant. The builder then holds a proposal that
   * the contract accepts exactly when the thought is not empty.
   */
  method PrepareIssue(thought: string, issuer: Party, self: Party, notary: Party, now: int)
    returns (b: TransactionBuilder)
    ensures fresh(b) && b.notary == Some(notary)
    ensures b.ToLedgerTransaction() ==
      IssueProposal(thought, issuer, self).(timeWindow := Some(FromStartAndDuration(now, 10000)))
    ensures Verify(b.ToLedgerTransaction()) == if thought == "" then Reject(EmptyThought) else Accept
  {
    b := GenerateIssue(thought, issuer, self, notary);
    b.SetTimeWindow(FromStartAndDuration(now, 10000));
    IssueProposalVerdict(thought, issuer, self, Some(FromStartAndDuration(now, 10000)));
  }

  /** The proposal generateMove adds to an empty builder. */
  function MoveProposal(alok: StateAndRef<AlokState>, newOwner: Party): LedgerTransaction
  {
    LedgerTransaction(
      [StateAndRef(AlokData(alok.state), alok.ref)],
      [TransactionState(AlokData(WithOwner(alok.state, newOwner)), ALOK_CONTRACT_ID)],
      [Command(AlokCommand(Move), [alok.state.owner.owningKey])],
      None)
  }

  /**
   * Appends to the builder the consumed state, the same state handed to the new
   * owner, and a Move command signed by the current owner's key; what the
   * builder already held is kept as a prefix, and the notary and time window
   * are untouched.
   */
  method GenerateMove(tx: TransactionBuilder, alok: StateAndRef<AlokState>, newOwner: Party)
    modifies tx
    ensures tx.inputs == old(tx.inputs) + [StateAndRef(AlokData(alok.state), alok.ref)]
    ensures tx.outputs == old(tx.outputs) + [TransactionState(AlokData(WithOwner(alok.state, newOwner)), ALOK_CONTRACT_ID)]
    ensures tx.commands == old(tx.commands) + [Command(AlokCommand(Move), [alok.state.owner.owningKey])]
    ensures tx.notary == old(tx.notary) && tx.timeWindow == old(tx.timeWindow)
    ensures old(tx.inputs) == [] && old(tx.outputs) == [] && old(tx.commands) == [] ==>
      tx.ToLedgerTransaction() == MoveProposal(alok, newOwner).(timeWindow := tx.timeWindow)
  {
    tx.AddInputState(StateAndRef(AlokData(alok.state), alok.ref));
    var outputState := WithOwner(alok.state, newOwner);
    tx.AddOutputState(AlokData(outputState), ALOK_CONTRACT_ID);
    tx.AddCommand(Command(AlokCommand(Move), [alok.state.owner.owningKey]));
  }

  /**
   * A transfer of one state to one output, under one Move command: rejected
   * unless the consumed state's owner signed, rejected as not propagated when
   * the output belongs to another asset line, and otherwise accepted.
   */
  lemma MoveVerdict(input: StateAndRef<AlokState>, output: AlokState, signers: seq<PublicKey>, timeWindow: Option<TimeWindow>)
    ensures
      var tx := LedgerTransaction(
        [StateAndRef(AlokData(input.state), input.ref)],
        [TransactionState(AlokData(output), ALOK_CONTRACT_ID)],
        [Command(AlokCommand(Move), signers)],
        timeWindow);
      Verify(tx) ==
        if input.state.owner.owningKey !in signers then Reject(MissingOwnerSignature)
        else if WithoutOwner(output) != WithoutOwner(input.state) then Reject(NotPropagated(0))
        else Accept
  {
    var tx := LedgerTransaction(
      [StateAndRef(AlokData(input.state), input.ref)],
      [TransactionState(AlokData(output), ALOK_CONTRACT_ID)],
      [Command(AlokCommand(Move), signers)],
      timeWindow);
    var k := WithoutOwner(input.state);
    assert InputData(tx) == [AlokData(input.state)];
    assert OutputData(tx) == [AlokData(output)];
    assert AlokStatesOf([AlokData(input.state)]) == [input.state] + AlokStatesOf([]);
    assert AlokStatesOf([AlokData(output)]) == [output] + AlokStatesOf([]);
    assert AlokCommands(tx.commands) == tx.commands + AlokCommands([]);
    var ins, outs := [input.state], [output];
    assert AlokInputs(tx) == ins && AlokOutputs(tx) == outs;
    assert Select(ins, k) == [input.state] + Select([], k);
    if WithoutOwner(output) == k {
      assert Select(outs, k) == [output] + Select([], k);
      SingleLineVerdict(tx, k);
    } else {
      assert Select(outs, k) == [] + Select([], k);
      var groups := GroupStates(ins, outs);
      assert groups[0] == InOutGroup([input.state], [], k);
    }
  }

  /** The proposal generateMove builds is accepted whatever time window it is later given. */
  lemma GeneratedMoveVerifies(alok: StateAndRef<AlokState>, newOwner: Party, timeWindow: Option<TimeWindow>)
    ensures Verify(MoveProposal(alok, newOwner).(timeWindow := timeWindow)) == Accept
  {
    MoveVerdict(alok, WithOwner(alok.state, newOwner), [alok.state.owner.owningKey], timeWindow);
  }

  /**
   * Local validation does not prevent double spending: two transfers of the same
   * consumed state to different owners are each accepted; only the notary,
   * which is not part of this model, can reject the second.
   */
  lemma DoubleSpendPassesLocally(alok: StateAndRef<AlokState>, firstOwner: Party, secondOwner: Party,
                                 firstWindow: Option<TimeWindow>, secondWindow: Option<TimeWindow>)
    ensures MoveProposal(alok, firstOwner).inputs == MoveProposal(alok, secondOwner).inputs
    ensures Verify(MoveProposal(alok, firstOwner).(timeWindow := firstWindow)) == Accept
    ensures Verify(MoveProposal(alok, secondOwner).(timeWindow := secondWindow)) == Accept
  {
    GeneratedMoveVerifies(alok, firstOwner, firstWindow);
    GeneratedMoveVerifies(alok, secondOwner, secondWindow);
  }

  /**
   * An issuance that also consumes a state of the same asset line is rejected
   * as a reissuance, however valid its output is.
   */
  lemma ReissueRejected(prior: StateAndRef<AlokState>, output: AlokState, signers: seq<PublicKey>, timeWindow: Option<TimeWindow>)
    requires WithoutOwner(prior.state) == WithoutOwner(output)
    requires HasUntilTime(timeWindow) && output.issuer.owningKey in signers && output.thought != ""
    ensures
      Verify(LedgerTransaction(
        [StateAndRef(AlokData(prior.state), prior.ref)],
        [TransactionState(AlokData(output), ALOK_CONTRACT_ID)],
        [Command(AlokCommand(Issue), signers)],
        timeWindow)) == Reject(Reissuance)
  {
    var tx := LedgerTransaction(
      [StateAndRef(AlokData(prior.state), prior.ref)],
      [TransactionState(AlokData(output), ALOK_CONTRACT_ID)],
      [Command(AlokCommand(Issue), signers)],
      timeWindow);
    var k := WithoutOwner(output);
    assert InputData(tx) == [AlokData(prior.state)];
    assert OutputData(tx) == [AlokData(output)];
    assert AlokStatesOf([AlokData(prior.state)]) == [prior.state] + AlokStatesOf([]);
    assert AlokStatesOf([AlokData(output)]) == [output] + AlokStatesOf([]);
    assert AlokCommands(tx.commands) == tx.commands + AlokCommands([]);
    assert AlokInputs(tx) == [prior.state] && AlokOutputs(tx) == [output];
    assert Select([prior.state], k) == [prior.state] + Select([], k);
    assert Select([output], k) == [output] + Select([], k);
    SingleLineVerdict(tx, k);
  }
}
