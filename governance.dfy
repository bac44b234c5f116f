/** The governance commitment builder (client.py,
    `prepare_send_governance_commitment_transactions`): checks the vault's ALGO
    balance, formats the commitment note of the Algorand Foundation governance
    specification ("af/gov1"), and forwards it to the governance composer. */
module GovernanceCommitment {
  import opened Wrappers
  import opened Ledger
  import opened Txns
  import opened PyText
  import opened ManagerReader
  import opened ClientMarkets
  import opened ClientUser
  import opened ClientPrepare
  import CS = ContractStrings

  // ----- the note -----

  const NOTE_HEAD := "af/gov1:j{\"com\":"
  const NOTE_TAIL := "}"
  const BENEFICIARY_HEAD := ",\"bnf\":\""
  const BENEFICIARY_TAIL := "\"}"

  /** `af/gov1:j{"com":N}`, or `af/gov1:j{"com":N,"bnf":"B"}` for a non-empty
      beneficiary B, with N written as `str` writes the amount. */
  function CommitmentNote(amount: int, beneficiary: string): string {
    NOTE_HEAD + IntToDecimal(amount)
    + (if beneficiary != "" then BENEFICIARY_HEAD + beneficiary + BENEFICIARY_TAIL else NOTE_TAIL)
  }

  predicate IsNumberChar(ch: char) {
    IsDigit(ch) || ch == '-'
  }

  /** The length of the longest prefix of `s` made of digits and minus signs. */
  function NumberRun(s: string): (n: nat)
    ensures n <= |s|
    ensures forall k | 0 <= k < n :: IsNumberChar(s[k])
    ensures n < |s| ==> !IsNumberChar(s[n])
  {
    if s == [] || !IsNumberChar(s[0]) then 0
    else
      var n := 1 + NumberRun(s[1..]);
      assert forall k | 1 <= k < n :: s[k] == s[1..][k - 1];
      n
  }

  /** Reads a commitment note back: the amount and the beneficiary ("" when none). */
  function ParseCommitmentNote(note: string): Option<(int, string)> {
    if |note| < |NOTE_HEAD| || note[..|NOTE_HEAD|] != NOTE_HEAD then None
    else
      var body := note[|NOTE_HEAD|..];
      var n := NumberRun(body);
      match ParseInt(body[..n])
      case None => None
      case Some(amount) =>
        var rest := body[n..];
        if rest == NOTE_TAIL then Some((amount, ""))
        else if |rest| > |BENEFICIARY_HEAD| + |BENEFICIARY_TAIL|
                && rest[..|BENEFICIARY_HEAD|] == BENEFICIARY_HEAD
                && rest[|rest| - |BENEFICIARY_TAIL|..] == BENEFICIARY_TAIL
        then Some((amount, rest[|BENEFICIARY_HEAD|..|rest| - |BENEFICIARY_TAIL|]))
        else None
  }

  /** The digits of a number stop at the first character that is not part of one. */
  lemma NumberRunStops(t: string, rest: string)
    requires forall k | 0 <= k < |t| :: IsNumberChar(t[k])
    requires rest != [] && !IsNumberChar(rest[0])
    ensures NumberRun(t + rest) == |t|
  {
    var s := t + rest;
    assert s[|t|] == rest[0];
  }

  /** Every character of `str(n)` belongs to a number. */
  lemma {:induction false} DecimalIsNumber(amount: int)
    ensures forall k | 0 <= k < |IntToDecimal(amount)| :: IsNumberChar(IntToDecimal(amount)[k])
  {
    if amount < 0 {
      var d := IntToDecimal(amount);
      assert forall k | 1 <= k < |d| :: d[k] == NatToDecimal(-amount)[k - 1];
    }
  }

  /** The note carries exactly the amount and the beneficiary: reading it back gives both. */
  lemma {:induction false} CommitmentNoteRoundTrip(amount: int, beneficiary: string)
    ensures ParseCommitmentNote(CommitmentNote(amount, beneficiary)) == Some((amount, beneficiary))
  {
    var d := IntToDecimal(amount);
    var tail := if beneficiary != "" then BENEFICIARY_HEAD + beneficiary + BENEFICIARY_TAIL else NOTE_TAIL;
    assert CommitmentNote(amount, beneficiary) == NOTE_HEAD + (d + tail);
    DecimalIsNumber(amount);
    IntToDecimalRoundTrip(amount);
    if beneficiary != "" {
      BeneficiaryTail(beneficiary);
    }
    NoteSplits(d, tail);
  }

  /** The head of a note, the number after it and the rest come apart where they were joined. */
  lemma NoteSplits(d: string, tail: string)
    requires forall k | 0 <= k < |d| :: IsNumberChar(d[k])
    requires tail != [] && !IsNumberChar(tail[0])
    ensures var note := NOTE_HEAD + (d + tail);
      var body := note[|NOTE_HEAD|..];
      && note[..|NOTE_HEAD|] == NOTE_HEAD
      && body == d + tail
      && NumberRun(body) == |d|
      && body[..|d|] == d
      && body[|d|..] == tail
  {
    NumberRunStops(d, tail);
    assert (d + tail)[..|d|] == d;
  }

  /** The beneficiary part of a note starts off the number and yields the beneficiary back. */
  lemma BeneficiaryTail(beneficiary: string)
    requires beneficiary != ""
    ensures var tail := BENEFICIARY_HEAD + beneficiary + BENEFICIARY_TAIL;
      && !IsNumberChar(tail[0])
      && tail != NOTE_TAIL
      && |tail| > |BENEFICIARY_HEAD| + |BENEFICIARY_TAIL|
      && tail[..|BENEFICIARY_HEAD|] == BENEFICIARY_HEAD
      && tail[|tail| - |BENEFICIARY_TAIL|..] == BENEFICIARY_TAIL
      && tail[|BENEFICIARY_HEAD|..|tail| - |BENEFICIARY_TAIL|] == beneficiary
  {
    var tail := BENEFICIARY_HEAD + beneficiary + BENEFICIARY_TAIL;
    assert tail[..|BENEFICIARY_HEAD|] == BENEFICIARY_HEAD;
    assert tail[|tail| - |BENEFICIARY_TAIL|..] == BENEFICIARY_TAIL;
    assert tail[|BENEFICIARY_HEAD|..|tail| - |BENEFICIARY_TAIL|] == beneficiary;
  }

  /** Different commitments never share a note. */
  lemma {:induction false} CommitmentNoteInjective(a1: int, b1: string, a2: int, b2: string)
    requires CommitmentNote(a1, b1) == CommitmentNote(a2, b2)
    ensures a1 == a2 && b1 == b2
  {
    CommitmentNoteRoundTrip(a1, b1);
    CommitmentNoteRoundTrip(a2, b2);
  }

  // ----- the builder -----

  /** The forwarding step: the governance composer receives the shared operands, the
      governance address and the note. */
  function GovernanceCall(c: Client, net: Network, sdk: Sdk, suggested: SuggestedParams,
                          governanceAddress: Address, amount: int, address: Address, beneficiary: string)
    : (r: Result<ComposerCall, Error>)
    requires c.Valid()
    ensures var common := CommonOperands(c, net, sdk, suggested, address);
      && (r.Success? <==> common.Success?)
      && (r.Failure? ==> r.error == common.error)
      && (r.Success? ==> r.value.SendGovernance? && r.value.common == common.value
                         && r.value.governanceAddress == governanceAddress
                         && r.value.note == CommitmentNote(amount, beneficiary)
                         && ParseCommitmentNote(r.value.note) == Some((amount, beneficiary)))
  {
    CommitmentNoteRoundTrip(amount, beneficiary);
    match CommonOperands(c, net, sdk, suggested, address)
    case Failure(e) => Failure(e)
    case Success(k) => Success(SendGovernance(k, governanceAddress, CommitmentNote(amount, beneficiary)))
  }

  /** The builder as its docstring describes it: the vault (the sender's storage
      account) must resolve; with `checkVaultBalance` the vault's ALGO balance is read
      and a commitment above it is refused; without it no balance is read. */
  function PrepareGovernanceCommitment(c: Client, net: Network, sdk: Sdk, suggested: SuggestedParams,
                                       governanceAddress: Address, amount: int, address: Address,
                                       beneficiary: string, checkVaultBalance: bool)
    : (r: Result<ComposerCall, Error>)
    requires c.Valid()
    ensures var vault := c.manager.GetStorageAddress(net, sdk, ResolveAddress(c, address));
      && (vault.Failure? ==> r == Failure(vault.error))
      && (vault.Success? && !checkVaultBalance ==>
            r == GovernanceCall(c, net, sdk, suggested, governanceAddress, amount, address, beneficiary))
      && (vault.Success? && checkVaultBalance ==>
            var balance := UserBalanceOf(c, net, ALGO_ASSET_ID, vault.value);
            && (balance.Failure? ==> r == Failure(balance.error))
            && (balance.Success? && amount > balance.value ==>
                  r == Failure(CommitmentExceedsBalance(amount, vault.value, balance.value)))
            && (balance.Success? && amount <= balance.value ==>
                  r == GovernanceCall(c, net, sdk, suggested, governanceAddress, amount, address, beneficiary)))
    ensures r.Success? && checkVaultBalance ==>
      var vault := c.manager.GetStorageAddress(net, sdk, ResolveAddress(c, address)).value;
      && UserBalanceOf(c, net, ALGO_ASSET_ID, vault).Success?
      && amount <= UserBalanceOf(c, net, ALGO_ASSET_ID, vault).value
    ensures r.Failure? && r.error.CommitmentExceedsBalance? ==> checkVaultBalance
  {
    var sender := ResolveAddress(c, address);
    match c.manager.GetStorageAddress(net, sdk, sender)
    case Failure(e) => Failure(e)
    case Success(vault) =>
      if !checkVaultBalance then
        GovernanceCall(c, net, sdk, suggested, governanceAddress, amount, address, beneficiary)
      else
        match UserBalanceOf(c, net, ALGO_ASSET_ID, vault)
        case Failure(e) => Failure(e)
        case Success(balance) =>
          if amount > balance then Failure(CommitmentExceedsBalance(amount, vault, balance))
          else GovernanceCall(c, net, sdk, suggested, governanceAddress, amount, address, beneficiary)
  }

  /** The builder as written: `check_vault_balance` is never read, so the balance is
      always read and checked, whatever the flag says. */
  function PrepareGovernanceCommitmentAsWritten(c: Client, net: Network, sdk: Sdk, suggested: SuggestedParams,
                                                governanceAddress: Address, amount: int, address: Address,
                                                beneficiary: string, checkVaultBalance: bool)
    : (r: Result<ComposerCall, Error>)
    requires c.Valid()
    ensures r == PrepareGovernanceCommitment(c, net, sdk, suggested, governanceAddress, amount, address, beneficiary, true)
  {
    var sender := ResolveAddress(c, address);
    match c.manager.GetStorageAddress(net, sdk, sender)
    case Failure(e) => Failure(e)
    case Success(vault) =>
      match UserBalanceOf(c, net, ALGO_ASSET_ID, vault)
      case Failure(e) => Failure(e)
      case Success(balance) =>
        if amount > balance then Failure(CommitmentExceedsBalance(amount, vault, balance))
        else GovernanceCall(c, net, sdk, suggested, governanceAddress, amount, address, beneficiary)
  }

  /** The discrepancy: with `check_vault_balance=False` and a commitment above the
      vault's balance, the builder as written still refuses, while the documented
      behaviour builds the group. */
  lemma CheckFlagIgnored(c: Client, net: Network, sdk: Sdk, suggested: SuggestedParams,
                         governanceAddress: Address, amount: int, address: Address, beneficiary: string)
    requires c.Valid()
    requires c.manager.GetStorageAddress(net, sdk, ResolveAddress(c, address)).Success?
    requires UserBalanceOf(c, net, ALGO_ASSET_ID, c.manager.GetStorageAddress(net, sdk, ResolveAddress(c, address)).value).Success?
    requires amount > UserBalanceOf(c, net, ALGO_ASSET_ID, c.manager.GetStorageAddress(net, sdk, ResolveAddress(c, address)).value).value
    ensures PrepareGovernanceCommitmentAsWritten(c, net, sdk, suggested, governanceAddress, amount, address, beneficiary, false).Failure?
    ensures PrepareGovernanceCommitmentAsWritten(c, net, sdk, suggested, governanceAddress, amount, address, beneficiary, false).error.CommitmentExceedsBalance?
    ensures PrepareGovernanceCommitment(c, net, sdk, suggested, governanceAddress, amount, address, beneficiary, false).Success?
  {
  }
}
