/** The tests of the wallet and the token sale replayed as client code:
    each method runs one test's sequence of calls against fresh objects
    and returns what the test reads back; its postcondition is what the
    test asserts. Accounts are distinct addresses, the wallet's and the
    token's own addresses differ from them and from each other. */
module Scenarios {
  import opened Ledger
  import opened Token
  import opened MultiSig

  predicate Accounts(accounts: seq<Address>, walletAddr: Address, tokenAddr: Address)
  {
    8 <= |accounts| && Distinct(accounts)
    && walletAddr !in accounts && tokenAddr !in accounts && walletAddr != tokenAddr
  }

  /** The wallet proposes `finalize` to the token at height block and a
      second owner confirms it at the next height (two required). */
  method FinalizeThroughWallet(wallet: MultiSigWallet, token: ProtonToken,
                               proposer: Address, confirmer: Address, block: nat)
    returns (submitted: Status, confirmed: Result<Status, WalletError>)
    requires wallet.Valid() && wallet.Callee(token) && wallet.required == 2
    requires proposer != confirmer && token.lastBlock <= block
    modifies wallet, token
    ensures wallet.Valid() && wallet.Callee(token) && token.lastBlock <= block + 1
    ensures submitted == Pending
    ensures var ok := old(token.CanFinalize(wallet.addr, block + 1));
      && confirmed == Success(if ok then Execution else ExecutionFailure)
      && wallet.balance == old(wallet.balance) + (if ok then old(token.held) else 0)
      && token.FinalizeEffect(ok)
  {
    var txid;
    txid, submitted := wallet.Submit(proposer, token.addr, 0, Call.Finalize, token, block);
    assert wallet.transactions[txid] == Transaction(token.addr, 0, Call.Finalize, false);
    assert wallet.confirmations[txid] == {proposer};
    assert confirmer !in wallet.confirmations[txid];
    confirmed := wallet.Confirm(txid, confirmer, token, block + 1);
    assert wallet.confirmations[txid] == {proposer, confirmer};
  }

  /** 'allows ownership changes': with one required confirmation, addOwner
      and removeOwner run as soon as they are submitted. */
  method AllowsOwnershipChanges(accounts: seq<Address>, walletAddr: Address)
    returns (initial: seq<Address>, added: Status, afterAdd: seq<Address>,
             removed: Status, afterRemove: seq<Address>)
    requires Accounts(accounts, walletAddr, walletAddr + 1)
    ensures initial == accounts[..4]
    ensures added == Execution && afterAdd == accounts[..5]
    ensures removed == Execution && afterRemove == accounts[..4]
  {
    assert Distinct(accounts[..4]);
    var wallet := new MultiSigWallet(walletAddr, accounts[..4], 1);
    initial := wallet.owners;
    var id;
    id, added := wallet.Submit(accounts[0], walletAddr, 0, AddOwner(accounts[4]), null, 0);
    assert accounts[..4] + [accounts[4]] == accounts[..5];
    afterAdd := wallet.owners;
    id, removed := wallet.Submit(accounts[0], walletAddr, 0, RemoveOwner(accounts[4]), null, 0);
    AddThenRemove(accounts[..4], accounts[4]);
    afterRemove := wallet.owners;
  }

  /** First half of 'requires multiple confirmations': the submitter's
      confirmation is the only one, revoking it leaves none, and the
      transaction is listed as the one pending transaction. */
  method SubmitAndRevoke(wallet: MultiSigWallet, sender: Address, call: Call)
    returns (submitted: Status, confsAfterSubmit: nat, revoked: Outcome<WalletError>,
             confsAfterRevoke: nat, pendingCount: nat, pendingIds: Option<seq<nat>>)
    requires wallet.Valid() && wallet.transactions == [] && wallet.required == 2
    modifies wallet
    ensures wallet.Valid()
    ensures submitted == Pending && confsAfterSubmit == 1
    ensures revoked == Pass && confsAfterRevoke == 0
    ensures pendingCount == 1 && pendingIds == Some([0])
    ensures wallet.transactions == [Transaction(wallet.addr, 0, call, false)] && wallet.confirmations == [{}]
    ensures wallet.owners == old(wallet.owners) && wallet.required == 2
  {
    var txid;
    txid, submitted := wallet.Submit(sender, wallet.addr, 0, call, null, 0);
    assert txid == 0 && wallet.confirmations[0] == {sender};
    confsAfterSubmit := wallet.GetConfirmationCount(txid);
    revoked := wallet.Revoke(txid, sender);
    assert {sender} - {sender} == {};
    assert wallet.confirmations == [{}];
    confsAfterRevoke := wallet.GetConfirmationCount(txid);
    MatchingSingle(wallet.transactions[0], true, false);
    assert [0][0..1] == [0];
    pendingCount := wallet.GetTransactionCount(true, false);
    pendingIds := wallet.GetTransactionIds(0, 1, true, false);
  }

  /** Second half of 'requires multiple confirmations': with two required
      and no confirmation left, a first owner's confirmation does not run
      the transaction and a second owner's does. */
  method ConfirmTwice(wallet: MultiSigWallet, first: Address, second: Address, call: Call)
    returns (confirmedFirst: Result<Status, WalletError>, confsAfterFirst: nat,
             confirmedAfterFirst: bool, confirmedSecond: Result<Status, WalletError>)
    requires wallet.Valid() && wallet.required == 2 && first != second
    requires wallet.transactions == [Transaction(wallet.addr, 0, call, false)] && wallet.confirmations == [{}]
    requires SelfCall(Config(wallet.owners, 2), call).Some?
    modifies wallet
    ensures wallet.Valid() && wallet.confirmations == [{first, second}]
    ensures wallet.transactions == [Transaction(wallet.addr, 0, call, true)]
    ensures var c := SelfCall(Config(old(wallet.owners), 2), call).value;
      wallet.owners == c.owners && wallet.required == c.required
    ensures confirmedFirst == Success(Pending) && confsAfterFirst == 1 && !confirmedAfterFirst
    ensures confirmedSecond == Success(Execution)
  {
    confirmedFirst := wallet.Confirm(0, first, null, 0);
    assert confirmedFirst.Success?;
    assert wallet.confirmations[0] == {first};
    confsAfterFirst := wallet.GetConfirmationCount(0);
    confirmedAfterFirst := wallet.IsConfirmed(0);
    confirmedSecond := wallet.Confirm(0, second, null, 0);
    assert confirmedSecond.Success?;
    assert wallet.confirmations[0] == {first, second};
  }

  /** 'requires multiple confirmations': with two required, the submitter's
      confirmation alone does not run the transaction, a revoked one no
      longer counts, and the second owner's confirmation runs it; a
      confirmation of the executed transaction can no longer be revoked. */
  method RequiresMultipleConfirmations(accounts: seq<Address>, walletAddr: Address)
    returns (submitted: Status, confsAfterSubmit: nat, revoked: Outcome<WalletError>,
             confsAfterRevoke: nat, pendingCount: nat, pendingIds: Option<seq<nat>>,
             first: Result<Status, WalletError>, confsAfterFirst: nat, confirmedAfterFirst: bool,
             second: Result<Status, WalletError>, confsAfterSecond: nat, executedCount: nat,
             confirmedAfterSecond: bool, lateRevoke: Outcome<WalletError>, owners: seq<Address>)
    requires Accounts(accounts, walletAddr, walletAddr + 1)
    ensures submitted == Pending && confsAfterSubmit == 1
    ensures revoked == Pass && confsAfterRevoke == 0
    ensures pendingCount == 1 && pendingIds == Some([0])
    ensures first == Success(Pending) && confsAfterFirst == 1 && !confirmedAfterFirst
    ensures second == Success(Execution) && confsAfterSecond == 2
    ensures executedCount == 1 && confirmedAfterSecond
    ensures lateRevoke == Fail(AlreadyExecuted)
    ensures owners == accounts[..5]
  {
    assert Distinct(accounts[..4]);
    var wallet := new MultiSigWallet(walletAddr, accounts[..4], 2);
    submitted, confsAfterSubmit, revoked, confsAfterRevoke, pendingCount, pendingIds :=
      SubmitAndRevoke(wallet, accounts[0], AddOwner(accounts[4]));
    first, confsAfterFirst, confirmedAfterFirst, second :=
      ConfirmTwice(wallet, accounts[1], accounts[2], AddOwner(accounts[4]));
    confsAfterSecond := wallet.GetConfirmationCount(0);
    MatchingSingle(wallet.transactions[0], false, true);
    executedCount := wallet.GetTransactionCount(false, true);
    confirmedAfterSecond := wallet.IsConfirmed(0);
    lateRevoke := wallet.Revoke(0, accounts[0]);
    assert accounts[..4] + [accounts[4]] == accounts[..5];
    owners := wallet.owners;
  }

  /** First half of 'allows change of requirements': changeRequirement(3),
      proposed by one owner and confirmed by a second, runs on the
      confirmation. */
  method RaiseRequirement(wallet: MultiSigWallet, proposer: Address, confirmer: Address)
    returns (submitted: Status, confirmed: Result<Status, WalletError>)
    requires wallet.Valid() && wallet.transactions == [] && wallet.required == 2
    requires 3 <= |wallet.owners| && proposer != confirmer
    modifies wallet
    ensures wallet.Valid() && wallet.owners == old(wallet.owners) && wallet.required == 3
    ensures submitted == Pending && confirmed == Success(Execution)
    ensures wallet.transactions == [Transaction(wallet.addr, 0, ChangeRequirement(3), true)]
    ensures wallet.confirmations == [{proposer, confirmer}]
  {
    var txid;
    txid, submitted := wallet.Submit(proposer, wallet.addr, 0, ChangeRequirement(3), null, 0);
    assert txid == 0 && wallet.confirmations == [{proposer}] && !wallet.transactions[0].executed;
    confirmed := wallet.Confirm(txid, confirmer, null, 0);
    assert confirmed.Success?;
    assert wallet.confirmations[0] == {proposer, confirmer};
  }

  /** 'allows change of requirements': a requirement raised to three by a
      confirmed transaction applies to the next one, which runs only on
      its third confirmation. */
  method AllowsChangeOfRequirements(accounts: seq<Address>, walletAddr: Address)
    returns (submitChange: Status, confirmChange: Result<Status, WalletError>, requiredAfter: nat,
             submitAdd: Status, secondConf: Result<Status, WalletError>,
             thirdConf: Result<Status, WalletError>, confs: nat, owners: seq<Address>,
             firstConfs: nat, firstExecuted: bool)
    requires Accounts(accounts, walletAddr, walletAddr + 1)
    ensures submitChange == Pending && confirmChange == Success(Execution) && requiredAfter == 3
    ensures firstConfs == 2 && firstExecuted
    ensures submitAdd == Pending && secondConf == Success(Pending)
    ensures thirdConf == Success(Execution) && confs == 3
    ensures owners == accounts[..5]
  {
    assert Distinct(accounts[..4]);
    var wallet := new MultiSigWallet(walletAddr, accounts[..4], 2);
    submitChange, confirmChange := RaiseRequirement(wallet, accounts[0], accounts[1]);
    requiredAfter := wallet.required;
    var txid;
    txid, submitAdd := wallet.Submit(accounts[0], walletAddr, 0, AddOwner(accounts[4]), null, 0);
    assert txid == 1 && wallet.confirmations[1] == {accounts[0]} && !wallet.transactions[1].executed;
    assert accounts[1] !in {accounts[0]};
    secondConf := wallet.Confirm(txid, accounts[1], null, 0);
    assert wallet.confirmations[1] == {accounts[0], accounts[1]} && !wallet.transactions[1].executed;
    assert accounts[2] !in {accounts[0], accounts[1]};
    thirdConf := wallet.Confirm(txid, accounts[2], null, 0);
    assert wallet.confirmations[1] == {accounts[0], accounts[1], accounts[2]};
    confs := wallet.GetConfirmationCount(txid);
    assert accounts[..4] + [accounts[4]] == accounts[..5];
    owners := wallet.owners;
    firstConfs := wallet.GetConfirmationCount(0);
    firstExecuted := wallet.transactions[0].executed;
  }

  /** 'Before crowdsale': before the start block contributing, refunding
      and finalizing all fail, and only the owner holds tokens: the premint. */
  method BeforeCrowdsale(accounts: seq<Address>, walletAddr: Address, tokenAddr: Address,
                         now: nat, goal: nat, other: Address)
    returns (contribution: Outcome<SaleError>, refund: Result<nat, SaleError>,
             finalize: Result<nat, SaleError>, supply: nat, ownerBalance: nat, otherBalance: nat)
    requires Accounts(accounts, walletAddr, tokenAddr)
    requires other != accounts[0]
    ensures contribution == Fail(NotInWindow)
    ensures refund == Failure(RefundNotAllowed)
    ensures finalize == Failure(Unauthorized)
    ensures supply == PREMINT && ownerBalance == 5 * RATE * WEI_PER_ETHER && otherBalance == 0
  {
    var token := new ProtonToken(tokenAddr, walletAddr, accounts[0], now + 10, now + 30, goal);
    contribution := token.Contribute(accounts[5], WEI_PER_ETHER, now);
    refund := token.Refund(accounts[5], now);
    finalize := token.Finalize(accounts[5], now);
    supply := token.totalSupply;
    ownerBalance := token.BalanceOf(accounts[0]);
    otherBalance := token.BalanceOf(other);
  }

  /** 'Finalize - successful': one ether raised meets the goal; the
      wallet's finalize transaction sweeps it from the token to the wallet. */
  method FinalizeSuccessful(accounts: seq<Address>, walletAddr: Address, tokenAddr: Address,
                            now: nat, goal: nat)
    returns (contribution: Outcome<SaleError>, tokens: nat, supply: nat, heldBefore: nat,
             submitted: Status, confirmed: Result<Status, WalletError>, heldAfter: nat, walletWei: nat)
    requires Accounts(accounts, walletAddr, tokenAddr)
    requires goal <= WEI_PER_ETHER
    ensures contribution == Pass && tokens == RATE * WEI_PER_ETHER
    ensures supply == 6 * RATE * WEI_PER_ETHER && heldBefore == WEI_PER_ETHER
    ensures submitted == Pending && confirmed == Success(Execution)
    ensures heldAfter == 0 && walletWei == WEI_PER_ETHER
  {
    assert Distinct(accounts[..5]);
    var wallet := new MultiSigWallet(walletAddr, accounts[..5], 2);
    var token := new ProtonToken(tokenAddr, walletAddr, accounts[0], now + 1, now + 11, goal);
    contribution := token.Contribute(accounts[5], WEI_PER_ETHER, now + 1);
    tokens := token.BalanceOf(accounts[5]);
    supply := token.totalSupply;
    heldBefore := token.held;
    submitted, confirmed := FinalizeThroughWallet(wallet, token, accounts[0], accounts[2], now + 12);
    heldAfter := token.held;
    walletWei := wallet.balance;
  }

  /** 'Finalize - failed': half an ether is below the goal; the wallet's
      finalize transaction fails and the wei stays in the token. */
  method FinalizeFailed(accounts: seq<Address>, walletAddr: Address, tokenAddr: Address,
                        now: nat, goal: nat)
    returns (contribution: Outcome<SaleError>, tokens: nat, supply: nat, heldBefore: nat,
             submitted: Status, confirmed: Result<Status, WalletError>, heldAfter: nat,
             walletWei: nat, supplyAfter: nat)
    requires Accounts(accounts, walletAddr, tokenAddr)
    requires WEI_PER_ETHER / 2 < goal
    ensures contribution == Pass && tokens == RATE * (WEI_PER_ETHER / 2)
    ensures supply == PREMINT + RATE * (WEI_PER_ETHER / 2) && heldBefore == WEI_PER_ETHER / 2
    ensures submitted == Pending && confirmed == Success(ExecutionFailure)
    ensures heldAfter == WEI_PER_ETHER / 2 && walletWei == 0 && supplyAfter == supply
  {
    assert Distinct(accounts[..5]);
    var wallet := new MultiSigWallet(walletAddr, accounts[..5], 2);
    var token := new ProtonToken(tokenAddr, walletAddr, accounts[0], now + 1, now + 11, goal);
    contribution := token.Contribute(accounts[5], WEI_PER_ETHER / 2, now + 1);
    tokens := token.BalanceOf(accounts[5]);
    supply := token.totalSupply;
    heldBefore := token.held;
    submitted, confirmed := FinalizeThroughWallet(wallet, token, accounts[0], accounts[2], now + 12);
    heldAfter := token.held;
    walletWei := wallet.balance;
    supplyAfter := token.totalSupply;
  }

  /** The setup of 'After failed crowdsale': half an ether contributed,
      the window passed, and the wallet's finalize transaction failed. */
  method FailedSale(accounts: seq<Address>, walletAddr: Address, tokenAddr: Address, now: nat, goal: nat)
    returns (wallet: MultiSigWallet, token: ProtonToken)
    requires Accounts(accounts, walletAddr, tokenAddr)
    requires WEI_PER_ETHER / 2 < goal
    ensures fresh(wallet) && fresh(token)
    ensures wallet.Valid() && wallet.Callee(token) && wallet.balance == 0
    ensures token.wallet == walletAddr && token.goal == goal
    ensures token.endBlock == now + 11 && token.lastBlock <= now + 13
    ensures !token.finalized && token.raised == WEI_PER_ETHER / 2 && token.held == WEI_PER_ETHER / 2
    ensures token.contributions == map[accounts[5] := WEI_PER_ETHER / 2]
    ensures token.balances == map[accounts[0] := PREMINT, accounts[5] := RATE * (WEI_PER_ETHER / 2)]
    ensures token.totalSupply == PREMINT + RATE * (WEI_PER_ETHER / 2)
  {
    assert Distinct(accounts[..5]);
    wallet := new MultiSigWallet(walletAddr, accounts[..5], 2);
    token := new ProtonToken(tokenAddr, walletAddr, accounts[0], now + 1, now + 11, goal);
    var _ := token.Contribute(accounts[5], WEI_PER_ETHER / 2, now + 1);
    var _, _ := FinalizeThroughWallet(wallet, token, accounts[0], accounts[2], now + 12);
  }

  /** 'After failed crowdsale': after the failed finalize the contributor
      gets its half ether back once, its tokens are cleared, and
      contributing, a second refund, a refund by a non-contributor and a
      finalize by anyone but the wallet all fail. */
  method AfterFailedCrowdsale(accounts: seq<Address>, walletAddr: Address, tokenAddr: Address,
                              now: nat, goal: nat)
    returns (supply: nat, ownerTokens: nat, tokensBefore: nat, heldBefore: nat,
             contribution: Outcome<SaleError>, refund: Result<nat, SaleError>,
             heldAfter: nat, walletWei: nat, tokensAfter: nat, refundAgain: Result<nat, SaleError>,
             refundOther: Result<nat, SaleError>, finalize: Result<nat, SaleError>)
    requires Accounts(accounts, walletAddr, tokenAddr)
    requires WEI_PER_ETHER / 2 < goal
    ensures supply == PREMINT + RATE * (WEI_PER_ETHER / 2) && ownerTokens == PREMINT
    ensures tokensBefore == RATE * (WEI_PER_ETHER / 2) && heldBefore == WEI_PER_ETHER / 2
    ensures contribution == Fail(NotInWindow)
    ensures refund == Success(WEI_PER_ETHER / 2)
    ensures heldAfter == 0 && walletWei == 0 && tokensAfter == 0
    ensures refundAgain == Failure(RefundNotAllowed) && refundOther == Failure(RefundNotAllowed)
    ensures finalize == Failure(Unauthorized)
  {
    var wallet, token := FailedSale(accounts, walletAddr, tokenAddr, now, goal);
    supply := token.totalSupply;
    ownerTokens := token.BalanceOf(accounts[0]);
    tokensBefore := token.BalanceOf(accounts[5]);
    heldBefore := token.held;
    contribution := token.Contribute(accounts[7], WEI_PER_ETHER, now + 14);
    refund := token.Refund(accounts[5], now + 15);
    heldAfter := token.held;
    walletWei := wallet.balance;
    tokensAfter := token.BalanceOf(accounts[5]);
    refundAgain := token.Refund(accounts[5], now + 16);
    refundOther := token.Refund(accounts[6], now + 17);
    finalize := token.Finalize(accounts[5], now + 18);
  }

  /** The setup of 'After successful crowdsale': one and two ether
      contributed, the window passed, and the wallet's finalize
      transaction swept the three ether. */
  method SuccessfulSale(accounts: seq<Address>, walletAddr: Address, tokenAddr: Address, now: nat, goal: nat)
    returns (wallet: MultiSigWallet, token: ProtonToken)
    requires Accounts(accounts, walletAddr, tokenAddr)
    requires goal <= WEI_PER_ETHER
    ensures fresh(wallet) && fresh(token)
    ensures wallet.Valid() && wallet.Callee(token) && wallet.balance == 3 * WEI_PER_ETHER
    ensures token.wallet == walletAddr && token.finalized
    ensures token.endBlock == now + 11 && token.lastBlock <= now + 13
    ensures token.balances == map[accounts[0] := PREMINT, accounts[5] := RATE * WEI_PER_ETHER,
                                  accounts[6] := 2 * RATE * WEI_PER_ETHER]
    ensures token.totalSupply == 8 * RATE * WEI_PER_ETHER
  {
    assert Distinct(accounts[..5]);
    wallet := new MultiSigWallet(walletAddr, accounts[..5], 2);
    token := new ProtonToken(tokenAddr, walletAddr, accounts[0], now + 1, now + 11, goal);
    var _ := token.Contribute(accounts[5], WEI_PER_ETHER, now + 1);
    var _ := token.Contribute(accounts[6], 2 * WEI_PER_ETHER, now + 2);
    var _, _ := FinalizeThroughWallet(wallet, token, accounts[0], accounts[2], now + 12);
  }

  /** 'After successful crowdsale': three ether raised from two accounts;
      after the sweep the balances stand as minted, and contributing,
      refunding and a finalize by anyone but the wallet fail. */
  method AfterSuccessfulCrowdsale(accounts: seq<Address>, walletAddr: Address, tokenAddr: Address,
                                  now: nat, goal: nat)
    returns (supply: nat, ownerTokens: nat, firstTokens: nat, secondTokens: nat,
             contribution: Outcome<SaleError>, refund: Result<nat, SaleError>,
             finalize: Result<nat, SaleError>, walletWei: nat)
    requires Accounts(accounts, walletAddr, tokenAddr)
    requires goal <= WEI_PER_ETHER
    ensures supply == 8 * RATE * WEI_PER_ETHER
    ensures ownerTokens == 5 * RATE * WEI_PER_ETHER
    ensures firstTokens == RATE * WEI_PER_ETHER && secondTokens == 2 * RATE * WEI_PER_ETHER
    ensures contribution == Fail(NotInWindow)
    ensures refund == Failure(RefundNotAllowed)
    ensures finalize == Failure(Unauthorized)
    ensures walletWei == 3 * WEI_PER_ETHER
  {
    var wallet, token := SuccessfulSale(accounts, walletAddr, tokenAddr, now, goal);
    supply := token.totalSupply;
    ownerTokens := token.BalanceOf(accounts[0]);
    firstTokens := token.BalanceOf(accounts[5]);
    secondTokens := token.BalanceOf(accounts[6]);
    contribution := token.Contribute(accounts[7], WEI_PER_ETHER, now + 14);
    refund := token.Refund(accounts[5], now + 15);
    finalize := token.Finalize(accounts[5], now + 16);
    walletWei := wallet.balance;
  }
}
