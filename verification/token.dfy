/** The token sale (ProtonToken) as its tests pin it down: a premint to
    the owner at construction, contributions during an inclusive block
    window at a fixed rate, a finalize step that only the custody wallet
    may run and that sweeps the held wei to the wallet when the funding
    goal is met, and a refund path when it is not.

    Block heights are explicit parameters; ether is integer wei and
    tokens are integer base units. */
module Token {
  import opened Ledger

  /** Tokens minted per wei contributed (PRT_RATIO). */
  const RATE: nat := 5500

  /** Tokens minted to the owner at construction: 5 * 5500 * 10^18. */
  const PREMINT: nat := 5 * RATE * WEI_PER_ETHER

  datatype SaleError =
    | NotInWindow       // a contribution outside [startBlock, endBlock]
    | Unauthorized      // finalize from anyone but the wallet
    | AlreadyFinalized
    | SaleNotOver       // finalize at or before endBlock
    | GoalNotReached    // finalize with less than the goal raised
    | RefundNotAllowed  // refund outside a failed, closed sale, or with nothing to refund

  /** Sum of the values of a map (a ledger's total). */
  ghost function Sum(m: map<Address, nat>): nat
  {
    SumOver(m, m.Keys)
  }

  ghost function SumOver(m: map<Address, nat>, keys: set<Address>): nat
    requires keys <= m.Keys
  {
    if keys == {} then 0
    else
      var k :| k in keys;
      m[k] + SumOver(m, keys - {k})
  }

  /** Any key can be taken out of the sum first. */
  lemma SumOverRemove(m: map<Address, nat>, keys: set<Address>, k: Address)
    requires keys <= m.Keys && k in keys
    ensures SumOver(m, keys) == m[k] + SumOver(m, keys - {k})
  {
    var j :| j in keys && SumOver(m, keys) == m[j] + SumOver(m, keys - {j});
    if j != k {
      SumOverRemove(m, keys - {j}, k);
      SumOverRemove(m, keys - {k}, j);
      assert keys - {j} - {k} == keys - {k} - {j};
    }
  }

  /** Entries outside the keys summed do not matter. */
  lemma SumOverFrame(m: map<Address, nat>, m2: map<Address, nat>, keys: set<Address>)
    requires keys <= m.Keys && keys <= m2.Keys
    requires forall a :: a in keys ==> m[a] == m2[a]
    ensures SumOver(m, keys) == SumOver(m2, keys)
  {
    if keys != {} {
      var k :| k in keys && SumOver(m, keys) == m[k] + SumOver(m, keys - {k});
      SumOverRemove(m2, keys, k);
      SumOverFrame(m, m2, keys - {k});
    }
  }

  lemma SumRemove(m: map<Address, nat>, k: Address)
    requires k in m
    ensures Sum(m) == m[k] + Sum(m - {k})
  {
    SumOverRemove(m, m.Keys, k);
    assert (m - {k}).Keys == m.Keys - {k};
    SumOverFrame(m, m - {k}, m.Keys - {k});
  }

  /** Setting one entry changes the sum by the difference. */
  lemma SumUpdate(m: map<Address, nat>, k: Address, v: nat)
    ensures Sum(m[k := v]) + (if k in m then m[k] else 0) == Sum(m) + v
  {
    SumRemove(m[k := v], k);
    if k in m {
      SumRemove(m, k);
      assert m[k := v] - {k} == m - {k};
    } else {
      assert m[k := v] - {k} == m;
    }
  }

  class ProtonToken {
    const addr: Address
    /** The custody wallet: the only caller of finalize and the receiver of the sweep. */
    const wallet: Address
    /** Receiver of the premint. */
    const owner: Address
    const startBlock: nat
    const endBlock: nat
    /** Minimum funding in wei for the sale to succeed. */
    const goal: nat

    var balances: map<Address, nat>
    var totalSupply: nat
    /** Wei contributed per account and not yet refunded. */
    var contributions: map<Address, nat>
    /** Wei contributed during the window in total. */
    var raised: nat
    /** Wei held by the token contract. */
    var held: nat
    var finalized: bool

    /** Tokens cleared from balances by refunds (refund leaves totalSupply as it is). */
    ghost var refundedTokens: nat
    /** Wei that left the contract, by the sweep or by refunds. */
    ghost var paidOut: nat
    /** Height of the latest block a state change happened at. */
    ghost var lastBlock: nat

    ghost predicate Valid()
      reads this
    {
      && totalSupply == Sum(balances) + refundedTokens
      && raised == held + paidOut
      && (finalized ==> held == 0 && goal <= raised && endBlock < lastBlock)
      && (!finalized ==> held == Sum(contributions))
    }

    /** balanceOf: the tokens a holds; 0 for an account never credited. */
    function BalanceOf(a: Address): (r: nat)
      reads this
      ensures a !in balances ==> r == 0
      ensures a in balances ==> r == balances[a]
      ensures Valid() ==> r <= totalSupply
    {
      if a in balances then
        SumRemove(balances, a);
        balances[a]
      else 0
    }

    function ContributionOf(a: Address): nat
      reads this
    {
      if a in contributions then contributions[a] else 0
    }

    predicate InWindow(block: nat)
    {
      startBlock <= block <= endBlock
    }

    predicate CanFinalize(caller: Address, block: nat)
      reads this
    {
      caller == wallet && !finalized && endBlock < block && goal <= raised
    }

    predicate CanRefund(sender: Address, block: nat)
      reads this
    {
      !finalized && endBlock < block && raised < goal && ContributionOf(sender) > 0
    }

    /** What a successful or a reverted finalize leaves behind. */
    twostate predicate FinalizeEffect(ok: bool)
      reads this
    {
      if ok then
        && finalized && held == 0
        && balances == old(balances) && totalSupply == old(totalSupply)
        && contributions == old(contributions) && raised == old(raised)
      else
        && finalized == old(finalized) && held == old(held)
        && balances == old(balances) && totalSupply == old(totalSupply)
        && contributions == old(contributions) && raised == old(raised)
    }

    constructor(addr: Address, wallet: Address, owner: Address, startBlock: nat, endBlock: nat, goal: nat)
      ensures Valid()
      ensures this.addr == addr && this.wallet == wallet && this.owner == owner
      ensures this.startBlock == startBlock && this.endBlock == endBlock && this.goal == goal
      ensures balances == map[owner := PREMINT] && totalSupply == PREMINT
      ensures contributions == map[] && raised == 0 && held == 0 && !finalized
      ensures lastBlock == 0
    {
      this.addr, this.wallet, this.owner := addr, wallet, owner;
      this.startBlock, this.endBlock, this.goal := startBlock, endBlock, goal;
      balances := map[owner := PREMINT];
      totalSupply := PREMINT;
      contributions := map[];
      raised, held, finalized := 0, 0, false;
      refundedTokens, paidOut, lastBlock := 0, 0, 0;
      SumUpdate(map[], owner, PREMINT);
    }

    /** The payable fallback: value wei sent by sender at height block. */
    method Contribute(sender: Address, value: nat, block: nat) returns (r: Outcome<SaleError>)
      requires Valid() && lastBlock <= block
      modifies this
      ensures Valid()
      ensures r == if InWindow(block) then Pass else Fail(NotInWindow)
      ensures r.Pass? ==>
        && balances == old(balances)[sender := old(BalanceOf(sender)) + RATE * value]
        && totalSupply == old(totalSupply) + RATE * value
        && contributions == old(contributions)[sender := old(ContributionOf(sender)) + value]
        && raised == old(raised) + value && held == old(held) + value
        && finalized == old(finalized) && lastBlock == block
      ensures r.Fail? ==> unchanged(this)
    {
      if !InWindow(block) {
        return Fail(NotInWindow);
      }
      var tokens := BalanceOf(sender) + RATE * value;
      var paid := ContributionOf(sender) + value;
      SumUpdate(balances, sender, tokens);
      SumUpdate(contributions, sender, paid);
      balances, totalSupply := balances[sender := tokens], totalSupply + RATE * value;
      contributions, raised, held := contributions[sender := paid], raised + value, held + value;
      lastBlock := block;
      r := Pass;
    }

    /** finalize, called by caller at height block; on success returns the
        wei swept to the wallet. */
    method Finalize(caller: Address, block: nat) returns (r: Result<nat, SaleError>)
      requires Valid() && lastBlock <= block
      modifies this
      ensures Valid()
      ensures r.Success? <==> old(CanFinalize(caller, block))
      ensures FinalizeEffect(r.Success?)
      ensures r.Success? ==> r.value == old(held) && lastBlock == block
      ensures r.Failure? ==> unchanged(this)
      ensures caller != wallet ==> r == Failure(Unauthorized)
      ensures caller == wallet && old(finalized) ==> r == Failure(AlreadyFinalized)
      ensures caller == wallet && !old(finalized) && block <= endBlock ==> r == Failure(SaleNotOver)
      ensures caller == wallet && !old(finalized) && endBlock < block && old(raised) < goal ==> r == Failure(GoalNotReached)
    {
      if caller != wallet {
        return Failure(Unauthorized);
      }
      if finalized {
        return Failure(AlreadyFinalized);
      }
      if block <= endBlock {
        return Failure(SaleNotOver);
      }
      if raised < goal {
        return Failure(GoalNotReached);
      }
      // the flag flips before the value leaves the contract
      finalized := true;
      r := Success(held);
      paidOut := paidOut + held;
      held := 0;
      lastBlock := block;
    }

    /** refund, called by sender at height block; on success returns the
        wei paid back to sender. */
    method Refund(sender: Address, block: nat) returns (r: Result<nat, SaleError>)
      requires Valid() && lastBlock <= block
      modifies this
      ensures Valid()
      ensures r.Success? <==> old(CanRefund(sender, block))
      ensures r.Success? ==>
        && r.value == old(ContributionOf(sender))
        && contributions == old(contributions)[sender := 0]
        && balances == old(balances)[sender := 0]
        && held == old(held) - r.value
        && totalSupply == old(totalSupply)
        && raised == old(raised) && !finalized && lastBlock == block
      ensures r.Failure? ==> unchanged(this) && r.error == RefundNotAllowed
    {
      if finalized || block <= endBlock || goal <= raised || ContributionOf(sender) == 0 {
        return Failure(RefundNotAllowed);
      }
      var amount := ContributionOf(sender);
      var tokens := BalanceOf(sender);
      SumUpdate(balances, sender, 0);
      SumUpdate(contributions, sender, 0);
      contributions := contributions[sender := 0];
      balances := balances[sender := 0];
      refundedTokens := refundedTokens + tokens;
      held := held - amount;
      paidOut := paidOut + amount;
      lastBlock := block;
      r := Success(amount);
    }
  }
}
