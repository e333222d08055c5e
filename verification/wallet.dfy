/** The multi-signature custody wallet (MultiSigWallet) as its tests pin
    it down: an ordered owner list, a required number of confirmations,
    and a log of transactions, each with its own confirmation set and an
    executed flag. A transaction runs in the call that first brings its
    confirmations up to the requirement; owner and requirement changes
    are transactions the wallet sends to itself, and `finalize` is one it
    sends to the token sale. */
module MultiSig {
  import opened Ledger
  import Token

  /** The call a transaction makes, decoded from its call data. */
  datatype Call =
    | AddOwner(owner: Address)
    | RemoveOwner(owner: Address)
    | ChangeRequirement(required: nat)
    | Finalize

  datatype Transaction = Transaction(destination: Address, value: nat, call: Call, executed: bool)

  /** What a submit or confirm did: nothing yet, or ran the transaction
      with the Execution or ExecutionFailure outcome. */
  datatype Status = Pending | Execution | ExecutionFailure

  datatype WalletError =
    | UnknownTransaction
    | AlreadyExecuted
    | AlreadyConfirmed
    | NotConfirmed

  /** The owner list and the required confirmation count. */
  datatype Config = Config(owners: seq<Address>, required: nat)

  predicate ValidConfig(c: Config)
  {
    Distinct(c.owners) && 1 <= c.required <= |c.owners|
  }

  /** The list with a removed, the others kept in their order. */
  function Without(s: seq<Address>, a: Address): (r: seq<Address>)
    ensures forall x :: x in r <==> x in s && x != a
  {
    if s == [] then []
    else (if s[0] == a then [] else [s[0]]) + Without(s[1..], a)
  }

  /** Removing the owner at position i closes the gap and keeps the order. */
  lemma {:induction false} WithoutAt(s: seq<Address>, i: nat)
    requires Distinct(s) && i < |s|
    ensures Without(s, s[i]) == s[..i] + s[i + 1..]
  {
    if i == 0 {
      WithoutAbsent(s[1..], s[0]);
    } else {
      assert Distinct(s[1..]);
      WithoutAt(s[1..], i - 1);
      assert s[1..][i - 1] == s[i];
      assert s[..i] == [s[0]] + s[1..][..i - 1];
      assert s[i + 1..] == s[1..][i..];
    }
  }

  lemma {:induction false} WithoutAbsent(s: seq<Address>, a: Address)
    requires a !in s
    ensures Without(s, a) == s
  {
    if s != [] {
      WithoutAbsent(s[1..], a);
    }
  }

  /** Adding an owner and then removing it gives back the original list. */
  lemma {:induction false} AddThenRemove(s: seq<Address>, a: Address)
    requires a !in s
    ensures Without(s + [a], a) == s
  {
    if s == [] {
      assert Without([a], a) == [] + Without([], a);
    } else {
      assert (s + [a])[1..] == s[1..] + [a];
      AddThenRemove(s[1..], a);
    }
  }

  lemma {:induction false} WithoutDistinct(s: seq<Address>, a: Address)
    requires Distinct(s) && a in s
    ensures Distinct(Without(s, a)) && |Without(s, a)| == |s| - 1
  {
    var i :| 0 <= i < |s| && s[i] == a;
    WithoutAt(s, i);
    var r := s[..i] + s[i + 1..];
    forall p, q | 0 <= p < q < |r| ensures r[p] != r[q] {
      var p' := if p < i then p else p + 1;
      var q' := if q < i then q else q + 1;
      assert r[p] == s[p'] && r[q] == s[q'];
    }
  }

  /** The effect of a call the wallet sends to itself on its
      configuration, or None when the call fails its checks. */
  function SelfCall(c: Config, call: Call): (r: Option<Config>)
    ensures call.AddOwner? ==> (r.Some? <==> call.owner !in c.owners)
    ensures call.RemoveOwner? ==> (r.Some? <==> call.owner in c.owners && c.required < |c.owners|)
    ensures call.ChangeRequirement? ==> (r.Some? <==> 1 <= call.required <= |c.owners|)
    ensures call.Finalize? ==> r.None?
    ensures r.Some? && call.AddOwner? ==>
      forall a :: a in r.value.owners <==> a in c.owners || a == call.owner
    ensures r.Some? && call.RemoveOwner? ==>
      forall a :: a in r.value.owners <==> a in c.owners && a != call.owner
    ensures r.Some? && !call.ChangeRequirement? ==> r.value.required == c.required
    ensures r.Some? && call.ChangeRequirement? ==> r.value.owners == c.owners && r.value.required == call.required
  {
    match call
    case AddOwner(a) =>
      if a in c.owners then None else Some(Config(c.owners + [a], c.required))
    case RemoveOwner(a) =>
      if a !in c.owners || |c.owners| - 1 < c.required then None
      else Some(Config(Without(c.owners, a), c.required))
    case ChangeRequirement(n) =>
      if 1 <= n <= |c.owners| then Some(Config(c.owners, n)) else None
    case Finalize =>
      None
  }

  /** Every successful self-call keeps the configuration valid: owners
      distinct and 1 <= required <= number of owners. */
  lemma SelfCallKeepsValid(c: Config, call: Call)
    requires ValidConfig(c)
    ensures SelfCall(c, call).Some? ==> ValidConfig(SelfCall(c, call).value)
  {
    match call
    case AddOwner(a) =>
      if a !in c.owners {
        var s := c.owners + [a];
        forall p, q | 0 <= p < q < |s| ensures s[p] != s[q] {
          if q == |s| - 1 { assert s[p] in c.owners; }
        }
      }
    case RemoveOwner(a) =>
      if a in c.owners {
        WithoutDistinct(c.owners, a);
      }
    case ChangeRequirement(n) =>
    case Finalize =>
  }

  /** addOwner puts a new owner at the end of the list; removeOwner of
      the owner at position i closes the gap and keeps the others in their
      order, provided the requirement still fits; the requirement stays. */
  lemma OwnerChangesKeepOrder(c: Config, a: Address, i: nat)
    requires ValidConfig(c) && i < |c.owners|
    ensures a !in c.owners ==> SelfCall(c, AddOwner(a)) == Some(Config(c.owners + [a], c.required))
    ensures a in c.owners ==> SelfCall(c, AddOwner(a)) == None
    ensures c.required < |c.owners| ==>
      SelfCall(c, RemoveOwner(c.owners[i])) == Some(Config(c.owners[..i] + c.owners[i + 1..], c.required))
    ensures c.required == |c.owners| ==> SelfCall(c, RemoveOwner(c.owners[i])) == None
  {
    WithoutAt(c.owners, i);
  }

  /** addOwner followed by removeOwner of the same account restores the
      configuration (the round trip of the ownership-change test). */
  lemma AddOwnerThenRemoveOwner(c: Config, a: Address)
    requires ValidConfig(c) && a !in c.owners
    ensures SelfCall(c, AddOwner(a)) == Some(Config(c.owners + [a], c.required))
    ensures SelfCall(Config(c.owners + [a], c.required), RemoveOwner(a)) == Some(c)
  {
    AddThenRemove(c.owners, a);
  }

  /** Whether a transaction is listed by a query for pending and/or
      executed transactions. */
  predicate Selected(t: Transaction, pending: bool, executed: bool)
  {
    (pending && !t.executed) || (executed && t.executed)
  }

  /** Ids of the selected transactions, ascending. */
  function Matching(txs: seq<Transaction>, pending: bool, executed: bool): seq<nat>
  {
    if txs == [] then []
    else
      var n := |txs| - 1;
      Matching(txs[..n], pending, executed) + (if Selected(txs[n], pending, executed) then [n] else [])
  }

  /** A log of one transaction lists id 0 exactly when the filter selects it. */
  lemma MatchingSingle(t: Transaction, pending: bool, executed: bool)
    ensures Matching([t], pending, executed) == if Selected(t, pending, executed) then [0] else []
  {
    assert [t][..0] == [];
  }

  /** The query lists exactly the selected ids below the log length, each
      once, in strictly ascending order. */
  lemma {:induction false} MatchingIsFilter(txs: seq<Transaction>, pending: bool, executed: bool)
    ensures var ids := Matching(txs, pending, executed);
      && (forall x: nat :: x in ids <==> x < |txs| && Selected(txs[x], pending, executed))
      && (forall p, q :: 0 <= p < q < |ids| ==> ids[p] < ids[q])
  {
    if txs != [] {
      var n := |txs| - 1;
      MatchingIsFilter(txs[..n], pending, executed);
      var ids := Matching(txs, pending, executed);
      var front := Matching(txs[..n], pending, executed);
      forall x: nat ensures x in ids <==> x < |txs| && Selected(txs[x], pending, executed) {
        if x < n { assert txs[..n][x] == txs[x]; }
      }
      forall p, q | 0 <= p < q < |ids| ensures ids[p] < ids[q] {
        if q < |front| {
        } else {
          assert ids[p] in front;
        }
      }
    }
  }

  class MultiSigWallet {
    const addr: Address
    var owners: seq<Address>
    var required: nat
    var transactions: seq<Transaction>
    var confirmations: seq<set<Address>>
    /** Wei held by the wallet. */
    var balance: nat

    ghost predicate Valid()
      reads this
    {
      ValidConfig(Config(owners, required)) && |confirmations| == |transactions|
    }

    /** The token sale the wallet can call, if any, is another account. */
    ghost predicate Callee(token: Token.ProtonToken?)
      reads this, token
    {
      token != null ==> token.Valid() && token.addr != addr
    }

    constructor(addr: Address, owners: seq<Address>, required: nat)
      requires ValidConfig(Config(owners, required))
      ensures Valid()
      ensures this.addr == addr && this.owners == owners && this.required == required
      ensures transactions == [] && confirmations == [] && balance == 0
    {
      this.addr := addr;
      this.owners := owners;
      this.required := required;
      transactions := [];
      confirmations := [];
      balance := 0;
    }

    /** getConfirmations: the owners that confirmed transaction id; none
        for an unknown id. */
    function GetConfirmations(id: nat): (r: set<Address>)
      reads this
      ensures Valid() && |transactions| <= id ==> r == {}
      ensures id < |confirmations| ==> r == confirmations[id]
    {
      if id < |confirmations| then confirmations[id] else {}
    }

    /** getConfirmationCount: how many owners confirmed transaction id. */
    function GetConfirmationCount(id: nat): (r: nat)
      reads this
      ensures Valid() && |transactions| <= id ==> r == 0
      ensures r == 0 <==> GetConfirmations(id) == {}
    {
      |GetConfirmations(id)|
    }

    /** isConfirmed: the confirmations reach the current requirement,
        whether or not the transaction has run. */
    function IsConfirmed(id: nat): (r: bool)
      reads this
      ensures r <==> required <= GetConfirmationCount(id)
      ensures Valid() && r ==> GetConfirmations(id) != {}
      ensures Valid() && |transactions| <= id ==> !r
    {
      required <= GetConfirmationCount(id)
    }

    /** What running transaction t did to the wallet and the token sale:
        a self-call changes the configuration or fails its checks, a
        finalize sent to the token sweeps its wei here or fails, a call
        of anything else on either contract fails, and a call to any other
        address has no effect here. */
    twostate predicate ExecutionEffect(t: Transaction, token: Token.ProtonToken?, block: nat, status: Status)
      reads this, token
    {
      var before := Config(old(owners), old(required));
      if t.destination == addr then
        var next := SelfCall(before, t.call);
        && status == (if next.Some? then Execution else ExecutionFailure)
        && Config(owners, required) == (if next.Some? then next.value else before)
        && balance == old(balance)
        && (token != null ==> unchanged(token))
      else if token != null && t.destination == token.addr && t.call.Finalize? then
        var ok := old(token.CanFinalize(addr, block));
        && status == (if ok then Execution else ExecutionFailure)
        && Config(owners, required) == before
        && balance == old(balance) + (if ok then old(token.held) else 0)
        && token.FinalizeEffect(ok)
      else
        && status == (if token != null && t.destination == token.addr then ExecutionFailure else Execution)
        && Config(owners, required) == before
        && balance == old(balance)
        && (token != null ==> unchanged(token))
    }

    /** Runs transaction id: marks it executed whatever its outcome. */
    method Execute(id: nat, token: Token.ProtonToken?, block: nat) returns (status: Status)
      requires Valid() && Callee(token) && id < |transactions| && !transactions[id].executed
      requires token != null ==> token.lastBlock <= block
      modifies this, token
      ensures Valid() && Callee(token)
      ensures status != Pending
      ensures transactions == old(transactions)[id := old(transactions[id]).(executed := true)]
      ensures confirmations == old(confirmations)
      ensures ExecutionEffect(old(transactions[id]), token, block, status)
      ensures token != null ==> token.lastBlock <= block
    {
      var t := transactions[id];
      transactions := transactions[id := t.(executed := true)];
      if t.destination == addr {
        var next := SelfCall(Config(owners, required), t.call);
        SelfCallKeepsValid(Config(owners, required), t.call);
        if next.Some? {
          owners, required := next.value.owners, next.value.required;
          status := Execution;
        } else {
          status := ExecutionFailure;
        }
      } else if token != null && t.destination == token.addr {
        if t.call.Finalize? {
          var r := token.Finalize(addr, block);
          if r.Success? {
            balance := balance + r.value;
            status := Execution;
          } else {
            status := ExecutionFailure;
          }
        } else {
          status := ExecutionFailure;
        }
      } else {
        status := Execution;
      }
    }

    /** submitTransaction by sender: appends the transaction, records the
        sender's confirmation, and runs it at once when one confirmation
        meets the requirement. */
    method Submit(sender: Address, destination: Address, value: nat, call: Call,
                  token: Token.ProtonToken?, block: nat)
      returns (id: nat, status: Status)
      requires Valid() && Callee(token)
      requires token != null ==> token.lastBlock <= block
      modifies this, token
      ensures Valid() && Callee(token)
      ensures id == old(|transactions|)
      ensures confirmations == old(confirmations) + [{sender}]
      ensures (status == Pending) <==> (1 < old(required))
      ensures transactions == old(transactions) + [Transaction(destination, value, call, status != Pending)]
      ensures status != Pending ==> ExecutionEffect(Transaction(destination, value, call, false), token, block, status)
      ensures status == Pending ==>
        owners == old(owners) && required == old(required) && balance == old(balance)
        && (token != null ==> unchanged(token))
      ensures token != null ==> token.lastBlock <= block
    {
      id := |transactions|;
      var t := Transaction(destination, value, call, false);
      transactions := transactions + [t];
      confirmations := confirmations + [{sender}];
      if required <= 1 {
        status := Execute(id, token, block);
      } else {
        status := Pending;
      }
    }

    /** confirmTransaction by sender: records the confirmation and runs the
        transaction when the count reaches the current requirement. */
    method Confirm(id: nat, sender: Address, token: Token.ProtonToken?, block: nat)
      returns (r: Result<Status, WalletError>)
      requires Valid() && Callee(token)
      requires token != null ==> token.lastBlock <= block
      modifies this, token
      ensures Valid() && Callee(token)
      ensures old(|transactions|) <= id ==> r == Failure(UnknownTransaction)
      ensures id < old(|transactions|) && old(transactions[id].executed) ==> r == Failure(AlreadyExecuted)
      ensures id < old(|transactions|) && !old(transactions[id].executed) && sender in old(confirmations[id]) ==>
        r == Failure(AlreadyConfirmed)
      ensures r.Failure? ==>
        old(|transactions|) <= id || old(transactions[id].executed) || sender in old(confirmations[id])
      ensures r.Failure? ==> unchanged(this) && (token != null ==> unchanged(token))
      ensures r.Success? ==>
        && id < old(|transactions|)
        && confirmations == old(confirmations)[id := old(confirmations[id]) + {sender}]
        && ((r.value == Pending) <==> |confirmations[id]| < old(required))
      ensures r.Success? && r.value == Pending ==>
        && transactions == old(transactions)
        && owners == old(owners) && required == old(required) && balance == old(balance)
        && (token != null ==> unchanged(token))
      ensures r.Success? && r.value != Pending ==>
        && transactions == old(transactions)[id := old(transactions[id]).(executed := true)]
        && ExecutionEffect(old(transactions[id]), token, block, r.value)
      ensures token != null ==> token.lastBlock <= block
    {
      if |transactions| <= id {
        return Failure(UnknownTransaction);
      }
      if transactions[id].executed {
        return Failure(AlreadyExecuted);
      }
      if sender in confirmations[id] {
        return Failure(AlreadyConfirmed);
      }
      confirmations := confirmations[id := confirmations[id] + {sender}];
      if required <= |confirmations[id]| {
        var status := Execute(id, token, block);
        r := Success(status);
      } else {
        r := Success(Pending);
      }
    }

    /** revokeConfirmation by sender: withdraws the sender's confirmation
        of a transaction that has not run. */
    method Revoke(id: nat, sender: Address) returns (r: Outcome<WalletError>)
      requires Valid()
      modifies this
      ensures Valid()
      ensures r == (
        if old(|transactions|) <= id then Fail(UnknownTransaction)
        else if old(transactions[id].executed) then Fail(AlreadyExecuted)
        else if sender !in old(confirmations[id]) then Fail(NotConfirmed)
        else Pass)
      ensures r.Fail? ==> unchanged(this)
      ensures r.Pass? ==>
        && confirmations == old(confirmations)[id := old(confirmations[id]) - {sender}]
        && transactions == old(transactions)
        && owners == old(owners) && required == old(required) && balance == old(balance)
    {
      if |transactions| <= id {
        return Fail(UnknownTransaction);
      }
      if transactions[id].executed {
        return Fail(AlreadyExecuted);
      }
      if sender !in confirmations[id] {
        return Fail(NotConfirmed);
      }
      confirmations := confirmations[id := confirmations[id] - {sender}];
      r := Pass;
    }

    /** getTransactionCount: how many transactions the filter selects. */
    method GetTransactionCount(pending: bool, executed: bool) returns (count: nat)
      ensures count == |Matching(transactions, pending, executed)|
    {
      count := 0;
      for i := 0 to |transactions|
        invariant count == |Matching(transactions[..i], pending, executed)|
      {
        assert transactions[..i + 1][..i] == transactions[..i];
        if Selected(transactions[i], pending, executed) {
          count := count + 1;
        }
      }
      assert transactions[..|transactions|] == transactions;
    }

    /** getTransactionIds(from, to, pending, executed): positions from up to
        to of the selected ids; fails when that range is not within them. */
    method GetTransactionIds(from: nat, to: nat, pending: bool, executed: bool) returns (r: Option<seq<nat>>)
      ensures var ids := Matching(transactions, pending, executed);
        r == if from <= to <= |ids| then Some(ids[from..to]) else None
    {
      var ids: seq<nat> := [];
      for i := 0 to |transactions|
        invariant ids == Matching(transactions[..i], pending, executed)
      {
        assert transactions[..i + 1][..i] == transactions[..i];
        if Selected(transactions[i], pending, executed) {
          ids := ids + [i];
        }
      }
      assert transactions[..|transactions|] == transactions;
      if from <= to <= |ids| {
        r := Some(ids[from..to]);
      } else {
        r := None;
      }
    }
  }
}
