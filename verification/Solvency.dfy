/**
 * Custody accounting over whole runs: what the contract holds in each token is what it owes to open escrows,
 * no token is created or destroyed, and every payout and refund is covered.
 */
module Solvency {
  import opened Prelude
  import opened ByteStrings
  import opened Escrow
  import opened Custody
  import opened ContractRuns

  // ----- what is owed -----

  /** What the contract owes on one escrow in one token. */
  function Due(e: CoreFlowEscrow, token: Address): int {
    if Closed(e) then 0 else TokenSum(e.payments, token)
  }

  /** What it owes on escrows 1..n. */
  function Owed(escrows: map<nat, CoreFlowEscrow>, n: nat, token: Address): int {
    if n == 0 then 0
    else Owed(escrows, n - 1, token) + if n in escrows then Due(escrows[n], token) else 0
  }

  lemma {:induction false} OwedPut(escrows: map<nat, CoreFlowEscrow>, n: nat, id: nat, e: CoreFlowEscrow, token: Address)
    ensures Owed(escrows[id := e], n, token) ==
            Owed(escrows, n, token)
            + if 1 <= id <= n then Due(e, token) - (if id in escrows then Due(escrows[id], token) else 0) else 0
  {
    if n > 0 {
      OwedPut(escrows, n - 1, id, e, token);
    }
  }

  /** The sum of the rows in `token` payable to `worker`. */
  function PayeeSum(rows: Rows, token: Address, worker: Address): int {
    if rows == [] then 0
    else
      var p := rows[|rows| - 1];
      PayeeSum(rows[..|rows| - 1], token, worker) + if p.token == token && p.worker == worker then p.amount else 0
  }

  lemma {:induction false} PayeeSumBounds(rows: Rows, token: Address, worker: Address)
    requires Positive(rows)
    ensures 0 <= PayeeSum(rows, token, worker) <= TokenSum(rows, token)
  {
    if rows != [] {
      PayeeSumBounds(rows[..|rows| - 1], token, worker);
    }
  }

  /** A settlement debits custody by each token's whole sum and credits each worker with exactly that worker's rows. */
  lemma {:induction false} PayRowsBalance(bal: Balances, inv: Invocation, from: Address, rows: Rows, token: Address, holder: Address)
    requires PayRows(bal, inv, from, rows).Some?
    ensures Bal(PayRows(bal, inv, from, rows).value, token, holder) ==
            Bal(bal, token, holder) - (if holder == from then TokenSum(rows, token) else 0) + PayeeSum(rows, token, holder)
  {
    if rows != [] {
      var front, p := rows[..|rows| - 1], rows[|rows| - 1];
      PayRowsBalance(bal, inv, from, front, token, holder);
      TransferBalance(PayRows(bal, inv, from, front).value, inv, p.token, from, p.worker, p.amount, token, holder);
    }
  }

  // ----- solvency -----

  /** Tokens a step leaves with the contract on nobody's account: gifts from outside, and rows whose payee is the contract. */
  function Gift(h: Host, s: Chain, st: Step, token: Address): int {
    if !Do(h, s, st).0 then 0
    else match st.call
      case TokenCall(t, from, to, amount) => if t == token && to == h.contract then amount else 0
      case PayCall(id) => if id in s.escrows then PayeeSum(s.escrows[id].payments, token, h.contract) else 0
      case _ => 0
  }

  function Gifts(h: Host, s: Chain, tr: Trace, token: Address): int {
    if tr == [] then 0
    else Gifts(h, s, tr[..|tr| - 1], token) + Gift(h, Run(h, s, tr[..|tr| - 1]), tr[|tr| - 1], token)
  }

  /** Held less owed: the amount no escrow has a claim on. */
  function Surplus(h: Host, s: Chain, token: Address): int {
    Bal(s.balances, token, h.contract) - Owed(s.escrows, s.escrowCount, token)
  }

  lemma GoodIsPositive(e: CoreFlowEscrow)
    requires GoodEscrow(e)
    ensures Positive(e.payments)
  {
    forall i | 0 <= i < |e.payments| ensures e.payments[i].amount > 0 { assert GoodRow(e.payments[i]); }
  }

  lemma CreateKeepsSurplus(h: Host, inv: Invocation, s: Chain, eff: Effect, token: Address)
    requires Structured(h, s) && Creates(h, inv, s, eff) && eff.escrow.manager != h.contract && GoodEscrow(eff.escrow) && !Closed(eff.escrow)
    ensures Surplus(h, Commit(s, Ok(eff)), token) == Surplus(h, s, token)
  {
    GoodIsPositive(eff.escrow);
    ShiftBalance(s.balances, eff.escrow.payments, eff.escrow.manager, h.contract, token, h.contract);
    OwedPut(s.escrows, s.escrowCount, eff.id, eff.escrow, token);
  }

  lemma AdvanceKeepsSurplus(h: Host, s: Chain, eff: Effect, token: Address)
    requires Structured(h, s) && Advances(s, eff)
    ensures Surplus(h, Commit(s, Ok(eff)), token) == Surplus(h, s, token)
  {
    SameTermsSums(s.escrows[eff.id].payments, eff.escrow.payments);
    OwedPut(s.escrows, s.escrowCount, eff.id, eff.escrow, token);
  }

  lemma SettleKeepsSurplus(h: Host, inv: Invocation, s: Chain, eff: Effect, token: Address)
    requires Structured(h, s) && Settles(h, inv, s, eff)
    ensures Surplus(h, Commit(s, Ok(eff)), token) ==
            Surplus(h, s, token) + PayeeSum(s.escrows[eff.id].payments, token, h.contract)
  {
    PayRowsBalance(s.balances, inv, h.contract, s.escrows[eff.id].payments, token, h.contract);
    assert Closed(eff.escrow);
    OwedPut(s.escrows, s.escrowCount, eff.id, eff.escrow, token);
  }

  lemma RefundKeepsSurplus(h: Host, inv: Invocation, s: Chain, eff: Effect, token: Address)
    requires Structured(h, s) && Refunds(h, inv, s, eff)
    ensures Surplus(h, Commit(s, Ok(eff)), token) == Surplus(h, s, token)
  {
    var e := s.escrows[eff.id];
    GoodIsPositive(e);
    ShiftBalance(s.balances, e.payments, h.contract, e.manager, token, h.contract);
    OwedPut(s.escrows, s.escrowCount, eff.id, eff.escrow, token);
  }

  lemma StepSurplus(h: Host, s: Chain, st: Step, token: Address)
    requires Structured(h, s) && Outside(h, st) && EntersUnpaid(st)
    ensures Surplus(h, Do(h, s, st).1, token) == Surplus(h, s, token) + Gift(h, s, st, token)
  {
    if st.call.OnEscrow() {
      OnEscrowStep(h, s, st);
      if EffectOf(h, s, st).Ok? {
        EffectGood(h, s, st);
        FourKinds(h, s, st);
        var eff := EffectOf(h, s, st).value;
        hide EffectOf, Do;
        match st.call {
          case InitializeCall(m, f, key, rows) => CreateKeepsSurplus(h, st.inv, s, eff, token);
          case PayCall(_) => SettleKeepsSurplus(h, st.inv, s, eff, token);
          case CancelCall(_) => RefundKeepsSurplus(h, st.inv, s, eff, token);
          case _ => AdvanceKeepsSurplus(h, s, eff, token);
        }
      }
    } else {
      OtherCallsKeep(h, s, st);
      TokenCallSurplus(h, s, st, token);
    }
  }

  lemma TokenCallSurplus(h: Host, s: Chain, st: Step, token: Address)
    requires !st.call.OnEscrow() && Outside(h, st)
    ensures Surplus(h, Do(h, s, st).1, token) == Surplus(h, s, token) + Gift(h, s, st, token)
  {
    hide EffectOf, Commit;
    OtherCallsKeep(h, s, st);
    if st.call.TokenCall? && Do(h, s, st).0 {
      var c := st.call;
      TransferBalance(s.balances, st.inv, c.token, c.from, c.to, c.amount, token, h.contract);
    }
    if st.call.AdminCall? {
      hide Administer;
    }
  }

  /**
   * Over any run on any number of escrows, the contract's balance in each token is its opening balance, plus the
   * rows of every escrow neither settled nor cancelled, plus what was given to it: never less.
   */
  lemma {:induction false} Solvent(h: Host, bal: Balances, tr: Trace, token: Address)
    requires Admissible(h, tr)
    ensures
      var s := Run(h, Genesis(bal), tr);
      Bal(s.balances, token, h.contract) ==
        Bal(bal, token, h.contract) + Owed(s.escrows, s.escrowCount, token) + Gifts(h, Genesis(bal), tr, token)
    ensures Gifts(h, Genesis(bal), tr, token) >= 0
  {
    if tr != [] {
      var s0, front, last := Genesis(bal), tr[..|tr| - 1], tr[|tr| - 1];
      Solvent(h, bal, front, token);
      RunStructured(h, bal, front);
      StepSurplus(h, Run(h, s0, front), last, token);
      GiftNotNegative(h, Run(h, s0, front), last, token);
    }
  }

  lemma GiftNotNegative(h: Host, s: Chain, st: Step, token: Address)
    requires Structured(h, s)
    ensures Gift(h, s, st, token) >= 0
  {
    hide EffectOf, Commit, Administer;
    if st.call.PayCall? && st.call.id in s.escrows {
      GoodIsPositive(s.escrows[st.call.id]);
      PayeeSumBounds(s.escrows[st.call.id].payments, token, h.contract);
    }
  }

  // ----- conservation -----

  /** A duplicate-free list of holders. */
  predicate Distinct(holders: seq<Address>) {
    forall i, j :: 0 <= i < j < |holders| ==> holders[i] != holders[j]
  }

  function Supply(bal: Balances, token: Address, holders: seq<Address>): int {
    if holders == [] then 0 else Bal(bal, token, holders[0]) + Supply(bal, token, holders[1..])
  }

  /** Everyone who has an entry in `bal` is listed. */
  ghost predicate Lists(holders: seq<Address>, bal: Balances) {
    forall t, a :: (t, a) in bal ==> a in holders
  }

  lemma {:induction false} SupplyChange(b: Balances, b': Balances, token: Address, holders: seq<Address>, who: Address, delta: int)
    requires Distinct(holders)
    requires forall a :: a in holders ==> Bal(b', token, a) == Bal(b, token, a) + if a == who then delta else 0
    ensures Supply(b', token, holders) == Supply(b, token, holders) + if who in holders then delta else 0
  {
    if holders != [] {
      assert Distinct(holders[1..]);
      SupplyChange(b, b', token, holders[1..], who, delta);
    }
  }

  /** Moving an amount between two listed holders keeps the supply. */
  lemma SupplyMoved(b: Balances, b': Balances, token: Address, holders: seq<Address>, from: Address, to: Address, amount: int)
    requires Distinct(holders) && from in holders && to in holders
    requires forall a :: Bal(b', token, a) == Bal(b, token, a) - (if a == from then amount else 0) + (if a == to then amount else 0)
    ensures Supply(b', token, holders) == Supply(b, token, holders)
  {
    var mid := b[(token, from) := Bal(b, token, from) - amount];
    SupplyChange(b, mid, token, holders, from, -amount);
    SupplyChange(mid, b', token, holders, to, amount);
  }

  lemma TransferSupply(bal: Balances, inv: Invocation, t: Address, from: Address, to: Address, amount: int, token: Address, holders: seq<Address>)
    requires Distinct(holders) && Transfer(bal, inv, t, from, to, amount).Some?
    requires Lists(holders, Transfer(bal, inv, t, from, to, amount).value)
    ensures Lists(holders, bal)
    ensures Supply(Transfer(bal, inv, t, from, to, amount).value, token, holders) == Supply(bal, token, holders)
  {
    var b := Transfer(bal, inv, t, from, to, amount).value;
    forall u, a
      ensures (u, a) in b <==> (u, a) in bal || (u == t && (a == from || a == to))
      ensures Bal(b, u, a) == Bal(bal, u, a) - (if u == t && a == from then amount else 0) + (if u == t && a == to then amount else 0)
    {
      TransferBalance(bal, inv, t, from, to, amount, u, a);
    }
    assert (t, from) in b && (t, to) in b;
    SupplyMoved(bal, b, token, holders, from, to, if token == t then amount else 0);
  }

  lemma {:induction false} PayRowsSupply(bal: Balances, inv: Invocation, from: Address, rows: Rows, token: Address, holders: seq<Address>)
    requires Distinct(holders) && PayRows(bal, inv, from, rows).Some?
    requires Lists(holders, PayRows(bal, inv, from, rows).value)
    ensures Lists(holders, bal)
    ensures Supply(PayRows(bal, inv, from, rows).value, token, holders) == Supply(bal, token, holders)
  {
    if rows != [] {
      var p := rows[|rows| - 1];
      TransferSupply(PayRows(bal, inv, from, rows[..|rows| - 1]).value, inv, p.token, from, p.worker, p.amount, token, holders);
      PayRowsSupply(bal, inv, from, rows[..|rows| - 1], token, holders);
    }
  }

  lemma ShiftSupply(bal: Balances, rows: Rows, from: Address, to: Address, token: Address, holders: seq<Address>)
    requires from != to && Positive(rows) && rows != [] && Distinct(holders) && Lists(holders, Shift(bal, rows, from, to))
    ensures Lists(holders, bal)
    ensures Supply(Shift(bal, rows, from, to), token, holders) == Supply(bal, token, holders)
  {
    var b := Shift(bal, rows, from, to);
    var t := rows[0].token;
    assert t in Tokens(rows);
    assert (t, from) in b && (t, to) in b;
    forall u, a | (u, a) in bal
      ensures a in holders
    {
      assert (u, a) in b;
    }
    forall a
      ensures Bal(b, token, a) == Bal(bal, token, a) - (if a == from then TokenSum(rows, token) else 0) + (if a == to then TokenSum(rows, token) else 0)
    {
      ShiftBalance(bal, rows, from, to, token, a);
    }
    SupplyMoved(bal, b, token, holders, from, to, TokenSum(rows, token));
  }

  lemma StepSupply(h: Host, s: Chain, st: Step, token: Address, holders: seq<Address>)
    requires Structured(h, s) && Outside(h, st) && EntersUnpaid(st)
    requires Distinct(holders) && Lists(holders, Do(h, s, st).1.balances)
    ensures Lists(holders, s.balances)
    ensures Supply(Do(h, s, st).1.balances, token, holders) == Supply(s.balances, token, holders)
  {
    if st.call.OnEscrow() {
      OnEscrowStep(h, s, st);
      if EffectOf(h, s, st).Ok? {
        EffectGood(h, s, st);
        FourKinds(h, s, st);
        var eff := EffectOf(h, s, st).value;
        hide EffectOf, Do;
        match st.call {
          case InitializeCall(m, f, key, rows) =>
            GoodIsPositive(eff.escrow);
            ShiftSupply(s.balances, rows, m, h.contract, token, holders);
          case PayCall(_) => PayRowsSupply(s.balances, st.inv, h.contract, s.escrows[eff.id].payments, token, holders);
          case CancelCall(_) =>
            var e := s.escrows[eff.id];
            GoodIsPositive(e);
            ShiftSupply(s.balances, e.payments, h.contract, e.manager, token, holders);
          case _ =>
        }
      }
    } else {
      OtherCallsKeep(h, s, st);
      TokenCallSupply(h, s, st, token, holders);
    }
  }

  lemma TokenCallSupply(h: Host, s: Chain, st: Step, token: Address, holders: seq<Address>)
    requires !st.call.OnEscrow()
    requires Distinct(holders) && Lists(holders, Do(h, s, st).1.balances)
    ensures Lists(holders, s.balances)
    ensures Supply(Do(h, s, st).1.balances, token, holders) == Supply(s.balances, token, holders)
  {
    hide EffectOf, Commit;
    OtherCallsKeep(h, s, st);
    if st.call.TokenCall? && Do(h, s, st).0 {
      var c := st.call;
      TransferSupply(s.balances, st.inv, c.token, c.from, c.to, c.amount, token, holders);
    } else {
      hide Administer;
    }
  }

  /** No run creates or destroys a token: over everyone who ever held it, the sum never changes. */
  lemma {:induction false} SupplyConserved(h: Host, bal: Balances, tr: Trace, token: Address, holders: seq<Address>)
    requires Admissible(h, tr) && Distinct(holders) && Lists(holders, Run(h, Genesis(bal), tr).balances)
    ensures Lists(holders, bal)
    ensures Supply(Run(h, Genesis(bal), tr).balances, token, holders) == Supply(bal, token, holders)
  {
    if tr != [] {
      var front := tr[..|tr| - 1];
      RunStructured(h, bal, front);
      StepSupply(h, Run(h, Genesis(bal), front), tr[|tr| - 1], token, holders);
      SupplyConserved(h, bal, front, token, holders);
    }
  }

  // ----- every payout and refund is covered -----

  ghost predicate NonNegative(bal: Balances) {
    forall t, a :: Bal(bal, t, a) >= 0
  }

  lemma {:induction false} PayRowsNonNegative(bal: Balances, inv: Invocation, from: Address, rows: Rows)
    requires NonNegative(bal) && PayRows(bal, inv, from, rows).Some?
    ensures NonNegative(PayRows(bal, inv, from, rows).value)
  {
    if rows != [] {
      PayRowsNonNegative(bal, inv, from, rows[..|rows| - 1]);
      var b, p := PayRows(bal, inv, from, rows[..|rows| - 1]).value, rows[|rows| - 1];
      forall t, a ensures Bal(Transfer(b, inv, p.token, from, p.worker, p.amount).value, t, a) >= 0 {
        TransferBalance(b, inv, p.token, from, p.worker, p.amount, t, a);
      }
    }
  }

  lemma ShiftNonNegative(bal: Balances, inv: Invocation, rows: Rows, from: Address, to: Address)
    requires NonNegative(bal) && from != to && Positive(rows) && ShiftAllowed(bal, inv, rows, from, to)
    ensures NonNegative(Shift(bal, rows, from, to))
  {
    forall t, a ensures Bal(Shift(bal, rows, from, to), t, a) >= 0 {
      ShiftBalance(bal, rows, from, to, t, a);
      TokenSumBounds(rows, t);
      if t in Tokens(rows) {
        assert TokenMoves(bal, inv, rows, t, from, to);
      }
    }
  }

  lemma StepNonNegative(h: Host, s: Chain, st: Step)
    requires Structured(h, s) && Outside(h, st) && EntersUnpaid(st) && NonNegative(s.balances)
    ensures NonNegative(Do(h, s, st).1.balances)
  {
    if st.call.OnEscrow() {
      OnEscrowStep(h, s, st);
      if EffectOf(h, s, st).Ok? {
        EffectGood(h, s, st);
        FourKinds(h, s, st);
        var eff := EffectOf(h, s, st).value;
        hide EffectOf, Do;
        match st.call {
          case InitializeCall(m, f, key, rows) =>
            GoodIsPositive(eff.escrow);
            ShiftNonNegative(s.balances, st.inv, rows, m, h.contract);
          case PayCall(_) => PayRowsNonNegative(s.balances, st.inv, h.contract, s.escrows[eff.id].payments);
          case CancelCall(_) =>
            var e := s.escrows[eff.id];
            GoodIsPositive(e);
            ShiftNonNegative(s.balances, st.inv, e.payments, h.contract, e.manager);
          case _ =>
        }
      }
    } else {
      hide EffectOf, Commit;
      OtherCallsKeep(h, s, st);
      if st.call.TokenCall? && Do(h, s, st).0 {
        var c, b := st.call, Do(h, s, st).1.balances;
        forall t, a ensures Bal(b, t, a) >= 0 {
          TransferBalance(s.balances, st.inv, c.token, c.from, c.to, c.amount, t, a);
        }
      }
    }
  }

  lemma {:induction false} RunNonNegative(h: Host, bal: Balances, tr: Trace)
    requires Admissible(h, tr) && NonNegative(bal)
    ensures NonNegative(Run(h, Genesis(bal), tr).balances)
  {
    if tr != [] {
      RunStructured(h, bal, tr[..|tr| - 1]);
      RunNonNegative(h, bal, tr[..|tr| - 1]);
      StepNonNegative(h, Run(h, Genesis(bal), tr[..|tr| - 1]), tr[|tr| - 1]);
    }
  }

  /** With no negative balance, two holders together have at most the supply. */
  lemma {:induction false} PairWithinSupply(bal: Balances, token: Address, holders: seq<Address>, a: Address, b: Address)
    requires NonNegative(bal) && Distinct(holders) && a != b
    requires (a in holders || Bal(bal, token, a) == 0) && (b in holders || Bal(bal, token, b) == 0)
    ensures Bal(bal, token, a) + Bal(bal, token, b) <= Supply(bal, token, holders)
  {
    if holders != [] {
      assert Distinct(holders[1..]) && holders[0] !in holders[1..];
      if holders[0] == a {
        OneWithinSupply(bal, token, holders[1..], b);
      } else if holders[0] == b {
        OneWithinSupply(bal, token, holders[1..], a);
      } else {
        PairWithinSupply(bal, token, holders[1..], a, b);
      }
    }
  }

  lemma {:induction false} OneWithinSupply(bal: Balances, token: Address, holders: seq<Address>, a: Address)
    requires NonNegative(bal) && (a in holders || Bal(bal, token, a) == 0)
    ensures 0 <= Bal(bal, token, a) <= Supply(bal, token, holders)
  {
    if holders != [] {
      if holders[0] == a {
        SupplyNonNegative(bal, token, holders[1..]);
      } else {
        OneWithinSupply(bal, token, holders[1..], a);
      }
    }
  }

  lemma {:induction false} SupplyNonNegative(bal: Balances, token: Address, holders: seq<Address>)
    requires NonNegative(bal)
    ensures Supply(bal, token, holders) >= 0
  {
    if holders != [] {
      SupplyNonNegative(bal, token, holders[1..]);
    }
  }

  /** Every token's supply fits the token contract's own i128 balances. */
  ghost predicate SupplyFits(bal: Balances, holders: seq<Address>) {
    Distinct(holders) && Lists(holders, bal) && forall t :: Supply(bal, t, holders) < I128_LIMIT
  }

  lemma {:induction false} OwedNotNegative(h: Host, s: Chain, n: nat, token: Address)
    requires Structured(h, s)
    ensures Owed(s.escrows, n, token) >= 0
    ensures forall id :: 1 <= id <= n && id in s.escrows ==> Due(s.escrows[id], token) <= Owed(s.escrows, n, token)
  {
    if n > 0 {
      OwedNotNegative(h, s, n - 1, token);
      if n in s.escrows {
        GoodIsPositive(s.escrows[n]);
        TokenSumBounds(s.escrows[n].payments, token);
      }
    }
  }

  /** In every reachable state the contract can cover all rows of any one open escrow. */
  lemma CustodyCovers(h: Host, bal: Balances, tr: Trace, id: nat, token: Address)
    requires Admissible(h, tr) && NonNegative(bal)
    requires var s := Run(h, Genesis(bal), tr); id in s.escrows && !Closed(s.escrows[id])
    ensures
      var s := Run(h, Genesis(bal), tr);
      TokenSum(s.escrows[id].payments, token) <= Bal(s.balances, token, h.contract)
  {
    hide Do, Run;
    RunStructured(h, bal, tr);
    Solvent(h, bal, tr, token);
    var s := Run(h, Genesis(bal), tr);
    OwedNotNegative(h, s, s.escrowCount, token);
    assert Bal(bal, token, h.contract) >= 0;
    assert Due(s.escrows[id], token) <= Owed(s.escrows, s.escrowCount, token);
  }

  /** A transfer within a bounded supply fails only for want of balance or because it is refused. */
  lemma TransferSucceeds(bal: Balances, inv: Invocation, t: Address, from: Address, to: Address, amount: int, holders: seq<Address>)
    requires NonNegative(bal) && SupplyFits(bal, holders)
    ensures Transfer(bal, inv, t, from, to, amount).Some? <==>
            0 <= amount <= Bal(bal, t, from) && (t, from, to) !in inv.refused
  {
    OneWithinSupply(bal, t, holders, from);
    if from != to {
      PairWithinSupply(bal, t, holders, from, to);
    }
  }

  ghost predicate NoneRefused(inv: Invocation, rows: Rows, from: Address) {
    forall i :: 0 <= i < |rows| ==> (rows[i].token, from, rows[i].worker) !in inv.refused
  }

  /** The balances part-way through a settlement: nothing lost, nothing negative, and the rest still covered. */
  lemma {:induction false} PayRowsSucceeds(bal: Balances, inv: Invocation, from: Address, rows: Rows, n: nat, holders: seq<Address>)
    requires n <= |rows| && Positive(rows) && NonNegative(bal) && SupplyFits(bal, holders)
    requires forall i :: 0 <= i < |rows| ==> rows[i].worker in holders
    requires from in holders
    requires forall t :: TokenSum(rows, t) <= Bal(bal, t, from)
    ensures PayRows(bal, inv, from, rows[..n]).Some? <==> NoneRefused(inv, rows[..n], from)
    ensures PayRows(bal, inv, from, rows[..n]).Some? ==>
      var b := PayRows(bal, inv, from, rows[..n]).value;
      NonNegative(b) && SupplyFits(b, holders)
  {
    if n == 0 {
      assert rows[..n] == [];
    } else {
      var front, p := rows[..n - 1], rows[n - 1];
      assert rows[..n][..n - 1] == front;
      PayRowsSucceeds(bal, inv, from, rows, n - 1, holders);
      RefusalSnoc(inv, rows, n, from);
      if PayRows(bal, inv, from, front).Some? {
        var b := PayRows(bal, inv, from, front).value;
        PayRowsBalance(bal, inv, from, front, p.token, from);
        PrefixPositive(rows, n - 1);
        PayeeSumBounds(front, p.token, from);
        PrefixSums(rows, n, p.token);
        assert p.amount <= Bal(b, p.token, from);
        TransferSucceeds(b, inv, p.token, from, p.worker, p.amount, holders);
        if Transfer(b, inv, p.token, from, p.worker, p.amount).Some? {
          PaidOneMore(b, inv, from, p, holders);
        }
      }
    }
  }

  lemma PrefixPositive(rows: Rows, n: nat)
    requires n <= |rows| && Positive(rows)
    ensures Positive(rows[..n])
  {
  }

  lemma RefusalSnoc(inv: Invocation, rows: Rows, n: nat, from: Address)
    requires 0 < n <= |rows|
    ensures NoneRefused(inv, rows[..n], from) <==>
            NoneRefused(inv, rows[..n - 1], from) && (rows[n - 1].token, from, rows[n - 1].worker) !in inv.refused
  {
    assert rows[..n][..n - 1] == rows[..n - 1] && rows[..n][n - 1] == rows[n - 1];
    if NoneRefused(inv, rows[..n - 1], from) && (rows[n - 1].token, from, rows[n - 1].worker) !in inv.refused {
      forall i | 0 <= i < n
        ensures (rows[..n][i].token, from, rows[..n][i].worker) !in inv.refused
      {
        if i < n - 1 {
          assert rows[..n - 1][i] == rows[..n][i];
        }
      }
    }
    if NoneRefused(inv, rows[..n], from) {
      var front := rows[..n - 1];
      forall i | 0 <= i < |front|
        ensures (front[i].token, from, front[i].worker) !in inv.refused
      {
        assert rows[..n][i] == front[i];
      }
    }
  }

  lemma PaidOneMore(b: Balances, inv: Invocation, from: Address, p: PaymentSchedule, holders: seq<Address>)
    requires NonNegative(b) && SupplyFits(b, holders) && from in holders && p.worker in holders
    requires Transfer(b, inv, p.token, from, p.worker, p.amount).Some?
    ensures
      var b' := Transfer(b, inv, p.token, from, p.worker, p.amount).value;
      NonNegative(b') && SupplyFits(b', holders)
  {
    var b' := Transfer(b, inv, p.token, from, p.worker, p.amount).value;
    forall t, a
      ensures Bal(b', t, a) >= 0
      ensures (t, a) in b' ==> a in holders
    {
      TransferBalance(b, inv, p.token, from, p.worker, p.amount, t, a);
    }
    forall t ensures Supply(b', t, holders) < I128_LIMIT {
      TransferSupply(b, inv, p.token, from, p.worker, p.amount, t, holders);
    }
  }

  /**
   * Settlement in any reachable state, exactly: it goes through if and only if the contract is not paused, the
   * escrow is open and doubly approved, every row is proven and unpaid, the manager signs and no payee's token
   * refuses. Want of custody and overflow never stop it.
   */
  lemma SettlementExactly(h: Host, bal: Balances, tr: Trace, inv: Invocation, id: nat, holders: seq<Address>)
    requires Admissible(h, tr) && NonNegative(bal) && id in Run(h, Genesis(bal), tr).escrows
    requires SupplyFits(Run(h, Genesis(bal), tr).balances, holders) && h.contract in holders
    requires forall p :: p in Run(h, Genesis(bal), tr).escrows[id].payments ==> p.worker in holders
    ensures
      var s := Run(h, Genesis(bal), tr);
      var e := s.escrows[id];
      PayBatch(h, inv, s, id).Ok? <==>
        && !s.paused && !e.cancelled && e.manager in inv.auth && e.managerApproved && e.financeApproved
        && (forall i :: 0 <= i < |e.payments| ==> e.payments[i].status != Finalized && e.payments[i].proofVerified)
        && NoneRefused(inv, e.payments, h.contract)
  {
    hide Do, Run;
    RunStructured(h, bal, tr);
    RunNonNegative(h, bal, tr);
    var s := Run(h, Genesis(bal), tr);
    var e := s.escrows[id];
    assert GoodEscrow(e);
    GoodIsPositive(e);
    PayGuardNeverTraps(e.payments);
    if PayGuard(e.payments).Ok? && !e.cancelled {
      NotAllFinalized(e.payments, 0);
      forall t ensures TokenSum(e.payments, t) <= Bal(s.balances, t, h.contract) {
        CustodyCovers(h, bal, tr, id, t);
      }
      PayRowsSucceeds(s.balances, inv, h.contract, e.payments, |e.payments|, holders);
      assert e.payments[..|e.payments|] == e.payments;
      TokenSumBounds(e.payments, e.payments[0].token);
    }
  }

  lemma ShiftExactly(bal: Balances, inv: Invocation, rows: Rows, from: Address, to: Address, holders: seq<Address>)
    requires NonNegative(bal) && SupplyFits(bal, holders) && from != to && Positive(rows)
    ensures ShiftAllowed(bal, inv, rows, from, to) <==>
            forall t :: t in Tokens(rows) ==> (t, from, to) !in inv.refused && TokenSum(rows, t) <= Bal(bal, t, from)
  {
    forall t ensures Bal(bal, t, from) + Bal(bal, t, to) < I128_LIMIT {
      PairWithinSupply(bal, t, holders, from, to);
    }
    if forall t :: t in Tokens(rows) ==> (t, from, to) !in inv.refused && TokenSum(rows, t) <= Bal(bal, t, from) {
      forall t | t in Tokens(rows) ensures TokenMoves(bal, inv, rows, t, from, to) {
        assert Bal(bal, t, from) + Bal(bal, t, to) < I128_LIMIT;
      }
    } else {
      var t :| t in Tokens(rows) && !((t, from, to) !in inv.refused && TokenSum(rows, t) <= Bal(bal, t, from));
      assert !TokenMoves(bal, inv, rows, t, from, to);
    }
  }

  /** Cancellation in any reachable state, exactly: pausing does not stop it, and want of custody never does. */
  lemma CancellationExactly(h: Host, bal: Balances, tr: Trace, inv: Invocation, id: nat, holders: seq<Address>)
    requires Admissible(h, tr) && NonNegative(bal) && id in Run(h, Genesis(bal), tr).escrows
    requires SupplyFits(Run(h, Genesis(bal), tr).balances, holders)
    ensures
      var s := Run(h, Genesis(bal), tr);
      var e := s.escrows[id];
      CancelEscrow(h, inv, s, id).Ok? <==>
        && !e.cancelled && e.manager in inv.auth && !AnyFinalized(e.payments)
        && (forall t :: t in Tokens(e.payments) ==> (t, h.contract, e.manager) !in inv.refused)
  {
    hide Do, Run;
    RunStructured(h, bal, tr);
    RunNonNegative(h, bal, tr);
    var s := Run(h, Genesis(bal), tr);
    var e := s.escrows[id];
    assert GoodEscrow(e);
    GoodIsPositive(e);
    ShiftExactly(s.balances, inv, e.payments, h.contract, e.manager, holders);
    if !e.cancelled && !AnyFinalized(e.payments) {
      assert e.payments[0].status != Finalized;
      NotAllFinalized(e.payments, 0);
      forall t ensures TokenSum(e.payments, t) <= Bal(s.balances, t, h.contract) {
        CustodyCovers(h, bal, tr, id, t);
      }
    }
  }

  // ----- what goes in comes out -----

  /** The escrow a successful creation left, as later steps find it. */
  lemma CreatedThen(h: Host, bal: Balances, tr: Trace, i: nat, j: nat)
    requires Admissible(h, tr) && i < j < |tr| && tr[i].call.InitializeCall? && Succeeds(h, Genesis(bal), tr, i)
    ensures
      var si, sj := Run(h, Genesis(bal), tr[..i]), Run(h, Genesis(bal), tr[..j]);
      var id := si.escrowCount + 1;
      && Structured(h, si) && Structured(h, sj) && id in sj.escrows
      && sj.escrows[id].manager == tr[i].call.manager && sj.escrows[id].financeApprover == tr[i].call.finance
      && SameTerms(tr[i].call.rows, sj.escrows[id].payments)
      && Creates(h, tr[i].inv, si, EffectOf(h, si, tr[i]).value)
      && Run(h, Genesis(bal), tr[..i + 1]).balances == Shift(si.balances, tr[i].call.rows, tr[i].call.manager, h.contract)
  {
    hide EffectOf, Do, Run;
    var s0 := Genesis(bal);
    var si, si' := Run(h, s0, tr[..i]), Run(h, s0, tr[..i + 1]);
    RunStructured(h, bal, tr[..i]);
    RunStructured(h, bal, tr[..i + 1]);
    RunExtend(h, s0, tr, i);
    OnEscrowStep(h, si, tr[i]);
    FourKinds(h, si, tr[i]);
    assert tr[..j] == tr[..i + 1] + tr[i + 1..j];
    RunSplit(h, s0, tr[..i + 1], tr[i + 1..j]);
    TermsAreImmutable(h, si', tr[i + 1..j], si.escrowCount + 1);
  }

  /**
   * Creation and cancellation undo each other, whatever runs between them: in every token, cancelling returns to
   * the manager exactly what creating the escrow took.
   */
  lemma CancelRestores(h: Host, bal: Balances, tr: Trace, i: nat, j: nat, token: Address)
    requires Admissible(h, tr) && i < j < |tr| && tr[i].call.InitializeCall? && Succeeds(h, Genesis(bal), tr, i)
    requires tr[j].call == CancelCall(Run(h, Genesis(bal), tr[..i]).escrowCount + 1) && Succeeds(h, Genesis(bal), tr, j)
    ensures
      var s0, m := Genesis(bal), tr[i].call.manager;
      var taken := TokenSum(tr[i].call.rows, token);
      && Bal(Run(h, s0, tr[..i + 1]).balances, token, m) == Bal(Run(h, s0, tr[..i]).balances, token, m) - taken
      && Bal(Run(h, s0, tr[..j + 1]).balances, token, m) == Bal(Run(h, s0, tr[..j]).balances, token, m) + taken
  {
    hide EffectOf, Do, Run;
    var s0 := Genesis(bal);
    CreatedThen(h, bal, tr, i, j);
    var si, sj := Run(h, s0, tr[..i]), Run(h, s0, tr[..j]);
    var id, m, rows := si.escrowCount + 1, tr[i].call.manager, tr[i].call.rows;
    var e := sj.escrows[id];
    RunExtend(h, s0, tr, j);
    RefundCredits(h, sj, tr[j], token);
    SameTermsSums(rows, e.payments);
    RowsPositive(rows, e.payments) by {
      assert GoodEscrow(e);
      GoodIsPositive(e);
    }
    CreationIsSigned(h, bal, tr, i);
    ShiftBalance(si.balances, rows, m, h.contract, token, m);
  }

  /** A creation carries its manager's signature, so its manager is not the contract. */
  lemma CreationIsSigned(h: Host, bal: Balances, tr: Trace, i: nat)
    requires Admissible(h, tr) && i < |tr| && tr[i].call.InitializeCall? && Succeeds(h, Genesis(bal), tr, i)
    ensures tr[i].call.manager in tr[i].inv.auth && tr[i].call.manager != h.contract
  {
    var si := Run(h, Genesis(bal), tr[..i]);
    RunStructured(h, bal, tr[..i]);
    hide Run;
    OnEscrowStep(h, si, tr[i]);
    FourKinds(h, si, tr[i]);
    hide EffectOf, Do;
    assert Outside(h, tr[i]);
  }

  lemma RefundCredits(h: Host, s: Chain, st: Step, token: Address)
    requires Structured(h, s) && st.call.CancelCall? && Do(h, s, st).0 && st.call.id in s.escrows
    ensures
      var e := s.escrows[st.call.id];
      Bal(Do(h, s, st).1.balances, token, e.manager) == Bal(s.balances, token, e.manager) + TokenSum(e.payments, token)
  {
    OnEscrowStep(h, s, st);
    FourKinds(h, s, st);
    hide EffectOf, Do;
    var e := s.escrows[st.call.id];
    assert GoodEscrow(e);
    GoodIsPositive(e);
    ShiftBalance(s.balances, e.payments, h.contract, e.manager, token, e.manager);
  }

  lemma RowsPositive(rows: Rows, rows': Rows)
    requires SameTerms(rows, rows') && Positive(rows')
    ensures Positive(rows)
  {
    forall i | 0 <= i < |rows| ensures rows[i].amount > 0 { assert TermsOf(rows'[i]) == TermsOf(rows[i]); }
  }

  lemma {:induction false} SameTermsPayees(rows: Rows, rows': Rows, token: Address, worker: Address)
    requires SameTerms(rows, rows')
    ensures PayeeSum(rows', token, worker) == PayeeSum(rows, token, worker)
  {
    if rows != [] {
      var n := |rows| - 1;
      assert TermsOf(rows'[n]) == TermsOf(rows[n]);
      forall i | 0 <= i < n ensures TermsOf(rows'[..n][i]) == TermsOf(rows[..n][i]) {
        assert TermsOf(rows'[i]) == TermsOf(rows[i]);
      }
      SameTermsPayees(rows[..n], rows'[..n], token, worker);
    }
  }

  /**
   * A settlement pays every holder other than the contract exactly the rows that named them when the escrow was
   * created, in each row's own token, and nothing else moves.
   */
  lemma SettlementPays(h: Host, bal: Balances, tr: Trace, i: nat, j: nat, token: Address, holder: Address)
    requires Admissible(h, tr) && i < j < |tr| && tr[i].call.InitializeCall? && Succeeds(h, Genesis(bal), tr, i)
    requires tr[j].call == PayCall(Run(h, Genesis(bal), tr[..i]).escrowCount + 1) && Succeeds(h, Genesis(bal), tr, j)
    ensures
      var s0 := Genesis(bal);
      Bal(Run(h, s0, tr[..j + 1]).balances, token, holder) ==
        Bal(Run(h, s0, tr[..j]).balances, token, holder)
        - (if holder == h.contract then TokenSum(tr[i].call.rows, token) else 0)
        + PayeeSum(tr[i].call.rows, token, holder)
  {
    hide EffectOf, Do, Run;
    var s0 := Genesis(bal);
    CreatedThen(h, bal, tr, i, j);
    var sj := Run(h, s0, tr[..j]);
    var e := sj.escrows[tr[j].call.id];
    RunExtend(h, s0, tr, j);
    OnEscrowStep(h, sj, tr[j]);
    FourKinds(h, sj, tr[j]);
    SameTermsSums(tr[i].call.rows, e.payments);
    SameTermsPayees(tr[i].call.rows, e.payments, token, holder);
    PayRowsBalance(sj.balances, tr[j].inv, h.contract, e.payments, token, holder);
  }
}
