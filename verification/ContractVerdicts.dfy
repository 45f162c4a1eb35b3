/**
 * Every answer of the contract's entry points after any run, in terms of that run: which calls were signed, which keys are
 * registered, how many proofs have been accepted. The first requirement that fails names the error.
 */
module ContractVerdicts {
  import opened Prelude
  import opened ByteStrings
  import opened OracleMessage
  import opened Escrow
  import opened CoreFlowContract
  import opened ContractRuns
  import opened SettlementGate
  import opened Solvency
  import opened Registry

  // ----- the rows of a creation -----

  /** What is wrong with a row, if anything. */
  function Fault(p: PaymentSchedule): Option<ContractError> {
    if !(p.amount > 0 && p.ratePerHour > 0) then Some(InvalidAmount)
    else if !(p.startDate < p.endDate) then Some(InvalidPeriod)
    else if p.amount % p.ratePerHour != 0 then Some(AmountHoursMismatch)
    else None
  }

  /** The rows before this one are sound and their total fits. */
  ghost predicate SoundUpTo(rows: Rows, k: nat) {
    k <= |rows| && (forall i :: 0 <= i < k ==> Fault(rows[i]) == None) && Total(rows[..k]) < I128_LIMIT
  }

  /** The first row that stops the creation, with what is wrong with it; none if the sum overflows there. */
  ghost predicate StopsAt(rows: Rows, k: nat, why: Option<ContractError>) {
    && k < |rows| && SoundUpTo(rows, k) && Fault(rows[k]) == why
    && (why == None ==> Total(rows[..k + 1]) >= I128_LIMIT)
  }

  ghost predicate Stops(rows: Rows, why: Option<ContractError>) {
    exists k: nat :: StopsAt(rows, k, why)
  }

  lemma StopsGrows(rows: Rows, why: Option<ContractError>)
    requires rows != []
    ensures
      var n := |rows| - 1;
      Stops(rows, why) <==> Stops(rows[..n], why) || StopsAt(rows, n, why)
  {
    var n := |rows| - 1;
    hide Fault;
    forall k: nat | k < n ensures StopsAt(rows, k, why) <==> StopsAt(rows[..n], k, why) {
      assert rows[..n][..k] == rows[..k] && rows[..n][..k + 1] == rows[..k + 1];
    }
    if Stops(rows[..n], why) {
      var k: nat :| StopsAt(rows[..n], k, why);
      assert StopsAt(rows, k, why);
    }
    if Stops(rows, why) {
      var k: nat :| StopsAt(rows, k, why);
      assert k < n ==> StopsAt(rows[..n], k, why);
    }
  }

  lemma SoundIsPositive(p: PaymentSchedule)
    requires Fault(p) == None
    ensures p.amount > 0
  {
  }

  lemma SoundGrows(rows: Rows)
    requires rows != []
    ensures
      var n := |rows| - 1;
      SoundUpTo(rows, |rows|) <==> SoundUpTo(rows[..n], n) && Fault(rows[n]) == None && Total(rows) < I128_LIMIT
  {
    var n := |rows| - 1;
    WholeTotal(rows);
    SoundPrefix(rows, n);
    hide Total, Fault;
    if SoundUpTo(rows, |rows|) {
      assert Fault(rows[n]) == None;
      SoundIsPositive(rows[n]);
      assert SoundUpTo(rows, n);
    }
  }

  lemma WholeTotal(rows: Rows)
    requires rows != []
    ensures Total(rows[..|rows|]) == Total(rows) == Total(rows[..|rows| - 1]) + rows[|rows| - 1].amount
  {
    assert rows[..|rows|] == rows;
  }

  lemma NoRowsStop(rows: Rows, why: Option<ContractError>)
    requires rows == []
    ensures !Stops(rows, why) && SoundUpTo(rows, 0)
  {
  }

  /** The row check: sound rows whose total fits pass; otherwise the first bad row says why, or the sum traps. */
  lemma {:induction false} RowsJudged(rows: Rows)
    ensures forall e :: CheckRows(rows) == Err(e) <==> Stops(rows, Some(e))
    ensures CheckRows(rows) == Trap <==> Stops(rows, None)
    ensures CheckRows(rows).Ok? <==> SoundUpTo(rows, |rows|)
    ensures CheckRows(rows).Ok? ==> CheckRows(rows).value == Total(rows)
    ensures CheckRows(rows).Err? ==> CheckRows(rows).error in {InvalidAmount, InvalidPeriod, AmountHoursMismatch}
  {
    if rows == [] {
      forall why ensures !Stops(rows, why) { NoRowsStop(rows, why); }
      NoRowsStop(rows, None);
    } else {
      var n := |rows| - 1;
      RowsJudged(rows[..n]);
      SoundGrows(rows);
      assert rows[..n + 1] == rows && rows[..n][..n] == rows[..n];
      forall why ensures Stops(rows, why) <==> Stops(rows[..n], why) || StopsAt(rows, n, why) {
        StopsGrows(rows, why);
      }
      SoundPrefix(rows, n);
      hide Stops, SoundUpTo;
      OneRowJudged(rows, n);
    }
  }

  lemma SoundPrefix(rows: Rows, n: nat)
    requires n < |rows|
    ensures SoundUpTo(rows, n) <==> SoundUpTo(rows[..n], n)
  {
    assert rows[..n][..n] == rows[..n];
  }

  lemma OneRowJudged(rows: Rows, n: nat)
    requires n < |rows| && rows[..n + 1] == rows
    ensures forall why :: StopsAt(rows, n, why) <==> SoundUpTo(rows, n) && Fault(rows[n]) == why && (why == None ==> Total(rows) >= I128_LIMIT)
    ensures
      var t := Total(rows[..n]);
      && (forall e :: CheckRow(rows[n], t) == Err(e) <==> Fault(rows[n]) == Some(e))
      && (CheckRow(rows[n], t) == Trap <==> Fault(rows[n]) == None && Total(rows) >= I128_LIMIT)
      && (CheckRow(rows[n], t).Ok? <==> Fault(rows[n]) == None && Total(rows) < I128_LIMIT)
      && (CheckRow(rows[n], t).Ok? ==> CheckRow(rows[n], t).value == Total(rows))
      && (CheckRow(rows[n], t).Err? ==> CheckRow(rows[n], t).error in {InvalidAmount, InvalidPeriod, AmountHoursMismatch})
  {
    assert Total(rows) == Total(rows[..n]) + rows[n].amount;
    hide Total, SoundUpTo;
  }

  // ----- creation -----

  /** The tokens move: none is refused, and the manager holds what the rows pay in each. */
  ghost predicate Affordable(inv: Invocation, bal: Balances, rows: Rows, from: Address, to: Address) {
    forall t :: t in Tokens(rows) ==> (t, from, to) !in inv.refused && TokenSum(rows, t) <= Bal(bal, t, from)
  }

  /**
   * Creating an escrow after any run: paused, unsigned, one person in both roles, no rows, too many, a key that is not
   * registered once there is an admin, a bad row, no room or no money stop it, in that order; nothing else does.
   */
  lemma CreationExactly(h: Host, bal: Balances, tr: Trace, inv: Invocation, m: Address, f: Address, key: Bytes, rows: Rows, holders: seq<Address>)
    requires Admissible(h, tr) && NonNegative(bal) && SupplyFits(Run(h, Genesis(bal), tr).balances, holders) && h.contract !in inv.auth
    ensures
      var s := Run(h, Genesis(bal), tr);
      var o := Initialize(h, inv, s, m, f, key, rows);
      var signed := !s.paused && m in inv.auth;
      var sized := signed && m != f && 0 < |rows| <= 100;
      var keyed := sized && (s.admin.Some? ==> Registered(h, Genesis(bal), tr, |tr|, key));
      && (o == Err(Paused) <==> s.paused)
      && (o == Err(SignersNotDistinct) <==> signed && m == f)
      && (o == Err(BatchTooLarge) <==> signed && m != f && |rows| > 100)
      && (o == Err(OracleKeyNotRegistered) <==> sized && s.admin.Some? && !Registered(h, Genesis(bal), tr, |tr|, key))
      && (o == Err(InvalidAmount) <==> (signed && m != f && rows == []) || (keyed && Stops(rows, Some(InvalidAmount))))
      && (o == Err(InvalidPeriod) <==> keyed && Stops(rows, Some(InvalidPeriod)))
      && (o == Err(AmountHoursMismatch) <==> keyed && Stops(rows, Some(AmountHoursMismatch)))
      && (o.Ok? <==> keyed && SoundUpTo(rows, |rows|) && s.escrowCount + 1 < U32_LIMIT && Affordable(inv, s.balances, rows, m, h.contract))
      && (o.Ok? ==>
            && o.value.id == s.escrowCount + 1 && o.value.nonce == Some(0)
            && o.value.escrow == CoreFlowEscrow(m, f, key, rows, false, false, false, 0))
  {
    hide Do, Run, Registered, Stops, SoundUpTo, CheckRows, Shift, ShiftAllowed, CreationEvents, SupplyFits, TokenSum, Tokens;
    var s := Run(h, Genesis(bal), tr);
    RunNonNegative(h, bal, tr);
    assert tr[..|tr|] == tr;
    RegistryExactly(h, bal, tr, |tr|, key);
    RowsJudged(rows);
    CheckRowsPasses(rows);
    if CheckRows(rows).Ok? && m in inv.auth {
      ShiftExactly(s.balances, inv, rows, m, h.contract, holders);
    }
  }

  // ----- rotation -----

  lemma RotationExactly(h: Host, bal: Balances, tr: Trace, inv: Invocation, id: nat, key: Bytes)
    requires Admissible(h, tr)
    ensures
      var s := Run(h, Genesis(bal), tr);
      var o := RotateOracleKey(inv, s, id, key);
      && (o == Err(Paused) <==> s.paused)
      && (o == Err(InvalidPaymentId) <==> !s.paused && id !in s.escrows)
      && (!s.paused && id in s.escrows ==>
            var e, known := s.escrows[id], s.admin.Some? ==> Registered(h, Genesis(bal), tr, |tr|, key);
            var signed := e.manager in inv.auth;
            && (o == Err(OracleKeyNotRegistered) <==> signed && !known)
            && (o == Err(EscrowCancelled) <==> signed && known && e.cancelled)
            && (o == Err(PaymentAlreadyFinalized) <==> signed && known && !e.cancelled && AnyFinalized(e.payments))
            && (o == Trap <==> !signed || (known && !e.cancelled && !AnyFinalized(e.payments) && e.oracleRotations + 1 >= U32_LIMIT))
            && (o.Ok? <==> signed && known && !e.cancelled && !AnyFinalized(e.payments) && e.oracleRotations + 1 < U32_LIMIT))
  {
    hide Do, Run, Registered, AnyFinalized;
    assert tr[..|tr|] == tr;
    RegistryExactly(h, bal, tr, |tr|, key);
  }

  // ----- proofs -----

  /** The signature is the escrow's oracle's, over this network, contract, payee, asset, slot, amount, hours, period and nonce. */
  predicate OracleSigned(h: Host, e: CoreFlowEscrow, id: u32, pid: u32, hours: i128, nonce: u64, sig: Bytes)
    requires pid < |e.payments|
  {
    var p := e.payments[pid];
    h.ed25519(e.oraclePubkey,
              ProofMessage(h.digest, WorkProof(h.networkId, h.contract, p.worker, p.token, id, pid, p.amount, hours, p.startDate, p.endDate, nonce)),
              sig)
  }

  /**
   * Submitting a proof after any run: accepted if and only if the escrow is open and unapproved, the hours earn exactly the
   * row's amount, the escrow's oracle signed exactly that, and the nonce is the number of proofs it has accepted.
   */
  lemma ProofExactly(h: Host, bal: Balances, tr: Trace, inv: Invocation, id: u32, pid: u32, hours: i128, nonce: u64, sig: Bytes)
    requires Admissible(h, tr)
    ensures
      var s := Run(h, Genesis(bal), tr);
      var o := SubmitHoursProof(h, inv, s, id, pid, hours, nonce, sig);
      && (o == Err(Paused) <==> s.paused)
      && (o == Err(InvalidPaymentId)
          <==> !s.paused && (id in s.escrows ==> !s.escrows[id].cancelled && !s.escrows[id].managerApproved && !s.escrows[id].financeApproved
                                                  && pid >= |s.escrows[id].payments|))
      && (!s.paused && id in s.escrows ==>
            var e := s.escrows[id];
            var approved := e.managerApproved || e.financeApproved;
            && (o == Err(EscrowCancelled) <==> e.cancelled)
            && (o == Err(AlreadyApproved) <==> !e.cancelled && approved)
            && (!e.cancelled && !approved && pid < |e.payments| ==>
                  var earned, amount := hours * e.payments[pid].ratePerHour, e.payments[pid].amount;
                  var fits, known := -I128_LIMIT <= earned < I128_LIMIT, |AcceptedNonces(h, Genesis(bal), tr, id)|;
                  var signed := OracleSigned(h, e, id, pid, hours, nonce, sig);
                  && (o == Err(InvalidAmount) <==> !fits)
                  && (o == Err(AmountHoursMismatch) <==> fits && earned != amount)
                  && (o == Trap <==> earned == amount && !signed)
                  && (o == Err(InvalidNonce) <==> earned == amount && signed && nonce != known)
                  && (o == Err(NonceOverflow) <==> earned == amount && signed && nonce == known && nonce == U64_LIMIT - 1)
                  && (o.Ok? <==> earned == amount && signed && nonce == known && nonce < U64_LIMIT - 1)))
  {
    hide Do, Run, ProofMessage, AcceptedNonces;
    var s := Run(h, Genesis(bal), tr);
    NoncesInOrder(h, bal, tr, id);
    RunStructured(h, bal, tr);
    if id in s.escrows {
      assert GoodEscrow(s.escrows[id]);
    }
  }

  // ----- approvals, settlement, cancellation: the refusals -----

  lemma ApprovalsExactly(inv: Invocation, s: Chain, id: nat)
    ensures
      var m, f := ManagerApprove(inv, s, id), FinanceApprove(inv, s, id);
      && (m == Err(Paused) <==> s.paused) && (f == Err(Paused) <==> s.paused)
      && (m == Err(InvalidPaymentId) <==> !s.paused && id !in s.escrows) && (f == Err(InvalidPaymentId) <==> !s.paused && id !in s.escrows)
      && (!s.paused && id in s.escrows ==>
            var e := s.escrows[id];
            && (m == Err(EscrowCancelled) <==> e.cancelled) && (f == Err(EscrowCancelled) <==> e.cancelled)
            && (m == Trap <==> !e.cancelled && e.manager !in inv.auth) && (f == Trap <==> !e.cancelled && e.financeApprover !in inv.auth)
            && (m == Err(AlreadyApproved) <==> !e.cancelled && e.manager in inv.auth && e.managerApproved)
            && (f == Err(AlreadyApproved) <==> !e.cancelled && e.financeApprover in inv.auth && e.financeApproved)
            && (m.Ok? <==> !e.cancelled && e.manager in inv.auth && !e.managerApproved)
            && (f.Ok? <==> !e.cancelled && e.financeApprover in inv.auth && !e.financeApproved))
  {
  }

  /** Row `k` is the first that is settled already or unproven. */
  ghost predicate BlocksAt(rows: Rows, k: nat, settled: bool) {
    && k < |rows| && (forall i :: 0 <= i < k ==> rows[i].status != Finalized && rows[i].proofVerified)
    && if settled then rows[k].status == Finalized else rows[k].status != Finalized && !rows[k].proofVerified
  }

  lemma {:induction false} GuardExactly(rows: Rows)
    ensures PayGuard(rows) == Err(PaymentAlreadyFinalized) <==> exists k: nat :: BlocksAt(rows, k, true)
    ensures PayGuard(rows) == Err(ProofMissing) <==> exists k: nat :: BlocksAt(rows, k, false)
    ensures PayGuard(rows).Ok? || PayGuard(rows) == Err(PaymentAlreadyFinalized) || PayGuard(rows) == Err(ProofMissing)
  {
    PayGuardNeverTraps(rows);
    if rows != [] {
      var n := |rows| - 1;
      GuardExactly(rows[..n]);
      PayGuardNeverTraps(rows[..n]);
      BlocksGrows(rows, true);
      BlocksGrows(rows, false);
    }
  }

  lemma BlocksGrows(rows: Rows, settled: bool)
    requires rows != []
    ensures
      var n := |rows| - 1;
      (exists k: nat :: BlocksAt(rows, k, settled)) <==> (exists k: nat :: BlocksAt(rows[..n], k, settled)) || BlocksAt(rows, n, settled)
  {
    var n := |rows| - 1;
    if k: nat :| BlocksAt(rows[..n], k, settled) {
      assert BlocksAt(rows, k, settled);
    }
    if k: nat :| BlocksAt(rows, k, settled) {
      assert k < n ==> BlocksAt(rows[..n], k, settled);
    }
  }

  /** Why a settlement is refused: in this order, and of the rows the first that stands in the way. */
  lemma SettlementRefusals(h: Host, bal: Balances, tr: Trace, inv: Invocation, id: nat)
    requires Admissible(h, tr)
    ensures
      var s := Run(h, Genesis(bal), tr);
      var o := PayBatch(h, inv, s, id);
      && (o == Err(Paused) <==> s.paused)
      && (o == Err(InvalidPaymentId) <==> !s.paused && id !in s.escrows)
      && (!s.paused && id in s.escrows ==>
            var e := s.escrows[id];
            var ready := !e.cancelled && e.manager in inv.auth && e.managerApproved && e.financeApproved;
            && (o == Err(EscrowCancelled) <==> e.cancelled)
            && (o == Err(InsufficientApprovals) <==> !e.cancelled && e.manager in inv.auth && !(e.managerApproved && e.financeApproved))
            && (o == Err(PaymentAlreadyFinalized) <==> ready && exists k: nat :: BlocksAt(e.payments, k, true))
            && (o == Err(ProofMissing) <==> ready && exists k: nat :: BlocksAt(e.payments, k, false))
            && o != Err(SignersNotDistinct))
  {
    hide Do, Run, PayRows, PaidEvents, Total;
    RunStructured(h, bal, tr);
    var s := Run(h, Genesis(bal), tr);
    if id in s.escrows {
      GuardExactly(s.escrows[id].payments);
      assert GoodEscrow(s.escrows[id]);
    }
    hide BlocksAt, PayGuard;
  }

  lemma CancellationRefusals(h: Host, inv: Invocation, s: Chain, id: nat)
    ensures
      var o := CancelEscrow(h, inv, s, id);
      && (o == Err(InvalidPaymentId) <==> id !in s.escrows)
      && (id in s.escrows ==>
            var e := s.escrows[id];
            && (o == Err(EscrowCancelled) <==> e.cancelled)
            && (o == Err(PaymentAlreadyFinalized) <==> !e.cancelled && e.manager in inv.auth && AnyFinalized(e.payments)))
  {
    hide Shift, ShiftAllowed, CancelEvents, AnyFinalized;
  }
}
