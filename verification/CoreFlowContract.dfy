/**
 * The custody contract as the object it is: storage fields that each entry point loads, changes and stores.
 * A call that returns an error or traps leaves every field as it was, so balances are moved on a working copy
 * that is stored last. Every method is proved equal to its step in `Escrow`.
 */
module CoreFlowContract {
  import opened Prelude
  import opened ByteStrings
  import OracleMessage
  import opened Escrow
  import opened Custody

  // ----- a loop that stops early agrees with the whole row list -----

  lemma {:induction false} CheckRowsStops(rows: Rows, n: nat)
    requires n <= |rows| && !CheckRows(rows[..n]).Ok?
    ensures CheckRows(rows) == CheckRows(rows[..n])
    decreases |rows|
  {
    if n == |rows| {
      assert rows[..n] == rows;
    } else {
      assert rows[..|rows| - 1][..n] == rows[..n];
      CheckRowsStops(rows[..|rows| - 1], n);
    }
  }

  /** A row list passes the guard exactly when every row is payable by whole hours and the total fits. */
  lemma {:induction false} CheckRowsPasses(rows: Rows)
    ensures CheckRows(rows).Ok? <==>
            && Total(rows) < I128_LIMIT
            && (forall i :: 0 <= i < |rows| ==>
                  && rows[i].amount > 0 && rows[i].ratePerHour > 0 && rows[i].endDate > rows[i].startDate
                  && rows[i].amount % rows[i].ratePerHour == 0)
    ensures CheckRows(rows).Ok? ==> CheckRows(rows).value == Total(rows) && Positive(rows)
  {
    if rows != [] {
      var front, p := rows[..|rows| - 1], rows[|rows| - 1];
      CheckRowsPasses(front);
      if CheckRows(front).Ok? {
        forall i | 0 <= i < |rows|
          ensures rows[i] == if i < |front| then front[i] else p
        {
        }
      } else {
        forall i | 0 <= i < |front| ensures rows[i] == front[i] {}
        PrefixSumsIfPositive(rows);
      }
    }
  }

  lemma PrefixSumsIfPositive(rows: Rows)
    requires rows != []
    ensures Positive(rows) ==> Total(rows[..|rows| - 1]) <= Total(rows)
  {
  }

  lemma {:induction false} PayGuardStops(rows: Rows, n: nat)
    requires n <= |rows| && !PayGuard(rows[..n]).Ok?
    ensures PayGuard(rows) == PayGuard(rows[..n])
    decreases |rows|
  {
    if n == |rows| {
      assert rows[..n] == rows;
    } else {
      assert rows[..|rows| - 1][..n] == rows[..n];
      PayGuardStops(rows[..|rows| - 1], n);
    }
  }

  lemma {:induction false} PayRowsStops(bal: Balances, inv: Invocation, from: Address, rows: Rows, n: nat)
    requires n <= |rows| && PayRows(bal, inv, from, rows[..n]) == None
    ensures PayRows(bal, inv, from, rows) == None
    decreases |rows|
  {
    if n == |rows| {
      assert rows[..n] == rows;
    } else {
      assert rows[..|rows| - 1][..n] == rows[..n];
      PayRowsStops(bal, inv, from, rows[..|rows| - 1], n);
    }
  }

  /** Every stored row is positive and every stored total fits an i128: what the creation guard established. */
  ghost predicate ValidChain(s: Chain) {
    forall id :: id in s.escrows ==> Positive(s.escrows[id].payments) && Total(s.escrows[id].payments) < I128_LIMIT
  }

  lemma SameAmounts(rows: Rows, rows': Rows)
    requires |rows| == |rows'| && forall i :: 0 <= i < |rows| ==> rows'[i].amount == rows[i].amount && rows'[i].token == rows[i].token
    ensures Total(rows') == Total(rows)
    ensures Positive(rows) ==> Positive(rows')
    ensures forall t :: TokenSum(rows', t) == TokenSum(rows, t)
    ensures Tokens(rows') == Tokens(rows)
  {
    if rows != [] {
      SameAmounts(rows[..|rows| - 1], rows'[..|rows| - 1]);
    }
    forall t
      ensures t in Tokens(rows) <==> t in Tokens(rows')
    {
      if t in Tokens(rows) {
        var i :| 0 <= i < |rows| && rows[i].token == t;
        assert rows'[i].token == t;
      }
      if t in Tokens(rows') {
        var i :| 0 <= i < |rows'| && rows'[i].token == t;
        assert rows[i].token == t;
      }
    }
  }

  lemma PrefixTokens(rows: Rows, i: nat)
    requires i < |rows|
    ensures Tokens(rows[..i + 1]) == Tokens(rows[..i]) + {rows[i].token}
    ensures rows[i].token in Tokens(rows)
  {
    assert rows[..i + 1] == rows[..i] + [rows[i]];
    TokensSnoc(rows[..i], rows[i]);
  }

  class CoreFlowContract {
    const host: Host
    var escrowCount: nat
    var escrows: map<nat, CoreFlowEscrow>
    var nonces: map<nat, nat>
    var admin: Option<Address>
    var pendingAdmin: Option<Address>
    var paused: bool
    var oracleKeys: set<Bytes>
    var balances: Balances
    var log: seq<ContractEvent>

    function State(): Chain
      reads this
    {
      Chain(escrowCount, escrows, nonces, admin, pendingAdmin, paused, oracleKeys, balances, log)
    }

    ghost predicate Valid()
      reads this
    {
      ValidChain(State())
    }

    constructor (host: Host, balances: Balances)
      ensures Valid() && this.host == host && State() == Genesis(balances)
    {
      this.host := host;
      escrowCount, escrows, nonces := 0, map[], map[];
      admin, pendingAdmin, paused, oracleKeys := None, None, false, {};
      this.balances := balances;
      log := [];
    }

    method Publish(topic0: Symbol, topic1: Symbol, data: seq<Val>)
      modifies this`log
      ensures log == old(log) + [ContractEvent(topic0, topic1, data)]
    {
      log := log + [ContractEvent(topic0, topic1, data)];
    }

    // ----- administration -----

    method InitAdmin(inv: Invocation, admin: Address) returns (r: Outcome<()>)
      requires Valid()
      modifies this
      ensures Valid() && (r, State()) == Escrow.InitAdmin(host, inv, old(State()), admin)
    {
      if this.admin.Some? { return Err(AdminAlreadySet); }
      if host.pinnedAdmin.Some? {
        if admin != host.pinnedAdmin.value { return Err(AdminMismatch); }
      }
      if admin !in inv.auth { return Trap; }
      this.admin := Some(admin);
      Publish(Admin, Init, [Addr(admin)]);
      return Ok(());
    }

    method ProposeAdmin(inv: Invocation, newAdmin: Address) returns (r: Outcome<()>)
      requires Valid()
      modifies this
      ensures Valid() && (r, State()) == Escrow.ProposeAdmin(inv, old(State()), newAdmin)
    {
      r := RequireAdmin(inv, State());
      if !r.Ok? { return; }
      pendingAdmin := Some(newAdmin);
      Publish(Admin, Propose, [Addr(newAdmin)]);
    }

    method AcceptAdmin(inv: Invocation) returns (r: Outcome<()>)
      requires Valid()
      modifies this
      ensures Valid() && (r, State()) == Escrow.AcceptAdmin(inv, old(State()))
    {
      if pendingAdmin == None { return Err(NoPendingAdmin); }
      var pending := pendingAdmin.value;
      if pending !in inv.auth { return Trap; }
      admin := Some(pending);
      pendingAdmin := None;
      Publish(Admin, Accept, [Addr(pending)]);
      return Ok(());
    }

    method SetPaused(inv: Invocation, paused: bool) returns (r: Outcome<()>)
      requires Valid()
      modifies this
      ensures Valid() && (r, State()) == Escrow.SetPaused(inv, old(State()), paused)
    {
      r := RequireAdmin(inv, State());
      if !r.Ok? { return; }
      this.paused := paused;
      Publish(Admin, PausedSym, [Flag(paused)]);
    }

    method RegisterOracleKey(inv: Invocation, key: Bytes) returns (r: Outcome<()>)
      requires Valid()
      modifies this
      ensures Valid() && (r, State()) == Escrow.RegisterOracleKey(inv, old(State()), key)
    {
      r := RequireAdmin(inv, State());
      if !r.Ok? { return; }
      oracleKeys := oracleKeys + {key};
      Publish(Oracle, Reg, [Key(key)]);
    }

    method RevokeOracleKey(inv: Invocation, key: Bytes) returns (r: Outcome<()>)
      requires Valid()
      modifies this
      ensures Valid() && (r, State()) == Escrow.RevokeOracleKey(inv, old(State()), key)
    {
      r := RequireAdmin(inv, State());
      if !r.Ok? { return; }
      oracleKeys := oracleKeys - {key};
      Publish(Oracle, Revoke, [Key(key)]);
    }

    // ----- funding -----

    static method SeenBefore(rows: Rows, n: nat, token: Address) returns (seen: bool)
      requires n <= |rows|
      ensures seen <==> token in Tokens(rows[..n])
    {
      var j := 0;
      while j < n
        invariant 0 <= j <= n && token !in Tokens(rows[..j])
      {
        assert rows[..j + 1] == rows[..j] + [rows[j]];
        TokensSnoc(rows[..j], rows[j]);
        if rows[j].token == token {
          assert rows[..n][j].token == token;
          return true;
        }
        j := j + 1;
      }
      return false;
    }

    static method SumOfToken(rows: Rows, token: Address) returns (sum: int)
      ensures sum == TokenSum(rows, token)
    {
      sum := 0;
      var j := 0;
      while j < |rows|
        invariant 0 <= j <= |rows| && sum == TokenSum(rows[..j], token)
      {
        assert rows[..j + 1][..j] == rows[..j];
        if rows[j].token == token {
          sum := sum + rows[j].amount;
        }
        j := j + 1;
      }
      assert rows[..j] == rows;
    }

    /**
     * One transfer per distinct token. The outer loop visits each token once, skipping any seen at a lower
     * index; the inner loop sums that token's rows. A refused or uncovered transfer traps.
     */
    method MoveByToken(bal: Balances, inv: Invocation, rows: Rows, from: Address, to: Address) returns (r: Option<Balances>)
      requires from != to && Positive(rows) && Total(rows) < I128_LIMIT
      ensures r == if ShiftAllowed(bal, inv, rows, from, to) then Some(Shift(bal, rows, from, to)) else None
    {
      var b := bal;
      ghost var done: set<Address> := {};
      ShiftTokensNone(bal, rows, from, to);
      var i := 0;
      while i < |rows|
        invariant 0 <= i <= |rows| && done == Tokens(rows[..i])
        invariant b == ShiftTokens(bal, rows, done, from, to)
        invariant forall t :: t in done ==> TokenMoves(bal, inv, rows, t, from, to)
      {
        var token := rows[i].token;
        PrefixTokens(rows, i);
        var seen := SeenBefore(rows, i, token);
        if !seen {
          var sum := SumOfToken(rows, token);
          ShiftTokensStep(bal, inv, rows, done, token, from, to);
          var moved := Transfer(b, inv, token, from, to, sum);
          if moved == None { return None; }
          b := moved.value;
          done := done + {token};
        }
        i := i + 1;
      }
      assert rows[..i] == rows;
      ShiftTokensAll(bal, rows, from, to);
      return Some(b);
    }

    static method GuardRows(rows: Rows) returns (r: Outcome<int>)
      ensures r == CheckRows(rows)
    {
      var total := 0;
      var i := 0;
      while i < |rows|
        invariant 0 <= i <= |rows| && CheckRows(rows[..i]) == Ok(total)
      {
        var p := rows[i];
        assert rows[..i + 1][..i] == rows[..i];
        if p.amount <= 0 || p.ratePerHour <= 0 {
          CheckRowsStops(rows, i + 1);
          return Err(InvalidAmount);
        }
        if p.endDate <= p.startDate {
          CheckRowsStops(rows, i + 1);
          return Err(InvalidPeriod);
        }
        if p.amount % p.ratePerHour != 0 {
          CheckRowsStops(rows, i + 1);
          return Err(AmountHoursMismatch);
        }
        if total + p.amount >= I128_LIMIT {
          CheckRowsStops(rows, i + 1);
          return Trap;
        }
        total := total + p.amount;
        i := i + 1;
      }
      assert rows[..i] == rows;
      return Ok(total);
    }

    /** One `payment/add` event per row. */
    method PublishRows(id: nat, rows: Rows)
      modifies this`log
      ensures log == old(log) + RowEvents(id, rows)
    {
      var i := 0;
      while i < |rows|
        invariant 0 <= i <= |rows| && log == old(log) + RowEvents(id, rows[..i])
      {
        var p := rows[i];
        assert rows[..i + 1][..i] == rows[..i];
        Publish(Payment, Add, [Num(id), Num(i), Addr(p.worker), Addr(p.token), Num(p.amount),
                               Num(p.ratePerHour), Num(p.startDate), Num(p.endDate)]);
        i := i + 1;
      }
      assert rows[..i] == rows;
    }

    method InitializeMultiSigEscrow(inv: Invocation, manager: Address, finance: Address, key: Bytes, rows: Rows)
      returns (r: Outcome<nat>)
      requires Valid()
      requires host.contract !in inv.auth  // the host never lets an outside call sign as the contract itself
      modifies this
      ensures var o := Escrow.Initialize(host, inv, old(State()), manager, finance, key, rows);
              Valid() && State() == Commit(old(State()), o) && r == if o.Ok? then Ok(o.value.id) else Failure(o)
    {
      hide CheckRows, Shift, ShiftAllowed, RowEvents, TokenSum, Tokens;
      if paused { return Err(Paused); }
      if manager !in inv.auth { return Trap; }
      if manager == finance { return Err(SignersNotDistinct); }
      if rows == [] { return Err(InvalidAmount); }
      if |rows| > MAX_BATCH_SIZE { return Err(BatchTooLarge); }
      if !OracleAccepted(State(), key) { return Err(OracleKeyNotRegistered); }

      var guard := GuardRows(rows);
      if guard.Err? { return Err(guard.error); }
      if guard.Trap? { return Trap; }
      var total := guard.value;
      CheckRowsPasses(rows);

      if escrowCount + 1 >= U32_LIMIT { return Trap; }
      var id := escrowCount + 1;
      var moved := MoveByToken(balances, inv, rows, manager, host.contract);
      if moved == None { return Trap; }

      balances := moved.value;
      escrows := escrows[id := NewEscrow(manager, finance, key, rows)];
      nonces := nonces[id := 0];
      escrowCount := id;
      Publish(EscrowSym, Created, [Num(id), Addr(manager), Num(total)]);

      PublishRows(id, rows);
      return Ok(id);
    }

    // ----- the oracle -----

    method TrackNonce(id: nat, nonce: u64) returns (r: Outcome<()>)
      modifies this`nonces
      ensures r == if nonce != NonceOf(old(State()), id) then Err(InvalidNonce)
                   else if nonce + 1 >= U64_LIMIT then Err(NonceOverflow) else Ok(())
      ensures nonces == if r.Ok? then old(nonces)[id := nonce + 1] else old(nonces)
    {
      var expected := if id in nonces then nonces[id] else 0;
      if nonce != expected { return Err(InvalidNonce); }
      if nonce + 1 >= U64_LIMIT { return Err(NonceOverflow); }
      nonces := nonces[id := nonce + 1];
      return Ok(());
    }

    method SubmitHoursProof(inv: Invocation, id: u32, pid: u32, hours: i128, nonce: u64, signature: Bytes) returns (r: Outcome<()>)
      requires Valid()
      modifies this
      ensures var o := Escrow.SubmitHoursProof(host, inv, old(State()), id, pid, hours, nonce, signature); Valid() && State() == Commit(old(State()), o) && r == Done(o)
    {
      hide OracleMessage.ProofMessage, Proof, Total, TokenSum, Tokens;
      if paused { return Err(Paused); }
      if id !in escrows { return Err(InvalidPaymentId); }
      var e := escrows[id];
      if e.cancelled { return Err(EscrowCancelled); }
      if e.managerApproved || e.financeApproved { return Err(AlreadyApproved); }
      if pid >= |e.payments| { return Err(InvalidPaymentId); }
      var p := e.payments[pid];
      var earned := hours * p.ratePerHour;
      if !(-I128_LIMIT <= earned < I128_LIMIT) { return Err(InvalidAmount); }
      if earned != p.amount { return Err(AmountHoursMismatch); }

      var message := OracleMessage.BuildProofMessage(host.digest, Proof(host, id, pid, p, hours, nonce));
      if !host.ed25519(e.oraclePubkey, message, signature) { return Trap; }
      r := TrackNonce(id, nonce);
      if !r.Ok? { return; }

      var rows := e.payments[pid := p.(hoursLogged := hours, proofVerified := true)];
      SameAmounts(e.payments, rows);
      escrows := escrows[id := e.(payments := rows)];
      Publish(Hours, Submit, [Num(id), Num(pid), Num(hours)]);
      return Ok(());
    }

    static method SomeFinalized(rows: Rows) returns (found: bool)
      ensures found == AnyFinalized(rows)
    {
      var i := 0;
      while i < |rows|
        invariant 0 <= i <= |rows| && forall k :: 0 <= k < i ==> rows[k].status != Finalized
      {
        if rows[i].status == Finalized { return true; }
        i := i + 1;
      }
      return false;
    }

    method RotateOracleKey(inv: Invocation, id: nat, key: Bytes) returns (r: Outcome<()>)
      requires Valid()
      modifies this
      ensures var o := Escrow.RotateOracleKey(inv, old(State()), id, key); Valid() && State() == Commit(old(State()), o) && r == Done(o)
    {
      if paused { return Err(Paused); }
      if id !in escrows { return Err(InvalidPaymentId); }
      var e := escrows[id];
      if e.manager !in inv.auth { return Trap; }
      if !OracleAccepted(State(), key) { return Err(OracleKeyNotRegistered); }
      if e.cancelled { return Err(EscrowCancelled); }
      var settled := SomeFinalized(e.payments);
      if settled { return Err(PaymentAlreadyFinalized); }
      if e.oracleRotations + 1 >= U32_LIMIT { return Trap; }
      var rotations := e.oracleRotations + 1;
      var revoked := [];
      var i := 0;
      while i < |e.payments|
        invariant 0 <= i <= |e.payments| && revoked == Revoked(e.payments)[..i]
      {
        revoked := revoked + [e.payments[i].(proofVerified := false)];
        i := i + 1;
      }
      assert revoked == Revoked(e.payments);
      SameAmounts(e.payments, revoked);
      escrows := escrows[id := e.(oraclePubkey := key, oracleRotations := rotations, payments := revoked)];
      Publish(Oracle, Rotate, [Num(id), Num(rotations)]);
      return Ok(());
    }

    // ----- approvals -----

    method ManagerApprove(inv: Invocation, id: nat) returns (r: Outcome<()>)
      requires Valid()
      modifies this
      ensures var o := Escrow.ManagerApprove(inv, old(State()), id); Valid() && State() == Commit(old(State()), o) && r == Done(o)
    {
      if paused { return Err(Paused); }
      if id !in escrows { return Err(InvalidPaymentId); }
      var e := escrows[id];
      if e.cancelled { return Err(EscrowCancelled); }
      if e.manager !in inv.auth { return Trap; }
      if e.managerApproved { return Err(AlreadyApproved); }
      escrows := escrows[id := e.(managerApproved := true)];
      Publish(Approve, Manager, [Num(id)]);
      return Ok(());
    }

    method FinanceApprove(inv: Invocation, id: nat) returns (r: Outcome<()>)
      requires Valid()
      modifies this
      ensures var o := Escrow.FinanceApprove(inv, old(State()), id); Valid() && State() == Commit(old(State()), o) && r == Done(o)
    {
      if paused { return Err(Paused); }
      if id !in escrows { return Err(InvalidPaymentId); }
      var e := escrows[id];
      if e.cancelled { return Err(EscrowCancelled); }
      if e.financeApprover !in inv.auth { return Trap; }
      if e.financeApproved { return Err(AlreadyApproved); }
      escrows := escrows[id := e.(financeApproved := true)];
      Publish(Approve, Finance, [Num(id)]);
      return Ok(());
    }

    // ----- settlement and cancellation -----

    static method GuardSettlement(rows: Rows) returns (r: Outcome<()>)
      ensures r == PayGuard(rows) && !r.Trap?
    {
      var i := 0;
      while i < |rows|
        invariant 0 <= i <= |rows| && PayGuard(rows[..i]).Ok?
      {
        assert rows[..i + 1][..i] == rows[..i];
        if rows[i].status == Finalized {
          PayGuardStops(rows, i + 1);
          return Err(PaymentAlreadyFinalized);
        }
        if !rows[i].proofVerified {
          PayGuardStops(rows, i + 1);
          return Err(ProofMissing);
        }
        i := i + 1;
      }
      assert rows[..i] == rows;
      return Ok(());
    }

    /** Pay each row in its own asset, on a working copy of the balances. */
    method Settle(inv: Invocation, id: nat, rows: Rows)
      returns (settled: Option<Balances>, finalized: Rows, total: int, events: seq<ContractEvent>)
      requires Positive(rows) && Total(rows) < I128_LIMIT
      ensures settled == PayRows(balances, inv, host.contract, rows)
      ensures settled.Some? ==>
        finalized == WithStatus(rows, Finalized) && total == Total(rows) && events == PaidEvents(id, rows)
        && 0 <= total < I128_LIMIT
    {
      var b := balances;
      events, finalized, total := [], [], 0;
      var i := 0;
      while i < |rows|
        invariant 0 <= i <= |rows|
        invariant PayRows(balances, inv, host.contract, rows[..i]) == Some(b)
        invariant total == Total(rows[..i]) && 0 <= total
        invariant events == PaidEvents(id, rows[..i])
        invariant finalized == WithStatus(rows, Finalized)[..i]
      {
        var p := rows[i];
        assert rows[..i + 1][..i] == rows[..i];
        var moved := Transfer(b, inv, p.token, host.contract, p.worker, p.amount);
        if moved == None {
          PayRowsStops(balances, inv, host.contract, rows, i + 1);
          settled := None;
          return;
        }
        b := moved.value;
        total := total + p.amount;
        events := events + [ContractEvent(Payment, Paid, [Num(id), Num(i), Addr(p.worker), Addr(p.token), Num(p.amount), Num(p.hoursLogged)])];
        finalized := finalized + [p.(status := Finalized)];
        i := i + 1;
      }
      assert rows[..i] == rows && finalized == WithStatus(rows, Finalized);
      settled := Some(b);
    }

    method PayBatch(inv: Invocation, id: nat) returns (r: Outcome<Rows>)
      requires Valid()
      modifies this
      ensures var o := Escrow.PayBatch(host, inv, old(State()), id);
              Valid() && State() == Commit(old(State()), o) && r == if o.Ok? then Ok(o.value.escrow.payments) else Failure(o)
    {
      hide PayRows, PaidEvents, PayGuard, TokenSum, Tokens;
      if paused { return Err(Paused); }
      if id !in escrows { return Err(InvalidPaymentId); }
      var e := escrows[id];
      if e.cancelled { return Err(EscrowCancelled); }
      if e.manager !in inv.auth { return Trap; }
      if e.manager == e.financeApprover { return Err(SignersNotDistinct); }
      if !e.managerApproved || !e.financeApproved { return Err(InsufficientApprovals); }

      var rows := e.payments;
      var guard := GuardSettlement(rows);
      if !guard.Ok? { return Err(guard.error); }
      var settled, finalized, total, events := Settle(inv, id, rows);
      if settled == None { return Trap; }
      SameAmounts(rows, finalized);
      escrows := escrows[id := e.(payments := finalized)];
      balances := settled.value;
      log := log + events;
      Publish(Payment, Final, [Num(id), Num(total), Num(|finalized|)]);
      return Ok(finalized);
    }

    static method MarkCancelled(id: nat, rows: Rows) returns (cancelled: Rows, events: seq<ContractEvent>)
      ensures cancelled == WithStatus(rows, Cancelled) && events == CancelEvents(id, |rows|)
    {
      events, cancelled := [], [];
      var i := 0;
      while i < |rows|
        invariant 0 <= i <= |rows|
        invariant cancelled == WithStatus(rows, Cancelled)[..i]
        invariant events == CancelEvents(id, i)
      {
        events := events + [ContractEvent(Payment, Cancel, [Num(id), Num(i)])];
        cancelled := cancelled + [rows[i].(status := Cancelled)];
        i := i + 1;
      }
    }

    method CancelEscrow(inv: Invocation, id: nat) returns (r: Outcome<()>)
      requires Valid()
      requires host.contract !in inv.auth
      modifies this
      ensures var o := Escrow.CancelEscrow(host, inv, old(State()), id); Valid() && State() == Commit(old(State()), o) && r == Done(o)
    {
      hide Shift, ShiftAllowed, CancelEvents, TokenSum, Tokens;
      if id !in escrows { return Err(InvalidPaymentId); }
      var e := escrows[id];
      if e.cancelled { return Err(EscrowCancelled); }
      if e.manager !in inv.auth { return Trap; }
      var rows := e.payments;
      var settled := SomeFinalized(rows);
      if settled { return Err(PaymentAlreadyFinalized); }

      var moved := MoveByToken(balances, inv, rows, host.contract, e.manager);
      if moved == None { return Trap; }

      var cancelled, events := MarkCancelled(id, rows);
      SameAmounts(rows, cancelled);
      balances := moved.value;
      escrows := escrows[id := e.(cancelled := true, payments := cancelled)];
      log := log + events;
      Publish(EscrowSym, Cancel, [Num(id)]);
      return Ok(());
    }
  }
}
