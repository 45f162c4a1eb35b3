/**
 * Whole runs of the custody contract: any sequence of calls on any number of escrows, with third parties
 * moving tokens in between. What every step keeps, and what therefore holds in every reachable state.
 */
module ContractRuns {
  import opened Prelude
  import opened ByteStrings
  import opened Escrow
  import opened CoreFlowContract

  datatype AdminOp =
    | InitAdminOp(who: Address)
    | ProposeAdminOp(who: Address)
    | AcceptAdminOp
    | SetPausedOp(flag: bool)
    | RegisterOp(key: Bytes)
    | RevokeOp(key: Bytes)

  datatype Call =
    | AdminCall(op: AdminOp)
    | InitializeCall(manager: Address, finance: Address, key: Bytes, rows: Rows)
    | RotateCall(id: nat, key: Bytes)
    | SubmitCall(sid: u32, pid: u32, hours: i128, nonce: u64, sig: Bytes)
    | ManagerApproveCall(id: nat)
    | FinanceApproveCall(id: nat)
    | PayCall(id: nat)
    | CancelCall(id: nat)
      /** A token transfer between other parties, outside the contract. */
    | TokenCall(token: Address, from: Address, to: Address, amount: int)
  {
    predicate OnEscrow() {
      !AdminCall? && !TokenCall?
    }
  }

  datatype Step = Step(inv: Invocation, call: Call)

  type Trace = seq<Step>

  function Administer(h: Host, inv: Invocation, s: Chain, op: AdminOp): (Outcome<()>, Chain) {
    match op
    case InitAdminOp(who) => InitAdmin(h, inv, s, who)
    case ProposeAdminOp(who) => ProposeAdmin(inv, s, who)
    case AcceptAdminOp => AcceptAdmin(inv, s)
    case SetPausedOp(flag) => SetPaused(inv, s, flag)
    case RegisterOp(key) => RegisterOracleKey(inv, s, key)
    case RevokeOp(key) => RevokeOracleKey(inv, s, key)
  }

  function TokenTransfer(inv: Invocation, s: Chain, token: Address, from: Address, to: Address, amount: int): (bool, Chain) {
    if from !in inv.auth then (false, s)
    else match Transfer(s.balances, inv, token, from, to, amount)
      case None => (false, s)
      case Some(b) => (true, s.(balances := b))
  }

  /** What a call on an escrow would write. */
  function EffectOf(h: Host, s: Chain, st: Step): Outcome<Effect>
    requires st.call.OnEscrow()
  {
    match st.call
    case InitializeCall(m, f, key, rows) => Initialize(h, st.inv, s, m, f, key, rows)
    case RotateCall(id, key) => RotateOracleKey(st.inv, s, id, key)
    case SubmitCall(id, pid, hours, nonce, sig) => SubmitHoursProof(h, st.inv, s, id, pid, hours, nonce, sig)
    case ManagerApproveCall(id) => ManagerApprove(st.inv, s, id)
    case FinanceApproveCall(id) => FinanceApprove(st.inv, s, id)
    case PayCall(id) => PayBatch(h, st.inv, s, id)
    case CancelCall(id) => CancelEscrow(h, st.inv, s, id)
  }

  /** One call: whether it succeeded, and the state it leaves. */
  function Do(h: Host, s: Chain, st: Step): (bool, Chain) {
    match st.call
    case AdminCall(op) => var (o, s') := Administer(h, st.inv, s, op); (o.Ok?, s')
    case TokenCall(token, from, to, amount) => TokenTransfer(st.inv, s, token, from, to, amount)
    case _ => var o := EffectOf(h, s, st); (o.Ok?, Commit(s, o))
  }

  function Run(h: Host, s: Chain, tr: Trace): Chain {
    if tr == [] then s else Do(h, Run(h, s, tr[..|tr| - 1]), tr[|tr| - 1]).1
  }

  /** Step `i` of the run took effect. */
  predicate Succeeds(h: Host, s: Chain, tr: Trace, i: nat)
    requires i < |tr|
  {
    Do(h, Run(h, s, tr[..i]), tr[i]).0
  }

  /** Step `i` of the run created escrow `id`. */
  predicate Founds(h: Host, s: Chain, tr: Trace, i: nat, id: nat)
    requires i < |tr|
  {
    tr[i].call.InitializeCall? && Succeeds(h, s, tr, i) && Run(h, s, tr[..i]).escrowCount + 1 == id
  }

  /** No outside call carries the contract's own signature. */
  predicate Outside(h: Host, st: Step) {
    h.contract !in st.inv.auth
  }

  predicate AllFinalized(rows: Rows) {
    forall i :: 0 <= i < |rows| ==> rows[i].status == Finalized
  }

  /** Some row of a new escrow is still to be paid; the client submits them all Pending. */
  predicate EntersUnpaid(st: Step) {
    st.call.InitializeCall? && st.call.rows != [] ==> !AllFinalized(st.call.rows)
  }

  ghost predicate Admissible(h: Host, tr: Trace) {
    forall i :: 0 <= i < |tr| ==> Outside(h, tr[i]) && EntersUnpaid(tr[i])
  }

  lemma RunExtend(h: Host, s: Chain, tr: Trace, n: nat)
    requires n < |tr|
    ensures Run(h, s, tr[..n + 1]) == Do(h, Run(h, s, tr[..n]), tr[n]).1
  {
    assert tr[..n + 1][..n] == tr[..n];
  }

  // ----- what every stored escrow has -----

  predicate GoodRow(p: PaymentSchedule) {
    p.amount > 0 && p.ratePerHour > 0 && p.endDate > p.startDate && p.amount % p.ratePerHour == 0
  }

  /** Settled or cancelled: custody of this escrow has left the contract. */
  predicate Closed(e: CoreFlowEscrow) {
    e.cancelled || AllFinalized(e.payments)
  }

  predicate GoodEscrow(e: CoreFlowEscrow) {
    && e.manager != e.financeApprover
    && 0 < |e.payments| <= MAX_BATCH_SIZE
    && (forall i :: 0 <= i < |e.payments| ==> GoodRow(e.payments[i]))
    && Total(e.payments) < I128_LIMIT
    && (AllFinalized(e.payments) ==> e.managerApproved && e.financeApproved && !e.cancelled)
  }

  ghost predicate Structured(h: Host, s: Chain) {
    && (forall id :: id in s.escrows <==> 1 <= id <= s.escrowCount)
    && (forall id :: id in s.escrows ==> GoodEscrow(s.escrows[id]) && s.escrows[id].manager != h.contract)
  }

  /** The parts of a row that money and attestations are about. */
  datatype Terms = Terms(worker: Address, token: Address, amount: i128, startDate: u64, endDate: u64, ratePerHour: i128)

  function TermsOf(p: PaymentSchedule): Terms {
    Terms(p.worker, p.token, p.amount, p.startDate, p.endDate, p.ratePerHour)
  }

  ghost predicate SameTerms(rows: Rows, rows': Rows) {
    |rows| == |rows'| && forall i :: 0 <= i < |rows| ==> TermsOf(rows'[i]) == TermsOf(rows[i])
  }

  lemma SameTermsSums(rows: Rows, rows': Rows)
    requires SameTerms(rows, rows')
    ensures Total(rows') == Total(rows) && Tokens(rows') == Tokens(rows)
    ensures forall t :: TokenSum(rows', t) == TokenSum(rows, t)
  {
    forall i | 0 <= i < |rows|
      ensures rows'[i].amount == rows[i].amount && rows'[i].token == rows[i].token
    {
      assert TermsOf(rows'[i]) == TermsOf(rows[i]);
    }
    SameAmounts(rows, rows');
  }

  lemma SameTermsTrans(a: Rows, b: Rows, c: Rows)
    requires SameTerms(a, b) && SameTerms(b, c)
    ensures SameTerms(a, c)
  {
    forall i | 0 <= i < |a| ensures TermsOf(c[i]) == TermsOf(a[i]) {
      assert TermsOf(b[i]) == TermsOf(a[i]) && TermsOf(c[i]) == TermsOf(b[i]);
    }
  }

  /** Across any step an escrow keeps its parties, its rows' terms and its approvals. */
  ghost predicate Evolves(e: CoreFlowEscrow, e': CoreFlowEscrow) {
    && e'.manager == e.manager && e'.financeApprover == e.financeApprover
    && SameTerms(e.payments, e'.payments)
    && (e.managerApproved ==> e'.managerApproved) && (e.financeApproved ==> e'.financeApproved)
  }

  // ----- the four things a successful call on an escrow can be -----

  /** A new escrow, funded by its manager. */
  ghost predicate Creates(h: Host, inv: Invocation, s: Chain, eff: Effect) {
    var rows := eff.escrow.payments;
    && eff.id == eff.count == s.escrowCount + 1 < U32_LIMIT
    && eff.escrow == NewEscrow(eff.escrow.manager, eff.escrow.financeApprover, eff.escrow.oraclePubkey, rows)
    && eff.escrow.manager in inv.auth
    && eff.escrow.manager != eff.escrow.financeApprover
    && 0 < |rows| <= MAX_BATCH_SIZE && Total(rows) < I128_LIMIT
    && (forall i :: 0 <= i < |rows| ==> GoodRow(rows[i]))
    && ShiftAllowed(s.balances, inv, rows, eff.escrow.manager, h.contract)
    && eff.balances == Shift(s.balances, rows, eff.escrow.manager, h.contract)
    && eff.nonce == Some(0)
  }

  /** An open escrow that stays open, with no money moved. */
  ghost predicate Advances(s: Chain, eff: Effect) {
    && eff.id in s.escrows && eff.count == s.escrowCount && eff.balances == s.balances
    && Evolves(s.escrows[eff.id], eff.escrow)
    && !Closed(s.escrows[eff.id]) && !Closed(eff.escrow)
  }

  /** An open escrow paid out, row by row. */
  ghost predicate Settles(h: Host, inv: Invocation, s: Chain, eff: Effect) {
    && eff.id in s.escrows && eff.count == s.escrowCount && eff.nonce == None
    && var e := s.escrows[eff.id];
    && !Closed(e) && e.managerApproved && e.financeApproved && e.manager in inv.auth
    && (forall i :: 0 <= i < |e.payments| ==> e.payments[i].proofVerified)
    && eff.escrow == e.(payments := WithStatus(e.payments, Finalized))
    && PayRows(s.balances, inv, h.contract, e.payments) == Some(eff.balances)
  }

  /** An open escrow returned to its manager. */
  ghost predicate Refunds(h: Host, inv: Invocation, s: Chain, eff: Effect) {
    && eff.id in s.escrows && eff.count == s.escrowCount && eff.nonce == None
    && var e := s.escrows[eff.id];
    && !Closed(e) && e.manager in inv.auth
    && eff.escrow == e.(cancelled := true, payments := WithStatus(e.payments, Cancelled))
    && ShiftAllowed(s.balances, inv, e.payments, h.contract, e.manager)
    && eff.balances == Shift(s.balances, e.payments, h.contract, e.manager)
  }

  lemma InitializeCreates(h: Host, inv: Invocation, s: Chain, m: Address, f: Address, key: Bytes, rows: Rows)
    requires Initialize(h, inv, s, m, f, key, rows).Ok?
    ensures Creates(h, inv, s, Initialize(h, inv, s, m, f, key, rows).value)
    ensures Initialize(h, inv, s, m, f, key, rows).value.escrow == NewEscrow(m, f, key, rows)
  {
    CheckRowsPasses(rows);
  }

  lemma NotAllFinalized(rows: Rows, i: nat)
    requires i < |rows| && rows[i].status != Finalized
    ensures !AllFinalized(rows)
  {
  }

  lemma RotateAdvances(inv: Invocation, s: Chain, id: nat, key: Bytes)
    requires RotateOracleKey(inv, s, id, key).Ok? && GoodEscrow(s.escrows[id])
    ensures Advances(s, RotateOracleKey(inv, s, id, key).value)
    ensures RotateOracleKey(inv, s, id, key).value.id == id
  {
    var rows := s.escrows[id].payments;
    assert rows[0].status != Finalized;
    NotAllFinalized(rows, 0);
    NotAllFinalized(Revoked(rows), 0);
  }

  lemma SubmitAdvances(h: Host, inv: Invocation, s: Chain, id: u32, pid: u32, hours: i128, nonce: u64, sig: Bytes)
    requires SubmitHoursProof(h, inv, s, id, pid, hours, nonce, sig).Ok? && GoodEscrow(s.escrows[id])
    ensures Advances(s, SubmitHoursProof(h, inv, s, id, pid, hours, nonce, sig).value)
    ensures SubmitHoursProof(h, inv, s, id, pid, hours, nonce, sig).value.id == id
  {
    hide OracleMessage.ProofMessage;
    var rows := s.escrows[id].payments;
    var i: nat :| i < |rows| && rows[i].status != Finalized;
    NotAllFinalized(SubmitHoursProof(h, inv, s, id, pid, hours, nonce, sig).value.escrow.payments, i);
  }

  lemma ApproveAdvances(inv: Invocation, s: Chain, id: nat)
    requires id in s.escrows && GoodEscrow(s.escrows[id])
    ensures ManagerApprove(inv, s, id).Ok? ==> Advances(s, ManagerApprove(inv, s, id).value)
    ensures FinanceApprove(inv, s, id).Ok? ==> Advances(s, FinanceApprove(inv, s, id).value)
    ensures ManagerApprove(inv, s, id).Ok? ==> ManagerApprove(inv, s, id).value.id == id
    ensures FinanceApprove(inv, s, id).Ok? ==> FinanceApprove(inv, s, id).value.id == id
  {
  }

  lemma {:induction false} PayGuardNeverTraps(rows: Rows)
    ensures !PayGuard(rows).Trap?
    ensures PayGuard(rows).Ok? <==> forall i :: 0 <= i < |rows| ==> rows[i].status != Finalized && rows[i].proofVerified
  {
    if rows != [] {
      PayGuardNeverTraps(rows[..|rows| - 1]);
      forall i | 0 <= i < |rows|
        ensures rows[i] == if i < |rows| - 1 then rows[..|rows| - 1][i] else rows[|rows| - 1]
      {
      }
    }
  }

  lemma PaySettles(h: Host, inv: Invocation, s: Chain, id: nat)
    requires PayBatch(h, inv, s, id).Ok? && GoodEscrow(s.escrows[id])
    ensures Settles(h, inv, s, PayBatch(h, inv, s, id).value)
    ensures PayBatch(h, inv, s, id).value.id == id
  {
    var rows := s.escrows[id].payments;
    PayGuardNeverTraps(rows);
    NotAllFinalized(rows, 0);
  }

  lemma CancelRefunds(h: Host, inv: Invocation, s: Chain, id: nat)
    requires CancelEscrow(h, inv, s, id).Ok? && GoodEscrow(s.escrows[id])
    ensures Refunds(h, inv, s, CancelEscrow(h, inv, s, id).value)
    ensures CancelEscrow(h, inv, s, id).value.id == id
  {
    var rows := s.escrows[id].payments;
    assert rows[0].status != Finalized;
    NotAllFinalized(rows, 0);
  }

  /** Which escrow a call names; a creation names the next id. */
  function Target(s: Chain, call: Call): nat
    requires call.OnEscrow()
  {
    match call
    case InitializeCall(_, _, _, _) => s.escrowCount + 1
    case SubmitCall(id, _, _, _, _) => id
    case RotateCall(id, _) => id
    case ManagerApproveCall(id) => id
    case FinanceApproveCall(id) => id
    case PayCall(id) => id
    case CancelCall(id) => id
  }

  /** A call that succeeds on an escrow other than by creating one names a stored escrow. */
  lemma OkIsStored(h: Host, s: Chain, st: Step)
    requires Structured(h, s) && st.call.OnEscrow() && EffectOf(h, s, st).Ok? && !st.call.InitializeCall?
    ensures Target(s, st.call) in s.escrows && GoodEscrow(s.escrows[Target(s, st.call)])
  {
    hide OracleMessage.ProofMessage, PayRows, PayGuard, ShiftAllowed, Shift, Total, GoodEscrow;
  }

  lemma FourKinds(h: Host, s: Chain, st: Step)
    requires Structured(h, s) && st.call.OnEscrow() && EffectOf(h, s, st).Ok?
    ensures
      var eff := EffectOf(h, s, st).value;
      && eff.id == Target(s, st.call)
      && match st.call
         case InitializeCall(m, f, key, rows) => Creates(h, st.inv, s, eff) && eff.escrow == NewEscrow(m, f, key, rows)
         case PayCall(_) => Settles(h, st.inv, s, eff)
         case CancelCall(_) => Refunds(h, st.inv, s, eff)
         case _ => Advances(s, eff)
  {
    if !st.call.InitializeCall? {
      OkIsStored(h, s, st);
    }
    hide Initialize, RotateOracleKey, SubmitHoursProof, ManagerApprove, FinanceApprove, PayBatch, CancelEscrow;
    hide Advances, Settles, Refunds, NewEscrow;
    match st.call {
      case InitializeCall(m, f, key, rows) => InitializeCreates(h, st.inv, s, m, f, key, rows);
      case RotateCall(id, key) => RotateAdvances(st.inv, s, id, key);
      case SubmitCall(id, pid, hours, nonce, sig) =>
        SubmitAdvances(h, st.inv, s, id, pid, hours, nonce, sig);
      case ManagerApproveCall(id) => ApproveAdvances(st.inv, s, id);
      case FinanceApproveCall(id) => ApproveAdvances(st.inv, s, id);
      case PayCall(id) => PaySettles(h, st.inv, s, id);
      case CancelCall(id) => CancelRefunds(h, st.inv, s, id);
    }
  }

  lemma AdministerKeeps(h: Host, inv: Invocation, s: Chain, op: AdminOp)
    ensures
      var s' := Administer(h, inv, s, op).1;
      s'.escrows == s.escrows && s'.escrowCount == s.escrowCount && s'.nonces == s.nonces && s'.balances == s.balances
  {
  }

  /** Administration touches no escrow, no balance, no nonce; a token transfer touches only balances. */
  lemma OtherCallsKeep(h: Host, s: Chain, st: Step)
    requires !st.call.OnEscrow()
    ensures
      var s' := Do(h, s, st).1;
      && s'.escrows == s.escrows && s'.escrowCount == s.escrowCount && s'.nonces == s.nonces
      && (st.call.AdminCall? ==> s'.balances == s.balances)
      && (st.call.TokenCall? ==> s' == s.(balances := s'.balances))
  {
    hide EffectOf, Commit, Administer;
    if st.call.AdminCall? {
      AdministerKeeps(h, st.inv, s, st.call.op);
    }
  }

  /** A step on an escrow either fails and changes nothing, or commits its effect. */
  lemma OnEscrowStep(h: Host, s: Chain, st: Step)
    requires st.call.OnEscrow()
    ensures
      var o := EffectOf(h, s, st);
      Do(h, s, st) == (o.Ok?, Commit(s, o))
  {
    hide EffectOf, Commit;
  }

  // ----- invariants of every run -----

  lemma EvolvesGood(e: CoreFlowEscrow, e': CoreFlowEscrow)
    requires GoodEscrow(e) && Evolves(e, e')
    requires AllFinalized(e'.payments) ==> e'.managerApproved && e'.financeApproved && !e'.cancelled
    ensures GoodEscrow(e')
  {
    SameTermsSums(e.payments, e'.payments);
    forall i | 0 <= i < |e'.payments|
      ensures GoodRow(e'.payments[i])
    {
      assert TermsOf(e'.payments[i]) == TermsOf(e.payments[i]) && GoodRow(e.payments[i]);
    }
  }

  /** What a committed effect leaves of the escrow it names. */
  lemma EffectGood(h: Host, s: Chain, st: Step)
    requires Structured(h, s) && st.call.OnEscrow() && EffectOf(h, s, st).Ok? && EntersUnpaid(st)
    ensures
      var eff := EffectOf(h, s, st).value;
      && GoodEscrow(eff.escrow)
      && (eff.id in s.escrows ==> !Closed(s.escrows[eff.id]) && Evolves(s.escrows[eff.id], eff.escrow))
      && (st.call.InitializeCall? ==> !Closed(eff.escrow))
      && (st.call.PayCall? || st.call.CancelCall? ==> Closed(eff.escrow))
  {
    FourKinds(h, s, st);
    hide EffectOf;
    var eff := EffectOf(h, s, st).value;
    if eff.id in s.escrows {
      var e := s.escrows[eff.id];
      assert GoodEscrow(e);
      if st.call.CancelCall? {
        assert eff.escrow.payments[0].status == Cancelled;
        NotAllFinalized(eff.escrow.payments, 0);
      }
      EvolvesGood(e, eff.escrow);
    }
  }

  lemma StepStructured(h: Host, s: Chain, st: Step)
    requires Structured(h, s) && Outside(h, st) && EntersUnpaid(st)
    ensures Structured(h, Do(h, s, st).1)
  {
    if st.call.OnEscrow() {
      OnEscrowStep(h, s, st);
      if EffectOf(h, s, st).Ok? {
        EffectGood(h, s, st);
        FourKinds(h, s, st);
      }
    } else {
      OtherCallsKeep(h, s, st);
    }
    hide EffectOf, Do;
  }

  /** A step keeps every stored escrow's parties and terms, and leaves a closed escrow exactly as it was. */
  lemma StepEvolves(h: Host, s: Chain, st: Step, id: nat)
    requires Structured(h, s) && EntersUnpaid(st) && id in s.escrows
    ensures
      var s' := Do(h, s, st).1;
      && id in s'.escrows && Evolves(s.escrows[id], s'.escrows[id])
      && (Closed(s.escrows[id]) ==> s'.escrows[id] == s.escrows[id])
  {
    if st.call.OnEscrow() {
      OnEscrowStep(h, s, st);
      if EffectOf(h, s, st).Ok? {
        EffectGood(h, s, st);
      }
    } else {
      OtherCallsKeep(h, s, st);
    }
    hide EffectOf, Do;
  }

  lemma {:induction false} RunStructured(h: Host, bal: Balances, tr: Trace)
    requires Admissible(h, tr)
    ensures Structured(h, Run(h, Genesis(bal), tr))
  {
    if tr != [] {
      var front := tr[..|tr| - 1];
      RunStructured(h, bal, front);
      StepStructured(h, Run(h, Genesis(bal), front), tr[|tr| - 1]);
    }
  }

  /**
   * Over any continuation of a run, an escrow keeps its manager, finance approver and every row's worker, token,
   * amount, rate and period; and once settled or cancelled it never changes at all.
   */
  lemma {:induction false} TermsAreImmutable(h: Host, s: Chain, tr: Trace, id: nat)
    requires Structured(h, s) && Admissible(h, tr) && id in s.escrows
    ensures Structured(h, Run(h, s, tr)) && id in Run(h, s, tr).escrows
    ensures Evolves(s.escrows[id], Run(h, s, tr).escrows[id])
    ensures Closed(s.escrows[id]) ==> Run(h, s, tr).escrows[id] == s.escrows[id]
  {
    if tr != [] {
      var front, last := tr[..|tr| - 1], tr[|tr| - 1];
      var mid := Run(h, s, front);
      TermsAreImmutable(h, s, front, id);
      StepStructured(h, mid, last);
      StepEvolves(h, mid, last, id);
      SameTermsTrans(s.escrows[id].payments, mid.escrows[id].payments, Run(h, s, tr).escrows[id].payments);
    }
  }

  lemma {:induction false} RunSplit(h: Host, s: Chain, a: Trace, b: Trace)
    ensures Run(h, s, a + b) == Run(h, Run(h, s, a), b)
  {
    if b == [] {
      assert a + b == a;
    } else {
      var n := |b| - 1;
      assert (a + b)[..|a + b| - 1] == a + b[..n];
      RunSplit(h, s, a, b[..n]);
    }
  }

  /**
   * An escrow's custody leaves at most once: after a settlement or a cancellation, no later call naming the
   * escrow succeeds.
   */
  lemma ClosedIsFinal(h: Host, bal: Balances, tr: Trace, i: nat, j: nat)
    requires Admissible(h, tr) && i < j < |tr|
    requires tr[i].call.PayCall? || tr[i].call.CancelCall?
    requires tr[j].call.OnEscrow() && !tr[j].call.InitializeCall? && Target(Run(h, Genesis(bal), tr[..j]), tr[j].call) == tr[i].call.id
    requires Succeeds(h, Genesis(bal), tr, i)
    ensures !Succeeds(h, Genesis(bal), tr, j)
  {
    hide EffectOf, Do, Run;
    var s0, id := Genesis(bal), tr[i].call.id;
    var si, si', sj := Run(h, s0, tr[..i]), Run(h, s0, tr[..i + 1]), Run(h, s0, tr[..j]);
    RunStructured(h, bal, tr[..i]);
    RunStructured(h, bal, tr[..i + 1]);
    RunExtend(h, s0, tr, i);
    ClosesIt(h, si, tr[i]);
    assert tr[..j] == tr[..i + 1] + tr[i + 1..j];
    RunSplit(h, s0, tr[..i + 1], tr[i + 1..j]);
    TermsAreImmutable(h, si', tr[i + 1..j], id);
    NothingOnClosed(h, sj, tr[j]);
  }

  lemma ClosesIt(h: Host, s: Chain, st: Step)
    requires Structured(h, s) && (st.call.PayCall? || st.call.CancelCall?) && Do(h, s, st).0
    ensures var s' := Do(h, s, st).1; st.call.id in s'.escrows && Closed(s'.escrows[st.call.id])
  {
    OnEscrowStep(h, s, st);
    EffectGood(h, s, st);
    FourKinds(h, s, st);
    hide EffectOf, Do;
  }

  lemma NothingOnClosed(h: Host, s: Chain, st: Step)
    requires Structured(h, s) && st.call.OnEscrow() && !st.call.InitializeCall?
    requires Target(s, st.call) in s.escrows && Closed(s.escrows[Target(s, st.call)])
    ensures !Do(h, s, st).0
  {
    OnEscrowStep(h, s, st);
    if EffectOf(h, s, st).Ok? {
      EffectGood(h, s, st);
      FourKinds(h, s, st);
    }
  }
}
