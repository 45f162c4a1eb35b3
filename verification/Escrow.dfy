/**
 * The custody contract as a value: its storage, the token balances it moves, its event log, and what each
 * entry point does to them. `CoreFlowContract` is the object that implements these steps.
 */
module Escrow {
  import opened Prelude
  import opened ByteStrings
  import opened OracleMessage

  const MAX_BATCH_SIZE: nat := 100

  datatype ContractError =
    | AlreadyApproved | InvalidPaymentId | InsufficientApprovals | PaymentAlreadyFinalized | InvalidAmount
    | EscrowCancelled | InvalidNonce | NotAdmin | Paused | AdminAlreadySet | ProofMissing | NonceOverflow
    | SignersNotDistinct | OracleKeyNotRegistered | AmountHoursMismatch | InvalidPeriod | BatchTooLarge
    | AdminMismatch | NoPendingAdmin

  /** A call returns a value, returns an error, or traps the host; only the first keeps its writes. */
  datatype Outcome<+T> = Ok(value: T) | Err(error: ContractError) | Trap

  datatype PaymentStatus = Pending | ManagerApproved | FinanceApproved | Finalized | Cancelled

  datatype PaymentSchedule = PaymentSchedule(
    id: u32, worker: Address, token: Address, amount: i128, startDate: u64, endDate: u64,
    hoursLogged: i128, ratePerHour: i128, proofVerified: bool, status: PaymentStatus)

  type Rows = seq<PaymentSchedule>

  datatype CoreFlowEscrow = CoreFlowEscrow(
    manager: Address, financeApprover: Address, oraclePubkey: Bytes, payments: Rows,
    managerApproved: bool, financeApproved: bool, cancelled: bool, oracleRotations: nat)

  // ----- events -----

  datatype Symbol =
    | Admin | EscrowSym | Payment | Hours | Approve | Oracle
    | Init | Propose | Accept | PausedSym | Reg | Revoke | Rotate | Created | Add | Submit
    | Manager | Finance | Paid | Final | Cancel

  datatype Val = Num(n: int) | Addr(a: Address) | Key(k: Bytes) | Flag(b: bool)

  datatype ContractEvent = ContractEvent(topic0: Symbol, topic1: Symbol, data: seq<Val>)

  // ----- token balances -----

  /** Balances per (token, holder); an absent entry is a zero balance. */
  type Balances = map<(Address, Address), int>

  function Bal(bal: Balances, token: Address, holder: Address): int {
    if (token, holder) in bal then bal[(token, holder)] else 0
  }

  /** What the host supplies for good: the contract's own address, the network and the crypto primitives. */
  datatype Host = Host(
    contract: Address,
    networkId: Bytes,
    digest: Address -> Bytes,
    ed25519: (Bytes, Bytes, Bytes) -> bool,
    pinnedAdmin: Option<Address>)

  /**
   * What one invocation brings: the addresses that authorised it, and the (token, from, to) transfers
   * the token contracts would refuse for reasons of their own (no trustline, a frozen account).
   */
  datatype Invocation = Invocation(auth: set<Address>, refused: set<(Address, Address, Address)>)

  function Transfer(bal: Balances, inv: Invocation, token: Address, from: Address, to: Address, amount: int): (r: Option<Balances>)
    ensures r.Some? ==> 0 <= amount <= Bal(bal, token, from)
  {
    if amount < 0 || (token, from, to) in inv.refused || Bal(bal, token, from) < amount then None
    else
      var debited := bal[(token, from) := Bal(bal, token, from) - amount];
      if Bal(debited, token, to) + amount >= I128_LIMIT then None
      else Some(debited[(token, to) := Bal(debited, token, to) + amount])
  }

  // ----- storage -----

  datatype Chain = Chain(
    escrowCount: nat,
    escrows: map<nat, CoreFlowEscrow>,
    nonces: map<nat, nat>,
    admin: Option<Address>,
    pendingAdmin: Option<Address>,
    paused: bool,
    oracleKeys: set<Bytes>,
    balances: Balances,
    log: seq<ContractEvent>)

  function Genesis(balances: Balances): Chain {
    Chain(0, map[], map[], None, None, false, {}, balances, [])
  }

  /**
   * What a successful call on escrow `id` writes: the escrow, the next nonce where it changes, the balances and
   * the events. Nothing else in storage moves.
   */
  datatype Effect = Effect(
    id: nat, count: nat, escrow: CoreFlowEscrow, nonce: Option<nat>, balances: Balances, events: seq<ContractEvent>)

  /** Writes are kept only when the call succeeds. */
  function Commit(s: Chain, o: Outcome<Effect>): Chain {
    if !o.Ok? then s
    else
      var eff := o.value;
      s.(escrowCount := eff.count,
         escrows := s.escrows[eff.id := eff.escrow],
         nonces := if eff.nonce.Some? then s.nonces[eff.id := eff.nonce.value] else s.nonces,
         balances := eff.balances,
         log := s.log + eff.events)
  }

  /** A change to one stored escrow that moves no money. */
  function Update(s: Chain, id: nat, e: CoreFlowEscrow, topic0: Symbol, topic1: Symbol, data: seq<Val>): Effect {
    Effect(id, s.escrowCount, e, None, s.balances, [ContractEvent(topic0, topic1, data)])
  }

  /** A failed outcome, seen at another result type. */
  function Failure<T>(o: Outcome<Effect>): Outcome<T>
    requires !o.Ok?
  {
    if o.Err? then Err(o.error) else Trap
  }

  /** The caller's view of an outcome that returns nothing. */
  function Done(o: Outcome<Effect>): Outcome<()> {
    if o.Ok? then Ok(()) else Failure(o)
  }

  function Emit(s: Chain, topic0: Symbol, topic1: Symbol, data: seq<Val>): Chain {
    s.(log := s.log + [ContractEvent(topic0, topic1, data)])
  }

  /** With no admin configured there is no registry to consult, and any key is accepted. */
  predicate OracleAccepted(s: Chain, key: Bytes) {
    s.admin == None || key in s.oracleKeys
  }

  // ----- administration -----

  function InitAdmin(h: Host, inv: Invocation, s: Chain, admin: Address): (Outcome<()>, Chain) {
    if s.admin.Some? then (Err(AdminAlreadySet), s)
    else if h.pinnedAdmin.Some? && admin != h.pinnedAdmin.value then (Err(AdminMismatch), s)
    else if admin !in inv.auth then (Trap, s)
    else (Ok(()), Emit(s.(admin := Some(admin)), Admin, Init, [Addr(admin)]))
  }

  /** The guard in front of every admin-only entry point. */
  function RequireAdmin(inv: Invocation, s: Chain): Outcome<()> {
    if s.admin == None then Err(NotAdmin)
    else if s.admin.value !in inv.auth then Trap
    else Ok(())
  }

  function AsAdmin(inv: Invocation, s: Chain, s': Chain): (Outcome<()>, Chain) {
    if RequireAdmin(inv, s).Ok? then (Ok(()), s') else (RequireAdmin(inv, s), s)
  }

  function ProposeAdmin(inv: Invocation, s: Chain, newAdmin: Address): (Outcome<()>, Chain) {
    AsAdmin(inv, s, Emit(s.(pendingAdmin := Some(newAdmin)), Admin, Propose, [Addr(newAdmin)]))
  }

  function AcceptAdmin(inv: Invocation, s: Chain): (Outcome<()>, Chain) {
    if s.pendingAdmin == None then (Err(NoPendingAdmin), s)
    else if s.pendingAdmin.value !in inv.auth then (Trap, s)
    else (Ok(()), Emit(s.(admin := s.pendingAdmin, pendingAdmin := None), Admin, Accept, [Addr(s.pendingAdmin.value)]))
  }

  function SetPaused(inv: Invocation, s: Chain, paused: bool): (Outcome<()>, Chain) {
    AsAdmin(inv, s, Emit(s.(paused := paused), Admin, PausedSym, [Flag(paused)]))
  }

  function RegisterOracleKey(inv: Invocation, s: Chain, key: Bytes): (Outcome<()>, Chain) {
    AsAdmin(inv, s, Emit(s.(oracleKeys := s.oracleKeys + {key}), Oracle, Reg, [Key(key)]))
  }

  function RevokeOracleKey(inv: Invocation, s: Chain, key: Bytes): (Outcome<()>, Chain) {
    AsAdmin(inv, s, Emit(s.(oracleKeys := s.oracleKeys - {key}), Oracle, Revoke, [Key(key)]))
  }

  // ----- funding an escrow -----

  /** The sum of the rows paid in `token`. */
  function TokenSum(rows: Rows, token: Address): (t: int)
    ensures (forall r :: r in rows ==> r.amount > 0) ==> t >= 0
  {
    if rows == [] then 0
    else TokenSum(rows[..|rows| - 1], token) + (var r := rows[|rows| - 1]; if r.token == token then r.amount else 0)
  }

  function Total(rows: Rows): int {
    if rows == [] then 0 else Total(rows[..|rows| - 1]) + rows[|rows| - 1].amount
  }

  function Tokens(rows: Rows): set<Address> {
    set i | 0 <= i < |rows| :: rows[i].token
  }

  /** What the row guard says of one row, given the total of the rows before it. */
  function CheckRow(p: PaymentSchedule, total: int): Outcome<int> {
    if p.amount <= 0 || p.ratePerHour <= 0 then Err(InvalidAmount)
    else if p.endDate <= p.startDate then Err(InvalidPeriod)
    else if p.amount % p.ratePerHour != 0 then Err(AmountHoursMismatch)
    else if total + p.amount >= I128_LIMIT then Trap
    else Ok(total + p.amount)
  }

  function CheckRows(rows: Rows): Outcome<int> {
    if rows == [] then Ok(0)
    else
      var before := CheckRows(rows[..|rows| - 1]);
      if before.Ok? then CheckRow(rows[|rows| - 1], before.value) else before
  }

  /** The (token, holder) entries that moving `tokens` between two holders touches. */
  function Legs(tokens: set<Address>, from: Address, to: Address): (legs: set<(Address, Address)>)
    ensures forall t, a :: (t, a) in legs <==> t in tokens && (a == from || a == to)
  {
    (set t | t in tokens :: (t, from)) + (set t | t in tokens :: (t, to))
  }

  /** Custody moved in one step: per token, exactly that token's row sum leaves `from` and reaches `to`. */
  function Shift(bal: Balances, rows: Rows, from: Address, to: Address): Balances {
    map k | k in bal.Keys + Legs(Tokens(rows), from, to) ::
      Bal(bal, k.0, k.1)
      - (if k.1 == from then TokenSum(rows, k.0) else 0)
      + (if k.1 == to then TokenSum(rows, k.0) else 0)
  }

  /** Whether a single transfer of `token`'s whole row sum would go through. */
  predicate TokenMoves(bal: Balances, inv: Invocation, rows: Rows, token: Address, from: Address, to: Address) {
    && (token, from, to) !in inv.refused
    && TokenSum(rows, token) <= Bal(bal, token, from)
    && Bal(bal, token, to) + TokenSum(rows, token) < I128_LIMIT
  }

  predicate ShiftAllowed(bal: Balances, inv: Invocation, rows: Rows, from: Address, to: Address) {
    forall t :: t in Tokens(rows) ==> TokenMoves(bal, inv, rows, t, from, to)
  }

  function RowEvents(id: nat, rows: Rows): seq<ContractEvent> {
    if rows == [] then []
    else
      var i, p := |rows| - 1, rows[|rows| - 1];
      RowEvents(id, rows[..i]) +
      [ContractEvent(Payment, Add, [Num(id), Num(i), Addr(p.worker), Addr(p.token), Num(p.amount),
                                    Num(p.ratePerHour), Num(p.startDate), Num(p.endDate)])]
  }

  function CreationEvents(id: nat, manager: Address, total: int, rows: Rows): seq<ContractEvent> {
    [ContractEvent(EscrowSym, Created, [Num(id), Addr(manager), Num(total)])] + RowEvents(id, rows)
  }

  function NewEscrow(manager: Address, finance: Address, key: Bytes, rows: Rows): CoreFlowEscrow {
    CoreFlowEscrow(manager, finance, key, rows, false, false, false, 0)
  }

  function Initialize(h: Host, inv: Invocation, s: Chain, manager: Address, finance: Address, key: Bytes, rows: Rows): Outcome<Effect> {
    if s.paused then Err(Paused)
    else if manager !in inv.auth then Trap
    else if manager == finance then Err(SignersNotDistinct)
    else if rows == [] then Err(InvalidAmount)
    else if |rows| > MAX_BATCH_SIZE then Err(BatchTooLarge)
    else if !OracleAccepted(s, key) then Err(OracleKeyNotRegistered)
    else match CheckRows(rows)
      case Err(e) => Err(e)
      case Trap => Trap
      case Ok(total) =>
        if s.escrowCount + 1 >= U32_LIMIT then Trap
        else if !ShiftAllowed(s.balances, inv, rows, manager, h.contract) then Trap
        else
          var id := s.escrowCount + 1;
          Ok(Effect(id, id, NewEscrow(manager, finance, key, rows), Some(0),
                    Shift(s.balances, rows, manager, h.contract),
                    CreationEvents(id, manager, total, rows)))
  }

  // ----- the oracle -----

  function Proof(h: Host, id: u32, pid: u32, p: PaymentSchedule, hours: i128, nonce: u64): WorkProof {
    WorkProof(h.networkId, h.contract, p.worker, p.token, id, pid, p.amount, hours, p.startDate, p.endDate, nonce)
  }

  function Revoked(rows: Rows): (r: Rows)
    ensures |r| == |rows| && forall i :: 0 <= i < |rows| ==> r[i] == rows[i].(proofVerified := false)
  {
    seq(|rows|, i requires 0 <= i < |rows| => rows[i].(proofVerified := false))
  }

  predicate AnyFinalized(rows: Rows) {
    exists i :: 0 <= i < |rows| && rows[i].status == Finalized
  }

  function RotateOracleKey(inv: Invocation, s: Chain, id: nat, key: Bytes): Outcome<Effect> {
    if s.paused then Err(Paused)
    else if id !in s.escrows then Err(InvalidPaymentId)
    else
      var e := s.escrows[id];
      if e.manager !in inv.auth then Trap
      else if !OracleAccepted(s, key) then Err(OracleKeyNotRegistered)
      else if e.cancelled then Err(EscrowCancelled)
      else if AnyFinalized(e.payments) then Err(PaymentAlreadyFinalized)
      else if e.oracleRotations + 1 >= U32_LIMIT then Trap
      else
        var e' := e.(oraclePubkey := key, oracleRotations := e.oracleRotations + 1, payments := Revoked(e.payments));
        Ok(Update(s, id, e', Oracle, Rotate, [Num(id), Num(e'.oracleRotations)]))
  }

  function NonceOf(s: Chain, id: nat): nat {
    if id in s.nonces then s.nonces[id] else 0
  }

  function SubmitHoursProof(h: Host, inv: Invocation, s: Chain, id: u32, pid: u32, hours: i128, nonce: u64, sig: Bytes)
    : Outcome<Effect>
  {
    if s.paused then Err(Paused)
    else if id !in s.escrows then Err(InvalidPaymentId)
    else
      var e := s.escrows[id];
      if e.cancelled then Err(EscrowCancelled)
      else if e.managerApproved || e.financeApproved then Err(AlreadyApproved)
      else if pid >= |e.payments| then Err(InvalidPaymentId)
      else
        var p := e.payments[pid];
        var earned := hours * p.ratePerHour;
        if !(-I128_LIMIT <= earned < I128_LIMIT) then Err(InvalidAmount)
        else if earned != p.amount then Err(AmountHoursMismatch)
        else if !h.ed25519(e.oraclePubkey, ProofMessage(h.digest, Proof(h, id, pid, p, hours, nonce)), sig) then Trap
        else if nonce != NonceOf(s, id) then Err(InvalidNonce)
        else if nonce + 1 >= U64_LIMIT then Err(NonceOverflow)
        else
          var p' := p.(hoursLogged := hours, proofVerified := true);
          Ok(Update(s, id, e.(payments := e.payments[pid := p']), Hours, Submit, [Num(id), Num(pid), Num(hours)])
               .(nonce := Some(nonce + 1)))
  }

  // ----- approvals -----

  function ManagerApprove(inv: Invocation, s: Chain, id: nat): Outcome<Effect> {
    if s.paused then Err(Paused)
    else if id !in s.escrows then Err(InvalidPaymentId)
    else
      var e := s.escrows[id];
      if e.cancelled then Err(EscrowCancelled)
      else if e.manager !in inv.auth then Trap
      else if e.managerApproved then Err(AlreadyApproved)
      else Ok(Update(s, id, e.(managerApproved := true), Approve, Manager, [Num(id)]))
  }

  function FinanceApprove(inv: Invocation, s: Chain, id: nat): Outcome<Effect> {
    if s.paused then Err(Paused)
    else if id !in s.escrows then Err(InvalidPaymentId)
    else
      var e := s.escrows[id];
      if e.cancelled then Err(EscrowCancelled)
      else if e.financeApprover !in inv.auth then Trap
      else if e.financeApproved then Err(AlreadyApproved)
      else Ok(Update(s, id, e.(financeApproved := true), Approve, Finance, [Num(id)]))
  }

  // ----- settlement and cancellation -----

  /** The first row that stops a settlement, if any. */
  function PayGuard(rows: Rows): Outcome<()> {
    if rows == [] then Ok(())
    else
      var before := PayGuard(rows[..|rows| - 1]);
      var p := rows[|rows| - 1];
      if !before.Ok? then before
      else if p.status == Finalized then Err(PaymentAlreadyFinalized)
      else if !p.proofVerified then Err(ProofMissing)
      else Ok(())
  }

  /** One transfer per row, from custody to that row's worker, in row order. */
  function PayRows(bal: Balances, inv: Invocation, from: Address, rows: Rows): Option<Balances> {
    if rows == [] then Some(bal)
    else
      var p := rows[|rows| - 1];
      match PayRows(bal, inv, from, rows[..|rows| - 1])
      case None => None
      case Some(b) => Transfer(b, inv, p.token, from, p.worker, p.amount)
  }

  function PaidEvents(id: nat, rows: Rows): seq<ContractEvent> {
    if rows == [] then []
    else
      var i, p := |rows| - 1, rows[|rows| - 1];
      PaidEvents(id, rows[..i]) +
      [ContractEvent(Payment, Paid, [Num(id), Num(i), Addr(p.worker), Addr(p.token), Num(p.amount), Num(p.hoursLogged)])]
  }

  function WithStatus(rows: Rows, status: PaymentStatus): (r: Rows)
    ensures |r| == |rows| && forall i :: 0 <= i < |rows| ==> r[i] == rows[i].(status := status)
  {
    seq(|rows|, i requires 0 <= i < |rows| => rows[i].(status := status))
  }

  function PayBatch(h: Host, inv: Invocation, s: Chain, id: nat): Outcome<Effect> {
    if s.paused then Err(Paused)
    else if id !in s.escrows then Err(InvalidPaymentId)
    else
      var e := s.escrows[id];
      if e.cancelled then Err(EscrowCancelled)
      else if e.manager !in inv.auth then Trap
      else if e.manager == e.financeApprover then Err(SignersNotDistinct)
      else if !e.managerApproved || !e.financeApproved then Err(InsufficientApprovals)
      else if PayGuard(e.payments).Err? then Err(PayGuard(e.payments).error)
      else match PayRows(s.balances, inv, h.contract, e.payments)
        case None => Trap
        case Some(bal) =>
          if !(-I128_LIMIT <= Total(e.payments) < I128_LIMIT) then Trap
          else
            var paid := WithStatus(e.payments, Finalized);
            Ok(Effect(id, s.escrowCount, e.(payments := paid), None, bal,
                      PaidEvents(id, e.payments) + [ContractEvent(Payment, Final, [Num(id), Num(Total(e.payments)), Num(|paid|)])]))
  }

  function CancelEvents(id: nat, n: nat): (evs: seq<ContractEvent>)
    ensures |evs| == n
  {
    if n == 0 then [] else CancelEvents(id, n - 1) + [ContractEvent(Payment, Cancel, [Num(id), Num(n - 1)])]
  }

  function CancelEscrow(h: Host, inv: Invocation, s: Chain, id: nat): Outcome<Effect> {
    if id !in s.escrows then Err(InvalidPaymentId)
    else
      var e := s.escrows[id];
      if e.cancelled then Err(EscrowCancelled)
      else if e.manager !in inv.auth then Trap
      else if AnyFinalized(e.payments) then Err(PaymentAlreadyFinalized)
      else if !ShiftAllowed(s.balances, inv, e.payments, h.contract, e.manager) then Trap
      else
        Ok(Effect(id, s.escrowCount, e.(cancelled := true, payments := WithStatus(e.payments, Cancelled)), None,
                  Shift(s.balances, e.payments, h.contract, e.manager),
                  CancelEvents(id, |e.payments|) + [ContractEvent(EscrowSym, Cancel, [Num(id)])]))
  }
}
