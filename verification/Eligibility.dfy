/**
 * When a batch may be funded, the plan that funding would sign, and why the contract then accepts it.
 */
module Eligibility {
  import opened Prelude
  import opened ByteStrings
  import opened Escrow
  import opened Custody
  import opened CoreFlowContract
  import opened StateMachine

  const MAX_FUNDABLE_PAYMENTS: nat := 100

  const FUNDABLE_STATES: set<PaymentState> := {DRAFT, VALIDATING}

  const FUNDING_ROLES: set<OrgRole> := {OWNER, ADMIN, MANAGER}

  datatype TxStatus = PREPARING | SIMULATING | AWAITING_SIGNATURE | SUBMITTED | CONFIRMED | FAILED | TX_EXPIRED | TX_CANCELLED

  const IN_FLIGHT: set<TxStatus> := {PREPARING, SIMULATING, AWAITING_SIGNATURE, SUBMITTED}

  /** Period ends in milliseconds since the epoch. */
  datatype FundingPayment = FundingPayment(
    id: string, recipient: Address, assetCode: string, amount: int, rate: int, hours: int,
    periodStart: Option<int>, periodEnd: Option<int>, state: PaymentState, onEscrow: bool, slot: Option<nat>)

  datatype Asset = Asset(code: string, contractId: Option<Address>)

  datatype Request = Request(
    payments: seq<FundingPayment>, asset: Asset, wallet: Address, role: OrgRole,
    financeApprover: Option<Address>, attempt: Option<TxStatus>, oracleKey: Option<Bytes>)

  datatype BlockerCode =
    | NO_PAYMENTS | TOO_MANY_PAYMENTS | ALREADY_FUNDED | FUNDING_IN_FLIGHT | PAYMENT_NOT_FUNDABLE
    | PAYMENT_ALREADY_ON_CHAIN | SETTLEMENT_ASSET_UNCONFIGURED | ASSET_MISMATCH | MIXED_ASSETS
    | AMOUNT_NOT_POSITIVE | HOURS_RATE_MISMATCH | PERIOD_REQUIRED | PERIOD_INVALID
    | NO_DISTINCT_FINANCE_APPROVER | ORACLE_KEY_UNAVAILABLE | ROLE_NOT_PERMITTED

  /** A reason the batch may not be funded, with the 1-based row it is about. */
  datatype Blocker = Blocker(code: BlockerCode, position: Option<nat>)

  function When(condition: bool, code: BlockerCode): seq<Blocker> {
    if condition then [Blocker(code, None)] else []
  }

  function AtRow(condition: bool, code: BlockerCode, position: nat): seq<Blocker> {
    if condition then [Blocker(code, Some(position))] else []
  }

  function PlaceBlockers(r: Request, p: FundingPayment, position: nat): seq<Blocker> {
    AtRow(p.state !in FUNDABLE_STATES, PAYMENT_NOT_FUNDABLE, position)
    + AtRow(p.onEscrow || p.slot.Some?, PAYMENT_ALREADY_ON_CHAIN, position)
    + AtRow(p.assetCode != r.asset.code, ASSET_MISMATCH, position)
  }

  function MoneyBlockers(p: FundingPayment, position: nat): seq<Blocker> {
    var priced := p.amount > 0 && p.rate > 0 && p.hours > 0;
    AtRow(!priced, AMOUNT_NOT_POSITIVE, position)
    + AtRow(priced && p.hours * p.rate != p.amount, HOURS_RATE_MISMATCH, position)
  }

  function PeriodBlockers(p: FundingPayment, position: nat): seq<Blocker> {
    var dated := p.periodStart.Some? && p.periodEnd.Some?;
    AtRow(!dated, PERIOD_REQUIRED, position)
    + AtRow(dated && p.periodEnd.value <= p.periodStart.value, PERIOD_INVALID, position)
  }

  function RowBlockers(r: Request, p: FundingPayment, position: nat): seq<Blocker> {
    PlaceBlockers(r, p, position) + MoneyBlockers(p, position) + PeriodBlockers(p, position)
  }

  function AllRowBlockers(r: Request, n: nat): seq<Blocker>
    requires n <= |r.payments|
  {
    if n == 0 then [] else AllRowBlockers(r, n - 1) + RowBlockers(r, r.payments[n - 1], n)
  }

  function AssetCodes(payments: seq<FundingPayment>): set<string> {
    set i | 0 <= i < |payments| :: payments[i].assetCode
  }

  function WhoBlockers(r: Request): seq<Blocker> {
    When(r.role !in FUNDING_ROLES, ROLE_NOT_PERMITTED)
    + When(r.attempt == Some(CONFIRMED), ALREADY_FUNDED)
    + When(r.attempt.Some? && r.attempt.value in IN_FLIGHT, FUNDING_IN_FLIGHT)
  }

  function BatchBlockers(r: Request): seq<Blocker> {
    When(r.payments == [], NO_PAYMENTS)
    + When(|r.payments| > MAX_FUNDABLE_PAYMENTS, TOO_MANY_PAYMENTS)
    + When(r.asset.contractId == None, SETTLEMENT_ASSET_UNCONFIGURED)
    + When(|AssetCodes(r.payments)| > 1, MIXED_ASSETS)
  }

  function HeadBlockers(r: Request): seq<Blocker> {
    WhoBlockers(r) + BatchBlockers(r)
  }

  function TailBlockers(r: Request): seq<Blocker> {
    When(r.financeApprover == None || r.financeApprover == Some(r.wallet), NO_DISTINCT_FINANCE_APPROVER)
    + When(r.oracleKey == None, ORACLE_KEY_UNAVAILABLE)
  }

  function Blockers(r: Request): seq<Blocker> {
    HeadBlockers(r) + AllRowBlockers(r, |r.payments|) + TailBlockers(r)
  }

  function Sum(payments: seq<FundingPayment>): int {
    if payments == [] then 0 else Sum(payments[..|payments| - 1]) + payments[|payments| - 1].amount
  }

  /** Every blocker, in order, and the exact total. */
  method AssessFundingEligibility(r: Request) returns (eligible: bool, blockers: seq<Blocker>, total: int)
    ensures blockers == Blockers(r) && total == Sum(r.payments)
    ensures eligible <==> Blockers(r) == []
  {
    blockers := AssessBatch(r);
    hide HeadBlockers, TailBlockers, RowBlockers;
    total := 0;
    var i := 0;
    while i < |r.payments|
      invariant 0 <= i <= |r.payments|
      invariant blockers == HeadBlockers(r) + AllRowBlockers(r, i)
      invariant total == Sum(r.payments[..i])
    {
      assert r.payments[..i + 1][..i] == r.payments[..i];
      var found := AssessRow(r, r.payments[i], i + 1);
      blockers := blockers + found;
      total := total + r.payments[i].amount;
      i := i + 1;
    }
    assert r.payments[..i] == r.payments;
    var tail := AssessApprovers(r);
    blockers := blockers + tail;
    eligible := |blockers| == 0;
  }

  method AssessBatch(r: Request) returns (found: seq<Blocker>)
    ensures found == HeadBlockers(r)
  {
    found := [];
    if r.role !in FUNDING_ROLES { found := found + [Blocker(ROLE_NOT_PERMITTED, None)]; }
    if r.attempt == Some(CONFIRMED) {
      found := found + [Blocker(ALREADY_FUNDED, None)];
    } else if r.attempt.Some? && r.attempt.value in IN_FLIGHT {
      found := found + [Blocker(FUNDING_IN_FLIGHT, None)];
    }
    assert found == WhoBlockers(r);
    hide WhoBlockers, BatchBlockers;
    var batch := AssessContents(r);
    found := found + batch;
  }

  method AssessContents(r: Request) returns (found: seq<Blocker>)
    ensures found == BatchBlockers(r)
  {
    hide AssetCodes;
    found := [];
    if r.payments == [] { found := found + [Blocker(NO_PAYMENTS, None)]; }
    if |r.payments| > MAX_FUNDABLE_PAYMENTS { found := found + [Blocker(TOO_MANY_PAYMENTS, None)]; }
    if r.asset.contractId == None { found := found + [Blocker(SETTLEMENT_ASSET_UNCONFIGURED, None)]; }
    if |AssetCodes(r.payments)| > 1 { found := found + [Blocker(MIXED_ASSETS, None)]; }
  }

  method AssessRow(r: Request, p: FundingPayment, position: nat) returns (found: seq<Blocker>)
    ensures found == RowBlockers(r, p, position)
  {
    found := [];
    if p.state !in FUNDABLE_STATES { found := found + [Blocker(PAYMENT_NOT_FUNDABLE, Some(position))]; }
    if p.onEscrow || p.slot.Some? { found := found + [Blocker(PAYMENT_ALREADY_ON_CHAIN, Some(position))]; }
    if p.assetCode != r.asset.code { found := found + [Blocker(ASSET_MISMATCH, Some(position))]; }
    assert found == PlaceBlockers(r, p, position);
    var money := [];
    if p.amount <= 0 || p.rate <= 0 || p.hours <= 0 {
      money := [Blocker(AMOUNT_NOT_POSITIVE, Some(position))];
    } else if p.hours * p.rate != p.amount {
      money := [Blocker(HOURS_RATE_MISMATCH, Some(position))];
    }
    assert money == MoneyBlockers(p, position);
    var period := [];
    if p.periodStart == None || p.periodEnd == None {
      period := [Blocker(PERIOD_REQUIRED, Some(position))];
    } else if p.periodEnd.value <= p.periodStart.value {
      period := [Blocker(PERIOD_INVALID, Some(position))];
    }
    assert period == PeriodBlockers(p, position);
    hide PlaceBlockers, MoneyBlockers, PeriodBlockers;
    found := found + money + period;
  }

  method AssessApprovers(r: Request) returns (found: seq<Blocker>)
    ensures found == TailBlockers(r)
  {
    found := [];
    if r.financeApprover == None {
      found := found + [Blocker(NO_DISTINCT_FINANCE_APPROVER, None)];
    } else if r.financeApprover.value == r.wallet {
      found := found + [Blocker(NO_DISTINCT_FINANCE_APPROVER, None)];
    }
    if r.oracleKey == None { found := found + [Blocker(ORACLE_KEY_UNAVAILABLE, None)]; }
  }

  // ----- what eligibility means -----

  predicate FundableRow(r: Request, p: FundingPayment) {
    && p.state in FUNDABLE_STATES && !p.onEscrow && p.slot == None && p.assetCode == r.asset.code
    && p.amount > 0 && p.rate > 0 && p.hours > 0 && p.hours * p.rate == p.amount
    && p.periodStart.Some? && p.periodEnd.Some? && p.periodStart.value < p.periodEnd.value
  }

  ghost predicate Fundable(r: Request) {
    && r.role in FUNDING_ROLES
    && (r.attempt.Some? ==> r.attempt.value != CONFIRMED && r.attempt.value !in IN_FLIGHT)
    && 0 < |r.payments| <= MAX_FUNDABLE_PAYMENTS
    && r.asset.contractId.Some? && r.financeApprover.Some? && r.financeApprover.value != r.wallet && r.oracleKey.Some?
    && forall i :: 0 <= i < |r.payments| ==> FundableRow(r, r.payments[i])
  }

  lemma RowClear(r: Request, p: FundingPayment, position: nat)
    ensures RowBlockers(r, p, position) == [] <==> FundableRow(r, p)
  {
  }

  lemma {:induction false} RowsClear(r: Request, n: nat)
    requires n <= |r.payments|
    ensures AllRowBlockers(r, n) == [] <==> forall i :: 0 <= i < n ==> FundableRow(r, r.payments[i])
  {
    hide RowBlockers, FundableRow;
    if n > 0 {
      RowsClear(r, n - 1);
      RowClear(r, r.payments[n - 1], n);
    }
  }

  /** A batch is eligible exactly when every condition of funding holds; the mixed-asset check is then implied. */
  lemma EligibleExactly(r: Request)
    ensures Blockers(r) == [] <==> Fundable(r)
  {
    RowsClear(r, |r.payments|);
    hide AllRowBlockers;
    if forall i :: 0 <= i < |r.payments| ==> FundableRow(r, r.payments[i]) {
      assert AssetCodes(r.payments) <= {r.asset.code};
      AtMostOne(AssetCodes(r.payments), r.asset.code);
    }
  }

  lemma AtMostOne(codes: set<string>, code: string)
    requires codes <= {code}
    ensures |codes| <= 1
  {
    if codes != {} {
      assert codes == {code};
    }
  }

  // ----- the plan -----

  datatype PlanRow = PlanRow(paymentId: string, worker: Address, token: Address, amount: int, rate: int, start: int, end: int)

  datatype FundingPlan = FundingPlan(
    contractId: Address, custody: Address, network: string, manager: Address, financeApprover: Address, oracleKey: Bytes,
    asset: Address, total: int, rows: seq<PlanRow>)

  /** Whole seconds, rounding down. */
  function UnixSeconds(ms: int): int {
    ms / 1000
  }

  function PlanRowOf(p: FundingPayment, token: Address): PlanRow
    requires p.periodStart.Some? && p.periodEnd.Some?
  {
    PlanRow(p.id, p.recipient, token, p.amount, p.rate, UnixSeconds(p.periodStart.value), UnixSeconds(p.periodEnd.value))
  }

  /** The plan of an eligible batch, as the funder's wallet will sign it on one deployment. */
  function BuildFundingPlan(r: Request, contract: Address, network: string): FundingPlan
    requires Fundable(r)
  {
    FundingPlan(contract, contract, network, r.wallet, r.financeApprover.value, r.oracleKey.value, r.asset.contractId.value,
                Sum(r.payments),
                seq(|r.payments|, i requires 0 <= i < |r.payments| =>
                  assert FundableRow(r, r.payments[i]); PlanRowOf(r.payments[i], r.asset.contractId.value)))
  }

  /** Amounts and rates fit the database's 64-bit columns, and no period begins before the epoch. */
  ghost predicate Storable(r: Request) {
    forall i :: 0 <= i < |r.payments| ==>
      var p := r.payments[i];
      && p.amount < 0x8000_0000_0000_0000 && p.rate < 0x8000_0000_0000_0000
      && (p.periodStart.Some? ==> 0 <= p.periodStart.value < 8_640_000_000_000_001)
      && (p.periodEnd.Some? ==> 0 <= p.periodEnd.value < 8_640_000_000_000_001)
  }

  lemma StorableFits(r: Request, i: nat)
    requires Fundable(r) && Storable(r) && i < |r.payments|
    ensures
      var p := r.payments[i];
      && FundableRow(r, p) && 0 < p.amount < U64_LIMIT && 0 < p.rate < U64_LIMIT
      && 0 <= UnixSeconds(p.periodStart.value) < U64_LIMIT && 0 <= UnixSeconds(p.periodEnd.value) < U64_LIMIT
  {
  }

  /** The rows the client submits for a plan. */
  function Submitted(r: Request): (rows: Rows)
    requires Fundable(r) && Storable(r)
    ensures |rows| == |r.payments|
  {
    seq(|r.payments|, i requires 0 <= i < |r.payments| =>
      StorableFits(r, i);
      var p := r.payments[i];
      PaymentSchedule(i + 1, p.recipient, r.asset.contractId.value, p.amount, UnixSeconds(p.periodStart.value),
                      UnixSeconds(p.periodEnd.value), 0, p.rate, false, Pending))
  }

  /** Every period still ends after it starts once both ends are rounded down to seconds. */
  ghost predicate PeriodsSurviveRounding(r: Request)
    requires Fundable(r)
  {
    forall i :: 0 <= i < |r.payments| ==>
      FundableRow(r, r.payments[i]) && UnixSeconds(r.payments[i].periodStart.value) < UnixSeconds(r.payments[i].periodEnd.value)
  }

  lemma WholeSecondsSurvive(r: Request)
    requires Fundable(r)
    requires forall i :: 0 <= i < |r.payments| ==>
      FundableRow(r, r.payments[i]) && r.payments[i].periodStart.value % 1000 == 0 && r.payments[i].periodEnd.value % 1000 == 0
    ensures PeriodsSurviveRounding(r)
  {
    forall i | 0 <= i < |r.payments|
      ensures FundableRow(r, r.payments[i]) && UnixSeconds(r.payments[i].periodStart.value) < UnixSeconds(r.payments[i].periodEnd.value)
    {
      var start, end := r.payments[i].periodStart.value, r.payments[i].periodEnd.value;
      assert FundableRow(r, r.payments[i]);
      assert end - start == 1000 * (end / 1000 - start / 1000);
    }
  }

  lemma {:induction false} SubmittedSums(r: Request, rows: Rows, n: nat)
    requires Fundable(r) && Storable(r) && n <= |rows| && rows == Submitted(r)
    ensures Total(rows[..n]) == Sum(r.payments[..n]) && TokenSum(rows[..n], r.asset.contractId.value) == Sum(r.payments[..n])
    ensures 0 <= Sum(r.payments[..n]) <= n * 0x8000_0000_0000_0000
  {
    if n > 0 {
      SubmittedSums(r, rows, n - 1);
      StorableFits(r, n - 1);
      assert rows[..n][..n - 1] == rows[..n - 1] && r.payments[..n][..n - 1] == r.payments[..n - 1];
    }
  }

  lemma SubmittedTokens(r: Request)
    requires Fundable(r) && Storable(r)
    ensures Tokens(Submitted(r)) == {r.asset.contractId.value}
  {
    var rows := Submitted(r);
    assert rows[0].token == r.asset.contractId.value;
  }

  /** The row guard of the contract passes an eligible batch exactly when its periods survive rounding. */
  lemma GuardExactly(r: Request)
    requires Fundable(r) && Storable(r)
    ensures CheckRows(Submitted(r)).Ok? <==> PeriodsSurviveRounding(r)
    ensures CheckRows(Submitted(r)).Ok? ==> CheckRows(Submitted(r)).value == Sum(r.payments)
  {
    var rows := Submitted(r);
    CheckRowsPasses(rows);
    SubmittedSums(r, rows, |rows|);
    assert rows[..|rows|] == rows && r.payments[..|rows|] == r.payments;
    forall i | 0 <= i < |rows| ensures rows[i].amount > 0 && rows[i].ratePerHour > 0 && rows[i].amount % rows[i].ratePerHour == 0 {
      StorableFits(r, i);
      WholeMultiple(r.payments[i].hours, r.payments[i].rate);
    }
    if PeriodsSurviveRounding(r) {
      forall i | 0 <= i < |rows| ensures rows[i].endDate > rows[i].startDate {
        assert FundableRow(r, r.payments[i]) && UnixSeconds(r.payments[i].periodStart.value) < UnixSeconds(r.payments[i].periodEnd.value);
      }
    }
    if CheckRows(rows).Ok? {
      forall i | 0 <= i < |rows|
        ensures FundableRow(r, r.payments[i]) && UnixSeconds(r.payments[i].periodStart.value) < UnixSeconds(r.payments[i].periodEnd.value)
      {
        assert rows[i].endDate > rows[i].startDate;
        StorableFits(r, i);
      }
    }
  }

  lemma WholeMultiple(hours: int, rate: int)
    requires rate > 0
    ensures (hours * rate) % rate == 0
  {
    var quotient, rest := (hours * rate) / rate, (hours * rate) % rate;
    var apart := hours - quotient;
    assert hours * rate == rate * quotient + rest;
    assert apart * rate == rest by { Distribute(hours, quotient, rate); }
    Multiples(apart, rate);
  }

  lemma Distribute(a: int, b: int, c: int)
    ensures (a - b) * c == a * c - c * b
  {
  }

  lemma Multiples(k: int, rate: int)
    requires rate > 0
    ensures k >= 1 ==> k * rate >= rate
    ensures k <= -1 ==> k * rate < 0
  {
  }

  // ----- the contract accepts what eligibility lets through -----

  /** The chain is ready: running, the key accepted, the funder signing and holding the total in a token that moves. */
  ghost predicate ReadyChain(h: Host, inv: Invocation, s: Chain, r: Request)
    requires Fundable(r)
  {
    var token := r.asset.contractId.value;
    && !s.paused && OracleAccepted(s, r.oracleKey.value) && s.escrowCount + 1 < U32_LIMIT
    && r.wallet in inv.auth && h.contract !in inv.auth
    && (token, r.wallet, h.contract) !in inv.refused
    && Sum(r.payments) <= Bal(s.balances, token, r.wallet)
    && Bal(s.balances, token, h.contract) + Sum(r.payments) < I128_LIMIT
  }

  lemma SubmittedSum(r: Request)
    requires Fundable(r) && Storable(r)
    ensures TokenSum(Submitted(r), r.asset.contractId.value) == Total(Submitted(r)) == Sum(r.payments) && 0 <= Sum(r.payments)
    ensures Positive(Submitted(r))
  {
    var rows := Submitted(r);
    SubmittedSums(r, rows, |rows|);
    assert rows[..|rows|] == rows && r.payments[..|rows|] == r.payments;
    forall i | 0 <= i < |rows| ensures rows[i].amount > 0 {
      StorableFits(r, i);
    }
  }

  /** Moving an eligible batch's custody is one transfer of exactly its total. */
  lemma OneTransfer(h: Host, inv: Invocation, s: Chain, r: Request)
    requires Fundable(r) && Storable(r) && ReadyChain(h, inv, s, r)
    ensures ShiftAllowed(s.balances, inv, Submitted(r), r.wallet, h.contract)
    ensures
      Transfer(s.balances, inv, r.asset.contractId.value, r.wallet, h.contract, Sum(r.payments))
      == Some(Shift(s.balances, Submitted(r), r.wallet, h.contract))
  {
    var rows, token, total := Submitted(r), r.asset.contractId.value, Sum(r.payments);
    SubmittedSum(r);
    SubmittedTokens(r);
    hide Submitted, Fundable, Storable;
    var moved := Transfer(s.balances, inv, token, r.wallet, h.contract, total);
    assert r.wallet != h.contract && moved.Some?;
    var shifted := Shift(s.balances, rows, r.wallet, h.contract);
    forall t, a ensures Bal(moved.value, t, a) == Bal(shifted, t, a) {
      TransferBalance(s.balances, inv, token, r.wallet, h.contract, total, t, a);
      ShiftBalance(s.balances, rows, r.wallet, h.contract, t, a);
      if t != token {
        TokenSumBounds(rows, t);
      }
    }
    SameBalances(moved.value, shifted);
  }

  /**
   * Eligibility implies the contract's own checks: on a ready chain, initialization accepts the planned rows exactly
   * when the periods survive rounding to seconds, moves the exact total in one transfer, and every row's hours will
   * satisfy the proof check.
   */
  lemma EligibleIsAccepted(h: Host, inv: Invocation, s: Chain, r: Request)
    requires Blockers(r) == [] && Storable(r) && (Fundable(r) ==> ReadyChain(h, inv, s, r))
    ensures Fundable(r)
    ensures
      var o := Initialize(h, inv, s, r.wallet, r.financeApprover.value, r.oracleKey.value, Submitted(r));
      && (o.Ok? <==> PeriodsSurviveRounding(r))
      && (o.Ok? ==>
            && Transfer(s.balances, inv, r.asset.contractId.value, r.wallet, h.contract, Sum(r.payments)) == Some(o.value.balances)
            && o.value.escrow == NewEscrow(r.wallet, r.financeApprover.value, r.oracleKey.value, Submitted(r)))
    ensures forall i :: 0 <= i < |r.payments| ==>
      var earned := r.payments[i].hours * Submitted(r)[i].ratePerHour;
      earned == Submitted(r)[i].amount && -I128_LIMIT <= earned < I128_LIMIT
  {
    EligibleExactly(r);
    GuardExactly(r);
    OneTransfer(h, inv, s, r);
    forall i | 0 <= i < |r.payments|
      ensures r.payments[i].hours * Submitted(r)[i].ratePerHour == Submitted(r)[i].amount < U64_LIMIT
    {
      StorableFits(r, i);
    }
    hide Blockers, CheckRows, Shift, ShiftAllowed, Transfer, CreationEvents, Storable, Submitted;
  }

  /** Rounding does bite: a half-second period is eligible, and the contract rejects it. */
  lemma HalfSecondPeriodIsRejected(h: Host, inv: Invocation, s: Chain, r: Request)
    requires Blockers(r) == [] && Storable(r) && (Fundable(r) ==> ReadyChain(h, inv, s, r))
    requires r.payments != [] && r.payments[0].periodStart == Some(0) && r.payments[0].periodEnd == Some(500)
    ensures Fundable(r) && !Initialize(h, inv, s, r.wallet, r.financeApprover.value, r.oracleKey.value, Submitted(r)).Ok?
  {
    EligibleIsAccepted(h, inv, s, r);
    hide Initialize, Blockers;
    assert UnixSeconds(0) == UnixSeconds(500);
  }
}
