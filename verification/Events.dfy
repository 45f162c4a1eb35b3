/** The contract's log entries as typed domain events, and the JSON payload each is stored as. */
module Events {
  import opened Prelude
  import opened Decimal
  import opened Escrow

  datatype CoreFlowEvent =
    | CreatedEvent(escrowId: nat, manager: Address, totalAmount: int)
    | PaymentAddedEvent(escrowId: nat, paymentIndex: nat, worker: Address, token: Address,
                        amountBaseUnits: int, rateBaseUnits: int, periodStart: int, periodEnd: int)
    | HoursEvent(escrowId: nat, paymentIndex: nat, hours: int)
    | ManagerApprovedEvent(escrowId: nat)
    | FinanceApprovedEvent(escrowId: nat)
    | PaymentPaidEvent(escrowId: nat, paymentIndex: nat, worker: Address, token: Address, amountBaseUnits: int, hours: int)
    | PaymentCancelledEvent(escrowId: nat, paymentIndex: nat)
    | FinalizedEvent(escrowId: nat, totalAmount: int, count: nat)
    | CancelledEvent(escrowId: nat)
    | OracleRotatedEvent(escrowId: nat, rotations: nat)

  // ----- from the log -----

  predicate NatAt(data: seq<Val>, i: nat) {
    i < |data| && data[i].Num? && data[i].n >= 0
  }

  predicate NumAt(data: seq<Val>, i: nat) {
    i < |data| && data[i].Num?
  }

  predicate AddrAt(data: seq<Val>, i: nat) {
    i < |data| && data[i].Addr?
  }

  /** A log entry this projection understands, or nothing: unknown topics never halt ingestion. */
  function ParseEvent(e: ContractEvent): Option<CoreFlowEvent> {
    var d := e.data;
    if !NatAt(d, 0) then None
    else match (e.topic0, e.topic1)
      case (EscrowSym, Created) =>
        if AddrAt(d, 1) && NumAt(d, 2) then Some(CreatedEvent(d[0].n, d[1].a, d[2].n)) else None
      case (Payment, Add) =>
        if NatAt(d, 1) && AddrAt(d, 2) && AddrAt(d, 3) && NumAt(d, 4) && NumAt(d, 5) && NumAt(d, 6) && NumAt(d, 7)
        then Some(PaymentAddedEvent(d[0].n, d[1].n, d[2].a, d[3].a, d[4].n, d[5].n, d[6].n, d[7].n)) else None
      case (Hours, Submit) =>
        if NatAt(d, 1) && NumAt(d, 2) then Some(HoursEvent(d[0].n, d[1].n, d[2].n)) else None
      case (Approve, Manager) => Some(ManagerApprovedEvent(d[0].n))
      case (Approve, Finance) => Some(FinanceApprovedEvent(d[0].n))
      case (Payment, Paid) =>
        if NatAt(d, 1) && AddrAt(d, 2) && AddrAt(d, 3) && NumAt(d, 4) && NumAt(d, 5)
        then Some(PaymentPaidEvent(d[0].n, d[1].n, d[2].a, d[3].a, d[4].n, d[5].n)) else None
      case (Payment, Cancel) =>
        if NatAt(d, 1) then Some(PaymentCancelledEvent(d[0].n, d[1].n)) else None
      case (Payment, Final) =>
        if NumAt(d, 1) && NatAt(d, 2) then Some(FinalizedEvent(d[0].n, d[1].n, d[2].n)) else None
      case (EscrowSym, Cancel) => Some(CancelledEvent(d[0].n))
      case (Oracle, Rotate) =>
        if NatAt(d, 1) then Some(OracleRotatedEvent(d[0].n, d[1].n)) else None
      case _ => None
  }

  // ----- to and from a stored payload -----

  datatype FieldName =
    | Kind | EscrowId | PaymentIndex | ManagerField | TotalAmount | Worker | Token
    | AmountBaseUnits | RateBaseUnits | PeriodStart | PeriodEnd | HoursField | Count | Rotations

  datatype EventKind =
    | CreatedKind | PaymentAddedKind | HoursKind | ManagerApprovedKind | FinanceApprovedKind
    | PaymentPaidKind | PaymentCancelledKind | FinalizedKind | CancelledKind | OracleRotatedKind

  /** A field's value. `Big` exists only in memory: JSON has no big integers. */
  datatype Field = Label(kind: EventKind) | Number(n: int) | Text(text: string) | Big(big: int)

  type Object = map<FieldName, Field>

  const BIGINT_FIELDS: set<FieldName> :=
    {TotalAmount, AmountBaseUnits, RateBaseUnits, PeriodStart, PeriodEnd, HoursField}

  /** An event as the in-memory record the projection passes around. */
  function AsObject(ev: CoreFlowEvent): Object {
    match ev
    case CreatedEvent(id, manager, total) =>
      map[Kind := Label(CreatedKind), EscrowId := Number(id), ManagerField := Text(manager.key), TotalAmount := Big(total)]
    case PaymentAddedEvent(id, i, worker, token, amount, rate, start, end) =>
      map[Kind := Label(PaymentAddedKind), EscrowId := Number(id), PaymentIndex := Number(i), Worker := Text(worker.key),
          Token := Text(token.key), AmountBaseUnits := Big(amount), RateBaseUnits := Big(rate),
          PeriodStart := Big(start), PeriodEnd := Big(end)]
    case HoursEvent(id, i, hours) =>
      map[Kind := Label(HoursKind), EscrowId := Number(id), PaymentIndex := Number(i), HoursField := Big(hours)]
    case ManagerApprovedEvent(id) => map[Kind := Label(ManagerApprovedKind), EscrowId := Number(id)]
    case FinanceApprovedEvent(id) => map[Kind := Label(FinanceApprovedKind), EscrowId := Number(id)]
    case PaymentPaidEvent(id, i, worker, token, amount, hours) =>
      map[Kind := Label(PaymentPaidKind), EscrowId := Number(id), PaymentIndex := Number(i), Worker := Text(worker.key),
          Token := Text(token.key), AmountBaseUnits := Big(amount), HoursField := Big(hours)]
    case PaymentCancelledEvent(id, i) =>
      map[Kind := Label(PaymentCancelledKind), EscrowId := Number(id), PaymentIndex := Number(i)]
    case FinalizedEvent(id, total, count) =>
      map[Kind := Label(FinalizedKind), EscrowId := Number(id), TotalAmount := Big(total), Count := Number(count)]
    case CancelledEvent(id) => map[Kind := Label(CancelledKind), EscrowId := Number(id)]
    case OracleRotatedEvent(id, rotations) =>
      map[Kind := Label(OracleRotatedKind), EscrowId := Number(id), Rotations := Number(rotations)]
  }

  predicate HasNat(o: Object, f: FieldName) {
    f in o && o[f].Number? && o[f].n >= 0
  }

  predicate HasText(o: Object, f: FieldName) {
    f in o && o[f].Text?
  }

  predicate HasBig(o: Object, f: FieldName) {
    f in o && o[f].Big?
  }

  /** Reading a record as an event: its kind, with the fields that kind has. */
  function AsEvent(o: Object): Option<CoreFlowEvent> {
    if !(Kind in o && o[Kind].Label? && HasNat(o, EscrowId)) then None
    else
      var id := o[EscrowId].n;
      match o[Kind].kind
      case CreatedKind =>
        if HasText(o, ManagerField) && HasBig(o, TotalAmount)
        then Some(CreatedEvent(id, Address(o[ManagerField].text), o[TotalAmount].big)) else None
      case PaymentAddedKind =>
        if && HasNat(o, PaymentIndex) && HasText(o, Worker) && HasText(o, Token) && HasBig(o, AmountBaseUnits)
           && HasBig(o, RateBaseUnits) && HasBig(o, PeriodStart) && HasBig(o, PeriodEnd)
        then Some(PaymentAddedEvent(id, o[PaymentIndex].n, Address(o[Worker].text), Address(o[Token].text),
                                    o[AmountBaseUnits].big, o[RateBaseUnits].big, o[PeriodStart].big, o[PeriodEnd].big))
        else None
      case HoursKind =>
        if HasNat(o, PaymentIndex) && HasBig(o, HoursField)
        then Some(HoursEvent(id, o[PaymentIndex].n, o[HoursField].big)) else None
      case ManagerApprovedKind => Some(ManagerApprovedEvent(id))
      case FinanceApprovedKind => Some(FinanceApprovedEvent(id))
      case PaymentPaidKind =>
        if && HasNat(o, PaymentIndex) && HasText(o, Worker) && HasText(o, Token)
           && HasBig(o, AmountBaseUnits) && HasBig(o, HoursField)
        then Some(PaymentPaidEvent(id, o[PaymentIndex].n, Address(o[Worker].text), Address(o[Token].text),
                                   o[AmountBaseUnits].big, o[HoursField].big))
        else None
      case PaymentCancelledKind =>
        if HasNat(o, PaymentIndex) then Some(PaymentCancelledEvent(id, o[PaymentIndex].n)) else None
      case FinalizedKind =>
        if HasBig(o, TotalAmount) && HasNat(o, Count)
        then Some(FinalizedEvent(id, o[TotalAmount].big, o[Count].n)) else None
      case CancelledKind => Some(CancelledEvent(id))
      case OracleRotatedKind =>
        if HasNat(o, Rotations) then Some(OracleRotatedEvent(id, o[Rotations].n)) else None
  }

  function ToJson(v: Field): Field {
    if v.Big? then Text(Show(v.big)) else v
  }

  /** A big integer comes back only for the listed fields; text that is no numeral makes the read throw. */
  function FromJson(f: FieldName, v: Field): Option<Field> {
    if f in BIGINT_FIELDS && v.Text? then
      match Read(v.text)
      case None => None
      case Some(i) => Some(Big(i))
    else Some(v)
  }

  function Serialize(o: Object): Object {
    map f | f in o :: ToJson(o[f])
  }

  predicate Readable(o: Object) {
    forall f :: f in o ==> FromJson(f, o[f]).Some?
  }

  function Deserialize(o: Object): (r: Option<Object>) {
    if Readable(o) then Some(map f | f in o :: FromJson(f, o[f]).value) else None
  }

  /**
   * Storing a record and reading it back restores it exactly when every big integer sits in a listed field and no
   * listed field holds text.
   */
  lemma PayloadRoundTrip(o: Object)
    ensures Deserialize(Serialize(o)) == Some(o)
            <==> forall f :: f in o ==> (o[f].Big? ==> f in BIGINT_FIELDS) && (o[f].Text? ==> f !in BIGINT_FIELDS)
  {
    forall f | f in o
      ensures FromJson(f, ToJson(o[f])) == Some(o[f])
              <==> (o[f].Big? ==> f in BIGINT_FIELDS) && (o[f].Text? ==> f !in BIGINT_FIELDS)
    {
      if o[f].Big? {
        ShowRead(o[f].big);
      }
    }
    var s := Serialize(o);
    if forall f :: f in o ==> FromJson(f, ToJson(o[f])) == Some(o[f]) {
      assert Readable(s) && Deserialize(s).value == o;
    } else {
      var f :| f in o && FromJson(f, ToJson(o[f])) != Some(o[f]);
      assert s[f] == ToJson(o[f]);
      if Deserialize(s).Some? {
        assert Deserialize(s).value[f] == FromJson(f, s[f]).value;
      }
    }
  }

  /** Every big integer of every event is a listed field, and no address is. */
  lemma BigFieldsListed(ev: CoreFlowEvent)
    ensures forall f :: f in AsObject(ev) ==> (AsObject(ev)[f].Big? <==> f in BIGINT_FIELDS)
  {
  }

  lemma RecordReadsBack(ev: CoreFlowEvent)
    ensures AsEvent(AsObject(ev)) == Some(ev)
  {
  }

  /** Every event survives being stored as JSON and read back. */
  lemma EventRoundTrip(ev: CoreFlowEvent)
    ensures Deserialize(Serialize(AsObject(ev))) == Some(AsObject(ev)) && AsEvent(AsObject(ev)) == Some(ev)
  {
    hide AsObject, AsEvent, Serialize, Deserialize;
    BigFieldsListed(ev);
    PayloadRoundTrip(AsObject(ev));
    RecordReadsBack(ev);
  }

  /** The field-by-field loop that makes a record JSON-safe. */
  method SerializePayload(o: Object) returns (out: Object)
    ensures out == Serialize(o)
  {
    out := map[];
    var left := o.Keys;
    while left != {}
      invariant left <= o.Keys && out.Keys == o.Keys - left
      invariant forall f :: f in out ==> out[f] == ToJson(o[f])
      decreases |left|
    {
      var f :| f in left;
      out, left := out[f := if o[f].Big? then Text(Show(o[f].big)) else o[f]], left - {f};
    }
  }

  /** The loop that rebuilds it; nothing when some field cannot be read. */
  method DeserializePayload(o: Object) returns (out: Option<Object>)
    ensures out == Deserialize(o)
  {
    var r: Object := map[];
    var left := o.Keys;
    while left != {}
      invariant left <= o.Keys && r.Keys == o.Keys - left
      invariant forall f :: f in r ==> FromJson(f, o[f]) == Some(r[f])
      decreases |left|
    {
      var f :| f in left;
      var v := FromJson(f, o[f]);
      if v == None { return None; }
      r, left := r[f := v.value], left - {f};
    }
    assert r == Deserialize(o).value;
    return Some(r);
  }
}
