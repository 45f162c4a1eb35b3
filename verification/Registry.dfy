/**
 * Administration by its history: who the admin is, whether the contract is paused, and which oracle keys are registered,
 * each as what the run's signed calls last made it. And so whose word every settlement rests on.
 */
module Registry {
  import opened Prelude
  import opened ByteStrings
  import opened Escrow
  import opened ContractRuns
  import opened SettlementGate

  /** Step `i` is this administrative call, and the admin of the moment signs it. */
  ghost predicate AdminSigns(h: Host, s0: Chain, tr: Trace, i: nat, op: AdminOp) {
    && i < |tr| && tr[i].call == AdminCall(op)
    && var s := Run(h, s0, tr[..i]); s.admin.Some? && s.admin.value in tr[i].inv.auth
  }

  // ----- the registry -----

  /** Step `i`, signed by the admin of the moment, registered the key, and none of the steps up to `n` so revoked it. */
  ghost predicate RegisteredAt(h: Host, s0: Chain, tr: Trace, i: nat, n: nat, key: Bytes) {
    && i < n && AdminSigns(h, s0, tr, i, RegisterOp(key))
    && forall j :: i < j < n ==> !AdminSigns(h, s0, tr, j, RevokeOp(key))
  }

  ghost predicate Registered(h: Host, s0: Chain, tr: Trace, n: nat, key: Bytes) {
    exists i: nat :: RegisteredAt(h, s0, tr, i, n, key)
  }

  /** Calls on escrows and token transfers leave administration alone. */
  lemma NotAdministration(h: Host, s: Chain, st: Step)
    requires !st.call.AdminCall?
    ensures
      var s' := Do(h, s, st).1;
      s'.oracleKeys == s.oracleKeys && s'.admin == s.admin && s'.pendingAdmin == s.pendingAdmin && s'.paused == s.paused
  {
    if st.call.OnEscrow() {
      OnEscrowStep(h, s, st);
      hide EffectOf, Do;
    } else {
      OtherCallsKeep(h, s, st);
    }
  }

  lemma KeyStep(h: Host, s: Chain, st: Step, key: Bytes)
    ensures
      var byAdmin := s.admin.Some? && s.admin.value in st.inv.auth;
      key in Do(h, s, st).1.oracleKeys
      <==> (st.call == AdminCall(RegisterOp(key)) && byAdmin) || (key in s.oracleKeys && !(st.call == AdminCall(RevokeOp(key)) && byAdmin))
  {
    if !st.call.AdminCall? {
      NotAdministration(h, s, st);
    }
    hide EffectOf;
  }

  /** A key is in the registry if and only if an admin registered it and no admin has revoked it since. */
  lemma {:induction false} RegistryExactly(h: Host, bal: Balances, tr: Trace, n: nat, key: Bytes)
    requires n <= |tr|
    ensures key in Run(h, Genesis(bal), tr[..n]).oracleKeys <==> Registered(h, Genesis(bal), tr, n, key)
  {
    hide Do, Run;
    var s0 := Genesis(bal);
    if n == 0 {
      NothingYet(h, s0, tr[..0]);
    } else {
      RegistryExactly(h, bal, tr, n - 1, key);
      RunExtend(h, s0, tr, n - 1);
      KeyStep(h, Run(h, s0, tr[..n - 1]), tr[n - 1], key);
      var revoked := AdminSigns(h, s0, tr, n - 1, RevokeOp(key));
      if AdminSigns(h, s0, tr, n - 1, RegisterOp(key)) {
        assert RegisteredAt(h, s0, tr, n - 1, n, key);
      } else if key in Run(h, s0, tr[..n]).oracleKeys {
        var i: nat :| RegisteredAt(h, s0, tr, i, n - 1, key);
        assert RegisteredAt(h, s0, tr, i, n, key);
      }
      forall i: nat | RegisteredAt(h, s0, tr, i, n, key) ensures key in Run(h, s0, tr[..n]).oracleKeys {
        if i < n - 1 {
          assert RegisteredAt(h, s0, tr, i, n - 1, key);
        }
      }
    }
  }

  lemma NothingYet(h: Host, s: Chain, none: Trace)
    requires none == []
    ensures Run(h, s, none) == s
  {
  }

  // ----- the pause -----

  /** The admin of the moment last set the pause at step `i`, to `paused`. */
  ghost predicate PauseSetAt(h: Host, s0: Chain, tr: Trace, i: nat, n: nat, paused: bool) {
    && i < n && AdminSigns(h, s0, tr, i, SetPausedOp(paused))
    && forall j, b :: i < j < n ==> !AdminSigns(h, s0, tr, j, SetPausedOp(b))
  }

  lemma PauseStep(h: Host, s: Chain, st: Step)
    ensures
      var byAdmin := s.admin.Some? && s.admin.value in st.inv.auth;
      Do(h, s, st).1.paused
      == if st.call.AdminCall? && st.call.op.SetPausedOp? && byAdmin then st.call.op.flag else s.paused
  {
    if !st.call.AdminCall? {
      NotAdministration(h, s, st);
    }
    hide EffectOf;
  }

  /** The contract is paused if and only if an admin's last word on it was to pause. */
  lemma {:induction false} PausedExactly(h: Host, bal: Balances, tr: Trace, n: nat)
    requires n <= |tr|
    ensures Run(h, Genesis(bal), tr[..n]).paused <==> exists i: nat :: PauseSetAt(h, Genesis(bal), tr, i, n, true)
  {
    hide Do, Run;
    var s0 := Genesis(bal);
    if n == 0 {
      NothingYet(h, s0, tr[..0]);
    } else {
      PausedExactly(h, bal, tr, n - 1);
      RunExtend(h, s0, tr, n - 1);
      PauseStep(h, Run(h, s0, tr[..n - 1]), tr[n - 1]);
      var op := tr[n - 1].call;
      if op.AdminCall? && op.op.SetPausedOp? && AdminSigns(h, s0, tr, n - 1, SetPausedOp(op.op.flag)) {
        if op.op.flag { assert PauseSetAt(h, s0, tr, n - 1, n, true); }
      } else if Run(h, s0, tr[..n]).paused {
        var i: nat :| PauseSetAt(h, s0, tr, i, n - 1, true);
        assert PauseSetAt(h, s0, tr, i, n, true);
      }
      forall i: nat | PauseSetAt(h, s0, tr, i, n, true) ensures Run(h, s0, tr[..n]).paused {
        if i < n - 1 {
          assert PauseSetAt(h, s0, tr, i, n - 1, true);
        }
      }
    }
  }

  // ----- the admin -----

  /** Step `i` handed the contract to the address proposed last, which signed for it. */
  ghost predicate Accepts(h: Host, s0: Chain, tr: Trace, i: nat, who: Address) {
    && i < |tr| && tr[i].call == AdminCall(AcceptAdminOp) && who in tr[i].inv.auth
    && exists p: nat :: ProposedAt(h, s0, tr, p, i, who)
  }

  /** The admin of the moment proposed this address at step `p`; up to `n` it has proposed no other, and nobody accepted. */
  ghost predicate ProposedAt(h: Host, s0: Chain, tr: Trace, p: nat, n: nat, who: Address)
  {
    && p < n && AdminSigns(h, s0, tr, p, ProposeAdminOp(who))
    && (forall j, other :: p < j < n ==> !AdminSigns(h, s0, tr, j, ProposeAdminOp(other)))
    && (forall j :: p < j < n ==> !(j < |tr| && tr[j].call == AdminCall(AcceptAdminOp) && who in tr[j].inv.auth))
  }

  lemma PendingStep(h: Host, s: Chain, st: Step, who: Address)
    ensures
      var byAdmin := s.admin.Some? && s.admin.value in st.inv.auth;
      Do(h, s, st).1.pendingAdmin == Some(who)
      <==> (st.call == AdminCall(ProposeAdminOp(who)) && byAdmin)
           || (s.pendingAdmin == Some(who)
               && !(st.call.AdminCall? && st.call.op.ProposeAdminOp? && byAdmin)
               && !(st.call == AdminCall(AcceptAdminOp) && who in st.inv.auth))
  {
    if !st.call.AdminCall? {
      NotAdministration(h, s, st);
    }
    hide EffectOf;
  }

  /** An address may accept if and only if it is the last an admin proposed and has not accepted since. */
  lemma {:induction false} PendingExactly(h: Host, bal: Balances, tr: Trace, n: nat, who: Address)
    requires n <= |tr|
    ensures
      Run(h, Genesis(bal), tr[..n]).pendingAdmin == Some(who) <==> exists p: nat :: ProposedAt(h, Genesis(bal), tr, p, n, who)
  {
    hide Do, Run;
    var s0 := Genesis(bal);
    if n == 0 {
      NothingYet(h, s0, tr[..0]);
    } else {
      PendingExactly(h, bal, tr, n - 1, who);
      RunExtend(h, s0, tr, n - 1);
      PendingStep(h, Run(h, s0, tr[..n - 1]), tr[n - 1], who);
      var op := tr[n - 1].call;
      var other := op.AdminCall? && op.op.ProposeAdminOp? && AdminSigns(h, s0, tr, n - 1, ProposeAdminOp(op.op.who));
      if AdminSigns(h, s0, tr, n - 1, ProposeAdminOp(who)) {
        assert ProposedAt(h, s0, tr, n - 1, n, who);
      } else {
        forall p: nat | ProposedAt(h, s0, tr, p, n, who) ensures p < n - 1 && ProposedAt(h, s0, tr, p, n - 1, who) {
        }
        if Run(h, s0, tr[..n]).pendingAdmin == Some(who) {
          var p: nat :| ProposedAt(h, s0, tr, p, n - 1, who);
          assert ProposedAt(h, s0, tr, p, n, who);
        }
      }
    }
  }

  /** Step `i` made this address the admin: the first to set itself up, as pinned if one is, or one that accepted. */
  ghost predicate Appoints(h: Host, s0: Chain, tr: Trace, i: nat, who: Address) {
    || Accepts(h, s0, tr, i, who)
    || (&& i < |tr| && tr[i].call == AdminCall(InitAdminOp(who)) && who in tr[i].inv.auth
        && (h.pinnedAdmin.Some? ==> h.pinnedAdmin.value == who)
        && Run(h, s0, tr[..i]).admin == None)
  }

  /** The last appointment before `n` was of this address. */
  ghost predicate AppointedAt(h: Host, s0: Chain, tr: Trace, i: nat, n: nat, who: Address) {
    i < n && Appoints(h, s0, tr, i, who) && forall j, other :: i < j < n ==> !Appoints(h, s0, tr, j, other)
  }

  lemma AdminStep(h: Host, s: Chain, st: Step, who: Address)
    ensures
      var sets := st.call == AdminCall(InitAdminOp(who)) && who in st.inv.auth && s.admin == None
                  && (h.pinnedAdmin.Some? ==> h.pinnedAdmin.value == who);
      var accepts := st.call == AdminCall(AcceptAdminOp) && s.pendingAdmin == Some(who) && who in st.inv.auth;
      (sets || accepts ==> Do(h, s, st).1.admin == Some(who))
      && (Do(h, s, st).1.admin == Some(who) ==> sets || accepts || s.admin == Some(who))
  {
    if !st.call.AdminCall? {
      NotAdministration(h, s, st);
    }
    hide EffectOf;
  }

  /** An admin stays until some address is appointed. */
  lemma AdminStays(h: Host, bal: Balances, tr: Trace, n: nat)
    requires n < |tr| && forall other :: !Appoints(h, Genesis(bal), tr, n, other)
    ensures Run(h, Genesis(bal), tr[..n + 1]).admin == Run(h, Genesis(bal), tr[..n]).admin
  {
    hide Do, Run;
    var s0 := Genesis(bal);
    var s := Run(h, s0, tr[..n]);
    RunExtend(h, s0, tr, n);
    var after := Do(h, s, tr[n]).1.admin;
    if after.Some? {
      AdminStep(h, s, tr[n], after.value);
      PendingExactly(h, bal, tr, n, after.value);
      assert !Appoints(h, s0, tr, n, after.value);
    } else if s.admin.Some? {
      NeverAdminless(h, s, tr[n]);
    }
  }

  lemma NeverAdminless(h: Host, s: Chain, st: Step)
    requires s.admin.Some?
    ensures Do(h, s, st).1.admin.Some?
  {
    if !st.call.AdminCall? {
      NotAdministration(h, s, st);
    }
    hide EffectOf;
  }

  lemma AppointmentHolds(h: Host, bal: Balances, tr: Trace, n: nat, who: Address)
    requires n < |tr| && Appoints(h, Genesis(bal), tr, n, who)
    ensures Run(h, Genesis(bal), tr[..n + 1]).admin == Some(who)
  {
    hide Do, Run;
    var s0 := Genesis(bal);
    RunExtend(h, s0, tr, n);
    PendingExactly(h, bal, tr, n, who);
    AdminStep(h, Run(h, s0, tr[..n]), tr[n], who);
  }

  /**
   * The admin is exactly the address appointed last: by setting itself up while there was none, or by accepting, under its
   * own signature, what the admin before it proposed.
   */
  lemma {:induction false} AdminExactly(h: Host, bal: Balances, tr: Trace, n: nat, who: Address)
    requires n <= |tr|
    ensures Run(h, Genesis(bal), tr[..n]).admin == Some(who) <==> exists i: nat :: AppointedAt(h, Genesis(bal), tr, i, n, who)
  {
    hide Do, Run, Appoints;
    var s0 := Genesis(bal);
    if n == 0 {
      NothingYet(h, s0, tr[..0]);
    } else {
      var last: nat := n - 1;
      AdminExactly(h, bal, tr, last, who);
      if other :| Appoints(h, s0, tr, last, other) {
        AppointmentHolds(h, bal, tr, last, other);
        if other == who {
          forall o | Appoints(h, s0, tr, last, o) ensures o == who { AppointmentHolds(h, bal, tr, last, o); }
          assert AppointedAt(h, s0, tr, last, n, who);
        } else {
          forall i: nat | AppointedAt(h, s0, tr, i, n, who) ensures false {
            if i == last { AppointmentHolds(h, bal, tr, last, who); }
          }
        }
      } else {
        AdminStays(h, bal, tr, last);
        forall i: nat ensures AppointedAt(h, s0, tr, i, n, who) <==> AppointedAt(h, s0, tr, i, last, who) {
        }
      }
    }
  }

  // ----- the keys escrows name -----

  /** Step `c` gave escrow `id` this key, at its creation or by rotation. */
  ghost predicate SetsKey(h: Host, s0: Chain, tr: Trace, c: nat, id: nat, key: Bytes)
    requires c < |tr|
  {
    match tr[c].call
    case InitializeCall(_, _, k, _) => k == key && Founds(h, s0, tr, c, id)
    case RotateCall(i, k) => k == key && i == id && Succeeds(h, s0, tr, c)
    case _ => false
  }

  lemma KeyTaken(h: Host, s: Chain, st: Step)
    requires (st.call.InitializeCall? || st.call.RotateCall?) && Do(h, s, st).0
    ensures s.admin.Some? ==> st.call.key in s.oracleKeys
  {
    OnEscrowStep(h, s, st);
    hide CheckRows, ShiftAllowed, Shift, CreationEvents, AnyFinalized;
  }

  /**
   * Once the contract has an admin, a creation or a rotation that succeeds names a key some admin registered earlier in the
   * run, under its own signature, and none has revoked since.
   */
  lemma OnlyRegisteredKeys(h: Host, bal: Balances, tr: Trace, c: nat, id: nat, key: Bytes)
    requires c < |tr| && SetsKey(h, Genesis(bal), tr, c, id, key) && Run(h, Genesis(bal), tr[..c]).admin.Some?
    ensures Registered(h, Genesis(bal), tr, c, key)
  {
    hide Do, Run;
    KeyTaken(h, Run(h, Genesis(bal), tr[..c]), tr[c]);
    RegistryExactly(h, bal, tr, c, key);
  }

  /** A step that is not a rotation of this escrow, and does not create it, leaves its key. */
  lemma KeyKept(h: Host, s: Chain, st: Step, id: nat)
    requires Structured(h, s) && id in s.escrows
    requires st.call.RotateCall? && st.call.id == id ==> !Do(h, s, st).0
    ensures id in Do(h, s, st).1.escrows && Do(h, s, st).1.escrows[id].oraclePubkey == s.escrows[id].oraclePubkey
  {
    if st.call.OnEscrow() {
      OnEscrowStep(h, s, st);
      if EffectOf(h, s, st).Ok? {
        FourKinds(h, s, st);
        if Target(s, st.call) == id {
          KeptByCall(h, s, st);
        }
      }
    } else {
      OtherCallsKeep(h, s, st);
    }
    hide EffectOf, Do;
  }

  lemma KeptByCall(h: Host, s: Chain, st: Step)
    requires Structured(h, s) && st.call.OnEscrow() && EffectOf(h, s, st).Ok? && !st.call.RotateCall?
    requires Target(s, st.call) in s.escrows
    ensures EffectOf(h, s, st).value.escrow.oraclePubkey == s.escrows[Target(s, st.call)].oraclePubkey
  {
    FourKinds(h, s, st);
    hide PayRows, PayGuard, ShiftAllowed, Shift, Total, OracleMessage.ProofMessage, GoodEscrow;
    match st.call {
      case SubmitCall(i, pid, hours, nonce, sig) => SubmitFacts(h, st.inv, s, i, pid, hours, nonce, sig); hide EffectOf;
      case _ =>
    }
  }

  lemma SetNow(h: Host, s: Chain, st: Step, id: nat)
    requires Structured(h, s) && id in Do(h, s, st).1.escrows
    requires id !in s.escrows || (st.call.RotateCall? && st.call.id == id && Do(h, s, st).0)
    ensures Do(h, s, st).0 && ((st.call.InitializeCall? && s.escrowCount + 1 == id) || (st.call.RotateCall? && st.call.id == id))
    ensures Do(h, s, st).1.escrows[id].oraclePubkey == st.call.key
  {
    if st.call.OnEscrow() {
      OnEscrowStep(h, s, st);
      if EffectOf(h, s, st).Ok? {
        FourKinds(h, s, st);
        hide PayRows, PayGuard, ShiftAllowed, Shift, Total, CheckRows, CreationEvents, AnyFinalized;
      }
    } else {
      OtherCallsKeep(h, s, st);
    }
  }

  /** Every escrow's key was set by one step of the run, the last to set it. */
  lemma {:induction false} KeyHasASource(h: Host, bal: Balances, tr: Trace, n: nat, id: nat) returns (c: nat)
    requires Admissible(h, tr) && n <= |tr| && id in Run(h, Genesis(bal), tr[..n]).escrows
    ensures c < n && SetsKey(h, Genesis(bal), tr, c, id, Run(h, Genesis(bal), tr[..n]).escrows[id].oraclePubkey)
    ensures NoneBetween(h, Genesis(bal), tr, c + 1, n, id)
  {
    hide Do, Run, Structured;
    var s0 := Genesis(bal);
    if n == 0 {
      NothingYet(h, s0, tr[..0]);
      assert false;
    }
    var s, last := Run(h, s0, tr[..n - 1]), tr[n - 1];
    RunExtend(h, s0, tr, n - 1);
    RunStructured(h, bal, tr[..n - 1]);
    if id !in s.escrows || (last.call.RotateCall? && last.call.id == id && Do(h, s, last).0) {
      SetNow(h, s, last, id);
      c := n - 1;
    } else {
      KeyKept(h, s, last, id);
      c := KeyHasASource(h, bal, tr, n - 1, id);
    }
  }

  /**
   * Whose word a settlement rests on: the key in force was set by one step of the run, and if the contract had an admin by
   * then, it was a key an admin had registered and not revoked; every row was attested under it, after that step, or
   * entered marked proven.
   */
  lemma SettledUnderARegisteredKey(h: Host, bal: Balances, tr: Trace, j: nat) returns (c: nat)
    requires Admissible(h, tr) && j < |tr| && tr[j].call.PayCall? && Succeeds(h, Genesis(bal), tr, j)
    ensures
      var s0, id := Genesis(bal), tr[j].call.id;
      var s := Run(h, s0, tr[..j]);
      && id in s.escrows
      && var e := s.escrows[id];
      && c < j && SetsKey(h, s0, tr, c, id, e.oraclePubkey) && NoneBetween(h, s0, tr, c + 1, j, id)
      && (Run(h, s0, tr[..c]).admin.Some? ==> Registered(h, s0, tr, c, e.oraclePubkey))
      && forall k :: 0 <= k < |e.payments| ==>
           AttestedSince(h, s0, tr, c, j, id, k, e.oraclePubkey, e.payments[k]) || EnteredProven(h, s0, tr, j, id, k)
  {
    hide Do, Run, Attested, EnteredProven, Registered, SetsKey;
    var s0, id := Genesis(bal), tr[j].call.id;
    PaidOnlyThroughTheGate(h, bal, tr, j);
    var e := Run(h, s0, tr[..j]).escrows[id];
    c := KeyHasASource(h, bal, tr, j, id);
    if Run(h, s0, tr[..c]).admin.Some? {
      OnlyRegisteredKeys(h, bal, tr, c, id, e.oraclePubkey);
    }
    forall k | 0 <= k < |e.payments| && Attested(h, s0, tr, j, id, k, e.oraclePubkey, e.payments[k])
      ensures AttestedSince(h, s0, tr, c, j, id, k, e.oraclePubkey, e.payments[k])
    {
      AfterItsKey(h, bal, tr, c, j, id, k, e.oraclePubkey, e.payments[k]);
    }
  }

  /** As `Attested`, and by a step after `c`. */
  ghost predicate AttestedSince(h: Host, s0: Chain, tr: Trace, c: nat, n: nat, id: nat, k: nat, key: Bytes, p: PaymentSchedule)
    requires n <= |tr|
  {
    exists m :: c < m < n && Succeeds(h, s0, tr, m) && Attests(h, tr, m, id, k, key, p)
      && NoneBetween(h, s0, tr, m, n, id) && UnapprovedUntil(h, s0, tr, m, id)
  }

  /** An attestation that no rotation followed came after the step that set the key. */
  lemma AfterItsKey(h: Host, bal: Balances, tr: Trace, c: nat, n: nat, id: nat, k: nat, key: Bytes, p: PaymentSchedule)
    requires Admissible(h, tr) && c < n <= |tr| && SetsKey(h, Genesis(bal), tr, c, id, key)
    requires Attested(h, Genesis(bal), tr, n, id, k, key, p)
    ensures AttestedSince(h, Genesis(bal), tr, c, n, id, k, key, p)
  {
    hide Do, Run, Attests, UnapprovedUntil, Structured;
    var s0 := Genesis(bal);
    var m :| 0 <= m < n && Succeeds(h, s0, tr, m) && Attests(h, tr, m, id, k, key, p)
      && NoneBetween(h, s0, tr, m, n, id) && UnapprovedUntil(h, s0, tr, m, id);
    AttestsSubmits(h, tr, m, id, k, key, p);
    if m <= c {
      if tr[c].call.InitializeCall? {
        RunStructured(h, bal, tr[..m]);
        SubmitsStored(h, Run(h, s0, tr[..m]), tr[m]);
        CountGrows(h, bal, tr, m, c);
        assert false;
      }
    }
    assert c < m;
  }

  lemma AttestsSubmits(h: Host, tr: Trace, m: nat, id: nat, k: nat, key: Bytes, p: PaymentSchedule)
    requires m < |tr| && Attests(h, tr, m, id, k, key, p)
    ensures tr[m].call.SubmitCall? && tr[m].call.sid == id
  {
  }

  lemma SubmitsStored(h: Host, s: Chain, st: Step)
    requires Structured(h, s) && st.call.SubmitCall? && Do(h, s, st).0
    ensures 1 <= st.call.sid <= s.escrowCount
  {
    OnEscrowStep(h, s, st);
    hide OracleMessage.ProofMessage;
  }

  lemma {:induction false} CountGrows(h: Host, bal: Balances, tr: Trace, m: nat, n: nat)
    requires Admissible(h, tr) && m <= n <= |tr|
    ensures Run(h, Genesis(bal), tr[..m]).escrowCount <= Run(h, Genesis(bal), tr[..n]).escrowCount
  {
    hide Do, Run, Structured;
    if m < n {
      CountGrows(h, bal, tr, m, n - 1);
      RunExtend(h, Genesis(bal), tr, n - 1);
      RunStructured(h, bal, tr[..n - 1]);
      CountStep(h, Run(h, Genesis(bal), tr[..n - 1]), tr[n - 1]);
    }
  }

  lemma CountStep(h: Host, s: Chain, st: Step)
    requires Structured(h, s)
    ensures s.escrowCount <= Do(h, s, st).1.escrowCount
  {
    if st.call.OnEscrow() {
      OnEscrowStep(h, s, st);
      if EffectOf(h, s, st).Ok? {
        FourKinds(h, s, st);
        hide EffectOf, Do;
      }
    } else {
      OtherCallsKeep(h, s, st);
    }
  }

  // ----- the log tells it all -----

  datatype Administration = Administration(admin: Option<Address>, pending: Option<Address>, paused: bool, keys: set<Bytes>)

  /** What an observer of the log alone takes each entry to mean. */
  function Read(a: Administration, e: ContractEvent): Administration {
    match (e.topic0, e.topic1)
    case (Admin, Init) => if |e.data| == 1 && e.data[0].Addr? then a.(admin := Some(e.data[0].a)) else a
    case (Admin, Propose) => if |e.data| == 1 && e.data[0].Addr? then a.(pending := Some(e.data[0].a)) else a
    case (Admin, Accept) => if |e.data| == 1 && e.data[0].Addr? then a.(admin := Some(e.data[0].a), pending := None) else a
    case (Admin, PausedSym) => if |e.data| == 1 && e.data[0].Flag? then a.(paused := e.data[0].b) else a
    case (Oracle, Reg) => if |e.data| == 1 && e.data[0].Key? then a.(keys := a.keys + {e.data[0].k}) else a
    case (Oracle, Revoke) => if |e.data| == 1 && e.data[0].Key? then a.(keys := a.keys - {e.data[0].k}) else a
    case _ => a
  }

  function ReadAll(log: seq<ContractEvent>): Administration {
    if log == [] then Administration(None, None, false, {}) else Read(ReadAll(log[..|log| - 1]), log[|log| - 1])
  }

  function InForce(s: Chain): Administration {
    Administration(s.admin, s.pendingAdmin, s.paused, s.oracleKeys)
  }

  /** An entry that says nothing of administration. */
  predicate Aside(e: ContractEvent) {
    e.topic0 != Admin && (e.topic0 == Oracle ==> e.topic1 == Rotate)
  }

  lemma {:induction false} AsideReads(log: seq<ContractEvent>, b: seq<ContractEvent>)
    requires forall e :: e in b ==> Aside(e)
    ensures ReadAll(log + b) == ReadAll(log)
  {
    hide Read;
    if b == [] {
      assert log + b == log;
    } else {
      var n := |b| - 1;
      AsideReads(log, b[..n]);
      assert (log + b)[..|log + b| - 1] == log + b[..n];
      assert b[n] in b;
      AsideRead(ReadAll(log + b[..n]), b[n]);
    }
  }

  lemma AsideRead(a: Administration, e: ContractEvent)
    requires Aside(e)
    ensures Read(a, e) == a
  {
  }

  lemma ReadOneMore(log: seq<ContractEvent>, e: ContractEvent)
    ensures ReadAll(log + [e]) == Read(ReadAll(log), e)
  {
    assert (log + [e])[..|log|] == log;
  }

  /** This call changed nothing, or logged one entry that says what it changed. */
  ghost predicate Logged(s: Chain, s': Chain) {
    s' == s || (exists e :: s'.log == s.log + [e] && Read(InForce(s), e) == InForce(s'))
  }

  lemma EmitLogs(s: Chain, s': Chain, topic0: Symbol, topic1: Symbol, data: seq<Val>)
    requires Read(InForce(s), ContractEvent(topic0, topic1, data)) == InForce(s') && s'.log == s.log
    ensures Logged(s, Emit(s', topic0, topic1, data))
  {
    hide Read;
    assert Emit(s', topic0, topic1, data).log == s.log + [ContractEvent(topic0, topic1, data)];
  }

  lemma AdministrationLogs(h: Host, inv: Invocation, s: Chain, op: AdminOp)
    ensures Logged(s, Administer(h, inv, s, op).1)
  {
    hide Logged;
    Unchanged(s);
    match op {
      case InitAdminOp(who) => EmitLogs(s, s.(admin := Some(who)), Admin, Init, [Addr(who)]);
      case ProposeAdminOp(who) => EmitLogs(s, s.(pendingAdmin := Some(who)), Admin, Propose, [Addr(who)]);
      case AcceptAdminOp =>
        if s.pendingAdmin.Some? {
          EmitLogs(s, s.(admin := s.pendingAdmin, pendingAdmin := None), Admin, Accept, [Addr(s.pendingAdmin.value)]);
        }
      case SetPausedOp(flag) => EmitLogs(s, s.(paused := flag), Admin, PausedSym, [Flag(flag)]);
      case RegisterOp(key) => EmitLogs(s, s.(oracleKeys := s.oracleKeys + {key}), Oracle, Reg, [Key(key)]);
      case RevokeOp(key) => EmitLogs(s, s.(oracleKeys := s.oracleKeys - {key}), Oracle, Revoke, [Key(key)]);
    }
    hide Emit, Read, InForce;
  }

  lemma Unchanged(s: Chain)
    ensures Logged(s, s)
  {
  }

  lemma AdministrationTells(h: Host, inv: Invocation, s: Chain, op: AdminOp)
    requires ReadAll(s.log) == InForce(s)
    ensures var s' := Administer(h, inv, s, op).1; ReadAll(s'.log) == InForce(s')
  {
    hide Administer, ReadAll, Read, InForce;
    var s' := Administer(h, inv, s, op).1;
    AdministrationLogs(h, inv, s, op);
    if s' != s {
      var e :| s'.log == s.log + [e] && Read(InForce(s), e) == InForce(s');
      ReadOneMore(s.log, e);
    }
  }

  lemma {:induction false} RowsAside(id: nat, rows: Rows)
    ensures forall e :: e in RowEvents(id, rows) ==> Aside(e)
    ensures forall e :: e in PaidEvents(id, rows) ==> Aside(e)
  {
    if rows != [] {
      RowsAside(id, rows[..|rows| - 1]);
    }
  }

  lemma {:induction false} CancelsAside(id: nat, n: nat)
    ensures forall e :: e in CancelEvents(id, n) ==> Aside(e)
  {
    if n > 0 {
      CancelsAside(id, n - 1);
    }
  }

  lemma CallsAside(h: Host, s: Chain, st: Step)
    requires st.call.OnEscrow() && EffectOf(h, s, st).Ok?
    ensures forall e :: e in EffectOf(h, s, st).value.events ==> Aside(e)
  {
    hide PayRows, PayGuard, ShiftAllowed, Shift, Total, CheckRows, OracleMessage.ProofMessage, RowEvents, PaidEvents, CancelEvents, AnyFinalized;
    match st.call {
      case InitializeCall(_, _, _, rows) => RowsAside(s.escrowCount + 1, rows);
      case PayCall(id) => RowsAside(id, s.escrows[id].payments);
      case CancelCall(id) => CancelsAside(id, |s.escrows[id].payments|);
      case _ =>
    }
  }

  lemma StepTellsAll(h: Host, s: Chain, st: Step)
    requires ReadAll(s.log) == InForce(s)
    ensures ReadAll(Do(h, s, st).1.log) == InForce(Do(h, s, st).1)
  {
    hide ReadAll;
    if st.call.AdminCall? {
      AdministrationTells(h, st.inv, s, st.call.op);
      hide Administer, EffectOf;
    } else {
      NotAdministration(h, s, st);
      if st.call.OnEscrow() {
        OnEscrowStep(h, s, st);
        if EffectOf(h, s, st).Ok? {
          CallsAside(h, s, st);
          AsideReads(s.log, EffectOf(h, s, st).value.events);
        }
        hide EffectOf;
      } else {
        OtherCallsKeep(h, s, st);
      }
    }
  }

  /** After any run, the log alone tells who the admin is and is to be, whether the contract is paused, and which keys are registered. */
  lemma {:induction false} LogTellsAdministration(h: Host, bal: Balances, tr: Trace)
    ensures ReadAll(Run(h, Genesis(bal), tr).log) == InForce(Run(h, Genesis(bal), tr))
  {
    hide Do;
    if tr != [] {
      LogTellsAdministration(h, bal, tr[..|tr| - 1]);
      StepTellsAll(h, Run(h, Genesis(bal), tr[..|tr| - 1]), tr[|tr| - 1]);
    }
  }
}
