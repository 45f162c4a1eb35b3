/**
 * Facts about moving custody: what the closed form `Shift` does to each balance, that the contract's
 * distinct-token loops and a transfer per row both reach it, and what a settlement does to each balance.
 */
module Custody {
  import opened Prelude
  import opened ByteStrings
  import opened Escrow

  ghost predicate Positive(rows: Rows) {
    forall i :: 0 <= i < |rows| ==> rows[i].amount > 0
  }

  lemma {:induction false} TokenSumBounds(rows: Rows, token: Address)
    requires Positive(rows)
    ensures 0 <= TokenSum(rows, token) <= Total(rows)
    ensures token in Tokens(rows) ==> TokenSum(rows, token) > 0
    ensures token !in Tokens(rows) ==> TokenSum(rows, token) == 0
  {
    if rows != [] {
      var front := rows[..|rows| - 1];
      TokenSumBounds(front, token);
      TokensSnoc(front, rows[|rows| - 1]);
      assert front + [rows[|rows| - 1]] == rows;
    }
  }

  lemma TokensSnoc(rows: Rows, p: PaymentSchedule)
    ensures Tokens(rows + [p]) == Tokens(rows) + {p.token}
  {
    var all := rows + [p];
    forall t | t in Tokens(rows) + {p.token}
      ensures t in Tokens(all)
    {
      if t in Tokens(rows) {
        var i :| 0 <= i < |rows| && rows[i].token == t;
        assert all[i].token == t;
      } else {
        assert all[|rows|].token == t;
      }
    }
  }

  /** The sums of a prefix never exceed the sums of the whole. */
  lemma {:induction false} PrefixSums(rows: Rows, n: nat, token: Address)
    requires Positive(rows) && n <= |rows|
    ensures 0 <= TokenSum(rows[..n], token) <= TokenSum(rows, token)
    ensures 0 <= Total(rows[..n]) <= Total(rows)
    decreases |rows|
  {
    if n == |rows| {
      assert rows[..n] == rows;
      TokenSumBounds(rows, token);
    } else {
      assert rows[..|rows| - 1][..n] == rows[..n];
      PrefixSums(rows[..|rows| - 1], n, token);
    }
  }

  lemma ShiftBalance(bal: Balances, rows: Rows, from: Address, to: Address, token: Address, holder: Address)
    requires from != to && Positive(rows)
    ensures Bal(Shift(bal, rows, from, to), token, holder) ==
            Bal(bal, token, holder)
            - (if holder == from then TokenSum(rows, token) else 0)
            + (if holder == to then TokenSum(rows, token) else 0)
  {
    TokenSumBounds(rows, token);
  }

  // ----- the contract's loops: one transfer per distinct token -----

  /** Balances once every row whose token is in `done` has been moved. */
  function ShiftTokens(bal: Balances, rows: Rows, done: set<Address>, from: Address, to: Address): Balances {
    map k | k in bal.Keys + Legs(done, from, to) ::
      Bal(bal, k.0, k.1)
      - (if k.1 == from && k.0 in done then TokenSum(rows, k.0) else 0)
      + (if k.1 == to && k.0 in done then TokenSum(rows, k.0) else 0)
  }

  lemma ShiftTokensNone(bal: Balances, rows: Rows, from: Address, to: Address)
    ensures ShiftTokens(bal, rows, {}, from, to) == bal
  {
  }

  lemma ShiftTokensAll(bal: Balances, rows: Rows, from: Address, to: Address)
    requires Positive(rows)
    ensures ShiftTokens(bal, rows, Tokens(rows), from, to) == Shift(bal, rows, from, to)
  {
    var a, b := ShiftTokens(bal, rows, Tokens(rows), from, to), Shift(bal, rows, from, to);
    assert a.Keys == b.Keys;
    forall k | k in a
      ensures a[k] == b[k]
    {
      TokenSumBounds(rows, k.0);
    }
  }

  /** What one transfer does to any one balance. */
  lemma TransferBalance(bal: Balances, inv: Invocation, token: Address, from: Address, to: Address, amount: int, t: Address, a: Address)
    requires Transfer(bal, inv, token, from, to, amount).Some?
    ensures
      var b := Transfer(bal, inv, token, from, to, amount).value;
      && ((t, a) in b <==> (t, a) in bal || (t == token && (a == from || a == to)))
      && Bal(b, t, a) == Bal(bal, t, a) - (if t == token && a == from then amount else 0) + (if t == token && a == to then amount else 0)
  {
  }

  lemma ShiftTokensBalance(bal: Balances, rows: Rows, done: set<Address>, from: Address, to: Address, t: Address, a: Address)
    requires from != to
    ensures
      var b := ShiftTokens(bal, rows, done, from, to);
      && ((t, a) in b <==> (t, a) in bal || (t in done && (a == from || a == to)))
      && Bal(b, t, a) == Bal(bal, t, a) - (if t in done && a == from then TokenSum(rows, t) else 0)
                                        + (if t in done && a == to then TokenSum(rows, t) else 0)
  {
  }

  /** One more token: a single transfer of that token's whole sum. */
  lemma ShiftTokensStep(bal: Balances, inv: Invocation, rows: Rows, done: set<Address>, token: Address, from: Address, to: Address)
    requires from != to && Positive(rows) && token !in done
    ensures
      var b := ShiftTokens(bal, rows, done, from, to);
      var moved := Transfer(b, inv, token, from, to, TokenSum(rows, token));
      && (moved.Some? <==> TokenMoves(bal, inv, rows, token, from, to))
      && (moved.Some? ==> moved.value == ShiftTokens(bal, rows, done + {token}, from, to))
  {
    TokenSumBounds(rows, token);
    var b := ShiftTokens(bal, rows, done, from, to);
    var amount := TokenSum(rows, token);
    ShiftTokensBalance(bal, rows, done, from, to, token, from);
    ShiftTokensBalance(bal, rows, done, from, to, token, to);
    var moved := Transfer(b, inv, token, from, to, amount);
    if moved.Some? {
      StepEntries(bal, inv, rows, done, token, from, to);
    }
  }

  lemma StepEntries(bal: Balances, inv: Invocation, rows: Rows, done: set<Address>, token: Address, from: Address, to: Address)
    requires from != to && token !in done
    requires Transfer(ShiftTokens(bal, rows, done, from, to), inv, token, from, to, TokenSum(rows, token)).Some?
    ensures Transfer(ShiftTokens(bal, rows, done, from, to), inv, token, from, to, TokenSum(rows, token)).value
            == ShiftTokens(bal, rows, done + {token}, from, to)
  {
    var b := ShiftTokens(bal, rows, done, from, to);
    var moved := Transfer(b, inv, token, from, to, TokenSum(rows, token)).value;
    var next := ShiftTokens(bal, rows, done + {token}, from, to);
    forall t, a
      ensures (t, a) in moved <==> (t, a) in next
      ensures Bal(moved, t, a) == Bal(next, t, a)
    {
      TransferBalance(b, inv, token, from, to, TokenSum(rows, token), t, a);
      ShiftTokensBalance(bal, rows, done, from, to, t, a);
      ShiftTokensBalance(bal, rows, done + {token}, from, to, t, a);
    }
    SameBalances(moved, next);
  }

  /** Balance maps with the same entries are the same map. */
  lemma SameBalances(a: Balances, b: Balances)
    requires forall t, h :: (t, h) in a <==> (t, h) in b
    requires forall t, h :: Bal(a, t, h) == Bal(b, t, h)
    ensures a == b
  {
    forall k
      ensures k in a <==> k in b
      ensures k in a && k in b ==> a[k] == b[k]
    {
      assert k == (k.0, k.1) && Bal(a, k.0, k.1) == Bal(b, k.0, k.1);
    }
  }

  // ----- the same custody, moved row by row -----

  /** One transfer per row, in row order. */
  function MoveRows(bal: Balances, inv: Invocation, rows: Rows, from: Address, to: Address): Option<Balances> {
    if rows == [] then Some(bal)
    else
      var p := rows[|rows| - 1];
      match MoveRows(bal, inv, rows[..|rows| - 1], from, to)
      case None => None
      case Some(b) => Transfer(b, inv, p.token, from, to, p.amount)
  }

  /**
   * Grouping by token is invisible: one transfer per distinct token succeeds exactly when one transfer per row
   * would, and leaves exactly the same balances.
   */
  lemma {:induction false} GroupedEqualsRowwise(bal: Balances, inv: Invocation, rows: Rows, from: Address, to: Address)
    requires from != to && Positive(rows)
    ensures MoveRows(bal, inv, rows, from, to) ==
            if ShiftAllowed(bal, inv, rows, from, to) then Some(Shift(bal, rows, from, to)) else None
  {
    if rows == [] {
      assert Shift(bal, rows, from, to) == bal;
    } else {
      var front, p := rows[..|rows| - 1], rows[|rows| - 1];
      assert front + [p] == rows;
      TokensSnoc(front, p);
      GroupedEqualsRowwise(bal, inv, front, from, to);
      SnocAllowed(bal, inv, front, p, from, to);
      if MoveRows(bal, inv, front, from, to).Some? {
        var b := Shift(bal, front, from, to);
        ShiftBalance(bal, front, from, to, p.token, from);
        ShiftBalance(bal, front, from, to, p.token, to);
        if Transfer(b, inv, p.token, from, to, p.amount).Some? {
          SnocShift(bal, inv, front, p, from, to);
        }
      }
    }
  }

  lemma SnocAllowed(bal: Balances, inv: Invocation, front: Rows, p: PaymentSchedule, from: Address, to: Address)
    requires from != to && Positive(front + [p])
    ensures ShiftAllowed(bal, inv, front + [p], from, to) <==>
            && ShiftAllowed(bal, inv, front, from, to)
            && (p.token, from, to) !in inv.refused
            && TokenSum(front, p.token) + p.amount <= Bal(bal, p.token, from)
            && Bal(bal, p.token, to) + TokenSum(front, p.token) + p.amount < I128_LIMIT
  {
    var rows := front + [p];
    assert rows[..|rows| - 1] == front;
    TokensSnoc(front, p);
    assert p.token in Tokens(rows);
    forall i | 0 <= i < |front| ensures front[i].amount > 0 { assert rows[i] == front[i]; }
    assert Positive(front);
    forall t
      ensures TokenSum(rows, t) == TokenSum(front, t) + (if t == p.token then p.amount else 0)
    {
    }
    assert p.amount > 0 by { assert rows[|front|] == p; }
  }

  lemma SnocShift(bal: Balances, inv: Invocation, front: Rows, p: PaymentSchedule, from: Address, to: Address)
    requires from != to && Positive(front + [p])
    requires Transfer(Shift(bal, front, from, to), inv, p.token, from, to, p.amount).Some?
    ensures Transfer(Shift(bal, front, from, to), inv, p.token, from, to, p.amount).value == Shift(bal, front + [p], from, to)
  {
    var rows := front + [p];
    assert rows[..|rows| - 1] == front;
    TokensSnoc(front, p);
    forall i | 0 <= i < |front| ensures front[i].amount > 0 { assert rows[i] == front[i]; }
    var b := Shift(bal, front, from, to);
    var moved, whole := Transfer(b, inv, p.token, from, to, p.amount).value, Shift(bal, rows, from, to);
    forall t, a
      ensures (t, a) in moved <==> (t, a) in whole
      ensures Bal(moved, t, a) == Bal(whole, t, a)
    {
      TokenSumBounds(front, t);
      ShiftBalance(bal, front, from, to, t, a);
    }
    SameBalances(moved, whole);
  }
}
