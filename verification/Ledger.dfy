/** The append-only double-entry ledger: what an entry does to an account. */
module Ledger {

  datatype Account = AccountsReceivable | Cash | Revenue | Credits | Refunds

  /** One row of the journal. `R` says what the row refers to. */
  datatype Entry<R> = Entry(debit: Account, credit: Account, amount: int, ref: R)

  function Effect<R>(e: Entry<R>, a: Account): int {
    (if e.debit == a then e.amount else 0) - (if e.credit == a then e.amount else 0)
  }

  /** The net debit of an account. */
  function Net<R>(ledger: seq<Entry<R>>, a: Account): int {
    if ledger == [] then 0
    else Net(ledger[..|ledger| - 1], a) + Effect(ledger[|ledger| - 1], a)
  }

  lemma NetAppend<R>(ledger: seq<Entry<R>>, e: Entry<R>, a: Account)
    ensures Net(ledger + [e], a) == Net(ledger, a) + Effect(e, a)
  {
    assert (ledger + [e])[..|ledger|] == ledger;
  }

  lemma {:induction false} NetConcat<R>(l: seq<Entry<R>>, r: seq<Entry<R>>, a: Account)
    ensures Net(l + r, a) == Net(l, a) + Net(r, a)
  {
    if r == [] {
      assert l + r == l;
    } else {
      var n := |r| - 1;
      assert l + r == (l + r[..n]) + [r[n]];
      NetAppend(l + r[..n], r[n], a);
      NetConcat(l, r[..n], a);
    }
  }

  /** Debits equal credits: the five accounts always cancel. */
  lemma {:induction false} NetsCancel<R>(ledger: seq<Entry<R>>)
    ensures Net(ledger, AccountsReceivable) + Net(ledger, Cash) + Net(ledger, Revenue)
            + Net(ledger, Credits) + Net(ledger, Refunds) == 0
  {
    if ledger != [] { NetsCancel(ledger[..|ledger| - 1]); }
  }

  /** The entry with its accounts swapped, as a reversal posts it. */
  function Mirror<R>(e: Entry<R>): Entry<R> {
    e.(debit := e.credit, credit := e.debit)
  }

  function Mirrors<R>(ledger: seq<Entry<R>>): (r: seq<Entry<R>>)
    ensures |r| == |ledger|
  {
    if ledger == [] then []
    else Mirrors(ledger[..|ledger| - 1]) + [Mirror(ledger[|ledger| - 1])]
  }

  lemma {:induction false} MirrorsCancel<R>(ledger: seq<Entry<R>>, a: Account)
    ensures Net(Mirrors(ledger), a) == -Net(ledger, a)
  {
    if ledger != [] {
      var n := |ledger| - 1;
      MirrorsCancel(ledger[..n], a);
      NetAppend(Mirrors(ledger[..n]), Mirror(ledger[n]), a);
    }
  }
}
