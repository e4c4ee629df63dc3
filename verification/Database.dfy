/** The shared tables the services update in place, and the ledger service that appends to the journal. */
module Database {
  import opened Ledger
  import opened BillingState

  class Tables {
    var invoices: map<InvoiceId, Invoice>
    var balances: map<CustomerId, int>
    var notes: map<NoteId, Note>
    var charges: map<ChargeKey, Charge>
    var refunds: map<RefundKey, Refund>
    var dunning: map<InvoiceId, Chain>
    var processed: set<EventId>
    var ledger: Journal

    function Snapshot(): Db
      reads this
    {
      Db(invoices, balances, notes, charges, refunds, dunning, processed, ledger)
    }

    constructor ()
      ensures Snapshot() == EMPTY_DB
    {
      invoices, balances, notes, charges := map[], map[], map[], map[];
      refunds, dunning, processed, ledger := map[], map[], {}, [];
    }

    /** A transaction that throws leaves the tables as it found them. */
    method Restore(saved: Db)
      modifies this
      ensures Snapshot() == saved
    {
      invoices, balances, notes, charges := saved.invoices, saved.balances, saved.notes, saved.charges;
      refunds, dunning, processed, ledger := saved.refunds, saved.dunning, saved.processed, saved.ledger;
    }
  }

  class LedgerService {
    const db: Tables

    constructor (db: Tables)
      ensures this.db == db
    {
      this.db := db;
    }

    /** Appends one entry; false when the amount is refused and the ledger is left alone. */
    method CreateEntry(debit: Account, credit: Account, amount: int, ref: Reference) returns (posted: bool)
      modifies db`ledger
      ensures posted <==> amount > 0
      ensures db.ledger == old(db.ledger) + if posted then [Entry(debit, credit, amount, ref)] else []
    {
      if amount <= 0 { return false; }
      db.ledger := db.ledger + [Entry(debit, credit, amount, ref)];
      return true;
    }

    method RecordInvoiceFinalized(i: InvoiceId, amount: int) returns (posted: bool)
      modifies db`ledger
      ensures posted <==> amount > 0
      ensures db.ledger == old(db.ledger) + InvoiceEntries(i, amount)
    {
      posted := CreateEntry(AccountsReceivable, Revenue, amount, InvoiceRef(i));
    }

    method RecordPaymentSucceeded(k: ChargeKey, amount: int) returns (posted: bool)
      modifies db`ledger
      ensures posted <==> amount > 0
      ensures posted ==> db.ledger == old(db.ledger) + [Entry(Cash, AccountsReceivable, amount, PaymentRef(k))]
    {
      posted := CreateEntry(Cash, AccountsReceivable, amount, PaymentRef(k));
    }

    method RecordCreditNoteIssued(n: NoteId, amount: int) returns (posted: bool)
      modifies db`ledger
      ensures posted <==> amount > 0
      ensures posted ==> db.ledger == old(db.ledger) + [Entry(Credits, AccountsReceivable, amount, CreditNoteRef(n))]
    {
      posted := CreateEntry(Credits, AccountsReceivable, amount, CreditNoteRef(n));
    }

    method RecordCreditNoteReversed(n: NoteId, amount: int) returns (posted: bool)
      modifies db`ledger
      ensures posted <==> amount > 0
      ensures posted ==> db.ledger == old(db.ledger) + [Entry(AccountsReceivable, Credits, amount, CreditNoteRef(n))]
    {
      posted := CreateEntry(AccountsReceivable, Credits, amount, CreditNoteRef(n));
    }

    method RecordCreditApplied(i: InvoiceId, amount: int) returns (posted: bool)
      modifies db`ledger
      ensures posted <==> amount > 0
      ensures db.ledger == old(db.ledger) + CreditEntries(i, amount)
    {
      posted := CreateEntry(AccountsReceivable, Credits, amount, CreditApplicationRef(i));
    }

    method RecordInvoiceVoided(i: InvoiceId, amount: int) returns (posted: bool)
      modifies db`ledger
      ensures posted <==> amount > 0
      ensures posted ==> db.ledger == old(db.ledger) + [Entry(Revenue, AccountsReceivable, amount, VoidRef(i))]
    {
      posted := CreateEntry(Revenue, AccountsReceivable, amount, VoidRef(i));
    }

    method RecordRefundSucceeded(r: RefundKey, amount: int) returns (posted: bool)
      modifies db`ledger
      ensures posted <==> amount > 0
      ensures posted ==> db.ledger == old(db.ledger) + [Entry(Ledger.Refunds, Cash, amount, RefundRef(r))]
    {
      posted := CreateEntry(Ledger.Refunds, Cash, amount, RefundRef(r));
    }
  }
}
