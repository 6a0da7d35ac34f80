/** The wallet ledger: a wallet's balance against its transaction history,
    the wallet created at registration or by the connect upsert, the
    payment record and the debit entry a job-posting payment appends. */
module Ledger {
  import opened Common
  import opened Models

  /** The sum of the amounts of a transaction history. */
  function Sum(ts: seq<WalletEntry>): int {
    if ts == [] then 0 else ts[0].amount + Sum(ts[1..])
  }

  /** The ledger invariant: the balance is the sum of the entry amounts.
      Every entry the handlers append is `completed`, so this is also the
      sum of the completed entries. */
  predicate Consistent(w: Wallet) {
    w.balance == Sum(w.transactions)
  }

  lemma {:induction false} SumAppend(ts: seq<WalletEntry>, e: WalletEntry)
    ensures Sum(ts + [e]) == Sum(ts) + e.amount
  {
    if ts == [] {
      assert [] + [e] == [e];
    } else {
      assert (ts + [e])[1..] == ts[1..] + [e];
      SumAppend(ts[1..], e);
    }
  }

  /** A new wallet: the schema defaults give a zero balance and no
      transactions, so a new wallet is consistent. */
  function NewWallet(owner: Id, address: string): (w: Wallet)
    ensures w.owner == owner && w.address == address
    ensures w.balance == 0 && w.transactions == []
    ensures Consistent(w)
  {
    Wallet(owner, address, 0, [])
  }

  /** The entry a job-posting payment pushes: type `payment`, the negated
      amount, the transaction id, status `completed`, stamped now. */
  function PaymentDebit(amount: int, transactionId: string, now: int): WalletEntry {
    WalletEntry(PaymentEntry, -amount, Some(transactionId), now, TransferCompleted)
  }

  /** `$push` of the debit entry together with `$inc: {balance: -amount}`.
      There is no balance floor: the result may be negative. */
  function PushPayment(w: Wallet, amount: int, transactionId: string, now: int): (w': Wallet)
    ensures w'.owner == w.owner && w'.address == w.address
    ensures w'.balance == w.balance - amount
    ensures w'.transactions == w.transactions + [PaymentDebit(amount, transactionId, now)]
    ensures Consistent(w) ==> Consistent(w')
  {
    SumAppend(w.transactions, PaymentDebit(amount, transactionId, now));
    w.(balance := w.balance - amount,
       transactions := w.transactions + [PaymentDebit(amount, transactionId, now)])
  }

  /** Two debits in a row lower the balance by both amounts and keep a
      consistent wallet consistent. */
  lemma TwoPaymentsDebitBoth(w: Wallet, a1: int, t1: string, a2: int, t2: string, now: int)
    requires Consistent(w)
    ensures var w2 := PushPayment(PushPayment(w, a1, t1, now), a2, t2, now);
            Consistent(w2) && w2.balance == w.balance - a1 - a2 && |w2.transactions| == |w.transactions| + 2
  {
  }

  /** The payment record payForJobPosting creates: a completed job-posting
      payment in the default currency, targeting the job. */
  function JobPostingPayment(amount: int, payer: Id, job: Id, transactionId: string, now: int): (p: Payment)
    ensures p.kind == JobPosting && p.onModel == OnJob && p.relatedId == job
    ensures p.payer == payer && p.amount == amount && p.transactionId == transactionId
    ensures p.status == TransferCompleted && p.currency == DefaultCurrency
  {
    Payment(amount, DefaultCurrency, payer, JobPosting, job, OnJob, transactionId, TransferCompleted, now)
  }

  /** The schema default of `currency`. */
  const DefaultCurrency: string := "ETH"

  /** The payments that target a given job. */
  function PaymentsForJob(payments: map<Id, Payment>, job: Id): set<Id> {
    set p | p in payments && payments[p].onModel == OnJob && payments[p].relatedId == job
  }

  /** Recording one new payment for a job adds exactly one payment for that
      job and none for any other. */
  lemma AddPaymentForJob(payments: map<Id, Payment>, id: Id, p: Payment)
    requires id !in payments && p.onModel == OnJob
    ensures |PaymentsForJob(payments[id := p], p.relatedId)| == |PaymentsForJob(payments, p.relatedId)| + 1
    ensures forall j :: j != p.relatedId ==> PaymentsForJob(payments[id := p], j) == PaymentsForJob(payments, j)
  {
    assert PaymentsForJob(payments[id := p], p.relatedId) == PaymentsForJob(payments, p.relatedId) + {id};
  }
}
