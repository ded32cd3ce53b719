/** A client of the store that follows one invoice through its life, proved from the
    store's contracts alone: created pending and unpaid, found by its number, paid, and
    an unknown number refused without a change. */
module Scenarios {
  import opened Wrappers
  import opened Schema
  import opened Storage

  method InvoiceLifecycle() {
    var store := new MemStorage(["s1", "s2", "s3", "n1", "n2", "n3", "n4", "n5"], 0);
    assert |store.GetServices()| == 3 && |store.GetNetworks()| == 5;

    var created := store.CreateInvoice(InsertInvoice("INV-1", "10.00", "ATOM", None, None, None), "i1", 1);
    assert created.status == "pending" && created.paidAt.None? && created.walletAddress.None?;
    assert store.GetInvoices() == [created];

    var found := store.GetInvoiceByNumber("INV-1");
    assert found == Some(created);

    var paid := store.PayInvoice(PayInvoice("INV-1", "cosmos1xyz", "tx_abc"), 2);
    assert paid.Success?;
    assert paid.value.status == "paid" && paid.value.paidAt == Some(2);
    assert paid.value.walletAddress == Some("cosmos1xyz") && paid.value.transactionHash == Some("tx_abc");
    assert paid.value.amount == "10.00" && paid.value.createdAt == 1;
    assert |store.GetInvoices()| == 1;

    var before := store.GetInvoices();
    var missing := store.PayInvoice(PayInvoice("INV-999", "cosmos1xyz", "tx_abc"), 3);
    assert missing == Failure(InvoiceNotFound);
    assert store.GetInvoices() == before;
  }
}
