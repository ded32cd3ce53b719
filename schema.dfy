/** The records of the store and the shapes of the requests that create or pay them.
    Identifiers are the strings the store's id supply hands out; timestamps are clock
    readings; decimal prices and amounts are kept as the strings the client sent. */
module Schema {
  import opened Wrappers

  type Id = string

  /** A reading of the server clock (`new Date()`), taken as a parameter. */
  type Time = nat

  datatype Service = Service(
    id: Id,
    name: string,
    description: string,
    features: seq<string>,
    price: Option<string>,
    category: string,
    isPopular: bool,
    createdAt: Time)

  /** The validated body of a service insert: `price` and `isPopular` may be omitted. */
  datatype InsertService = InsertService(
    name: string,
    description: string,
    features: seq<string>,
    price: Option<string>,
    category: string,
    isPopular: Option<bool>)

  datatype Network = Network(
    id: Id,
    name: string,
    symbol: string,
    icon: string,
    isSupported: bool,
    createdAt: Time)

  /** The validated body of a network insert: `isSupported` may be omitted. */
  datatype InsertNetwork = InsertNetwork(
    name: string,
    symbol: string,
    icon: string,
    isSupported: Option<bool>)

  datatype Contact = Contact(
    id: Id,
    name: string,
    email: string,
    subject: string,
    message: string,
    createdAt: Time)

  datatype InsertContact = InsertContact(
    name: string,
    email: string,
    subject: string,
    message: string)

  /** `status` is a free string column ("pending", "paid", "failed" by convention). */
  datatype Invoice = Invoice(
    id: Id,
    invoiceNumber: string,
    amount: string,
    currency: string,
    walletAddress: Option<string>,
    status: string,
    transactionHash: Option<string>,
    createdAt: Time,
    paidAt: Option<Time>)

  /** The validated body of `POST /api/invoices`: the number, amount and currency are
      required, the rest may be omitted; id, createdAt and paidAt are not accepted. */
  datatype InsertInvoice = InsertInvoice(
    invoiceNumber: string,
    amount: string,
    currency: string,
    walletAddress: Option<string>,
    status: Option<string>,
    transactionHash: Option<string>)

  /** The validated body of `POST /api/invoices/pay`. */
  datatype PayInvoice = PayInvoice(
    invoiceNumber: string,
    walletAddress: string,
    transactionHash: string)

  /** One field-level violation reported by the validator. */
  datatype Issue = Issue(path: string, message: string)

  /** A field of an incoming JSON body, as far as a string schema can tell. */
  datatype Field = Absent | Text(text: string) | NonText

  /** An unvalidated pay request body: only the keys the pay schema defines. */
  datatype PayBody = PayBody(invoiceNumber: Field, walletAddress: Field, transactionHash: Field)

  /** Some issue of `issues` concerns the field at `path`. */
  ghost predicate Reported(issues: seq<Issue>, path: string) {
    exists i :: 0 <= i < |issues| && issues[i].path == path
  }

  /** The issue a required string field yields: none for a string. */
  function FieldIssues(path: string, f: Field): (issues: seq<Issue>)
    ensures f.Text? <==> issues == []
    ensures forall i :: 0 <= i < |issues| ==> issues[i].path == path
    ensures forall p :: Reported(issues, p) <==> p == path && !f.Text?
  {
    if f.Text? then []
    else
      var issues := [Issue(path, if f.Absent? then "Required" else "Expected string")];
      assert issues[0].path == path;
      issues
  }

  /** `payInvoiceSchema.parse`: three required strings. Every offending field is
      reported, in the schema's order; a body with all three succeeds. */
  function ParsePayInvoice(body: PayBody): (r: Result<PayInvoice, seq<Issue>>)
    ensures r.Success? <==> body.invoiceNumber.Text? && body.walletAddress.Text? && body.transactionHash.Text?
    ensures r.Success? ==>
              && r.value.invoiceNumber == body.invoiceNumber.text
              && r.value.walletAddress == body.walletAddress.text
              && r.value.transactionHash == body.transactionHash.text
    ensures r.Failure? ==> r.error != []
  {
    var a := FieldIssues("invoiceNumber", body.invoiceNumber);
    var b := FieldIssues("walletAddress", body.walletAddress);
    var c := FieldIssues("transactionHash", body.transactionHash);
    var issues := a + b + c;
    if issues == [] then
      Success(PayInvoice(body.invoiceNumber.text, body.walletAddress.text, body.transactionHash.text))
    else
      Failure(issues)
  }

  /** A rejected pay body names exactly the fields that are missing or not strings. */
  lemma ParsePayInvoiceReports(body: PayBody)
    requires ParsePayInvoice(body).Failure?
    ensures Reported(ParsePayInvoice(body).error, "invoiceNumber") <==> !body.invoiceNumber.Text?
    ensures Reported(ParsePayInvoice(body).error, "walletAddress") <==> !body.walletAddress.Text?
    ensures Reported(ParsePayInvoice(body).error, "transactionHash") <==> !body.transactionHash.Text?
  {
    var a := FieldIssues("invoiceNumber", body.invoiceNumber);
    var b := FieldIssues("walletAddress", body.walletAddress);
    var c := FieldIssues("transactionHash", body.transactionHash);
    assert ParsePayInvoice(body).error == a + b + c;
    ReportedInConcat(a, b, c, "invoiceNumber");
    ReportedInConcat(a, b, c, "walletAddress");
    ReportedInConcat(a, b, c, "transactionHash");
  }

  /** An issue about `path` is in `a + b + c` iff it is in one of the parts. */
  lemma ReportedInConcat(a: seq<Issue>, b: seq<Issue>, c: seq<Issue>, path: string)
    ensures Reported(a + b + c, path) <==> Reported(a, path) || Reported(b, path) || Reported(c, path)
  {
    var s := a + b + c;
    if Reported(s, path) {
      var i :| 0 <= i < |s| && s[i].path == path;
      if i < |a| {
        assert a[i] == s[i];
      } else if i < |a| + |b| {
        assert b[i - |a|] == s[i];
      } else {
        assert c[i - |a| - |b|] == s[i];
      }
    }
    if Reported(a, path) {
      var i :| 0 <= i < |a| && a[i].path == path;
      assert s[i] == a[i];
    }
    if Reported(b, path) {
      var i :| 0 <= i < |b| && b[i].path == path;
      assert s[|a| + i] == b[i];
    }
    if Reported(c, path) {
      var i :| 0 <= i < |c| && c[i].path == path;
      assert s[|a| + |b| + i] == c[i];
    }
  }
}
