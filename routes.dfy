/** The REST surface over the record store. Each handler validates its body first (where
    it has one), then calls the store, then turns what came back or what was thrown into
    a status code and a JSON body. The per-route mappings are pure functions of the
    outcome; the handlers that write to the store are methods over it. */
module Routes {
  import opened Wrappers
  import opened Schema
  import opened Storage

  /** What a handler's `catch` can receive: the validator's error, an `Error` with a
      message, or any other thrown value. */
  datatype Thrown = ZodError(issues: seq<Issue>) | Error(message: string) | NonError

  /** How the awaited store call (or the parse before it) ended. */
  datatype Outcome<T> = Returned(value: T) | Threw(thrown: Thrown)

  /** The dashboard figures served by `GET /api/status`. */
  datatype StatusSnapshot = StatusSnapshot(
    validatorHealth: string,
    rpcResponse: string,
    networkCoverage: string,
    totalStaked: string,
    delegators: int,
    rewards: string,
    commission: string,
    uptime: string,
    networks: int,
    validators: int)

  datatype Body =
    | ErrorBody(message: string)
    | ValidationBody(message: string, errors: seq<Issue>)
    | ServicesBody(services: seq<Service>)
    | ServiceBody(service: Service)
    | NetworksBody(networks: seq<Network>)
    | ContactBody(message: string, contact: Contact)
    | InvoicesBody(invoices: seq<Invoice>)
    | InvoiceBody(invoice: Invoice)
    | PaymentBody(message: string, invoice: Invoice)
    | StatusBody(snapshot: StatusSnapshot)

  datatype Response = Response(status: nat, body: Body)

  const InvalidInput := "Invalid input"

  /** The 400 response for a body the validator rejected. */
  function Invalid(issues: seq<Issue>): Response {
    Response(400, ValidationBody(InvalidInput, issues))
  }

  // Outcome-to-response mappings, one per route

  /** `GET /api/services`: 200 with the list, 500 on anything thrown. */
  function ServicesResponse(o: Outcome<seq<Service>>): (resp: Response)
    ensures resp.status == 200 <==> o.Returned?
    ensures o.Returned? ==> resp.body == ServicesBody(o.value)
    ensures o.Threw? ==> resp == Response(500, ErrorBody("Failed to fetch services"))
  {
    match o
    case Returned(list) => Response(200, ServicesBody(list))
    case Threw(_) => Response(500, ErrorBody("Failed to fetch services"))
  }

  /** `GET /api/services/:id`: 404 when the store has no such service. */
  function ServiceResponse(o: Outcome<Option<Service>>): (resp: Response)
    ensures resp.status == 200 || resp.status == 404 || resp.status == 500
    ensures resp.status == 200 <==> o.Returned? && o.value.Some?
    ensures resp.status == 200 ==> resp.body == ServiceBody(o.value.value)
    ensures resp.status == 404 <==> o == Returned(None)
    ensures resp.status == 404 ==> resp.body == ErrorBody("Service not found")
    ensures resp.status == 500 ==> resp.body == ErrorBody("Failed to fetch service")
  {
    match o
    case Returned(None) => Response(404, ErrorBody("Service not found"))
    case Returned(Some(service)) => Response(200, ServiceBody(service))
    case Threw(_) => Response(500, ErrorBody("Failed to fetch service"))
  }

  /** `GET /api/networks`: 200 with the list, 500 on anything thrown. */
  function NetworksResponse(o: Outcome<seq<Network>>): (resp: Response)
    ensures resp.status == 200 <==> o.Returned?
    ensures o.Returned? ==> resp.body == NetworksBody(o.value)
    ensures o.Threw? ==> resp == Response(500, ErrorBody("Failed to fetch networks"))
  {
    match o
    case Returned(list) => Response(200, NetworksBody(list))
    case Threw(_) => Response(500, ErrorBody("Failed to fetch networks"))
  }

  /** `POST /api/contact`: 400 for a validation error, 500 for anything else thrown;
      never 404. */
  function ContactResponse(o: Outcome<Contact>): (resp: Response)
    ensures resp.status == 200 || resp.status == 400 || resp.status == 500
    ensures resp.status == 200 <==> o.Returned?
    ensures resp.status == 200 ==> resp.body == ContactBody("Contact form submitted successfully", o.value)
    ensures resp.status == 400 <==> o.Threw? && o.thrown.ZodError?
    ensures resp.status == 400 ==> resp == Invalid(o.thrown.issues)
    ensures resp.status == 500 ==> resp.body == ErrorBody("Failed to submit contact form")
  {
    match o
    case Returned(contact) => Response(200, ContactBody("Contact form submitted successfully", contact))
    case Threw(ZodError(issues)) => Invalid(issues)
    case Threw(_) => Response(500, ErrorBody("Failed to submit contact form"))
  }

  /** `GET /api/invoices`: 200 with the list, 500 on anything thrown. */
  function InvoicesResponse(o: Outcome<seq<Invoice>>): (resp: Response)
    ensures resp.status == 200 <==> o.Returned?
    ensures o.Returned? ==> resp.body == InvoicesBody(o.value)
    ensures o.Threw? ==> resp == Response(500, ErrorBody("Failed to fetch invoices"))
  {
    match o
    case Returned(list) => Response(200, InvoicesBody(list))
    case Threw(_) => Response(500, ErrorBody("Failed to fetch invoices"))
  }

  /** `GET /api/invoices/:invoiceNumber`: 404 when no invoice has the number. */
  function InvoiceResponse(o: Outcome<Option<Invoice>>): (resp: Response)
    ensures resp.status == 200 || resp.status == 404 || resp.status == 500
    ensures resp.status == 200 <==> o.Returned? && o.value.Some?
    ensures resp.status == 200 ==> resp.body == InvoiceBody(o.value.value)
    ensures resp.status == 404 <==> o == Returned(None)
    ensures resp.status == 404 ==> resp.body == ErrorBody(InvoiceNotFound)
    ensures resp.status == 500 ==> resp.body == ErrorBody("Failed to fetch invoice")
  {
    match o
    case Returned(None) => Response(404, ErrorBody(InvoiceNotFound))
    case Returned(Some(invoice)) => Response(200, InvoiceBody(invoice))
    case Threw(_) => Response(500, ErrorBody("Failed to fetch invoice"))
  }

  /** `POST /api/invoices`: 400 for a validation error, 500 for anything else thrown;
      never 404. */
  function CreateInvoiceResponse(o: Outcome<Invoice>): (resp: Response)
    ensures resp.status == 200 || resp.status == 400 || resp.status == 500
    ensures resp.status == 200 <==> o.Returned?
    ensures resp.status == 200 ==> resp.body == InvoiceBody(o.value)
    ensures resp.status == 400 <==> o.Threw? && o.thrown.ZodError?
    ensures resp.status == 400 ==> resp == Invalid(o.thrown.issues)
    ensures resp.status == 500 ==> resp.body == ErrorBody("Failed to create invoice")
  {
    match o
    case Returned(invoice) => Response(200, InvoiceBody(invoice))
    case Threw(ZodError(issues)) => Invalid(issues)
    case Threw(_) => Response(500, ErrorBody("Failed to create invoice"))
  }

  /** `POST /api/invoices/pay`: 400 for a validation error, 404 for an `Error` whose
      message is exactly "Invoice not found" (echoing that message), 500 otherwise. */
  function PayResponse(o: Outcome<Invoice>): (resp: Response)
    ensures resp.status == 200 <==> o.Returned?
    ensures resp.status == 200 ==> resp.body == PaymentBody("Payment processed successfully", o.value)
    ensures resp.status == 400 <==> o.Threw? && o.thrown.ZodError?
    ensures resp.status == 400 ==> resp == Invalid(o.thrown.issues)
    ensures resp.status == 404 <==> o == Threw(Error(InvoiceNotFound))
    ensures resp.status == 404 ==> resp.body == ErrorBody(InvoiceNotFound)
    ensures resp.status == 500 <==> o.Threw? && !o.thrown.ZodError? && o.thrown != Error(InvoiceNotFound)
    ensures resp.status == 500 ==> resp.body == ErrorBody("Failed to process payment")
  {
    match o
    case Returned(invoice) => Response(200, PaymentBody("Payment processed successfully", invoice))
    case Threw(ZodError(issues)) => Invalid(issues)
    case Threw(Error(message)) =>
      if message == InvoiceNotFound then Response(404, ErrorBody(message))
      else Response(500, ErrorBody("Failed to process payment"))
    case Threw(NonError) => Response(500, ErrorBody("Failed to process payment"))
  }

  /** `GET /api/status`: the same mock dashboard figures on every call. */
  function StatusResponse(): (resp: Response)
    ensures resp.status == 200 && resp.body.StatusBody?
    ensures resp.body.snapshot.delegators == 1247
    ensures resp.body.snapshot.networks == 15 && resp.body.snapshot.validators == 50
    ensures resp.body.snapshot.validatorHealth == "100%" && resp.body.snapshot.uptime == "99.9%"
  {
    Response(200, StatusBody(StatusSnapshot("100%", "127ms", "15+", "$2.4M", 1247, "8.3%", "5%", "99.9%", 15, 50)))
  }

  // Handlers over the store. The in-memory store never throws on reads or creates,
  // so the 500 branches above are unreachable through these handlers.

  /** `GET /api/services`: every stored service, in insertion order. */
  function GetServicesRoute(store: MemStorage): (resp: Response)
    reads store
    requires store.Valid()
    ensures resp.status == 200 && resp.body.ServicesBody?
    ensures resp.body.services == store.GetServices()
    ensures |resp.body.services| == store.services.Size()
  {
    ServicesResponse(Returned(store.GetServices()))
  }

  /** `GET /api/services/:id`: 404 "Service not found" exactly when no service has the
      id, otherwise 200 with the service stored under it. */
  function GetServiceRoute(store: MemStorage, id: Id): (resp: Response)
    reads store
    requires store.Valid()
    ensures resp.status == 200 || resp.status == 404
    ensures resp.status == 404 <==> id !in store.services.entries
    ensures resp.status == 404 ==> resp.body == ErrorBody("Service not found")
    ensures resp.status == 200 ==> resp.body.ServiceBody? && resp.body.service.id == id
                                   && resp.body.service in store.GetServices()
  {
    ServiceResponse(Returned(store.GetService(id)))
  }

  /** `GET /api/networks`: every stored network, in insertion order. */
  function GetNetworksRoute(store: MemStorage): (resp: Response)
    reads store
    requires store.Valid()
    ensures resp.status == 200 && resp.body.NetworksBody?
    ensures resp.body.networks == store.GetNetworks()
    ensures |resp.body.networks| == store.networks.Size()
  {
    NetworksResponse(Returned(store.GetNetworks()))
  }

  /** `GET /api/invoices`: every stored invoice, in insertion order. */
  function GetInvoicesRoute(store: MemStorage): (resp: Response)
    reads store
    requires store.Valid()
    ensures resp.status == 200 && resp.body.InvoicesBody?
    ensures resp.body.invoices == store.GetInvoices()
    ensures |resp.body.invoices| == store.invoices.Size()
  {
    InvoicesResponse(Returned(store.GetInvoices()))
  }

  /** `GET /api/invoices/:invoiceNumber`: 404 "Invoice not found" exactly when no
      invoice has the number, otherwise 200 with the first one that has it. */
  method GetInvoiceRoute(store: MemStorage, invoiceNumber: string) returns (resp: Response)
    requires store.Valid()
    ensures resp.status == 200 || resp.status == 404
    ensures resp.status == 404 <==> forall inv :: inv in store.GetInvoices() ==> inv.invoiceNumber != invoiceNumber
    ensures resp.status == 404 ==> resp.body == ErrorBody(InvoiceNotFound)
    ensures resp.status == 200 ==> resp.body == InvoiceBody(FirstWithNumber(store.GetInvoices(), invoiceNumber).value)
  {
    var found := store.GetInvoiceByNumber(invoiceNumber);
    resp := InvoiceResponse(Returned(found));
  }

  /** `POST /api/contact`. `parsed` is what `insertContactSchema.parse` made of the body:
      a rejected body answers 400 without touching the store; an accepted one is stored
      under `id` and echoed with a confirmation. */
  method PostContact(store: MemStorage, parsed: Result<InsertContact, seq<Issue>>, id: Id, now: Time)
    returns (resp: Response)
    requires store.Valid()
    modifies store
    ensures store.Valid()
    ensures resp.status == 200 || resp.status == 400
    ensures parsed.Failure? ==> resp == Invalid(parsed.error) && unchanged(store)
    ensures parsed.Success? ==>
              && resp.status == 200 && resp.body.ContactBody?
              && resp.body == ContactBody("Contact form submitted successfully",
                                          Contact(id, parsed.value.name, parsed.value.email,
                                                  parsed.value.subject, parsed.value.message, now))
              && store.contacts == old(store.contacts).Put(id, resp.body.contact)
    ensures store.services == old(store.services) && store.networks == old(store.networks)
    ensures store.invoices == old(store.invoices)
  {
    if parsed.Failure? {
      return ContactResponse(Threw(ZodError(parsed.error)));
    }
    var contact := store.CreateContact(parsed.value, id, now);
    resp := ContactResponse(Returned(contact));
  }

  /** `POST /api/invoices`. `parsed` is what `insertInvoiceSchema.parse` made of the
      body: a rejected body answers 400 without touching the store; an accepted one is
      stored under `id` with its defaults filled in and returned. */
  method PostInvoice(store: MemStorage, parsed: Result<InsertInvoice, seq<Issue>>, id: Id, now: Time)
    returns (resp: Response)
    requires store.Valid()
    modifies store
    ensures store.Valid()
    ensures resp.status == 200 || resp.status == 400
    ensures parsed.Failure? ==> resp == Invalid(parsed.error) && unchanged(store)
    ensures parsed.Success? ==>
              && resp.status == 200 && resp.body.InvoiceBody?
              && resp.body.invoice == Invoice(id, parsed.value.invoiceNumber, parsed.value.amount,
                                              parsed.value.currency, parsed.value.walletAddress,
                                              parsed.value.status.GetOr("pending"),
                                              parsed.value.transactionHash, now, None)
              && store.invoices == old(store.invoices).Put(id, resp.body.invoice)
    ensures store.services == old(store.services) && store.networks == old(store.networks)
    ensures store.contacts == old(store.contacts)
  {
    if parsed.Failure? {
      return CreateInvoiceResponse(Threw(ZodError(parsed.error)));
    }
    var invoice := store.CreateInvoice(parsed.value, id, now);
    resp := CreateInvoiceResponse(Returned(invoice));
  }

  /** `POST /api/invoices/pay`: the body is parsed first and a rejected one answers 400
      with the store untouched; an unknown invoice number answers 404 with the store
      untouched; otherwise the first invoice with the number is paid and returned. */
  method PostPayInvoice(store: MemStorage, body: PayBody, now: Time) returns (resp: Response)
    requires store.Valid()
    modifies store
    ensures store.Valid()
    ensures resp.status == 200 || resp.status == 400 || resp.status == 404
    ensures resp.status == 400 <==> ParsePayInvoice(body).Failure?
    ensures resp.status == 400 ==> resp == Invalid(ParsePayInvoice(body).error) && unchanged(store)
    ensures resp.status == 404 <==>
              && ParsePayInvoice(body).Success?
              && FirstWithNumber(old(store.GetInvoices()), ParsePayInvoice(body).value.invoiceNumber).None?
    ensures resp.status == 404 ==> resp.body == ErrorBody(InvoiceNotFound) && store.invoices == old(store.invoices)
    ensures resp.status == 200 ==>
              && resp.body.PaymentBody?
              && PaidFrom(resp.body.invoice,
                          FirstWithNumber(old(store.GetInvoices()), ParsePayInvoice(body).value.invoiceNumber).value,
                          ParsePayInvoice(body).value, now)
              && store.invoices == old(store.invoices).Put(resp.body.invoice.id, resp.body.invoice)
    ensures store.services == old(store.services) && store.networks == old(store.networks)
    ensures store.contacts == old(store.contacts)
  {
    var parsed := ParsePayInvoice(body);
    if parsed.Failure? {
      return PayResponse(Threw(ZodError(parsed.error)));
    }
    var paid := store.PayInvoice(parsed.value, now);
    if paid.Failure? {
      return PayResponse(Threw(Error(paid.error)));
    }
    resp := PayResponse(Returned(paid.value));
  }
}
