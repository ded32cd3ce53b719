/** The in-memory record store: four insertion-ordered maps from id to record, seeded
    with the default services and networks, with create, list and lookup operations,
    a lookup of invoices by their number and the payment of an invoice.

    The id supply (`randomUUID`) and the clock (`new Date()`) are parameters: each
    create receives the id and the clock reading it would have drawn. A supplied id
    that is already in use is overwritten in place, as `Map.set` does. */
module Storage {
  import opened Wrappers
  import opened Schema
  import opened OrderedMaps

  /** The message of the error that paying an unknown invoice number throws. */
  const InvoiceNotFound := "Invoice not found"

  function ServiceKey(s: Service): Key { s.id }
  function NetworkKey(n: Network): Key { n.id }
  function ContactKey(c: Contact): Key { c.id }
  function InvoiceKey(inv: Invoice): Key { inv.id }

  const CosmosValidatorsDescription :=
    "Professional validator services across Cosmos-based networks with competitive commission rates and 24/7 monitoring."
  const RpcNodesDescription :=
    "High-performance RPC endpoints for seamless blockchain integration with load balancing and caching."
  const EnterpriseDescription :=
    "Custom blockchain infrastructure solutions for enterprises with dedicated support and SLAs."

  /** The three services the store is seeded with, under the ids `ids`. */
  function DefaultServices(ids: seq<Id>, now: Time): (s: seq<Service>)
    requires |ids| == 3
    ensures |s| == 3
    ensures forall i :: 0 <= i < 3 ==> s[i].id == ids[i] && s[i].createdAt == now
  {
    var validators := Service(ids[0], "Cosmos Validators", CosmosValidatorsDescription,
                              ["99.9% Uptime SLA", "Automated failover", "Real-time monitoring"],
                              Some("299.00"), "validator", true, now);
    var rpc := Service(ids[1], "RPC Nodes", RpcNodesDescription,
                       ["Sub-second response", "Global CDN", "Rate limiting"],
                       Some("99.00"), "rpc", false, now);
    var enterprise := Service(ids[2], "Enterprise Solutions", EnterpriseDescription,
                              ["Dedicated resources", "24/7 support", "Custom SLAs"],
                              None, "enterprise", false, now);
    [validators, rpc, enterprise]
  }

  /** The five networks the store is seeded with, under the ids `ids`; all supported. */
  function DefaultNetworks(ids: seq<Id>, now: Time): (s: seq<Network>)
    requires |ids| == 5
    ensures |s| == 5
    ensures forall i :: 0 <= i < 5 ==> s[i].id == ids[i] && s[i].isSupported && s[i].createdAt == now
  {
    [ Network(ids[0], "Cosmos", "ATOM", "fas fa-atom", true, now),
      Network(ids[1], "Ethereum", "ETH", "fab fa-ethereum", true, now),
      Network(ids[2], "Solana", "SOL", "fas fa-sun", true, now),
      Network(ids[3], "Polygon", "MATIC", "fas fa-link", true, now),
      Network(ids[4], "Osmosis", "OSMO", "fas fa-circle", true, now) ]
  }

  /** `list.find(inv => inv.invoiceNumber === number)`: the first invoice in `list`
      with that number, absent when there is none. */
  function FirstWithNumber(list: seq<Invoice>, number: string): (r: Option<Invoice>)
    ensures r.None? <==> forall i :: 0 <= i < |list| ==> list[i].invoiceNumber != number
    ensures r.Some? ==> r.value in list && r.value.invoiceNumber == number
  {
    if list == [] then None
    else if list[0].invoiceNumber == number then Some(list[0])
    else FirstWithNumber(list[1..], number)
  }

  /** The invoice at index `i` is the one found when no earlier invoice has the number. */
  lemma {:induction false} FirstWithNumberAt(list: seq<Invoice>, number: string, i: nat)
    requires i < |list| && list[i].invoiceNumber == number
    requires forall j :: 0 <= j < i ==> list[j].invoiceNumber != number
    ensures FirstWithNumber(list, number) == Some(list[i])
  {
    if i > 0 {
      FirstWithNumberAt(list[1..], number, i - 1);
    }
  }

  /** The invoice found stands at an index before which no invoice has the number. */
  lemma {:induction false} FirstWithNumberIndex(list: seq<Invoice>, number: string) returns (i: nat)
    requires FirstWithNumber(list, number).Some?
    ensures i < |list| && list[i] == FirstWithNumber(list, number).value
    ensures forall j :: 0 <= j < i ==> list[j].invoiceNumber != number
  {
    if list[0].invoiceNumber == number {
      i := 0;
    } else {
      var k := FirstWithNumberIndex(list[1..], number);
      i := k + 1;
    }
  }

  /** Appending an invoice never hides an earlier match; it is found only when it is
      the first with its number. */
  lemma {:induction false} FirstWithNumberAppend(list: seq<Invoice>, x: Invoice, number: string)
    ensures FirstWithNumber(list + [x], number) ==
              if FirstWithNumber(list, number).Some? then FirstWithNumber(list, number)
              else if x.invoiceNumber == number then Some(x)
              else None
  {
    if list != [] {
      assert (list + [x])[1..] == list[1..] + [x];
      FirstWithNumberAppend(list[1..], x, number);
    }
  }

  /** `after` is `before` with every invoice whose id is `x.id` replaced by `x`. */
  ghost predicate ReplacedById(before: seq<Invoice>, after: seq<Invoice>, x: Invoice) {
    && |after| == |before|
    && forall i :: 0 <= i < |before| ==> after[i] == if before[i].id == x.id then x else before[i]
  }

  /** Overwriting the invoice at position `i` under its own id replaces it where it
      stands and touches no other invoice. */
  lemma ReplaceStoredInvoice(m: OrderedMap<Invoice>, i: nat, x: Invoice)
    requires m.Valid() && m.KeyedBy(InvoiceKey) && i < m.Size()
    requires x.id == m.Values()[i].id
    ensures x.id == m.keys[i]
    ensures m.Put(x.id, x).Values() == m.Values()[i := x]
    ensures ReplacedById(m.Values(), m.Put(x.id, x).Values(), x)
  {
    var before := m.Values();
    assert InvoiceKey(before[i]) == m.keys[i];
    PutAtIndex(m, i, x);
    forall j | 0 <= j < |before|
      ensures before[j].id == x.id <==> j == i
    {
      assert InvoiceKey(before[j]) == m.keys[j];
    }
  }

  /** `paid` is `found` marked paid with the wallet and transaction of `payment` at `now`;
      its id, number, amount, currency and creation time are those of `found`. */
  ghost predicate PaidFrom(paid: Invoice, found: Invoice, payment: PayInvoice, now: Time) {
    && paid.status == "paid"
    && paid.walletAddress == Some(payment.walletAddress)
    && paid.transactionHash == Some(payment.transactionHash)
    && paid.paidAt == Some(now)
    && paid.id == found.id
    && paid.invoiceNumber == found.invoiceNumber
    && paid.amount == found.amount
    && paid.currency == found.currency
    && paid.createdAt == found.createdAt
  }

  class MemStorage {
    var services: OrderedMap<Service>
    var networks: OrderedMap<Network>
    var contacts: OrderedMap<Contact>
    var invoices: OrderedMap<Invoice>

    /** Each collection is a well-formed map whose records sit under their own id. */
    ghost predicate Valid()
      reads this
    {
      && services.Valid() && services.KeyedBy(ServiceKey)
      && networks.Valid() && networks.KeyedBy(NetworkKey)
      && contacts.Valid() && contacts.KeyedBy(ContactKey)
      && invoices.Valid() && invoices.KeyedBy(InvoiceKey)
    }

    /** Empty maps, then the seed data. `seedIds` are the eight ids drawn while seeding:
        three for the services, then five for the networks. When they are distinct the
        store holds exactly the three default services and the five default networks. */
    constructor (seedIds: seq<Id>, now: Time)
      requires |seedIds| == 8
      ensures Valid()
      ensures GetContacts() == [] && GetInvoices() == []
      ensures |GetServices()| <= 3 && |GetNetworks()| <= 5
      ensures Distinct(seedIds) ==> GetServices() == DefaultServices(seedIds[..3], now)
      ensures Distinct(seedIds) ==> GetNetworks() == DefaultNetworks(seedIds[3..], now)
    {
      services := Empty();
      networks := Empty();
      contacts := Empty();
      invoices := Empty();
      new;
      InitializeData(seedIds, now);
      var ds, dn := DefaultServices(seedIds[..3], now), DefaultNetworks(seedIds[3..], now);
      PutEachKeys(Empty(), ds, ServiceKey);
      PutEachKeys(Empty(), dn, NetworkKey);
      if Distinct(seedIds) {
        DistinctParts(seedIds, 3);
        assert KeysOf(ds, ServiceKey) == seedIds[..3];
        assert KeysOf(dn, NetworkKey) == seedIds[3..];
        PutEachFresh(Empty(), ds, ServiceKey);
        PutEachFresh(Empty(), dn, NetworkKey);
      }
    }

    /** `initializeData`: builds the seed services and networks from the eight ids drawn
        for them, then sets every seed service, then every seed network, under its own id. */
    method InitializeData(seedIds: seq<Id>, now: Time)
      requires |seedIds| == 8
      requires services.Valid() && networks.Valid()
      modifies this
      ensures services == PutEach(old(services), DefaultServices(seedIds[..3], now), ServiceKey)
      ensures networks == PutEach(old(networks), DefaultNetworks(seedIds[3..], now), NetworkKey)
      ensures contacts == old(contacts) && invoices == old(invoices)
    {
      var defaultServices := DefaultServices(seedIds[..3], now);
      for i := 0 to |defaultServices|
        invariant services == PutEach(old(services), defaultServices[..i], ServiceKey)
        invariant networks == old(networks) && contacts == old(contacts) && invoices == old(invoices)
      {
        var service := defaultServices[i];
        PutEachStep(old(services), defaultServices, ServiceKey, i);
        services := services.Put(service.id, service);
      }
      assert defaultServices[..|defaultServices|] == defaultServices;

      var defaultNetworks := DefaultNetworks(seedIds[3..], now);

      for i := 0 to |defaultNetworks|
        invariant networks == PutEach(old(networks), defaultNetworks[..i], NetworkKey)
        invariant services == PutEach(old(services), defaultServices, ServiceKey)
        invariant contacts == old(contacts) && invoices == old(invoices)
      {
        var network := defaultNetworks[i];
        PutEachStep(old(networks), defaultNetworks, NetworkKey, i);
        networks := networks.Put(network.id, network);
      }
      assert defaultNetworks[..|defaultNetworks|] == defaultNetworks;
    }

    // Services

    /** All services, in the order their ids were first set. */
    function GetServices(): (list: seq<Service>)
      reads this
      requires Valid()
      ensures |list| == services.Size()
      ensures forall i :: 0 <= i < |list| ==> list[i].id == services.keys[i] && list[i] in services.entries.Values
    {
      services.Values()
    }

    /** The service stored under `id`, absent when there is none. */
    function GetService(id: Id): (r: Option<Service>)
      reads this
      requires Valid()
      ensures r.Some? <==> id in services.entries
      ensures r.Some? ==> r.value.id == id && r.value in GetServices()
    {
      ValuesAreEntries(services);
      services.Get(id)
    }

    /** Stores a service under `id` with the omitted price null and the omitted
        popularity flag false, and returns it; the other collections are unchanged. */
    method CreateService(input: InsertService, id: Id, now: Time) returns (s: Service)
      requires Valid()
      modifies this
      ensures Valid()
      ensures s.id == id && s.createdAt == now
      ensures s.name == input.name && s.description == input.description
      ensures s.features == input.features && s.category == input.category
      ensures s.price == input.price && s.isPopular == input.isPopular.GetOr(false)
      ensures services == old(services).Put(id, s)
      ensures networks == old(networks) && contacts == old(contacts) && invoices == old(invoices)
      ensures GetService(id) == Some(s)
      ensures id !in old(services.entries) ==> GetServices() == old(GetServices()) + [s]
    {
      s := Service(id, input.name, input.description, input.features, input.price,
                   input.category, input.isPopular.GetOr(false), now);
      if id !in services.entries {
        PutFreshAppends(services, id, s);
      }
      services := services.Put(id, s);
    }

    // Networks

    /** All networks, in the order their ids were first set. */
    function GetNetworks(): (list: seq<Network>)
      reads this
      requires Valid()
      ensures |list| == networks.Size()
      ensures forall i :: 0 <= i < |list| ==> list[i].id == networks.keys[i] && list[i] in networks.entries.Values
    {
      networks.Values()
    }

    /** The network stored under `id`, absent when there is none. */
    function GetNetwork(id: Id): (r: Option<Network>)
      reads this
      requires Valid()
      ensures r.Some? <==> id in networks.entries
      ensures r.Some? ==> r.value.id == id && r.value in GetNetworks()
    {
      ValuesAreEntries(networks);
      networks.Get(id)
    }

    /** Stores a network under `id`, supported unless the input says otherwise. */
    method CreateNetwork(input: InsertNetwork, id: Id, now: Time) returns (n: Network)
      requires Valid()
      modifies this
      ensures Valid()
      ensures n.id == id && n.createdAt == now
      ensures n.name == input.name && n.symbol == input.symbol && n.icon == input.icon
      ensures n.isSupported == input.isSupported.GetOr(true)
      ensures networks == old(networks).Put(id, n)
      ensures services == old(services) && contacts == old(contacts) && invoices == old(invoices)
      ensures GetNetwork(id) == Some(n)
      ensures id !in old(networks.entries) ==> GetNetworks() == old(GetNetworks()) + [n]
    {
      n := Network(id, input.name, input.symbol, input.icon, input.isSupported.GetOr(true), now);
      if id !in networks.entries {
        PutFreshAppends(networks, id, n);
      }
      networks := networks.Put(id, n);
    }

    // Contacts

    /** All contact submissions, in the order their ids were first set. */
    function GetContacts(): (list: seq<Contact>)
      reads this
      requires Valid()
      ensures |list| == contacts.Size()
      ensures forall i :: 0 <= i < |list| ==> list[i].id == contacts.keys[i] && list[i] in contacts.entries.Values
    {
      contacts.Values()
    }

    /** Stores a contact submission under `id` with every field taken from the input. */
    method CreateContact(input: InsertContact, id: Id, now: Time) returns (c: Contact)
      requires Valid()
      modifies this
      ensures Valid()
      ensures c.id == id && c.createdAt == now
      ensures c.name == input.name && c.email == input.email
      ensures c.subject == input.subject && c.message == input.message
      ensures contacts == old(contacts).Put(id, c)
      ensures services == old(services) && networks == old(networks) && invoices == old(invoices)
      ensures id !in old(contacts.entries) ==> GetContacts() == old(GetContacts()) + [c]
    {
      c := Contact(id, input.name, input.email, input.subject, input.message, now);
      if id !in contacts.entries {
        PutFreshAppends(contacts, id, c);
      }
      contacts := contacts.Put(id, c);
    }

    // Invoices

    /** All invoices, in the order their ids were first set. */
    function GetInvoices(): (list: seq<Invoice>)
      reads this
      requires Valid()
      ensures |list| == invoices.Size()
      ensures forall i :: 0 <= i < |list| ==> list[i].id == invoices.keys[i] && list[i] in invoices.entries.Values
    {
      invoices.Values()
    }

    /** The invoice stored under the system id `id`, absent when there is none. */
    function GetInvoice(id: Id): (r: Option<Invoice>)
      reads this
      requires Valid()
      ensures r.Some? <==> id in invoices.entries
      ensures r.Some? ==> r.value.id == id && r.value in GetInvoices()
    {
      ValuesAreEntries(invoices);
      invoices.Get(id)
    }

    /** The first invoice, in insertion order, whose number is `number`; absent when
        no invoice has it. */
    method GetInvoiceByNumber(number: string) returns (r: Option<Invoice>)
      requires Valid()
      ensures r == FirstWithNumber(GetInvoices(), number)
      ensures r.None? <==> forall inv :: inv in GetInvoices() ==> inv.invoiceNumber != number
      ensures r.Some? ==> r.value in GetInvoices() && r.value.invoiceNumber == number
    {
      var list := GetInvoices();
      var i := 0;
      while i < |list|
        invariant 0 <= i <= |list|
        invariant forall j :: 0 <= j < i ==> list[j].invoiceNumber != number
      {
        if list[i].invoiceNumber == number {
          FirstWithNumberAt(list, number, i);
          return Some(list[i]);
        }
        i := i + 1;
      }
      return None;
    }

    /** Stores an invoice under `id`: status "pending" unless given, wallet address and
        transaction hash null unless given, never paid. An invoice whose number is
        already in use is stored too, and lookups by number keep finding the older one. */
    method CreateInvoice(input: InsertInvoice, id: Id, now: Time) returns (inv: Invoice)
      requires Valid()
      modifies this
      ensures Valid()
      ensures inv.id == id && inv.createdAt == now && inv.paidAt == None
      ensures inv.invoiceNumber == input.invoiceNumber
      ensures inv.amount == input.amount && inv.currency == input.currency
      ensures inv.status == input.status.GetOr("pending")
      ensures inv.walletAddress == input.walletAddress && inv.transactionHash == input.transactionHash
      ensures invoices == old(invoices).Put(id, inv)
      ensures services == old(services) && networks == old(networks) && contacts == old(contacts)
      ensures GetInvoice(id) == Some(inv)
      ensures id !in old(invoices.entries) ==> GetInvoices() == old(GetInvoices()) + [inv]
      ensures id !in old(invoices.entries) ==>
                FirstWithNumber(GetInvoices(), inv.invoiceNumber) ==
                  if FirstWithNumber(old(GetInvoices()), inv.invoiceNumber).Some?
                  then FirstWithNumber(old(GetInvoices()), inv.invoiceNumber)
                  else Some(inv)
    {
      inv := Invoice(id, input.invoiceNumber, input.amount, input.currency, input.walletAddress,
                     input.status.GetOr("pending"), input.transactionHash, now, None);
      ghost var before := GetInvoices();
      if id !in invoices.entries {
        PutFreshAppends(invoices, id, inv);
        FirstWithNumberAppend(before, inv, inv.invoiceNumber);
      }
      invoices := invoices.Put(id, inv);
    }

    /** Marks the first invoice with the payment's number as paid, with the payment's
        wallet address and transaction hash and `now` as the payment time, stores it
        back under its id and returns it. Fails with "Invoice not found", changing
        nothing, when no invoice has that number. An invoice that is already paid is
        paid again: its wallet, transaction and payment time are overwritten. */
    method PayInvoice(payment: PayInvoice, now: Time) returns (r: Result<Invoice, string>)
      requires Valid()
      modifies this
      ensures Valid()
      ensures services == old(services) && networks == old(networks) && contacts == old(contacts)
      ensures r.Failure? <==> FirstWithNumber(old(GetInvoices()), payment.invoiceNumber).None?
      ensures r.Failure? ==> r.error == InvoiceNotFound && invoices == old(invoices)
      ensures r.Success? ==>
                PaidFrom(r.value, FirstWithNumber(old(GetInvoices()), payment.invoiceNumber).value, payment, now)
      ensures r.Success? ==> r.value.id in old(invoices.entries) && invoices == old(invoices).Put(r.value.id, r.value)
      ensures r.Success? ==> invoices.Size() == old(invoices.Size())
      ensures r.Success? ==> ReplacedById(old(GetInvoices()), GetInvoices(), r.value)
      ensures r.Success? ==> FirstWithNumber(GetInvoices(), payment.invoiceNumber) == Some(r.value)
    {
      var found := GetInvoiceByNumber(payment.invoiceNumber);
      if found.None? {
        return Failure(InvoiceNotFound);
      }
      var invoice := found.value;
      var updated := invoice.(status := "paid",
                              walletAddress := Some(payment.walletAddress),
                              transactionHash := Some(payment.transactionHash),
                              paidAt := Some(now));
      ghost var i := FirstWithNumberIndex(GetInvoices(), payment.invoiceNumber);
      ReplaceStoredInvoice(invoices, i, updated);
      invoices := invoices.Put(invoice.id, updated);
      FirstWithNumberAt(GetInvoices(), payment.invoiceNumber, i);
      r := Success(updated);
    }
  }
}
