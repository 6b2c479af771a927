/** Event normalisation: the payload of an inbound event, the lead and sale
    records built from it (`trackLeadEvent`, `trackSaleEvent`), and the choice
    the default export makes for each of the five event types. */
module Events {
  import opened Js

  /** `metadata` is passed through untouched; its contents do not matter here. */
  type Metadata = map<string, string>

  /** The recognised payload keys, each optional. */
  datatype Payload = Payload(
    customerId: Option<string>,
    customerExternalId: Option<string>,
    eventName: Option<string>,
    customerName: Option<string>,
    customerEmail: Option<string>,
    customerAvatar: Option<string>,
    amount: Option<int>,
    revenue: Option<int>,
    currency: Option<string>,
    invoiceId: Option<string>,
    transactionId: Option<string>,
    paymentProcessor: Option<string>,
    leadEventName: Option<string>,
    eventQuantity: Option<int>,
    metadata: Option<Metadata>)

  const EmptyPayload := Payload(None, None, None, None, None, None, None, None, None, None, None, None, None, None, None)

  /** An inbound event: its name and its payload. */
  datatype Event = Event(name: Option<string>, payload: Payload)

  datatype LeadRecord = LeadRecord(
    clickId: string,
    eventName: string,
    customerExternalId: string,
    customerName: Option<string>,
    customerEmail: Option<string>,
    customerAvatar: Option<string>,
    eventQuantity: Option<int>,
    metadata: Option<Metadata>)

  datatype SaleRecord = SaleRecord(
    customerExternalId: string,
    amount: int,
    currency: Option<string>,
    eventName: Option<string>,
    paymentProcessor: Option<string>,
    invoiceId: Option<string>,
    metadata: Option<Metadata>,
    leadEventName: Option<string>,
    clickId: Option<string>,
    customerName: Option<string>,
    customerEmail: Option<string>,
    customerAvatar: Option<string>)

  // ---------------------------------------------------------------------------
  // Lead

  /** The record `trackLeadEvent` sends, given the click id and the resolved
      customer id. */
  function BuildLead(event: Event, clickId: Option<string>, customerId: string): (r: LeadRecord)
    ensures r.clickId == (if Truthy(clickId) then clickId.value else "")
    ensures Truthy(event.payload.eventName) ==> r.eventName == event.payload.eventName.value
    ensures !Truthy(event.payload.eventName) && Truthy(event.name) ==> r.eventName == event.name.value
    ensures !Truthy(event.payload.eventName) && !Truthy(event.name) ==> r.eventName == "Lead"
    ensures r.eventName != ""
    ensures r.customerExternalId == customerId
    ensures CopiedIfTruthy(r.customerName, event.payload.customerName)
    ensures CopiedIfTruthy(r.customerEmail, event.payload.customerEmail)
    ensures CopiedIfTruthy(r.customerAvatar, event.payload.customerAvatar)
    ensures CopiedIfTruthyNumber(r.eventQuantity, event.payload.eventQuantity)
    ensures r.metadata == event.payload.metadata
  {
    var p := event.payload;
    LeadRecord(
      clickId := OrElse(clickId, ""),
      eventName := OrElse(Or(p.eventName, event.name), "Lead"),
      customerExternalId := customerId,
      customerName := KeepTruthy(p.customerName),
      customerEmail := KeepTruthy(p.customerEmail),
      customerAvatar := KeepTruthy(p.customerAvatar),
      eventQuantity := KeepTruthyNumber(p.eventQuantity),
      metadata := p.metadata)
  }

  // ---------------------------------------------------------------------------
  // Sale

  /** The record `trackSaleEvent` sends, given the click id and the resolved
      customer id. */
  function BuildSale(event: Event, clickId: Option<string>, customerId: string): (r: SaleRecord)
    ensures r.customerExternalId == customerId
    ensures TruthyNumber(event.payload.amount) ==> r.amount == event.payload.amount.value
    ensures !TruthyNumber(event.payload.amount) && TruthyNumber(event.payload.revenue) ==> r.amount == event.payload.revenue.value
    ensures r.amount != 0 <==> TruthyNumber(event.payload.amount) || TruthyNumber(event.payload.revenue)
    ensures r.invoiceId.Some? <==> Truthy(event.payload.invoiceId) || Truthy(event.payload.transactionId)
    ensures r.invoiceId.Some? ==> r.invoiceId == if Truthy(event.payload.invoiceId) then event.payload.invoiceId else event.payload.transactionId
    ensures r.eventName.Some? <==> Truthy(event.payload.eventName) || Truthy(event.name)
    ensures Truthy(event.payload.eventName) ==> r.eventName == event.payload.eventName
    ensures !Truthy(event.payload.eventName) && Truthy(event.name) ==> r.eventName == event.name
    ensures CopiedIfTruthy(r.currency, event.payload.currency)
    ensures CopiedIfTruthy(r.paymentProcessor, event.payload.paymentProcessor)
    ensures CopiedIfTruthy(r.leadEventName, event.payload.leadEventName)
    ensures CopiedIfTruthy(r.clickId, clickId)
    ensures CopiedIfTruthy(r.customerName, event.payload.customerName)
    ensures CopiedIfTruthy(r.customerEmail, event.payload.customerEmail)
    ensures CopiedIfTruthy(r.customerAvatar, event.payload.customerAvatar)
    ensures r.metadata == event.payload.metadata
  {
    var p := event.payload;
    SaleRecord(
      customerExternalId := customerId,
      amount := if TruthyNumber(p.amount) then p.amount.value
                else if TruthyNumber(p.revenue) then p.revenue.value
                else 0,
      currency := KeepTruthy(p.currency),
      eventName := if Truthy(p.eventName) || Truthy(event.name)
                   then Some(OrElse(Or(p.eventName, event.name), "Sale"))
                   else None,
      paymentProcessor := KeepTruthy(p.paymentProcessor),
      invoiceId := if Truthy(p.invoiceId) || Truthy(p.transactionId)
                   then Or(p.invoiceId, p.transactionId)
                   else None,
      metadata := p.metadata,
      leadEventName := KeepTruthy(p.leadEventName),
      clickId := KeepTruthy(clickId),
      customerName := KeepTruthy(p.customerName),
      customerEmail := KeepTruthy(p.customerEmail),
      customerAvatar := KeepTruthy(p.customerAvatar))
  }

  /** The `'Sale'` fallback is dead code: the field is set only when one of
      the two sources is truthy, and then that source is taken. */
  lemma SaleEventNameNeverDefault(event: Event, clickId: Option<string>, customerId: string)
    ensures var r := BuildSale(event, clickId, customerId);
      r.eventName.Some? ==> r.eventName == event.payload.eventName || r.eventName == event.name
  {
  }

  /** No optional field of either record is an empty placeholder. */
  lemma RecordsHaveNoEmptyFields(event: Event, clickId: Option<string>, customerId: string)
    ensures var l := BuildLead(event, clickId, customerId);
      && (l.customerName.Some? ==> l.customerName.value != "")
      && (l.customerEmail.Some? ==> l.customerEmail.value != "")
      && (l.customerAvatar.Some? ==> l.customerAvatar.value != "")
      && (l.eventQuantity.Some? ==> l.eventQuantity.value != 0)
    ensures var s := BuildSale(event, clickId, customerId);
      && (s.eventName.Some? ==> s.eventName.value != "")
      && (s.invoiceId.Some? ==> s.invoiceId.value != "")
      && (s.clickId.Some? ==> s.clickId.value != "")
      && (s.currency.Some? ==> s.currency.value != "")
      && (s.paymentProcessor.Some? ==> s.paymentProcessor.value != "")
      && (s.leadEventName.Some? ==> s.leadEventName.value != "")
      && (s.customerName.Some? ==> s.customerName.value != "")
      && (s.customerEmail.Some? ==> s.customerEmail.value != "")
      && (s.customerAvatar.Some? ==> s.customerAvatar.value != "")
  {
  }

  // ---------------------------------------------------------------------------
  // Routing (the default export)

  /** The five event types the component listens for. */
  datatype EventType = Pageview | GenericEvent | Track | Ecommerce | Identify

  /** What a handler does with an event: track it as a lead or a sale (with the
      event it passes on), or store the customer id it was given. */
  datatype Plan =
    | TrackLead(event: Event)
    | TrackSale(event: Event)
    | StoreCustomerId(customerId: Option<string>)

  /** `amount || revenue`, the test of the `event` and `track` handlers. */
  predicate HasAmount(p: Payload)
  {
    TruthyNumber(p.amount) || TruthyNumber(p.revenue)
  }

  /** The handler the default export runs for each event type: a sale for
      `ecommerce` and for an `event` or `track` with an amount, a lead for
      `pageview` and for an `event` or `track` without one, and a stored
      customer id for `identify`. A tracked event keeps its name and payload,
      except that a `pageview` is renamed `Pageview`. */
  function Route(kind: EventType, event: Event): (plan: Plan)
    ensures plan.TrackSale? <==>
              kind == Ecommerce || ((kind == GenericEvent || kind == Track) && HasAmount(event.payload))
    ensures plan.TrackLead? <==>
              kind == Pageview || ((kind == GenericEvent || kind == Track) && !HasAmount(event.payload))
    ensures plan.StoreCustomerId? <==> kind == Identify
    ensures !plan.StoreCustomerId? ==>
              && plan.event.name == event.name
              && plan.event.payload.(eventName := event.payload.eventName) == event.payload
    ensures !plan.StoreCustomerId? && kind != Pageview ==> plan.event == event
    ensures kind == Pageview ==> plan.event.payload.eventName == Some("Pageview")
    ensures plan.StoreCustomerId? ==>
              plan.customerId == Or(event.payload.customerId, event.payload.customerExternalId)
  {
    match kind
    case Pageview => TrackLead(event.(payload := event.payload.(eventName := Some("Pageview"))))
    case GenericEvent | Track => if HasAmount(event.payload) then TrackSale(event) else TrackLead(event)
    case Ecommerce => TrackSale(event)
    case Identify => StoreCustomerId(Or(event.payload.customerId, event.payload.customerExternalId))
  }

  /** A `pageview` is sent as a lead named `Pageview`, whatever the payload
      or the event name say. */
  lemma PageviewIsLeadNamedPageview(event: Event, clickId: Option<string>, customerId: string)
    ensures Route(Pageview, event).TrackLead?
    ensures BuildLead(Route(Pageview, event).event, clickId, customerId).eventName == "Pageview"
  {
  }

  /** For `event` and `track`, a sale is sent exactly when the sale record
      would carry a non-zero amount; otherwise a lead is sent. */
  lemma SaleIffNonZeroAmount(kind: EventType, event: Event, clickId: Option<string>, customerId: string)
    requires kind == GenericEvent || kind == Track
    ensures Route(kind, event).TrackSale? <==> BuildSale(event, clickId, customerId).amount != 0
    ensures Route(kind, event).TrackLead? <==> !Route(kind, event).TrackSale?
  {
  }

  // ---------------------------------------------------------------------------
  // Cases from the component's tests

  lemma LeadExamples()
    ensures var e := Event(None, EmptyPayload.(eventName := Some("Sign Up"),
                           customerExternalId := Some("user123"),
                           customerEmail := Some("user@example.com"), customerName := Some("John Doe")));
      BuildLead(e, Some("click123"), "user123")
        == LeadRecord("click123", "Sign Up", "user123", Some("John Doe"), Some("user@example.com"), None, None, None)
    ensures var e := Event(Some("Custom Lead Event"), EmptyPayload.(customerExternalId := Some("user123")));
      BuildLead(e, Some("click123"), "user123").eventName == "Custom Lead Event"
    ensures var e := Event(None, EmptyPayload.(customerExternalId := Some("user123")));
      BuildLead(e, None, "user123").clickId == "" && BuildLead(e, None, "user123").eventName == "Lead"
  {
  }

  lemma SaleExamples()
    ensures var e := Event(None, EmptyPayload.(eventName := Some("Purchase"),
                           customerExternalId := Some("user123"), amount := Some(9999),
                           currency := Some("USD"), invoiceId := Some("inv_123")));
            var r := BuildSale(e, Some("click123"), "user123");
      && r.eventName == Some("Purchase") && r.amount == 9999 && r.currency == Some("USD")
      && r.invoiceId == Some("inv_123") && r.clickId == Some("click123")
    ensures var e := Event(None, EmptyPayload.(eventName := Some("Subscription"),
                           customerExternalId := Some("user456"), revenue := Some(2999), currency := Some("EUR")));
      BuildSale(e, Some("click123"), "user456").amount == 2999
    ensures var e := Event(None, EmptyPayload.(eventName := Some("Purchase"),
                           customerExternalId := Some("user123"), amount := Some(10000),
                           transactionId := Some("txn_abc123")));
      BuildSale(e, Some("click123"), "user123").invoiceId == Some("txn_abc123")
  {
  }
}
