/**
 * The Stripe webhook: the price-id lookups, the subscription-status
 * whitelist, and the event `switch` as a transition on the profiles table.
 */
module StripeWebhook {
  import opened Wrappers
  import opened Text
  import opened Http
  import opened Plans
  import opened Profiles

  // ---------------------------------------------------------------------
  // Price id -> tier and cycle

  function ConfiguredPrices(cfg: PriceConfig): set<string> {
    {cfg.standardMonthly, cfg.standardYearly, cfg.proMonthly, cfg.proYearly}
  }

  /** The plan whose price map holds the (trimmed) id; a standard id wins over a pro id. */
  function ResolveTierFromPrice(cfg: PriceConfig, priceId: string): (r: Option<Plan>)
    ensures Blank(priceId) ==> r == None
    ensures r.Some? <==> !Blank(priceId) && Trim(priceId) in ConfiguredPrices(cfg)
    ensures r == Some(Standard) <==>
      !Blank(priceId) && (PriceFor(cfg, Standard, Monthly) == Trim(priceId) || PriceFor(cfg, Standard, Yearly) == Trim(priceId))
    ensures r == Some(Pro) <==>
      && !Blank(priceId)
      && PriceFor(cfg, Standard, Monthly) != Trim(priceId) && PriceFor(cfg, Standard, Yearly) != Trim(priceId)
      && (PriceFor(cfg, Pro, Monthly) == Trim(priceId) || PriceFor(cfg, Pro, Yearly) == Trim(priceId))
  {
    var raw := Trim(priceId);
    assert PriceFor(cfg, Standard, Monthly) == cfg.standardMonthly;
    assert PriceFor(cfg, Standard, Yearly) == cfg.standardYearly;
    assert PriceFor(cfg, Pro, Monthly) == cfg.proMonthly;
    assert PriceFor(cfg, Pro, Yearly) == cfg.proYearly;
    if raw == "" then None
    else if raw == cfg.standardMonthly || raw == cfg.standardYearly then Some(Standard)
    else if raw == cfg.proMonthly || raw == cfg.proYearly then Some(Pro)
    else None
  }

  /** The cycle whose price map holds the (trimmed) id; a monthly id wins over a yearly id. */
  function ResolveCycleFromPrice(cfg: PriceConfig, priceId: string): (r: Option<Cycle>)
    ensures Blank(priceId) ==> r == None
    ensures r.Some? <==> !Blank(priceId) && Trim(priceId) in ConfiguredPrices(cfg)
    ensures r == Some(Monthly) <==>
      !Blank(priceId) && (PriceFor(cfg, Standard, Monthly) == Trim(priceId) || PriceFor(cfg, Pro, Monthly) == Trim(priceId))
    ensures r == Some(Yearly) <==>
      && !Blank(priceId)
      && PriceFor(cfg, Standard, Monthly) != Trim(priceId) && PriceFor(cfg, Pro, Monthly) != Trim(priceId)
      && (PriceFor(cfg, Standard, Yearly) == Trim(priceId) || PriceFor(cfg, Pro, Yearly) == Trim(priceId))
  {
    var raw := Trim(priceId);
    assert PriceFor(cfg, Standard, Monthly) == cfg.standardMonthly;
    assert PriceFor(cfg, Standard, Yearly) == cfg.standardYearly;
    assert PriceFor(cfg, Pro, Monthly) == cfg.proMonthly;
    assert PriceFor(cfg, Pro, Yearly) == cfg.proYearly;
    if raw == "" then None
    else if raw == cfg.standardMonthly || raw == cfg.proMonthly then Some(Monthly)
    else if raw == cfg.standardYearly || raw == cfg.proYearly then Some(Yearly)
    else None
  }

  /** An id configured for both tiers resolves to the standard tier, which is checked first. */
  lemma SharedPriceResolvesToStandard(cfg: PriceConfig, priceId: string, c: Cycle, c': Cycle)
    requires !Blank(priceId)
    requires Trim(priceId) == PriceFor(cfg, Standard, c) == PriceFor(cfg, Pro, c')
    ensures ResolveTierFromPrice(cfg, priceId) == Some(Standard)
  {
  }

  /**
   * Four price ids that are non-empty, carry no surrounding whitespace (the
   * incoming id is trimmed, the configured ones are not) and are pairwise
   * distinct.
   */
  predicate WellConfigured(cfg: PriceConfig) {
    && UsablePriceId(cfg.standardMonthly) && UsablePriceId(cfg.standardYearly)
    && UsablePriceId(cfg.proMonthly) && UsablePriceId(cfg.proYearly)
    && cfg.standardMonthly != cfg.standardYearly && cfg.standardMonthly != cfg.proMonthly
    && cfg.standardMonthly != cfg.proYearly && cfg.standardYearly != cfg.proMonthly
    && cfg.standardYearly != cfg.proYearly && cfg.proMonthly != cfg.proYearly
  }

  predicate UsablePriceId(id: string) {
    id != "" && Trim(id) == id
  }

  /** What checkout charges for a plan and cycle resolves back to that plan and cycle. */
  lemma PriceRoundTrip(cfg: PriceConfig, p: Plan, c: Cycle)
    requires WellConfigured(cfg)
    ensures ResolveTierFromPrice(cfg, PriceFor(cfg, p, c)) == Some(p)
    ensures ResolveCycleFromPrice(cfg, PriceFor(cfg, p, c)) == Some(c)
  {
    var id := PriceFor(cfg, p, c);
    assert UsablePriceId(id);
    assert !Blank(id);
  }

  /** Conversely, a price id that resolves on both axes is the one the price map holds for them. */
  lemma ResolvedPriceIsConfigured(cfg: PriceConfig, priceId: string, p: Plan, c: Cycle)
    requires WellConfigured(cfg)
    requires ResolveTierFromPrice(cfg, priceId) == Some(p)
    requires ResolveCycleFromPrice(cfg, priceId) == Some(c)
    ensures Trim(priceId) == PriceFor(cfg, p, c)
  {
    var raw := Trim(priceId);
    if raw == cfg.standardMonthly {
      assert p == Standard && c == Monthly;
    } else if raw == cfg.standardYearly {
      assert p == Standard && c == Yearly;
    } else if raw == cfg.proMonthly {
      assert p == Pro && c == Monthly;
    } else {
      assert raw == cfg.proYearly;
      assert p == Pro && c == Yearly;
    }
  }

  // ---------------------------------------------------------------------
  // Subscription status

  const AllowedStatuses: set<string> := {
    "trialing", "active", "past_due", "canceled",
    "unpaid", "incomplete", "incomplete_expired", "paused"
  }

  /** The trimmed, lower-cased status when it is one of the eight allowed ones, else "active". */
  function BillingStatusFromStripe(status: string): (r: string)
    ensures r in AllowedStatuses
    ensures Lower(Trim(status)) in AllowedStatuses ==> r == Lower(Trim(status))
    ensures Lower(Trim(status)) !in AllowedStatuses ==> r == "active"
  {
    var raw := Lower(Trim(status));
    if raw in AllowedStatuses then raw else "active"
  }

  lemma AllowedStatusesAreNormal(s: string)
    requires s in AllowedStatuses
    ensures Lower(Trim(s)) == s
  {
    assert s != [] && !IsSpace(s[0]) && !IsSpace(s[|s| - 1]);
    assert IsLowerCase(s);
    LowerOfLowerCase(s);
  }

  /** Normalising an already normalised status changes nothing. */
  lemma BillingStatusIdempotent(status: string)
    ensures BillingStatusFromStripe(BillingStatusFromStripe(status)) == BillingStatusFromStripe(status)
  {
    AllowedStatusesAreNormal(BillingStatusFromStripe(status));
  }

  /** Letter case does not matter. */
  lemma BillingStatusIgnoresCase(status: string)
    ensures BillingStatusFromStripe(Lower(status)) == BillingStatusFromStripe(status)
  {
    LowerFirstSameRaw(status);
  }

  lemma LowerFirstSameRaw(status: string)
    ensures Lower(Trim(Lower(status))) == Lower(Trim(status))
  {
    TrimLowerCommute(status);
    LowerIdempotent(Trim(status));
  }

  /** Surrounding whitespace does not matter. */
  lemma BillingStatusIgnoresWhitespace(status: string)
    ensures BillingStatusFromStripe(Trim(status)) == BillingStatusFromStripe(status)
  {
    TrimIdempotent(status);
  }

  // ---------------------------------------------------------------------
  // Event payloads

  /** The fields of a checkout session the handler reads. */
  datatype CheckoutSession = CheckoutSession(metadataUserId: string, customer: string, subscription: string)

  /**
   * The fields of a subscription the handler reads. `itemPriceIds` are the
   * prices of `items.data`, in order; `currentPeriodEnd` is 0 when absent.
   */
  datatype Subscription = Subscription(
    id: string,
    customer: string,
    metadataUserId: string,
    itemPriceIds: seq<string>,
    status: string,
    cancelAtPeriodEnd: bool,
    currentPeriodEnd: int)

  datatype Invoice = Invoice(customer: string)

  /** A verified event: the five kinds handled and everything else. */
  datatype Event =
    | CheckoutSessionCompleted(session: CheckoutSession)
    | SubscriptionCreated(sub: Subscription)
    | SubscriptionUpdated(sub: Subscription)
    | SubscriptionDeleted(sub: Subscription)
    | InvoicePaymentFailed(invoice: Invoice)
    | InvoicePaymentSucceeded(invoice: Invoice)
    | Unhandled(eventType: string)

  /**
   * The profile a subscription belongs to: its metadata `user_id` when that is
   * set, otherwise the single profile holding its customer id, otherwise "".
   */
  function FindUserIdFromSubscription(rows: map<UserId, Profile>, sub: Subscription): (r: string)
    ensures !Blank(sub.metadataUserId) ==> r == Trim(sub.metadataUserId)
    ensures Blank(sub.metadataUserId) && Blank(sub.customer) ==> r == ""
    ensures Blank(sub.metadataUserId) && r != "" ==>
      exists id :: id in rows && rows[id].stripeCustomerId == Some(Trim(sub.customer)) && r == Trim(id)
    ensures Blank(sub.metadataUserId) && |IdsWithCustomer(rows, Trim(sub.customer))| != 1 ==> r == ""
    ensures Blank(sub.metadataUserId) && !Blank(sub.customer) ==>
      forall id :: IdsWithCustomer(rows, Trim(sub.customer)) == {id} ==> r == Trim(id)
  {
    var metadataUserId := Trim(sub.metadataUserId);
    if metadataUserId != "" then metadataUserId
    else
      var customerId := Trim(sub.customer);
      if customerId == "" then ""
      else Trim(OrEmpty(MaybeSingle(IdsWithCustomer(rows, customerId))))
  }

  /** `items.data[0].price.id`, trimmed; "" when there is no item. */
  function FirstPriceId(sub: Subscription): string {
    if |sub.itemPriceIds| > 0 then Trim(sub.itemPriceIds[0]) else ""
  }

  /** The `payload` of `upsertProfileSubscription`; the tier column only when the price resolves. */
  function SubscriptionPatch(cfg: PriceConfig, sub: Subscription): Patch {
    var priceId := FirstPriceId(sub);
    SubscriptionPayload(sub, priceId, ResolveTierFromPrice(cfg, priceId), ResolveCycleFromPrice(cfg, priceId))
  }

  /** That payload, for the price id and the tier and cycle it resolved to. */
  function SubscriptionPayload(sub: Subscription, priceId: string, tier: Option<Plan>, cycle: Option<Cycle>): Patch {
    Patch(
      stripeCustomerId := Put(NullIfEmpty(Trim(sub.customer))),
      stripeSubscriptionId := Put(NullIfEmpty(Trim(sub.id))),
      stripePriceId := Put(NullIfEmpty(priceId)),
      billingStatus := Put(Some(BillingStatusFromStripe(sub.status))),
      billingCycle := Put(if cycle.Some? then Some(CycleName(cycle.value)) else None),
      cancelAtPeriodEnd := Put(Some(sub.cancelAtPeriodEnd)),
      subscriptionTier := if tier.Some? then Put(Some(PlanName(tier.value))) else Keep,
      currentPeriodEnd := Put(if sub.currentPeriodEnd != 0 then Some(sub.currentPeriodEnd) else None))
  }


  function CheckoutCompletedPatch(session: CheckoutSession): Patch {
    EmptyPatch.(
      stripeCustomerId := Put(NullIfEmpty(Trim(session.customer))),
      stripeSubscriptionId := Put(NullIfEmpty(Trim(session.subscription))),
      billingStatus := Put(Some("active")))
  }

  const SubscriptionDeletedPatch := EmptyPatch.(
    subscriptionTier := Put(Some("free")),
    billingStatus := Put(Some("canceled")),
    stripeSubscriptionId := Put(None),
    stripePriceId := Put(None),
    cancelAtPeriodEnd := Put(Some(false)),
    billingCycle := Put(None))

  function InvoicePatch(status: string): Patch {
    EmptyPatch.(billingStatus := Put(Some(status)))
  }

  // ---------------------------------------------------------------------
  // The event switch as a transition on the table

  function CheckoutCompleted(rows: map<UserId, Profile>, session: CheckoutSession): (r: map<UserId, Profile>)
    ensures r.Keys == rows.Keys
  {
    var userId := Trim(session.metadataUserId);
    if userId == "" then rows else UpdatedById(rows, userId, CheckoutCompletedPatch(session))
  }

  function SubscriptionChanged(cfg: PriceConfig, rows: map<UserId, Profile>, sub: Subscription): (r: map<UserId, Profile>)
    ensures r.Keys == rows.Keys
  {
    var userId := FindUserIdFromSubscription(rows, sub);
    if userId == "" then rows else UpdatedById(rows, userId, SubscriptionPatch(cfg, sub))
  }

  function SubscriptionRemoved(rows: map<UserId, Profile>, sub: Subscription): (r: map<UserId, Profile>)
    ensures r.Keys == rows.Keys
  {
    var userId := FindUserIdFromSubscription(rows, sub);
    if userId == "" then rows else UpdatedById(rows, userId, SubscriptionDeletedPatch)
  }

  function InvoiceSettled(rows: map<UserId, Profile>, invoice: Invoice, status: string): (r: map<UserId, Profile>)
    ensures r.Keys == rows.Keys
  {
    var customerId := Trim(invoice.customer);
    if customerId == "" then rows else UpdatedByCustomer(rows, customerId, InvoicePatch(status))
  }

  /** The table after one verified event; no event adds or removes a profile. */
  function Step(cfg: PriceConfig, rows: map<UserId, Profile>, e: Event): (r: map<UserId, Profile>)
    ensures r.Keys == rows.Keys
  {
    match e
    case CheckoutSessionCompleted(session) => CheckoutCompleted(rows, session)
    case SubscriptionCreated(sub) => SubscriptionChanged(cfg, rows, sub)
    case SubscriptionUpdated(sub) => SubscriptionChanged(cfg, rows, sub)
    case SubscriptionDeleted(sub) => SubscriptionRemoved(rows, sub)
    case InvoicePaymentFailed(invoice) => InvoiceSettled(rows, invoice, "past_due")
    case InvoicePaymentSucceeded(invoice) => InvoiceSettled(rows, invoice, "active")
    case Unhandled(_) => rows
  }

  method UpsertProfileSubscription(cfg: PriceConfig, table: ProfileTable, userId: UserId, sub: Subscription)
    modifies table
    ensures table.rows == UpdatedById(old(table.rows), userId, SubscriptionPatch(cfg, sub))
  {
    var priceId := FirstPriceId(sub);
    var tier := ResolveTierFromPrice(cfg, priceId);
    var cycle := ResolveCycleFromPrice(cfg, priceId);
    var payload := EmptyPatch.(
      stripeCustomerId := Put(NullIfEmpty(Trim(sub.customer))),
      stripeSubscriptionId := Put(NullIfEmpty(Trim(sub.id))),
      stripePriceId := Put(NullIfEmpty(priceId)),
      billingStatus := Put(Some(BillingStatusFromStripe(sub.status))),
      billingCycle := Put(if cycle.Some? then Some(CycleName(cycle.value)) else None),
      cancelAtPeriodEnd := Put(Some(sub.cancelAtPeriodEnd)),
      currentPeriodEnd := Put(if sub.currentPeriodEnd != 0 then Some(sub.currentPeriodEnd) else None));
    if tier.Some? {
      payload := payload.(subscriptionTier := Put(Some(PlanName(tier.value))));
    }
    table.UpdateById(userId, payload);
  }

  /** `checkout.session.completed`: the metadata user's row, if the metadata names one. */
  method ApplyCheckoutCompleted(table: ProfileTable, session: CheckoutSession)
    modifies table
    ensures table.rows == CheckoutCompleted(old(table.rows), session)
  {
    var userId := Trim(session.metadataUserId);
    if userId != "" {
      table.UpdateById(userId, CheckoutCompletedPatch(session));
    }
  }

  /** `customer.subscription.created` and `.updated`: the owner's row, if one is found. */
  method ApplySubscriptionChange(cfg: PriceConfig, table: ProfileTable, sub: Subscription)
    modifies table
    ensures table.rows == SubscriptionChanged(cfg, old(table.rows), sub)
  {
    var userId := FindUserIdFromSubscription(table.rows, sub);
    if userId != "" {
      UpsertProfileSubscription(cfg, table, userId, sub);
    }
  }

  /** `customer.subscription.deleted`: the owner's row, if one is found. */
  method ApplySubscriptionRemoval(table: ProfileTable, sub: Subscription)
    modifies table
    ensures table.rows == SubscriptionRemoved(old(table.rows), sub)
  {
    var userId := FindUserIdFromSubscription(table.rows, sub);
    if userId != "" {
      table.UpdateById(userId, SubscriptionDeletedPatch);
    }
  }

  /** `invoice.payment_failed` and `.payment_succeeded`: every row of the invoice's customer. */
  method ApplyInvoice(table: ProfileTable, invoice: Invoice, status: string)
    modifies table
    ensures table.rows == InvoiceSettled(old(table.rows), invoice, status)
  {
    var customerId := Trim(invoice.customer);
    if customerId != "" {
      table.UpdateByCustomer(customerId, InvoicePatch(status));
    }
  }

  /** Which transition each kind of event selects. */
  lemma StepDispatch(cfg: PriceConfig, rows: map<UserId, Profile>, e: Event)
    ensures e.CheckoutSessionCompleted? ==> Step(cfg, rows, e) == CheckoutCompleted(rows, e.session)
    ensures e.SubscriptionCreated? || e.SubscriptionUpdated? ==> Step(cfg, rows, e) == SubscriptionChanged(cfg, rows, e.sub)
    ensures e.SubscriptionDeleted? ==> Step(cfg, rows, e) == SubscriptionRemoved(rows, e.sub)
    ensures e.InvoicePaymentFailed? ==> Step(cfg, rows, e) == InvoiceSettled(rows, e.invoice, "past_due")
    ensures e.InvoicePaymentSucceeded? ==> Step(cfg, rows, e) == InvoiceSettled(rows, e.invoice, "active")
    ensures e.Unhandled? ==> Step(cfg, rows, e) == rows
  {
  }

  /** The `switch (event.type)` of the handler, applied to the table in place. */
  method HandleEvent(cfg: PriceConfig, table: ProfileTable, e: Event)
    modifies table
    ensures table.rows == Step(cfg, old(table.rows), e)
  {
    StepDispatch(cfg, table.rows, e);
    match e {
      case CheckoutSessionCompleted(session) => ApplyCheckoutCompleted(table, session);
      case SubscriptionCreated(sub) => ApplySubscriptionChange(cfg, table, sub);
      case SubscriptionUpdated(sub) => ApplySubscriptionChange(cfg, table, sub);
      case SubscriptionDeleted(sub) => ApplySubscriptionRemoval(table, sub);
      case InvoicePaymentFailed(invoice) => ApplyInvoice(table, invoice, "past_due");
      case InvoicePaymentSucceeded(invoice) => ApplyInvoice(table, invoice, "active");
      case Unhandled(_) =>
    }
  }

  // ---------------------------------------------------------------------
  // What each event does to the table

  /**
   * Subscription created/updated: the matched profile gets the subscription's
   * ids, status, cycle, cancel flag and period end; its tier only when the
   * price resolves; every other profile and column stays as it was.
   */
  lemma SubscriptionChangeWrites(cfg: PriceConfig, rows: map<UserId, Profile>, e: Event, id: UserId)
    requires e.SubscriptionCreated? || e.SubscriptionUpdated?
    requires id in rows
    ensures var userId := FindUserIdFromSubscription(rows, e.sub);
            var priceId := FirstPriceId(e.sub);
            var tier := ResolveTierFromPrice(cfg, priceId);
            var cycle := ResolveCycleFromPrice(cfg, priceId);
            var was, now := rows[id], Step(cfg, rows, e)[id];
            now == if userId == "" || id != userId then was
                   else was.(
                     subscriptionTier := if tier.Some? then Some(PlanName(tier.value)) else was.subscriptionTier,
                     billingCycle := if cycle.Some? then Some(CycleName(cycle.value)) else None,
                     billingStatus := Some(BillingStatusFromStripe(e.sub.status)),
                     stripePriceId := NullIfEmpty(priceId),
                     stripeCustomerId := NullIfEmpty(Trim(e.sub.customer)),
                     stripeSubscriptionId := NullIfEmpty(Trim(e.sub.id)),
                     cancelAtPeriodEnd := Some(e.sub.cancelAtPeriodEnd),
                     currentPeriodEnd := if e.sub.currentPeriodEnd != 0 then Some(e.sub.currentPeriodEnd) else None)
  {
    assert Step(cfg, rows, e) == SubscriptionChanged(cfg, rows, e.sub);
    SubscriptionPatchApplied(cfg, rows[id], e.sub);
  }

  lemma SubscriptionPatchApplied(cfg: PriceConfig, was: Profile, sub: Subscription)
    ensures var priceId := FirstPriceId(sub);
            var tier := ResolveTierFromPrice(cfg, priceId);
            var cycle := ResolveCycleFromPrice(cfg, priceId);
            ApplyPatch(was, SubscriptionPatch(cfg, sub)) == was.(
              subscriptionTier := if tier.Some? then Some(PlanName(tier.value)) else was.subscriptionTier,
              billingCycle := if cycle.Some? then Some(CycleName(cycle.value)) else None,
              billingStatus := Some(BillingStatusFromStripe(sub.status)),
              stripePriceId := NullIfEmpty(priceId),
              stripeCustomerId := NullIfEmpty(Trim(sub.customer)),
              stripeSubscriptionId := NullIfEmpty(Trim(sub.id)),
              cancelAtPeriodEnd := Some(sub.cancelAtPeriodEnd),
              currentPeriodEnd := if sub.currentPeriodEnd != 0 then Some(sub.currentPeriodEnd) else None)
  {
    var priceId := FirstPriceId(sub);
    SubscriptionPayloadApplied(was, sub, priceId, ResolveTierFromPrice(cfg, priceId), ResolveCycleFromPrice(cfg, priceId));
  }

  lemma SubscriptionPayloadApplied(was: Profile, sub: Subscription, priceId: string, tier: Option<Plan>, cycle: Option<Cycle>)
    ensures ApplyPatch(was, SubscriptionPayload(sub, priceId, tier, cycle)) == was.(
              subscriptionTier := if tier.Some? then Some(PlanName(tier.value)) else was.subscriptionTier,
              billingCycle := if cycle.Some? then Some(CycleName(cycle.value)) else None,
              billingStatus := Some(BillingStatusFromStripe(sub.status)),
              stripePriceId := NullIfEmpty(priceId),
              stripeCustomerId := NullIfEmpty(Trim(sub.customer)),
              stripeSubscriptionId := NullIfEmpty(Trim(sub.id)),
              cancelAtPeriodEnd := Some(sub.cancelAtPeriodEnd),
              currentPeriodEnd := if sub.currentPeriodEnd != 0 then Some(sub.currentPeriodEnd) else None)
  {
    var tierWrite := if tier.Some? then Put(Some(PlanName(tier.value))) else Keep;
    ApplyWritingPatch(was, NullIfEmpty(Trim(sub.customer)), NullIfEmpty(Trim(sub.id)), NullIfEmpty(priceId),
      Some(BillingStatusFromStripe(sub.status)), if cycle.Some? then Some(CycleName(cycle.value)) else None,
      Some(sub.cancelAtPeriodEnd), tierWrite, if sub.currentPeriodEnd != 0 then Some(sub.currentPeriodEnd) else None);
  }

  /**
   * Subscription deleted: the matched profile drops to the free tier with a
   * canceled status and no subscription, price or cycle; its customer id and
   * period end are untouched.
   */
  lemma SubscriptionDeletedWrites(cfg: PriceConfig, rows: map<UserId, Profile>, sub: Subscription, id: UserId)
    requires id in rows
    ensures var userId := FindUserIdFromSubscription(rows, sub);
            var was, now := rows[id], Step(cfg, rows, SubscriptionDeleted(sub))[id];
            now == if userId == "" || id != userId then was
                   else was.(
              subscriptionTier := Some("free"),
              billingStatus := Some("canceled"),
              stripeSubscriptionId := None,
              stripePriceId := None,
              cancelAtPeriodEnd := Some(false),
              billingCycle := None)
  {
    assert Step(cfg, rows, SubscriptionDeleted(sub)) == SubscriptionRemoved(rows, sub);
  }

  /**
   * Invoice paid or failed: every profile with the invoice's (non-empty)
   * customer id gets the new billing status and nothing else changes.
   */
  lemma InvoiceWrites(cfg: PriceConfig, rows: map<UserId, Profile>, e: Event, id: UserId)
    requires e.InvoicePaymentFailed? || e.InvoicePaymentSucceeded?
    requires id in rows
    ensures var customerId := Trim(e.invoice.customer);
            var status := if e.InvoicePaymentFailed? then "past_due" else "active";
            var was, now := rows[id], Step(cfg, rows, e)[id];
            now == if customerId != "" && was.stripeCustomerId == Some(customerId)
                   then was.(billingStatus := Some(status)) else was
  {
    match e {
      case InvoicePaymentFailed(invoice) => InvoiceSettledWrites(rows, invoice, "past_due", id);
      case InvoicePaymentSucceeded(invoice) => InvoiceSettledWrites(rows, invoice, "active", id);
    }
  }

  lemma InvoiceSettledWrites(rows: map<UserId, Profile>, invoice: Invoice, status: string, id: UserId)
    requires id in rows
    ensures var customerId := Trim(invoice.customer);
            InvoiceSettled(rows, invoice, status)[id]
            == if customerId != "" && rows[id].stripeCustomerId == Some(customerId)
               then rows[id].(billingStatus := Some(status)) else rows[id]
  {
    assert ApplyPatch(rows[id], InvoicePatch(status)) == rows[id].(billingStatus := Some(status));
  }

  /** Checkout completed: the metadata user's profile gets its customer and subscription ids and an active status. */
  lemma CheckoutCompletedWrites(cfg: PriceConfig, rows: map<UserId, Profile>, session: CheckoutSession, id: UserId)
    requires id in rows
    ensures var was, now := rows[id], Step(cfg, rows, CheckoutSessionCompleted(session))[id];
            now == if id != "" && id == Trim(session.metadataUserId)
                   then was.(
                     stripeCustomerId := NullIfEmpty(Trim(session.customer)),
                     stripeSubscriptionId := NullIfEmpty(Trim(session.subscription)),
                     billingStatus := Some("active"))
                   else was
  {
    assert Step(cfg, rows, CheckoutSessionCompleted(session)) == CheckoutCompleted(rows, session);
    CheckoutPatchApplied(rows[id], session);
  }

  lemma CheckoutPatchApplied(was: Profile, session: CheckoutSession)
    ensures ApplyPatch(was, CheckoutCompletedPatch(session)) == was.(
      stripeCustomerId := NullIfEmpty(Trim(session.customer)),
      stripeSubscriptionId := NullIfEmpty(Trim(session.subscription)),
      billingStatus := Some("active"))
  {
  }

  /** Events that change no profile. */
  lemma IgnoredEvents(cfg: PriceConfig, rows: map<UserId, Profile>, e: Event)
    requires
      || e.Unhandled?
      || (e.CheckoutSessionCompleted? && Blank(e.session.metadataUserId))
      || ((e.InvoicePaymentFailed? || e.InvoicePaymentSucceeded?) && Blank(e.invoice.customer))
      || ((e.SubscriptionCreated? || e.SubscriptionUpdated? || e.SubscriptionDeleted?)
          && FindUserIdFromSubscription(rows, e.sub) == "")
    ensures Step(cfg, rows, e) == rows
  {
  }

  // ---------------------------------------------------------------------
  // The request handler

  /** The secrets the webhook reads. */
  datatype WebhookEnv = WebhookEnv(
    supabaseUrl: string,
    serviceRoleKey: string,
    stripeSecretKey: string,
    stripeWebhookSecret: string,
    prices: PriceConfig)

  /** What signature verification (`constructEventAsync`) produced. */
  datatype Verification = Verified(event: Event) | Rejected(message: string)

  /** The checks before the switch: method, secrets, signature header, signature verification. */
  function WebhookGate(httpMethod: string, env: WebhookEnv, signature: string, verification: Verification): (r: Flow<Event>)
    ensures httpMethod == "OPTIONS" ==> r == Stop(Preflight)
    ensures httpMethod != "OPTIONS" && httpMethod != "POST" ==> r == Stop(MethodNotAllowed)
    ensures r.Continue? ==>
      && httpMethod == "POST"
      && env.supabaseUrl != "" && env.serviceRoleKey != ""
      && env.stripeSecretKey != "" && env.stripeWebhookSecret != ""
      && signature != ""
      && verification == Verified(r.value)
    ensures httpMethod == "POST" && (env.supabaseUrl == "" || env.serviceRoleKey == "") ==>
            r == Stop(Failure(500, "Missing Supabase secrets"))
    ensures httpMethod == "POST" && env.supabaseUrl != "" && env.serviceRoleKey != ""
            && (env.stripeSecretKey == "" || env.stripeWebhookSecret == "") ==>
            r == Stop(Failure(500, "Missing Stripe webhook secrets"))
    ensures httpMethod == "POST" && signature == "" ==> r.Stop? && r.response.Failure?
    ensures httpMethod == "POST" && env.supabaseUrl != "" && env.serviceRoleKey != ""
            && env.stripeSecretKey != "" && env.stripeWebhookSecret != "" && signature == "" ==>
            r == Stop(Failure(400, "Missing stripe-signature header"))
    ensures httpMethod == "POST" && env.supabaseUrl != "" && env.serviceRoleKey != ""
            && env.stripeSecretKey != "" && env.stripeWebhookSecret != "" && signature != "" ==>
            r == match verification
                 case Verified(e) => Continue(e)
                 case Rejected(message) => Stop(Failure(400, message))
  {
    if httpMethod == "OPTIONS" then Stop(Preflight)
    else if httpMethod != "POST" then Stop(MethodNotAllowed)
    else if env.supabaseUrl == "" || env.serviceRoleKey == "" then Stop(Failure(500, "Missing Supabase secrets"))
    else if env.stripeSecretKey == "" || env.stripeWebhookSecret == "" then Stop(Failure(500, "Missing Stripe webhook secrets"))
    else if signature == "" then Stop(Failure(400, "Missing stripe-signature header"))
    else match verification
      case Rejected(message) => Stop(Failure(400, message))
      case Verified(e) => Continue(e)
  }

  /** The whole request: the checks, then the switch; `{ received: true }` once an event is applied. */
  method HandleWebhook(env: WebhookEnv, table: ProfileTable, httpMethod: string, signature: string, verification: Verification)
    returns (response: Response)
    modifies table
    ensures var gate := WebhookGate(httpMethod, env, signature, verification);
            && response == (if gate.Continue? then Success else gate.response)
            && table.rows == (if gate.Continue? then Step(env.prices, old(table.rows), gate.value) else old(table.rows))
  {
    var gate := WebhookGate(httpMethod, env, signature, verification);
    if gate.Stop? {
      return gate.response;
    }
    HandleEvent(env.prices, table, gate.value);
    response := Success;
  }
}
