/**
 * The checkout handler: input normalisers, the validation cascade, the
 * default redirects, and the rule that a Stripe customer is created and
 * recorded only for a profile that has none.
 */
module CheckoutSession {
  import opened Wrappers
  import opened Text
  import opened Http
  import opened Plans
  import opened Profiles
  import opened ReturnUrls

  // ---------------------------------------------------------------------
  // Normalisers

  /** The plan named by the trimmed, lower-cased input, if any. */
  function NormalizePlan(value: string): (r: Option<Plan>)
    ensures r.Some? ==> PlanName(r.value) == Lower(Trim(value))
    ensures r.None? ==> Lower(Trim(value)) != "standard" && Lower(Trim(value)) != "pro"
  {
    var raw := Lower(Trim(value));
    if raw == "standard" then Some(Standard) else if raw == "pro" then Some(Pro) else None
  }

  /** The billing cycle named by the trimmed, lower-cased input, if any. */
  function NormalizeCycle(value: string): (r: Option<Cycle>)
    ensures r.Some? ==> CycleName(r.value) == Lower(Trim(value))
    ensures r.None? ==> Lower(Trim(value)) != "monthly" && Lower(Trim(value)) != "yearly"
  {
    var raw := Lower(Trim(value));
    if raw == "monthly" then Some(Monthly) else if raw == "yearly" then Some(Yearly) else None
  }

  /** A name in lower case without surrounding whitespace normalises to itself. */
  lemma NormalFormUnchanged(s: string)
    requires s != [] && !IsSpace(s[0]) && !IsSpace(s[|s| - 1]) && IsLowerCase(s)
    ensures Lower(Trim(s)) == s
  {
    LowerOfLowerCase(s);
  }

  lemma NameIsNormal(name: string)
    requires name in {"standard", "pro", "monthly", "yearly"}
    ensures Lower(Trim(name)) == name
  {
    NormalFormUnchanged(name);
  }

  /** Each plan's own name, in any letter case and with surrounding whitespace, gives that plan back. */
  lemma NormalizePlanRoundTrip(p: Plan, padded: string)
    requires Lower(Trim(padded)) == PlanName(p)
    ensures NormalizePlan(PlanName(p)) == Some(p)
    ensures NormalizePlan(padded) == Some(p)
  {
    NameIsNormal(PlanName(p));
  }

  /** Each cycle's own name, in any letter case and with surrounding whitespace, gives that cycle back. */
  lemma NormalizeCycleRoundTrip(c: Cycle, padded: string)
    requires Lower(Trim(padded)) == CycleName(c)
    ensures NormalizeCycle(CycleName(c)) == Some(c)
    ensures NormalizeCycle(padded) == Some(c)
  {
    NameIsNormal(CycleName(c));
  }

  /** `Number(value)`: a finite number or NaN/Infinity. */
  datatype JsNumber = Finite(value: real) | NonFinite

  /** 1 for a non-finite or non-positive quantity, otherwise its floor capped at 100. */
  function NormalizeQuantity(n: JsNumber): (r: int)
    ensures 0 <= r <= 100
    ensures n.NonFinite? || n.value <= 0.0 ==> r == 1
    ensures n.Finite? && 0.0 < n.value < 100.0 ==> r as real <= n.value < r as real + 1.0
    ensures n.Finite? && n.value >= 100.0 ==> r == 100
  {
    if n.NonFinite? || n.value <= 0.0 then 1
    else if n.value.Floor < 100 then n.value.Floor else 100
  }

  /** A whole-number quantity always lands in 1..100. */
  lemma WholeQuantityInRange(k: int)
    ensures 1 <= NormalizeQuantity(Finite(k as real)) <= 100
    ensures 1 <= k <= 100 ==> NormalizeQuantity(Finite(k as real)) == k
  {
  }

  /** A fraction below one is floored to 0, not raised to 1. */
  lemma FractionalQuantityIsZero(x: real)
    requires 0.0 < x < 1.0
    ensures NormalizeQuantity(Finite(x)) == 0
  {
  }

  // ---------------------------------------------------------------------
  // Validation cascade

  datatype CheckoutEnv = CheckoutEnv(
    supabaseUrl: string,
    supabaseAnonKey: string,
    serviceRoleKey: string,
    stripeSecretKey: string,
    appBaseUrl: string,
    prices: PriceConfig)

  /** The request body; absent fields are "" (and `NonFinite` for the quantity). */
  datatype CheckoutBody = CheckoutBody(
    plan: string,
    billingCycle: string,
    successUrl: string,
    cancelUrl: string,
    quantity: JsNumber)

  /** Everything the cascade has checked and computed before the profile is loaded. */
  datatype CheckoutOrder = CheckoutOrder(
    user: AuthUser,
    plan: Plan,
    cycle: Cycle,
    priceId: string,
    quantity: int,
    successUrl: string,
    cancelUrl: string)

  const SuccessPath := "/spendnote-user-settings.html?billing=success"
  const CancelPath := "/spendnote-pricing.html?billing=cancel"
  /** The site the redirects fall back to when no base URL is configured. */
  const ProductionBase := "https://spendnote.app"
  const ProductionSuccessUrl := ProductionBase + SuccessPath
  const ProductionCancelUrl := ProductionBase + CancelPath

  function DefaultSuccessUrl(appBaseUrl: string): string {
    DefaultUrl(appBaseUrl, SuccessPath, ProductionSuccessUrl)
  }

  function DefaultCancelUrl(appBaseUrl: string): string {
    DefaultUrl(appBaseUrl, CancelPath, ProductionCancelUrl)
  }

  /**
   * With no base URL configured the redirects are the ones the production
   * site's base URL would give, written with or without a trailing slash.
   */
  lemma DefaultCheckoutUrls(appBaseUrl: string)
    requires appBaseUrl == ProductionBase || appBaseUrl == ProductionBase + "/"
    ensures DefaultSuccessUrl(appBaseUrl) == DefaultSuccessUrl("")
    ensures DefaultCancelUrl(appBaseUrl) == DefaultCancelUrl("")
  {
  }

  /** The method, secret and authentication checks, in the handler's order. */
  function Admission(httpMethod: string, env: CheckoutEnv, user: Option<AuthUser>): (r: Flow<AuthUser>)
    ensures httpMethod == "OPTIONS" ==> r == Stop(Preflight)
    ensures httpMethod != "OPTIONS" && httpMethod != "POST" ==> r == Stop(MethodNotAllowed)
    ensures httpMethod == "POST" && (env.supabaseUrl == "" || env.supabaseAnonKey == "" || env.serviceRoleKey == "") ==>
      r == Stop(Failure(500, "Missing Supabase secrets"))
    ensures httpMethod == "POST" && env.supabaseUrl != "" && env.supabaseAnonKey != "" && env.serviceRoleKey != ""
            && env.stripeSecretKey == "" ==>
      r == Stop(Failure(500, "Missing STRIPE_SECRET_KEY"))
    ensures httpMethod == "POST" && env.supabaseUrl != "" && env.supabaseAnonKey != "" && env.serviceRoleKey != ""
            && env.stripeSecretKey != "" && user.None? ==>
      r == Stop(NotAuthenticated)
    ensures r.Continue? <==> Admitted(httpMethod, env, user)
    ensures r.Continue? ==> user == Some(r.value)
  {
    if httpMethod == "OPTIONS" then Stop(Preflight)
    else if httpMethod != "POST" then Stop(MethodNotAllowed)
    else if env.supabaseUrl == "" || env.supabaseAnonKey == "" || env.serviceRoleKey == "" then
      Stop(Failure(500, "Missing Supabase secrets"))
    else if env.stripeSecretKey == "" then Stop(Failure(500, "Missing STRIPE_SECRET_KEY"))
    else if user.None? then Stop(NotAuthenticated)
    else Continue(user.value)
  }

  /** The request got past the method, secret and authentication checks. */
  predicate Admitted(httpMethod: string, env: CheckoutEnv, user: Option<AuthUser>) {
    && httpMethod == "POST"
    && env.supabaseUrl != "" && env.supabaseAnonKey != "" && env.serviceRoleKey != ""
    && env.stripeSecretKey != ""
    && user.Some?
  }

  /** The plan and cycle of the body and their configured price id: 400 for a bad pair, 500 for an unset price. */
  function SelectPrice(prices: PriceConfig, body: CheckoutBody): (r: Flow<(Plan, Cycle)>)
    ensures r.Continue? <==>
      && NormalizePlan(body.plan).Some? && NormalizeCycle(body.billingCycle).Some?
      && PriceFor(prices, NormalizePlan(body.plan).value, NormalizeCycle(body.billingCycle).value) != ""
    ensures r.Continue? ==> r.value == (NormalizePlan(body.plan).value, NormalizeCycle(body.billingCycle).value)
    ensures NormalizePlan(body.plan).None? || NormalizeCycle(body.billingCycle).None? ==>
      r == Stop(Failure(400, "Invalid plan or billingCycle"))
    ensures r.Stop? && NormalizePlan(body.plan).Some? && NormalizeCycle(body.billingCycle).Some? ==>
      r.response.Failure? && r.response.status == 500
  {
    var plan := NormalizePlan(body.plan);
    var cycle := NormalizeCycle(body.billingCycle);
    if plan.None? || cycle.None? then Stop(Failure(400, "Invalid plan or billingCycle"))
    else if PriceFor(prices, plan.value, cycle.value) == "" then
      Stop(Failure(500, "Price ID not configured for " + PlanName(plan.value) + "/" + CycleName(cycle.value)))
    else Continue((plan.value, cycle.value))
  }

  /** An invalid plan or cycle is answered before any configured price id is consulted. */
  lemma PlanCheckedBeforePrices(prices: PriceConfig, prices': PriceConfig, body: CheckoutBody)
    requires NormalizePlan(body.plan).None? || NormalizeCycle(body.billingCycle).None?
    ensures SelectPrice(prices, body) == SelectPrice(prices', body)
  {
  }

  /** Lines up to the profile load: admission, plan and price, quantity, redirects. */
  function ValidateCheckout(httpMethod: string, env: CheckoutEnv, user: Option<AuthUser>, body: CheckoutBody, parse: UrlParser)
    : (r: Flow<CheckoutOrder>)
    ensures r.Continue? <==>
      Admission(httpMethod, env, user).Continue? && SelectPrice(env.prices, body).Continue?
    ensures Admission(httpMethod, env, user).Stop? ==> r == Stop(Admission(httpMethod, env, user).response)
    ensures Admission(httpMethod, env, user).Continue? && SelectPrice(env.prices, body).Stop? ==>
      r == Stop(SelectPrice(env.prices, body).response)
    ensures r.Continue? ==>
      && Admitted(httpMethod, env, user)
      && user == Some(r.value.user)
      && NormalizePlan(body.plan) == Some(r.value.plan)
      && NormalizeCycle(body.billingCycle) == Some(r.value.cycle)
      && r.value.priceId == PriceFor(env.prices, r.value.plan, r.value.cycle) != ""
      && r.value.quantity == NormalizeQuantity(body.quantity)
      && r.value.successUrl == NormalizeReturnUrl(body.successUrl, DefaultSuccessUrl(env.appBaseUrl), env.appBaseUrl, parse)
      && r.value.cancelUrl == NormalizeReturnUrl(body.cancelUrl, DefaultCancelUrl(env.appBaseUrl), env.appBaseUrl, parse)
  {
    match Admission(httpMethod, env, user)
    case Stop(response) => Stop(response)
    case Continue(caller) =>
      match SelectPrice(env.prices, body)
      case Stop(response) => Stop(response)
      case Continue((plan, cycle)) =>
        var successUrl := NormalizeReturnUrl(body.successUrl, DefaultSuccessUrl(env.appBaseUrl), env.appBaseUrl, parse);
        var cancelUrl := NormalizeReturnUrl(body.cancelUrl, DefaultCancelUrl(env.appBaseUrl), env.appBaseUrl, parse);
        Continue(CheckoutOrder(caller, plan, cycle, PriceFor(env.prices, plan, cycle),
                               NormalizeQuantity(body.quantity), successUrl, cancelUrl))
  }

  // ---------------------------------------------------------------------
  // Customer and session

  /** The arguments of `stripe.customers.create`. */
  datatype CustomerRequest = CustomerRequest(email: Option<string>, userId: UserId)

  /** The arguments of `stripe.checkout.sessions.create` that vary. */
  datatype SessionRequest = SessionRequest(
    customer: string,
    priceId: string,
    quantity: int,
    successUrl: string,
    cancelUrl: string,
    userId: UserId,
    plan: Plan,
    cycle: Cycle)

  /** The e-mail a new customer is created with: the profile's, else the account's, trimmed. */
  function CustomerEmail(profile: Profile, user: AuthUser): Option<string> {
    var email := if OrEmpty(profile.email) != "" then OrEmpty(profile.email) else user.email;
    NullIfEmpty(Trim(email))
  }

  /**
   * Reuse the profile's customer id; only when it has none, create a customer
   * (whose id Stripe returns as `createdId`) and record a non-empty id on the profile.
   */
  method EnsureStripeCustomer(table: ProfileTable, user: AuthUser, profile: Profile, createdId: string)
    returns (customerId: string, created: Option<CustomerRequest>)
    modifies table
    ensures var existing := Trim(OrEmpty(profile.stripeCustomerId));
      if existing != "" then
        && customerId == existing
        && created == None
        && table.rows == old(table.rows)
      else
        && customerId == Trim(createdId)
        && created == Some(CustomerRequest(CustomerEmail(profile, user), user.id))
        && table.rows == if customerId == "" then old(table.rows)
                         else UpdatedById(old(table.rows), user.id, EmptyPatch.(stripeCustomerId := Put(Some(customerId))))
  {
    customerId := Trim(OrEmpty(profile.stripeCustomerId));
    created := None;
    if customerId == "" {
      created := Some(CustomerRequest(CustomerEmail(profile, user), user.id));
      customerId := Trim(createdId);
      if customerId != "" {
        table.UpdateById(user.id, EmptyPatch.(stripeCustomerId := Put(Some(customerId))));
      }
    }
  }

  /**
   * The whole request. `profileError` is the database's message when the
   * caller has no profile row; `createdId` is the id of the customer Stripe
   * creates, used only when one is created.
   */
  method CreateCheckoutSession(
    env: CheckoutEnv, table: ProfileTable, httpMethod: string, user: Option<AuthUser>,
    body: CheckoutBody, parse: UrlParser, profileError: string, createdId: string)
    returns (response: Response, created: Option<CustomerRequest>, session: Option<SessionRequest>)
    modifies table
    ensures var flow := ValidateCheckout(httpMethod, env, user, body, parse);
      if flow.Stop? then
        response == flow.response && created == None && session == None && table.rows == old(table.rows)
      else if flow.value.user.id !in old(table.rows) then
        && response == Failure(500, "Failed to load profile: " + profileError)
        && created == None && session == None && table.rows == old(table.rows)
      else
        var order, profile := flow.value, old(table.rows)[flow.value.user.id];
        && response == Success
        && session.Some?
        && session.value == SessionRequest(session.value.customer, order.priceId, order.quantity,
                                           order.successUrl, order.cancelUrl, order.user.id, order.plan, order.cycle)
        && (Trim(OrEmpty(profile.stripeCustomerId)) != "" ==>
              session.value.customer == Trim(OrEmpty(profile.stripeCustomerId))
              && created == None && table.rows == old(table.rows))
        && (Trim(OrEmpty(profile.stripeCustomerId)) == "" ==>
              && session.value.customer == Trim(createdId)
              && created == Some(CustomerRequest(CustomerEmail(profile, order.user), order.user.id))
              && table.rows == if Trim(createdId) == "" then old(table.rows)
                               else UpdatedById(old(table.rows), order.user.id,
                                                EmptyPatch.(stripeCustomerId := Put(Some(Trim(createdId))))))
  {
    var flow := ValidateCheckout(httpMethod, env, user, body, parse);
    if flow.Stop? {
      return flow.response, None, None;
    }
    var order := flow.value;
    if order.user.id !in table.rows {
      return Failure(500, "Failed to load profile: " + profileError), None, None;
    }
    var profile := table.rows[order.user.id];
    var customerId;
    customerId, created := EnsureStripeCustomer(table, order.user, profile, createdId);
    session := Some(SessionRequest(customerId, order.priceId, order.quantity, order.successUrl,
                                   order.cancelUrl, order.user.id, order.plan, order.cycle));
    response := Success;
  }
}
