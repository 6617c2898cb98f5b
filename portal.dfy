/**
 * The billing-portal handler: the same method, secret and authentication
 * checks as checkout, a redirect chosen by `normalizeReturnUrl`, and a portal
 * session only for a caller whose profile already has a Stripe customer.
 */
module PortalSession {
  import opened Wrappers
  import opened Text
  import opened Http
  import opened Profiles
  import opened ReturnUrls

  datatype PortalEnv = PortalEnv(
    supabaseUrl: string,
    supabaseAnonKey: string,
    serviceRoleKey: string,
    stripeSecretKey: string,
    appBaseUrl: string)

  /** The arguments of `stripe.billingPortal.sessions.create`. */
  datatype PortalRequest = PortalRequest(customer: string, returnUrl: string)

  const PortalPath := "/spendnote-user-settings.html?billing=portal"
  const ProductionPortalUrl := "https://spendnote.app" + PortalPath

  function DefaultReturnUrl(appBaseUrl: string): string {
    DefaultUrl(appBaseUrl, PortalPath, ProductionPortalUrl)
  }

  const NoCustomer := Failure(400, "No Stripe customer found for this account.")

  /** The request got past the method, secret and authentication checks. */
  predicate Admitted(httpMethod: string, env: PortalEnv, user: Option<AuthUser>) {
    && httpMethod == "POST"
    && env.supabaseUrl != "" && env.supabaseAnonKey != "" && env.serviceRoleKey != ""
    && env.stripeSecretKey != ""
    && user.Some?
  }

  /**
   * The whole request up to the Stripe call. `returnUrlField` is the body's
   * `returnUrl` ("" when absent); a caller without a profile row gets the
   * database's message `profileError`.
   */
  function HandlePortal(
    httpMethod: string, env: PortalEnv, user: Option<AuthUser>, returnUrlField: string,
    rows: map<UserId, Profile>, parse: UrlParser, profileError: string)
    : (r: Flow<PortalRequest>)
    ensures httpMethod == "OPTIONS" ==> r == Stop(Preflight)
    ensures httpMethod != "OPTIONS" && httpMethod != "POST" ==> r == Stop(MethodNotAllowed)
    ensures httpMethod == "POST" && (env.supabaseUrl == "" || env.supabaseAnonKey == "" || env.serviceRoleKey == "") ==>
      r == Stop(Failure(500, "Missing Supabase secrets"))
    ensures httpMethod == "POST" && env.supabaseUrl != "" && env.supabaseAnonKey != "" && env.serviceRoleKey != ""
            && env.stripeSecretKey == "" ==>
      r == Stop(Failure(500, "Missing STRIPE_SECRET_KEY"))
    ensures httpMethod == "POST" && env.supabaseUrl != "" && env.supabaseAnonKey != "" && env.serviceRoleKey != ""
            && env.stripeSecretKey != "" && user.None? ==>
      r == Stop(NotAuthenticated)
    ensures Admitted(httpMethod, env, user) && user.value.id !in rows ==>
      r == Stop(Failure(500, "Failed to load profile: " + profileError))
    ensures Admitted(httpMethod, env, user) && user.value.id in rows
            && Blank(OrEmpty(rows[user.value.id].stripeCustomerId)) ==>
      r == Stop(NoCustomer)
    ensures r.Continue? <==>
      Admitted(httpMethod, env, user) && user.value.id in rows && !Blank(OrEmpty(rows[user.value.id].stripeCustomerId))
    ensures r.Continue? ==>
      && r.value.customer == Trim(OrEmpty(rows[user.value.id].stripeCustomerId)) != ""
      && r.value.returnUrl == NormalizeReturnUrl(returnUrlField, DefaultReturnUrl(env.appBaseUrl), env.appBaseUrl, parse)
  {
    if httpMethod == "OPTIONS" then Stop(Preflight)
    else if httpMethod != "POST" then Stop(MethodNotAllowed)
    else if env.supabaseUrl == "" || env.supabaseAnonKey == "" || env.serviceRoleKey == "" then
      Stop(Failure(500, "Missing Supabase secrets"))
    else if env.stripeSecretKey == "" then Stop(Failure(500, "Missing STRIPE_SECRET_KEY"))
    else if user.None? then Stop(NotAuthenticated)
    else
      var returnUrl := NormalizeReturnUrl(returnUrlField, DefaultReturnUrl(env.appBaseUrl), env.appBaseUrl, parse);
      if user.value.id !in rows then Stop(Failure(500, "Failed to load profile: " + profileError))
      else
        var customer := Trim(OrEmpty(rows[user.value.id].stripeCustomerId));
        if customer == "" then Stop(NoCustomer)
        else Continue(PortalRequest(customer, returnUrl))
  }

  /** A session is only ever opened for the caller's own, recorded customer and a safe redirect. */
  lemma PortalSessionIsSafe(
    httpMethod: string, env: PortalEnv, user: Option<AuthUser>, returnUrlField: string,
    rows: map<UserId, Profile>, parse: UrlParser, profileError: string)
    requires HandlePortal(httpMethod, env, user, returnUrlField, rows, parse, profileError).Continue?
    ensures var req := HandlePortal(httpMethod, env, user, returnUrlField, rows, parse, profileError).value;
      && user.Some? && user.value.id in rows
      && rows[user.value.id].stripeCustomerId.Some?
      && Trim(rows[user.value.id].stripeCustomerId.value) == req.customer
      && (req.returnUrl == DefaultReturnUrl(env.appBaseUrl)
          || (Acceptable(Trim(returnUrlField), env.appBaseUrl, parse) && req.returnUrl == parse(Trim(returnUrlField)).value.href))
  {
  }

  /** Nothing but the HTTP method decides a preflight or a 405, whatever the secrets, the caller or the data. */
  lemma MethodCheckedFirst(
    httpMethod: string, env: PortalEnv, env': PortalEnv, user: Option<AuthUser>, user': Option<AuthUser>,
    returnUrlField: string, rows: map<UserId, Profile>, rows': map<UserId, Profile>, parse: UrlParser, profileError: string)
    requires httpMethod != "POST"
    ensures HandlePortal(httpMethod, env, user, returnUrlField, rows, parse, profileError)
         == HandlePortal(httpMethod, env', user', returnUrlField, rows', parse, profileError)
  {
  }
}
