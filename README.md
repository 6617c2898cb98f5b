# SpendNote billing and e-mail functions, modelled in Dafny

SpendNote runs a handful of Supabase edge functions. This project models five of them:

- **`stripe-webhook`** keeps the `profiles` table in step with Stripe. It maps a price id back to a
  tier and a billing cycle, whitelists the subscription status, finds the profile an event belongs to,
  and applies the event as an update of that profile (or of every profile holding a customer id).
- **`create-checkout-session`** normalises the plan, the cycle, the quantity and the two redirect
  URLs. It picks the configured price, creates a Stripe customer only for a profile that has none,
  records that customer on the profile, and describes the checkout session it opens.
- **`create-portal-session`** opens a billing-portal session for the caller's recorded customer,
  with a return URL that must be http(s) on the app's origin.
- **`send-invite-email`** checks its secrets and the caller. It then checks the invite: all fields
  present, a known token, still pending, the same address, an organisation set, and the caller an
  owner or admin of that organisation. Finally it composes the message for the mail service.
- **`_shared/email-templates.ts`** holds the `esc` HTML escaper and the four e-mail renderers.

How the model is built:

- Each handler is a cascade of early returns. It is modelled as a function returning a `Flow`, which
  either stops with a `Response` or continues with the values checked so far.
- The profiles table is a class, `Profiles.ProfileTable`, whose `rows` map the webhook and the
  checkout handler update in place. Each method is proved against a pure transition function,
  such as `StripeWebhook.Step`.
- A template literal is modelled as its fixed segments plus the values interpolated between them.
  Fixed text stays symbolic (a datatype of fragments with a function giving each one's text). This
  lets "user input reaches the HTML only through `esc`" be stated about the values.
- Foreign calls become inputs:
  - Supabase auth (`getUser`) is an `Option<AuthUser>`.
  - Table reads are maps.
  - Stripe signature verification is a `Verification`.
  - The customer id Stripe creates is a string.
  - Whether SES accepted the mail is a `bool`.
  - `new URL` is a `UrlParser` function.

## Model

| member | source | states |
|---|---|---|
| StripeWebhook.ResolveTierFromPrice | supabase/functions/stripe-webhook/index.ts:9-20 | A blank id has no tier. An id has a tier iff its trimmed form is one of the four configured ids. The tier is standard iff that id is a standard price, and pro iff it is a pro price and not a standard one. |
| StripeWebhook.ResolveCycleFromPrice | supabase/functions/stripe-webhook/index.ts:22-33 | The same for the cycle: monthly iff the id is a monthly price, yearly iff it is a yearly price and not a monthly one. |
| StripeWebhook.SharedPriceResolvesToStandard | supabase/functions/stripe-webhook/index.ts:17-18 | An id configured for both tiers resolves to standard, whose ids the code compares first. |
| StripeWebhook.PriceRoundTrip | supabase/functions/stripe-webhook/index.ts:9-33 | With four distinct, trimmed, non-empty price ids, the id checkout charges for a plan and cycle resolves back to that plan and that cycle. |
| Plans.PriceFor | supabase/functions/create-checkout-session/index.ts:85-94 | No contract of its own. The `priceMap[plan][billingCycle]` lookup. `PriceRoundTrip` and `ResolvedPriceIsConfigured` tie it to the webhook's resolvers, and `SelectPrice` states its use in checkout. |
| StripeWebhook.ResolvedPriceIsConfigured | supabase/functions/stripe-webhook/index.ts:9-33 | Conversely, an id that resolves to a plan and a cycle is the configured price for that pair. |
| StripeWebhook.BillingStatusFromStripe | supabase/functions/stripe-webhook/index.ts:35-48 | The result is always one of the eight allowed statuses. It is the trimmed, lower-cased input when that is allowed, and "active" otherwise. |
| StripeWebhook.BillingStatusIdempotent | supabase/functions/stripe-webhook/index.ts:35-48 | Normalising a normalised status changes nothing. |
| StripeWebhook.BillingStatusIgnoresCase | supabase/functions/stripe-webhook/index.ts:36 | Lower-casing the input first gives the same status. |
| StripeWebhook.BillingStatusIgnoresWhitespace | supabase/functions/stripe-webhook/index.ts:36 | Trimming the input first gives the same status. |
| StripeWebhook.FindUserIdFromSubscription | supabase/functions/stripe-webhook/index.ts:50-64 | A non-blank metadata user id wins, trimmed. Otherwise a blank customer gives "". Otherwise, when exactly one profile holds the trimmed customer id, its trimmed id is the result. With zero or several such profiles the result is "", and any non-empty result is the trimmed id of a profile holding that customer id. |
| StripeWebhook.Step | supabase/functions/stripe-webhook/index.ts:153-228 | No event adds or removes a profile. |
| StripeWebhook.SubscriptionChangeWrites | supabase/functions/stripe-webhook/index.ts:173-181 | For created and updated subscriptions, only the matched profile changes. It gets the customer, subscription and price ids (null when empty), the whitelisted status, the resolved cycle or null, the cancel flag and the period end. Its tier changes only when the price resolves. Its e-mail is kept. |
| StripeWebhook.SubscriptionPatchApplied | supabase/functions/stripe-webhook/index.ts:71-94 | The `upsertProfileSubscription` payload, applied to a row, writes exactly the columns above and keeps the tier when the price does not resolve. |
| StripeWebhook.SubscriptionPayload | supabase/functions/stripe-webhook/index.ts:71-90 | No contract of its own. `SubscriptionPatchApplied` states the row it writes. |
| StripeWebhook.SubscriptionDeletedWrites | supabase/functions/stripe-webhook/index.ts:183-200 | The matched profile gets tier "free", status "canceled", no subscription, no price, no cycle and no cancel-at-period-end. Its customer id and period end are kept, and every other profile is unchanged. |
| StripeWebhook.InvoiceWrites | supabase/functions/stripe-webhook/index.ts:202-224 | A failed payment sets "past_due" and a paid one sets "active". This happens on every profile whose customer id equals the invoice's non-blank trimmed customer, and nothing else changes. |
| StripeWebhook.InvoicePatch | supabase/functions/stripe-webhook/index.ts:206-221 | No contract of its own. `InvoiceWrites` states that only `billing_status` changes. |
| StripeWebhook.CheckoutCompletedWrites | supabase/functions/stripe-webhook/index.ts:154-171 | The metadata user's profile gets the customer and subscription ids (null when empty) and status "active". Every other profile is unchanged. |
| StripeWebhook.CheckoutPatchApplied | supabase/functions/stripe-webhook/index.ts:161-168 | The checkout payload writes exactly those three columns. |
| StripeWebhook.IgnoredEvents | supabase/functions/stripe-webhook/index.ts:153-228 | Unhandled event types leave the table as it is. So do a checkout without a metadata user, an invoice without a customer, and a subscription event whose owner lookup gives "" (no metadata user, and a customer held by no profile or by several). |
| StripeWebhook.UpsertProfileSubscription | supabase/functions/stripe-webhook/index.ts:66-95 | The table becomes the old table with the subscription payload applied to the row `userId`. |
| StripeWebhook.HandleEvent | supabase/functions/stripe-webhook/index.ts:153-228 | Applying the switch in place leaves the table equal to `Step` of the old table. |
| StripeWebhook.ApplyCheckoutCompleted | supabase/functions/stripe-webhook/index.ts:154-171 | The `checkout.session.completed` case, in place, leaves the table equal to `CheckoutCompleted` of the old table. |
| StripeWebhook.ApplySubscriptionChange | supabase/functions/stripe-webhook/index.ts:173-181 | The created and updated cases, in place, leave the table equal to `SubscriptionChanged` of the old table. |
| StripeWebhook.ApplySubscriptionRemoval | supabase/functions/stripe-webhook/index.ts:183-200 | The deleted case, in place, leaves the table equal to `SubscriptionRemoved` of the old table. |
| StripeWebhook.ApplyInvoice | supabase/functions/stripe-webhook/index.ts:202-224 | The two invoice cases, in place, leave the table equal to `InvoiceSettled` of the old table with the given status. |
| StripeWebhook.WebhookGate | supabase/functions/stripe-webhook/index.ts:98-149 | The checks come in the source's order. OPTIONS gets the preflight answer and any method other than POST gets 405. A POST then gets 500 "Missing Supabase secrets", then 500 "Missing Stripe webhook secrets", then 400 for a missing signature header. After that, a rejected signature gets 400 with the verifier's message, and a verified event goes through. An event goes through only in that case, and it is the verified event. |
| StripeWebhook.HandleWebhook | supabase/functions/stripe-webhook/index.ts:97-233 | A request the gate refuses leaves the table unchanged and returns the gate's answer. Otherwise the verified event is applied and the answer is 200. |
| Profiles.UpdatedById | supabase/functions/stripe-webhook/index.ts:91-94 | `.update(payload).eq("id", id)` keeps the key set and patches only the row `id`, if it exists. |
| Profiles.UpdatedByCustomer | supabase/functions/stripe-webhook/index.ts:206-209 | `.update(payload).eq("stripe_customer_id", c)` keeps the key set and patches exactly the rows holding customer `c`. |
| Profiles.MaybeSingle | supabase/functions/stripe-webhook/index.ts:57-61 | `.maybeSingle()` yields a row iff exactly one matches, and then it is that row. |
| Profiles.ProfileTable.UpdateById | supabase/functions/stripe-webhook/index.ts:91-94 | The in-place update leaves `rows` equal to `UpdatedById` of the old rows. |
| Profiles.ProfileTable.UpdateByCustomer | supabase/functions/stripe-webhook/index.ts:206-209 | The in-place update leaves `rows` equal to `UpdatedByCustomer` of the old rows. |
| Text.Trim | supabase/functions/stripe-webhook/index.ts:10 | `trim` shortens or keeps its input. It gives "" exactly for blank input, never starts or ends with whitespace, and keeps an input already without surrounding whitespace. |
| Text.TrimIsInfix | supabase/functions/stripe-webhook/index.ts:10 | The result is the infix of the input left after removing a leading and a trailing run of whitespace. With `Trim`'s own contract this determines it. |
| Text.TrimLowerCommute | supabase/functions/create-checkout-session/index.ts:18 | Trimming and lower-casing commute. |
| Text.Lower | supabase/functions/create-checkout-session/index.ts:18 | `toLowerCase` on ASCII keeps the length and lower-cases each character in place. |
| CheckoutSession.NormalizePlan | supabase/functions/create-checkout-session/index.ts:17-20 | A plan is returned exactly when the trimmed, lower-cased input is its name. Any other input gives none. |
| CheckoutSession.NormalizeCycle | supabase/functions/create-checkout-session/index.ts:22-25 | The same for "monthly" and "yearly". |
| CheckoutSession.NormalizePlanRoundTrip | supabase/functions/create-checkout-session/index.ts:17-20 | A plan's name, in any case and with any surrounding whitespace, normalises back to that plan. |
| CheckoutSession.NormalizeCycleRoundTrip | supabase/functions/create-checkout-session/index.ts:22-25 | The same for cycles. |
| CheckoutSession.NormalizeQuantity | supabase/functions/create-checkout-session/index.ts:27-31 | The result lies in 0..100. A non-finite or non-positive input gives 1, an input of 100 or more gives 100, and anything between gives its floor. |
| CheckoutSession.WholeQuantityInRange | supabase/functions/create-checkout-session/index.ts:27-31 | A whole number gives 1..100, and a whole number already in 1..100 is kept. |
| CheckoutSession.FractionalQuantityIsZero | supabase/functions/create-checkout-session/index.ts:29-30 | A positive fraction below 1 gives 0, not 1: the guard tests the input before it is floored. |
| ReturnUrls.NormalizeReturnUrl | supabase/functions/create-checkout-session/index.ts:33-50 | A blank value gives the fallback. Any other result is the serialisation of the trimmed candidate, which parses, is http or https, and has the app's origin when a base URL is set. |
| ReturnUrls.RejectedGivesFallback | supabase/functions/create-portal-session/index.ts:13-30 | Every candidate that is not acceptable gives the fallback. |
| ReturnUrls.AcceptedIsKept | supabase/functions/create-portal-session/index.ts:13-30 | Every acceptable candidate is returned as the parsed URL's serialisation. |
| ReturnUrls.DefaultUrl | supabase/functions/create-checkout-session/index.ts:138-139 | With no base URL the fixed production URL is used. Otherwise the result is the base URL, minus one trailing "/", followed by the path. |
| CheckoutSession.DefaultCheckoutUrls | supabase/functions/create-checkout-session/index.ts:138-139 | A base URL of the production site, with or without the trailing slash, gives the same redirects as no base URL. |
| CheckoutSession.Admission | supabase/functions/create-checkout-session/index.ts:53-116 | The answers come in the source's order. OPTIONS gets the preflight answer and other non-POST methods get 405. A POST then gets 500 "Missing Supabase secrets", then 500 "Missing STRIPE_SECRET_KEY", then 401 "Not authenticated" when no user is signed in. The request continues iff none of these apply, and then it continues with that user. |
| CheckoutSession.SelectPrice | supabase/functions/create-checkout-session/index.ts:119-136 | A bad plan or cycle gives 400. A valid pair whose price is unset gives a 500. The request continues iff both are valid and the price is set, and then with that pair. |
| CheckoutSession.PlanCheckedBeforePrices | supabase/functions/create-checkout-session/index.ts:123-131 | An invalid plan or cycle is answered the same whatever prices are configured. |
| CheckoutSession.ValidateCheckout | supabase/functions/create-checkout-session/index.ts:53-141 | The request continues iff admission and price selection both continue, and otherwise it gets the first failing step's answer. A request that continues names a valid plan and cycle. Its price is the configured, non-empty one and its quantity is the normalised one. Each redirect is `normalizeReturnUrl` of the body's URL against the default built from `APP_BASE_URL`. |
| CheckoutSession.EnsureStripeCustomer | supabase/functions/create-checkout-session/index.ts:160-177 | An existing (trimmed) customer id is reused, and no customer is created and the table is unchanged. Otherwise one customer is created with the profile's or account's e-mail and the user id. A non-empty new id is then written to the caller's row only. |
| CheckoutSession.CreateCheckoutSession | supabase/functions/create-checkout-session/index.ts:52-206 | A refused request, or a caller without a profile row, changes nothing and gets the cascade's answer or the 500 "Failed to load profile" message. Otherwise the session carries the validated price, quantity, redirects, user, plan and cycle. When the profile has a customer, the session uses it, nothing is created and nothing is written. Otherwise a customer is created with the profile's or the account's e-mail and the user id. The session uses the new customer's trimmed id, and a non-empty id is written to the caller's row only. |
| CheckoutSession.CustomerEmail | supabase/functions/create-checkout-session/index.ts:164 | No contract of its own. The e-mail a new customer is created with, as `EnsureStripeCustomer` and `CreateCheckoutSession` state it: the profile's e-mail, else the account's, trimmed, and absent when that is "". |
| PortalSession.HandlePortal | supabase/functions/create-portal-session/index.ts:32-121 | OPTIONS, 405, the two secret checks and 401 "Not authenticated" come in the source's order. Then a caller without a row gets "Failed to load profile" and a row without a customer gets 400. The request continues iff none of those apply, and then with the trimmed recorded customer and the normalised return URL. |
| PortalSession.DefaultReturnUrl | supabase/functions/create-portal-session/index.ts:88-90 | No contract of its own. It is `DefaultUrl` for the portal path, whose contract states it. |
| PortalSession.PortalSessionIsSafe | supabase/functions/create-portal-session/index.ts:88-121 | A portal session is opened only for the caller's own recorded customer. Its return URL is the default or an acceptable candidate. |
| PortalSession.MethodCheckedFirst | supabase/functions/create-portal-session/index.ts:33-42 | For any method other than POST the answer depends on nothing else. |
| InviteEmail.CollectMissingAws | supabase/functions/send-invite-email/index.ts:44-47 | The three conditional pushes build exactly `MissingAws`. |
| InviteEmail.MissingAws | supabase/functions/send-invite-email/index.ts:44-47 | No contract of its own. `MissingAwsNamesExactlyTheUnset` and `MissingAwsEmptyIffAllSet` state it: the names of exactly the unset AWS secrets, in the source's order. |
| InviteEmail.MissingAwsNamesExactlyTheUnset | supabase/functions/send-invite-email/index.ts:44-56 | Each SES secret is named in the error iff it is unset, and the names keep their fixed order. |
| InviteEmail.MissingAwsEmptyIffAllSet | supabase/functions/send-invite-email/index.ts:49 | There is no SES error iff all three secrets are set. |
| InviteEmail.EmptyNamesMembership | supabase/functions/send-invite-email/index.ts:44-47 | A name is listed iff some position holds it with an empty value. |
| InviteEmail.NormalizedIsCanonical | supabase/functions/send-invite-email/index.ts:81-84 | The normalised e-mail and role are trimmed and lower-case, and the link and token are trimmed. |
| InviteEmail.NormalizeBody | supabase/functions/send-invite-email/index.ts:81-84 | No contract of its own. `NormalizedIsCanonical`, `NormalizeBodyIdempotent` and `SafeRoleOfBody` state what the normalised fields are. |
| InviteEmail.NormalizeBodyIdempotent | supabase/functions/send-invite-email/index.ts:81-84 | Normalising again keeps the e-mail, link and token. The role changes only when blank, to "user", and its label is unchanged. |
| InviteEmail.CheckInvite | supabase/functions/send-invite-email/index.ts:86-145 | The checks answer in the source's order: 400 for a missing field, 404 for an unknown token, 409 for an invite that is not pending, 400 for an e-mail mismatch, 500 for a missing organisation and 403 for a caller who is not owner or admin. Every stop is a failure. The request continues iff all checks pass, and then with the normalised request, the trimmed organisation and the caller's role. |
| InviteEmail.OnlyOrgAdminsSendInvites | supabase/functions/send-invite-email/index.ts:95-145 | A request that passes has a stored, pending invite for the same address, and the caller holds an owner or admin membership in its organisation. |
| InviteEmail.FieldsCheckedBeforeLookup | supabase/functions/send-invite-email/index.ts:86-91 | A request missing a field is answered the same whatever the tables hold. |
| InviteEmail.SafeRole | supabase/functions/send-invite-email/index.ts:157 | The label is "Admin" iff the role is "admin", and "User" otherwise. |
| InviteEmail.SafeRoleOfBody | supabase/functions/send-invite-email/index.ts:84-157 | The body's role is shown as "Admin" iff it trims and lower-cases to "admin". A missing role reads "User". |
| InviteEmail.FirstAngleMatch | supabase/functions/send-invite-email/index.ts:153 | `/<([^>]+)>/.exec` finds a match at the position it returns and none before it. No result means there is no match anywhere. |
| InviteEmail.FromEmailBare | supabase/functions/send-invite-email/index.ts:151-155 | A sender without "<" is used trimmed. |
| InviteEmail.FromEmailNamed | supabase/functions/send-invite-email/index.ts:151-155 | `Name <address>` sends from the trimmed address. |
| InviteEmail.FromEmail | supabase/functions/send-invite-email/index.ts:151-155 | No contract of its own. `FromEmailBare` and `FromEmailNamed` state it, on top of `FirstAngleMatch`: a bare sender is used trimmed, and `Name <address>` gives the trimmed address. |
| InviteEmail.EffectiveLinkWithoutAppUrl | supabase/functions/send-invite-email/index.ts:158 | Without an app URL the link is sent as given. |
| InviteEmail.EffectiveLink | supabase/functions/send-invite-email/index.ts:158 | No contract of its own. Its behaviour is stated by the four `EffectiveLink...` lemmas: kept without an app URL, kept without an `http(s)://` prefix or without a host, otherwise rewritten to the app URL plus the path. |
| InviteEmail.EffectiveLinkWithoutOrigin | supabase/functions/send-invite-email/index.ts:158 | A link with no prefix matching `https?://` case-insensitively is kept. |
| InviteEmail.EffectiveLinkWithoutHost | supabase/functions/send-invite-email/index.ts:158 | An `http(s)://` scheme in any letter case, followed directly by "/" or by nothing, has no host to replace, so the link is kept. |
| InviteEmail.EffectiveLinkRewritesOrigin | supabase/functions/send-invite-email/index.ts:158 | `http(s)://host/path`, with the scheme in any letter case, becomes the app URL followed by the same path. |
| InviteEmail.InviteMail | supabase/functions/send-invite-email/index.ts:160-168 | The handler's HTML interpolates the role label once and the effective link twice, neither escaped. |
| InviteEmail.InviteMailRender | supabase/functions/send-invite-email/index.ts:160-168 | That HTML reads: the opening text, the label, the text up to `href="`, the link, `">`, the link, and the closing text. |
| InviteEmail.PrepareInvite | supabase/functions/send-invite-email/index.ts:17-168 | The answers come in the source's order: OPTIONS, the two Supabase secret errors, the SES error listing the unset names joined by ", ", 401, then the invite checks. A request that passes all of them continues with the composed message. No stop is a success. |
| InviteEmail.ComposeMail | supabase/functions/send-invite-email/index.ts:147-188 | No contract of its own. `PrepareInvite` states the message it builds: the sender from `FromEmail` of the configured or default sender, the normalised recipient, the configured or default subject, and the handler's HTML with the safe role and the effective link. |
| InviteEmail.InviteResponse | supabase/functions/send-invite-email/index.ts:178-203 | The answer is 200 iff every check passes and SES accepts the mail. If SES refuses it, the answer is 502 "Failed to send". An earlier refusal is passed through. |
| InviteEmail.SuccessOnlyForAdmins | supabase/functions/send-invite-email/index.ts:95-203 | A 200 means a signed-in caller passed every check. The mail went to the invite's stored address, with the role label and the effective link as its only values. |
| InviteEmail.HandleInvite | supabase/functions/send-invite-email/index.ts:17-203 | The handler, with the SES list built by the pushes, answers exactly as `InviteResponse`. |
| EmailTemplates.EscChar | supabase/functions/_shared/email-templates.ts:7-12 | Each special character's entity starts with "&" and is safe, and every other character stays itself. |
| EmailTemplates.EscIsEscapeEach | supabase/functions/_shared/email-templates.ts:7-12 | The chain of five replaces, `&` first, escapes each character exactly once, like the one-pass reference escaper. |
| EmailTemplates.Esc | supabase/functions/_shared/email-templates.ts:7-12 | No contract of its own. `EscIsEscapeEach`, `EscIsSafe`, `EscRoundTrip`, `EscKeepsPlainText` and `EscAppend` state it. |
| EmailTemplates.EscAppend | supabase/functions/_shared/email-templates.ts:7-12 | Escaping distributes over concatenation. |
| EmailTemplates.EscIsSafe | supabase/functions/_shared/email-templates.ts:7-12 | Escaped text contains no `<`, `>`, `"` or `'`. |
| EmailTemplates.EscKeepsPlainText | supabase/functions/_shared/email-templates.ts:7-12 | Text without special characters is returned unchanged. |
| EmailTemplates.EscRoundTrip | supabase/functions/_shared/email-templates.ts:7-12 | Decoding the five entities gives back the original text. |
| EmailTemplates.EscOne | supabase/functions/_shared/email-templates.ts:8-12 | One character becomes its own entity: no entity is escaped twice. |
| EmailTemplates.CardRender | supabase/functions/_shared/email-templates.ts:14-29 | `appCard` renders as the frame with the title, the subtitle and the rendered body interpolated, whatever the fragments read. |
| EmailTemplates.NameOr | supabase/functions/_shared/email-templates.ts:66 | A non-blank name is trimmed. A blank one gives the default. |
| EmailTemplates.RoleLabel | supabase/functions/_shared/email-templates.ts:38 | The label is "Admin" iff the role is exactly "Admin", and "User" otherwise. It is safe in HTML. |
| EmailTemplates.RenderInvite | supabase/functions/_shared/email-templates.ts:31-60 | The subject defaults to the invitation line. The HTML interpolates the escaped inviter (default "A team member"), the label and the escaped link three times. The text interpolates them unescaped. |
| EmailTemplates.InviteHtmlIsSafe | supabase/functions/_shared/email-templates.ts:37-55 | Every value in the invitation HTML is safe. |
| EmailTemplates.RenderWelcome | supabase/functions/_shared/email-templates.ts:62-85 | The subject is fixed. The HTML interpolates the escaped trimmed name (default "there") and the escaped login URL (default the login page). The text interpolates the raw name or "there" and the raw URL. |
| EmailTemplates.WelcomeHtmlIsSafe | supabase/functions/_shared/email-templates.ts:66-81 | Every value in the welcome HTML is safe. |
| EmailTemplates.RenderConfirmation | supabase/functions/_shared/email-templates.ts:87-111 | The subject is fixed. The HTML interpolates the escaped name and the escaped confirmation URL three times, and the text interpolates them raw. |
| EmailTemplates.ConfirmationHtmlIsSafe | supabase/functions/_shared/email-templates.ts:91-107 | Every value in the confirmation HTML is safe. |
| EmailTemplates.RenderInviteAccepted | supabase/functions/_shared/email-templates.ts:113-142 | The subject names the new member by name, else e-mail, else "A user". The HTML values are the five escaped names and URL with their defaults, and the text values are raw. |
| EmailTemplates.InviteAcceptedHtmlIsSafe | supabase/functions/_shared/email-templates.ts:120-138 | Every value in the acceptance HTML is safe. |
| Templating.SpliceRender | supabase/functions/_shared/email-templates.ts:14-22 | Splicing a template between fixed texts renders as interpolating its rendering there. |

## Left out

- Text.Lower: only ASCII letters are lower-cased. JavaScript's `toLowerCase` folds all of Unicode, so non-ASCII case differences (in e-mails, statuses and roles) are not modelled.
- CheckoutSession.NormalizeQuantity: `Number(value)` is a real number or `NonFinite`. The conversion of strings, booleans and objects to numbers, and floating-point rounding, are not modelled.
- ReturnUrls.NormalizeReturnUrl: WHATWG URL parsing is a parameter (`UrlParser`), not a model of the URL standard.
- StripeWebhook.SubscriptionChangeWrites: the period end is stored as the epoch seconds. The `new Date(...).toISOString()` conversion is left out.
- StripeWebhook.PriceRoundTrip: this holds only for price ids that are distinct, non-empty and without surrounding whitespace. The webhook trims the incoming id but not the configured ones.
- StripeWebhook.FindUserIdFromSubscription: a customer or metadata field that is an object, not a string, is not modelled. Every field is a string.
- Profiles.MaybeSingle: several matching rows are treated as no row. The database error this produces is not modelled further.
- InviteEmail.CheckInvite: the invites table is keyed by token, so `.single()` meeting two rows with one token cannot occur in the model.
- InviteEmail.PrepareInvite: only OPTIONS is special-cased, as in the source. A GET then fails when its body is parsed, which falls under the catch-all below.
- InviteEmail.InviteMail: the effective link goes into the handler's own HTML without escaping, exactly as the source writes it. The model records this but does not claim it is a defect.
- InviteEmail.EffectiveLink: `String.replace` with an app URL containing `$` patterns is not modelled. The app URL is inserted literally.
- The outer `catch` of every handler is not modelled. It covers the 500 with the exception's message for malformed JSON and for a Stripe call that throws (customer creation, checkout or portal session creation). A JSON `null`, number or string body does not throw: every field is read through `body?.`, so it behaves as a body with every field absent, which is what the model does.
- Table writes and the profile lookup by customer always succeed in the model. The source ignores the `{ error }` of every `.update(...)` (stripe-webhook/index.ts:91-94, 161-170, 187-199, 206-209 and 218-221; create-checkout-session/index.ts:172-175) and of the lookup at stripe-webhook/index.ts:57-62. So a failed write still answers 200 there, and in checkout the session opens with a customer id that was never recorded. A failed lookup reads as no profile.
- The Stripe, SES and Supabase clients are not modelled. Their results are inputs: the signed-in user, table contents, the verified event, the created customer id and whether the mail was sent.
- The JSON encoding of responses, the CORS headers, the content of 200 bodies (session URL, SES result) and the 502 `detail` field are not modelled. A response is its status and error message.
- The Stripe `apiVersion`, `mode: "subscription"` and `allow_promotion_codes` constants, and the metadata attached to the Stripe session, are fixed arguments and are not modelled. The session's user, plan and cycle are.
- EmailTemplates.RenderInvite, and likewise the other three renderers: the renderers' type-level restrictions (`role: "Admin" | "User"`, optional fields) are not enforced. Any string may be passed, and an absent field is "".
