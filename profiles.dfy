/**
 * The `profiles` table as the handlers see it: one row per user id, the
 * billing columns they read and write, and Supabase's
 * `.update(payload).eq(column, value)` as the one way rows change.
 */
module Profiles {
  import opened Wrappers

  type UserId = string

  /**
   * A profile row. Nullable columns are `Option`s. `currentPeriodEnd` holds
   * the epoch seconds that the stored ISO timestamp encodes.
   */
  datatype Profile = Profile(
    email: Option<string>,
    stripeCustomerId: Option<string>,
    stripeSubscriptionId: Option<string>,
    stripePriceId: Option<string>,
    billingStatus: Option<string>,
    billingCycle: Option<string>,
    cancelAtPeriodEnd: Option<bool>,
    subscriptionTier: Option<string>,
    currentPeriodEnd: Option<int>)

  /** One column of an update payload: absent from the payload, or written. */
  datatype Write<T> = Keep | Put(value: T)

  function Written<T>(w: Write<T>, was: T): T {
    match w
    case Keep => was
    case Put(v) => v
  }

  /** An update payload: the columns it names and the values it writes. */
  datatype Patch = Patch(
    stripeCustomerId: Write<Option<string>>,
    stripeSubscriptionId: Write<Option<string>>,
    stripePriceId: Write<Option<string>>,
    billingStatus: Write<Option<string>>,
    billingCycle: Write<Option<string>>,
    cancelAtPeriodEnd: Write<Option<bool>>,
    subscriptionTier: Write<Option<string>>,
    currentPeriodEnd: Write<Option<int>>)

  const EmptyPatch := Patch(Keep, Keep, Keep, Keep, Keep, Keep, Keep, Keep)

  function ApplyPatch(p: Profile, w: Patch): Profile {
    Profile(
      p.email,
      Written(w.stripeCustomerId, p.stripeCustomerId),
      Written(w.stripeSubscriptionId, p.stripeSubscriptionId),
      Written(w.stripePriceId, p.stripePriceId),
      Written(w.billingStatus, p.billingStatus),
      Written(w.billingCycle, p.billingCycle),
      Written(w.cancelAtPeriodEnd, p.cancelAtPeriodEnd),
      Written(w.subscriptionTier, p.subscriptionTier),
      Written(w.currentPeriodEnd, p.currentPeriodEnd))
  }

  /** A payload that writes every billing column, the tier perhaps excepted. */
  lemma ApplyWritingPatch(was: Profile, customer: Option<string>, subscription: Option<string>, price: Option<string>,
                          status: Option<string>, cycle: Option<string>, cancel: Option<bool>,
                          tier: Write<Option<string>>, periodEnd: Option<int>)
    ensures ApplyPatch(was, Patch(Put(customer), Put(subscription), Put(price), Put(status), Put(cycle), Put(cancel), tier, Put(periodEnd)))
         == was.(stripeCustomerId := customer, stripeSubscriptionId := subscription, stripePriceId := price,
                 billingStatus := status, billingCycle := cycle, cancelAtPeriodEnd := cancel,
                 subscriptionTier := Written(tier, was.subscriptionTier), currentPeriodEnd := periodEnd)
  {
  }

  /** `String(x || "").trim() || null`, for a value already trimmed. */
  function NullIfEmpty(s: string): (r: Option<string>)
    ensures r.Some? ==> r.value == s && s != ""
  {
    if s == "" then None else Some(s)
  }

  /** `String(column || "")` for a nullable text column. */
  function OrEmpty(o: Option<string>): string {
    o.GetOr("")
  }

  /** `.update(w).eq("id", id)`: the row keyed `id`, if there is one. */
  function UpdatedById(rows: map<UserId, Profile>, id: UserId, w: Patch): (r: map<UserId, Profile>)
    ensures r.Keys == rows.Keys
    ensures forall k :: k in rows ==> r[k] == if k == id then ApplyPatch(rows[k], w) else rows[k]
  {
    if id in rows then rows[id := ApplyPatch(rows[id], w)] else rows
  }

  /** `.update(w).eq("stripe_customer_id", c)`: every row with that customer id. */
  function UpdatedByCustomer(rows: map<UserId, Profile>, c: string, w: Patch): (r: map<UserId, Profile>)
    ensures r.Keys == rows.Keys
    ensures forall k :: k in rows ==> r[k] == if rows[k].stripeCustomerId == Some(c) then ApplyPatch(rows[k], w) else rows[k]
  {
    map id | id in rows :: if rows[id].stripeCustomerId == Some(c) then ApplyPatch(rows[id], w) else rows[id]
  }

  function IdsWithCustomer(rows: map<UserId, Profile>, c: string): (ids: set<UserId>)
    ensures forall id :: id in ids <==> id in rows && rows[id].stripeCustomerId == Some(c)
  {
    set id | id in rows && rows[id].stripeCustomerId == Some(c)
  }

  lemma SingletonUnique(s: set<UserId>)
    requires |s| == 1
    ensures forall a, b :: a in s && b in s ==> a == b
  {
    forall a, b | a in s && b in s ensures a == b {
      assert |s - {a}| == 0;
      assert b !in s - {a};
    }
  }

  /**
   * `.maybeSingle()`: the one matching id; with no match or with several
   * (which PostgREST reports as an error) there is no row.
   */
  function MaybeSingle(ids: set<UserId>): (r: Option<UserId>)
    ensures r.Some? <==> |ids| == 1
    ensures r.Some? ==> ids == {r.value}
    ensures forall id :: ids == {id} ==> r == Some(id)
  {
    if |ids| == 1 then
      SingletonUnique(ids);
      var id :| id in ids; Some(id)
    else None
  }

  /** The table itself, updated in place by the webhook and the checkout handler. */
  class ProfileTable {
    var rows: map<UserId, Profile>

    constructor (initial: map<UserId, Profile>)
      ensures rows == initial
    {
      rows := initial;
    }

    method UpdateById(id: UserId, w: Patch)
      modifies this
      ensures rows == UpdatedById(old(rows), id, w)
    {
      rows := UpdatedById(rows, id, w);
    }

    method UpdateByCustomer(c: string, w: Patch)
      modifies this
      ensures rows == UpdatedByCustomer(old(rows), c, w)
    {
      rows := UpdatedByCustomer(rows, c, w);
    }
  }
}
