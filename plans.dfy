/**
 * The two axes of a paid subscription and the four configured price ids
 * (the `STRIPE_*_PRICE_ID` environment variables, "" when unset).
 */
module Plans {

  datatype Plan = Standard | Pro
  datatype Cycle = Monthly | Yearly

  function PlanName(p: Plan): string {
    match p
    case Standard => "standard"
    case Pro => "pro"
  }

  function CycleName(c: Cycle): string {
    match c
    case Monthly => "monthly"
    case Yearly => "yearly"
  }

  datatype PriceConfig = PriceConfig(
    standardMonthly: string,
    standardYearly: string,
    proMonthly: string,
    proYearly: string)

  /** The checkout handler's `priceMap[plan][billingCycle]`. */
  function PriceFor(cfg: PriceConfig, p: Plan, c: Cycle): string {
    match (p, c)
    case (Standard, Monthly) => cfg.standardMonthly
    case (Standard, Yearly) => cfg.standardYearly
    case (Pro, Monthly) => cfg.proMonthly
    case (Pro, Yearly) => cfg.proYearly
  }
}
