/** The subscription plan table (src/lib/plans.ts), keyed by plan key. */
module Plans {
  import opened Wrappers

  /** The monthly limits of a plan; -1 stands for unlimited. */
  datatype Limits = Limits(qrCodesPerMonth: int, aiRequestsPerMonth: int, customColors: int, logoUpload: bool)

  /** A plan entry. Prices and feature texts are left out: the prices are
      floating-point amounts and the features are display text. */
  datatype Plan = Plan(
    id: string,
    name: string,
    interval: Option<string>,
    stripePriceId: Option<string>,
    limits: Limits)

  const Free: Plan := Plan("free", "Free", None, None, Limits(10, 0, 1, false))

  const PremiumMonthly: Plan :=
    Plan("premium_monthly", "Premium Monthly", Some("month"), Some("price_premium_monthly"), Limits(-1, 100, -1, true))

  const PremiumYearly: Plan :=
    Plan("premium_yearly", "Premium Yearly", Some("year"), Some("price_premium_yearly"), Limits(-1, 100, -1, true))

  /** `PLANS`. */
  const Table: map<string, Plan> := map[
    "FREE" := Free,
    "PREMIUM_MONTHLY" := PremiumMonthly,
    "PREMIUM_YEARLY" := PremiumYearly]
}
