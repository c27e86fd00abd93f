/** The descriptive label api.php gives a cluster row from the cluster's
    average income and average lifetime spend. */
module ApiLabel {

  /** The elseif chain: the first test that holds sets the label, and the
      initial "Standard Customer" stays when none does. Each label is
      characterised by the tests that must hold and fail for it. */
  function DescriptiveLabel(avgIncome: real, avgSpend: real): (r: string)
    ensures r == "High-Spenders" <==> avgSpend > 30000.0
    ensures r == "Frugal High-Earners"
            <==> avgSpend <= 30000.0 && avgIncome > 70000.0 && avgSpend < 10000.0
    ensures r == "Budget-Conscious"
            <==> avgSpend < 5000.0 && !(avgIncome > 70000.0 && avgSpend < 10000.0)
    ensures r == "Standard Customer"
            <==> 5000.0 <= avgSpend <= 30000.0 && !(avgIncome > 70000.0 && avgSpend < 10000.0)
  {
    if avgSpend > 30000.0 then "High-Spenders"
    else if avgIncome > 70000.0 && avgSpend < 10000.0 then "Frugal High-Earners"
    else if avgSpend < 5000.0 then "Budget-Conscious"
    else "Standard Customer"
  }

  const Labels: set<string> :=
    {"High-Spenders", "Frugal High-Earners", "Budget-Conscious", "Standard Customer"}

  /** Every row gets exactly one of the four labels. */
  lemma LabelIsOneOfFour(avgIncome: real, avgSpend: real)
    ensures DescriptiveLabel(avgIncome, avgSpend) in Labels
  {
  }

  /** A high earner who spends under 5000 is labelled frugal, not budget:
      the frugal test comes first. */
  lemma FrugalShadowsBudget(avgIncome: real, avgSpend: real)
    requires avgIncome > 70000.0 && avgSpend < 5000.0
    ensures DescriptiveLabel(avgIncome, avgSpend) == "Frugal High-Earners"
  {
  }

  /** Spending alone decides "High-Spenders", whatever the income. */
  lemma HighSpendIgnoresIncome(avgIncome: real, avgIncome': real, avgSpend: real)
    requires avgSpend > 30000.0
    ensures DescriptiveLabel(avgIncome, avgSpend) == DescriptiveLabel(avgIncome', avgSpend)
  {
  }
}
