/** The check of a currency code against the supported currencies. */
module Currency {

  const ZAR: string := "ZAR"

  /** Every currency the application supports. */
  const SupportedCurrencies: set<string> := {ZAR}

  /** A `switch` with one case: exact, case-sensitive comparison with "ZAR". */
  function IsSupportedCurrency(currency: string): (r: bool)
    ensures r <==> currency in SupportedCurrencies
  {
    if currency == ZAR then true else false
  }

  lemma ZarIsSupported()
    ensures IsSupportedCurrency("ZAR")
  {
  }

  lemma OnlyZarIsSupported(currency: string)
    requires currency != ZAR
    ensures !IsSupportedCurrency(currency)
  {
  }

  /** No case folding and no trimming. */
  lemma MatchIsExact()
    ensures !IsSupportedCurrency("zar") && !IsSupportedCurrency("Zar")
    ensures !IsSupportedCurrency("ZAR ") && !IsSupportedCurrency(" ZAR")
    ensures !IsSupportedCurrency("")
  {
  }
}
