/** A reagent used by a service. */
module Reagent {
  import opened Primitives

  datatype Reagent = Reagent(name: string, lotNumber: CV, expirationDate: Tm)

  /**
   * Reagent(): no name and an empty lot number. The expiration date is left
   * uninitialised by the C++ constructor, so the caller supplies it here.
   */
  function Default(expirationDate: Tm): (r: Reagent)
    ensures r.name == ""
    ensures r.lotNumber == WithCode("")
    ensures r.expirationDate == expirationDate
  {
    Reagent("", WithCode(""), expirationDate)
  }
}
