/** Plan names and the server's per-plan letter quota. Plans are free-form
    strings in the code base (the client may store any string); these are
    the three the server knows. */
module Plans {

  const FREE_PLAN: string := "Free Plan"
  const BASIC_PLAN: string := "Basic Plan"
  const PREMIUM_PLAN: string := "Premium Plan"

  /** `getLetterCountForPlan`: Basic 20, Premium 40, and 5 for the Free Plan
      and for every name the server does not know. */
  function LetterCountForPlan(plan: string): (n: int)
    ensures n > 0
    ensures plan != BASIC_PLAN && plan != PREMIUM_PLAN ==> n == 5
    ensures n == 20 <==> plan == BASIC_PLAN
    ensures n == 40 <==> plan == PREMIUM_PLAN
  {
    match plan
    case "Basic Plan" => 20
    case "Premium Plan" => 40
    case _ => 5
  }
}
