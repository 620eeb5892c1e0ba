/** The user-facing texts composed by `placeOrder`. */
module Messages {
  import opened AppTypes

  const FailurePrefix: string := "Failed to place order: "
  const AlertPrefix: string := "Order placed successfully at "
  const AlertSuffix: string := "!"

  /** JavaScript `serverError || fallback`, where the server's error field is either absent
      (`None`: no response, no data, or no `error` field) or a string; the empty string is falsy. */
  function OrElse(serverError: Option<string>, fallback: string): (m: string)
    ensures serverError.Some? && serverError.value != "" ==> m == serverError.value
    ensures serverError == None || serverError == Some("") ==> m == fallback
  {
    match serverError
    case Some(e) => if e != "" then e else fallback
    case None => fallback
  }

  /** The banner text set when the create request throws. */
  function FailureMessage(serverError: Option<string>, message: string): (m: string)
    ensures |m| >= |FailurePrefix| && m[..|FailurePrefix|] == FailurePrefix
    ensures m[|FailurePrefix|..] == OrElse(serverError, message)
  {
    FailurePrefix + OrElse(serverError, message)
  }

  /** Two failure banners are equal exactly when they give the same reason. */
  lemma {:induction false} FailureMessageInjective(e1: Option<string>, m1: string, e2: Option<string>, m2: string)
    ensures FailureMessage(e1, m1) == FailureMessage(e2, m2) <==> OrElse(e1, m1) == OrElse(e2, m2)
  {
    var b1, b2 := FailureMessage(e1, m1), FailureMessage(e2, m2);
    if b1 == b2 {
      assert OrElse(e1, m1) == b1[|FailurePrefix|..] == b2[|FailurePrefix|..] == OrElse(e2, m2);
    }
  }

  /** The alert text shown after a successful create. */
  function SuccessAlert(restaurantName: string): (m: string)
    ensures |m| == |AlertPrefix| + |restaurantName| + |AlertSuffix|
    ensures m[..|AlertPrefix|] == AlertPrefix
    ensures m[|AlertPrefix|..|AlertPrefix| + |restaurantName|] == restaurantName
    ensures m[|m| - |AlertSuffix|..] == AlertSuffix
  {
    AlertPrefix + restaurantName + AlertSuffix
  }
}
