/** The background colour of an order's status badge. */
module StatusColour {

  const Green: string := "#4CAF50"
  const Orange: string := "#FF9800"
  const Blue: string := "#2196F3"

  /** Total over all strings: the two recognised statuses get their own colour, any other one blue. */
  function StatusColour(status: string): (c: string)
    ensures c == Green || c == Orange || c == Blue
    ensures c == Green <==> status == "delivered"
    ensures c == Orange <==> status == "preparing"
    ensures c == Blue <==> status != "delivered" && status != "preparing"
  {
    if status == "delivered" then Green
    else if status == "preparing" then Orange
    else Blue
  }
}
