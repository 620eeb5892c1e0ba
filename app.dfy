/** The App component as an object whose handlers update its state in place. Each handler is
    one event: the synchronous part of `placeOrder`, one of the ways its POST ends, or one of the
    ways a `loadOrders` GET ends. The backend calls themselves are not performed: a call is recorded
    in `requests`, and its outcome arrives later as another handler call. */
module AppComponent {
  import opened AppTypes
  import opened OrderRequest
  import opened Messages
  import Controller
  import StatusColour

  class App {
    var orders: seq<Order>
    var loading: bool
    var error: Option<string>
    var requests: seq<Request>
    var alerts: seq<string>

    function State(): Controller.AppState
      reads this
    {
      Controller.AppState(orders, loading, error, requests, alerts)
    }

    ghost predicate Valid()
      reads this
    {
      Controller.Consistent(State())
    }

    /** Mounting: the initial state plus the startup effect, which starts one history fetch. */
    constructor ()
      ensures Valid()
      ensures State() == Controller.Initial()
      ensures orders == [] && !loading && error == None && alerts == []
      ensures requests == [FetchOrders(UserId)]
    {
      orders := [];
      loading := false;
      error := None;
      alerts := [];
      requests := [FetchOrders(UserId)];
    }

    /** `placeOrder` up to its `await`: raise `loading`, clear the banner, post the payload. */
    method StartSubmit(restaurantId: int)
      requires Valid()
      modifies this
      ensures Valid()
      ensures State() == Controller.Step(old(State()), Controller.StartSubmit(restaurantId))
      ensures loading && error == None
      ensures requests == old(requests) + [CreateOrder(BuildPayload(restaurantId))]
      ensures orders == old(orders) && alerts == old(alerts)
    {
      loading := true;
      error := None;
      var payload := BuildPayload(restaurantId);
      requests := requests + [CreateOrder(payload)];
      Controller.StepPreservesConsistent(old(State()), Controller.StartSubmit(restaurantId));
    }

    /** The POST answered. A truthy `success` alerts and starts a refresh without waiting for it;
        a falsy one does nothing more. Either way `finally` lowers `loading`. */
    method CreateResponded(success: bool, restaurantName: string)
      requires Valid()
      modifies this
      ensures Valid()
      ensures State() == Controller.Step(old(State()), Controller.CreateResponded(success, restaurantName))
      ensures !loading && error == old(error) && orders == old(orders)
      ensures requests == old(requests) + (if success then [FetchOrders(UserId)] else [])
      ensures alerts == old(alerts) + (if success then [SuccessAlert(restaurantName)] else [])
    {
      if success {
        alerts := alerts + [SuccessAlert(restaurantName)];
        requests := requests + [FetchOrders(UserId)];
      }
      loading := false;
      Controller.StepPreservesConsistent(old(State()), Controller.CreateResponded(success, restaurantName));
    }

    /** The POST threw (transport failure or a non-success HTTP status): compose the banner from the
        server's `error` field, or the transport message when that is absent or empty. */
    method CreateThrew(serverError: Option<string>, message: string)
      requires Valid()
      modifies this
      ensures Valid()
      ensures State() == Controller.Step(old(State()), Controller.CreateThrew(serverError, message))
      ensures !loading && error == Some(FailureMessage(serverError, message))
      ensures orders == old(orders) && requests == old(requests) && alerts == old(alerts)
    {
      var errorMessage := OrElse(serverError, message);
      error := Some(FailurePrefix + errorMessage);
      loading := false;
      Controller.StepPreservesConsistent(old(State()), Controller.CreateThrew(serverError, message));
    }

    /** A history GET answered: the list replaces `orders` wholesale. */
    method RefreshSucceeded(list: seq<Order>)
      requires Valid()
      modifies this
      ensures Valid()
      ensures State() == Controller.Step(old(State()), Controller.RefreshSucceeded(list))
      ensures orders == list
      ensures loading == old(loading) && error == old(error)
      ensures requests == old(requests) && alerts == old(alerts)
    {
      orders := list;
    }

    /** A history GET failed: the error is only logged, so nothing changes. */
    method RefreshFailed()
      requires Valid()
      ensures State() == old(State())
      ensures State() == Controller.Step(old(State()), Controller.RefreshFailed)
    {
    }
  }

  /** Scenario: a successful order at restaurant 2, then its refresh returning one order. */
  method OrderAtBurgerBarn(placed: Order)
    requires placed.status == "preparing"
  {
    var app := new App();
    app.RefreshFailed();
    assert app.orders == [];
    app.StartSubmit(2);
    assert app.loading;
    app.CreateResponded(true, "Burger Barn");
    assert !app.loading && app.error == None;
    assert app.alerts == [SuccessAlert("Burger Barn")];
    assert app.requests == [FetchOrders(1), CreateOrder(BuildPayload(2)), FetchOrders(1)];
    app.RefreshSucceeded([placed]);
    assert app.orders == [placed];
    assert StatusColour.StatusColour(app.orders[0].status) == StatusColour.Orange;
  }
}
