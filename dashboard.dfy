/**
 * The dashboard screen's state and its handlers. Every awaited backend call is
 * replaced by a parameter that carries what it returned or threw; each handler
 * runs from start to finish on the state it finds.
 */
module Dashboard {
  import opened Wrappers
  import opened Orders
  import opened OrderList

  datatype Restaurant = Restaurant(id: string, name: string)

  datatype User = User(name: string)

  /** What the profile query returns: the identity record and the vendor's restaurants. */
  datatype Profile = Profile(user: Option<User>, restaurants: seq<Restaurant>)

  /** Which branch of the profile load ran (each of the last two raises its own alert). */
  datatype ProfileOutcome = RestaurantSelected | NoRestaurants | ProfileFailed

  /** A status change sent to the order mutation client. */
  datatype Mutation =
    | Accept(orderId: Value, preparationMinutes: nat)
    | Reject(orderId: Value, reason: string)

  /** The preparation time the accept action always sends. */
  const PreparationMinutes: nat := 20

  /** The reason the reject action always sends. */
  const RejectReason := "No disponible"

  class DashboardScreen {
    var restaurant: Option<Restaurant>
    var orders: seq<Order>
    var loading: bool
    var refreshing: bool
    var selectedOrder: Option<Order>

    /** The initial state of the five state hooks. */
    constructor ()
      ensures restaurant == None && orders == [] && selectedOrder == None
      ensures loading && !refreshing
    {
      restaurant := None;
      orders := [];
      loading := true;
      refreshing := false;
      selectedOrder := None;
    }

    /** `loadProfile`: select the vendor's first restaurant; stop the loading screen whatever happens. */
    method LoadProfile(fetched: Result<Profile>) returns (outcome: ProfileOutcome)
      modifies this`restaurant, this`loading
      ensures !loading
      ensures outcome == RestaurantSelected <==>
                fetched.Ok? && fetched.value.user.Some? && |fetched.value.restaurants| > 0
      ensures outcome == NoRestaurants <==>
                fetched.Ok? && fetched.value.user.Some? && fetched.value.restaurants == []
      ensures restaurant == if outcome == RestaurantSelected then Some(fetched.value.restaurants[0])
                            else old(restaurant)
    {
      if fetched.Err? {
        // the awaited query threw
        outcome := ProfileFailed;
      } else if fetched.value.user.None? {
        // reading the user's name for the log throws on a null user
        outcome := ProfileFailed;
      } else if |fetched.value.restaurants| > 0 {
        restaurant := Some(fetched.value.restaurants[0]);
        outcome := RestaurantSelected;
      } else {
        outcome := NoRestaurants;
      }
      // finally
      loading := false;
    }

    /**
     * `loadOrders`: without a restaurant, return at once; otherwise ask for the
     * restaurant's active orders, replace the list on success, keep it on
     * failure, and end the refresh either way. `requested` is the restaurant id
     * the query was sent for.
     */
    method LoadOrders(fetched: Result<seq<Order>>) returns (requested: Option<string>)
      modifies this`orders, this`refreshing
      ensures requested == if restaurant.Some? then Some(restaurant.value.id) else None
      ensures requested.None? ==> orders == old(orders) && refreshing == old(refreshing)
      ensures requested.Some? ==> !refreshing
      ensures requested.Some? ==> orders == if fetched.Ok? then fetched.value else old(orders)
    {
      if restaurant.None? {
        requested := None;
        return;
      }
      requested := Some(restaurant.value.id);
      if fetched.Ok? {
        orders := fetched.value;
      }
      // finally
      refreshing := false;
    }

    /** Pull to refresh: raise the spinner, then `loadOrders`. Without a restaurant the spinner stays up. */
    method Refresh(fetched: Result<seq<Order>>) returns (requested: Option<string>)
      modifies this`orders, this`refreshing
      ensures requested == if restaurant.Some? then Some(restaurant.value.id) else None
      ensures requested.None? ==> orders == old(orders) && refreshing
      ensures requested.Some? ==> !refreshing
      ensures requested.Some? ==> orders == if fetched.Ok? then fetched.value else old(orders)
    {
      refreshing := true;
      requested := LoadOrders(fetched);
    }

    /** Pull to refresh as evidently intended: the spinner comes down in every outcome. */
    method RefreshSettled(fetched: Result<seq<Order>>) returns (requested: Option<string>)
      modifies this`orders, this`refreshing
      ensures !refreshing
      ensures requested == if restaurant.Some? then Some(restaurant.value.id) else None
      ensures orders == if requested.Some? && fetched.Ok? then fetched.value else old(orders)
    {
      refreshing := true;
      requested := LoadOrders(fetched);
      if requested.None? {
        refreshing := false;
      }
    }

    /** The insert feed's callback: put the new order in front of the list. */
    method OnNewOrder(newOrder: Order)
      modifies this`orders
      ensures orders == Prepend(old(orders), newOrder)
    {
      orders := Prepend(orders, newOrder);
    }

    /** The update feed's callback: spread the update into the order with its id. The open detail is not touched. */
    method OnOrderUpdate(updated: Order)
      modifies this`orders
      ensures orders == ApplyUpdate(old(orders), updated)
    {
      orders := ApplyUpdate(orders, updated);
    }

    /** Tapping an order (or "Ver" on a new-order alert) opens the detail on that order's current value. */
    method SelectOrder(o: Order)
      modifies this`selectedOrder
      ensures selectedOrder == Some(o)
    {
      selectedOrder := Some(o);
    }

    /** Closing the detail. */
    method CloseDetail()
      modifies this`selectedOrder
      ensures selectedOrder == None
    {
      selectedOrder := None;
    }

    /**
     * `handleAcceptOrder`: send ACCEPTED with a 20-minute preparation time; on
     * success close the detail and reload the list, on failure change nothing.
     */
    method HandleAcceptOrder(orderId: Value, sent: Result<()>, reload: Result<seq<Order>>)
      returns (call: Mutation, requested: Option<string>)
      modifies this`orders, this`refreshing, this`selectedOrder
      ensures call == Accept(orderId, PreparationMinutes)
      ensures sent.Err? ==> requested.None? && orders == old(orders) && refreshing == old(refreshing)
      ensures sent.Err? ==> selectedOrder == old(selectedOrder)
      ensures sent.Ok? ==> selectedOrder == None
      ensures sent.Ok? ==> requested == if restaurant.Some? then Some(restaurant.value.id) else None
      ensures sent.Ok? && requested.None? ==> orders == old(orders) && refreshing == old(refreshing)
      ensures sent.Ok? && requested.Some? ==> !refreshing
      ensures sent.Ok? && requested.Some? ==> orders == if reload.Ok? then reload.value else old(orders)
    {
      call := Accept(orderId, PreparationMinutes);
      requested := None;
      if sent.Ok? {
        selectedOrder := None;
        requested := LoadOrders(reload);
      }
    }

    /**
     * `handleRejectOrder`: after the confirmation dialog, send CANCELLED with
     * the fixed reason; on success close the detail and reload the list.
     * Dismissing the dialog sends nothing.
     */
    method HandleRejectOrder(orderId: Value, confirmed: bool, sent: Result<()>, reload: Result<seq<Order>>)
      returns (call: Option<Mutation>, requested: Option<string>)
      modifies this`orders, this`refreshing, this`selectedOrder
      ensures call == if confirmed then Some(Reject(orderId, RejectReason)) else None
      ensures !confirmed || sent.Err? ==> requested.None? && orders == old(orders) && refreshing == old(refreshing)
      ensures !confirmed || sent.Err? ==> selectedOrder == old(selectedOrder)
      ensures confirmed && sent.Ok? ==> selectedOrder == None
      ensures confirmed && sent.Ok? ==> requested == if restaurant.Some? then Some(restaurant.value.id) else None
      ensures confirmed && sent.Ok? && requested.None? ==> orders == old(orders) && refreshing == old(refreshing)
      ensures confirmed && sent.Ok? && requested.Some? ==> !refreshing
      ensures confirmed && sent.Ok? && requested.Some? ==> orders == if reload.Ok? then reload.value else old(orders)
    {
      call, requested := None, None;
      if confirmed {
        call := Some(Reject(orderId, RejectReason));
        if sent.Ok? {
          selectedOrder := None;
          requested := LoadOrders(reload);
        }
      }
    }
  }

  // ---------------------------------------------------------------------------
  // Runs of the screen

  /**
   * Mount with one restaurant, an empty first load, then one insert event:
   * the list is exactly the new order, and the orders were asked for that
   * restaurant.
   */
  method FirstOrderArrives(vendor: User, r: Restaurant, newOrder: Order)
    returns (requested: Option<string>, shown: seq<Order>)
    ensures requested == Some(r.id)
    ensures shown == [newOrder]
  {
    var screen := new DashboardScreen();
    var outcome := screen.LoadProfile(Ok(Profile(Some(vendor), [r])));
    requested := screen.LoadOrders(Ok([]));
    screen.OnNewOrder(newOrder);
    shown := screen.orders;
  }

  /**
   * An update that reaches an open order changes the list but not the
   * detail: the detail still shows (and gates its controls on) the value
   * the order had when it was opened.
   */
  method DetailIsSnapshot(o: Order, updated: Order) returns (listed: Order, detail: Order)
    requires SameId(o, updated)
    ensures listed == Merge(o, updated)
    ensures detail == o
  {
    var screen := new DashboardScreen();
    screen.OnNewOrder(o);
    screen.SelectOrder(screen.orders[0]);
    screen.OnOrderUpdate(updated);
    listed := screen.orders[0];
    detail := screen.selectedOrder.value;
  }

  /** Without a restaurant (none assigned, or the profile failed), pull to refresh leaves the spinner up. */
  method RefreshWithoutRestaurant(profile: Result<Profile>, fetched: Result<seq<Order>>)
    returns (spinning: bool)
    requires profile.Err? || profile.value.user.None? || profile.value.restaurants == []
    ensures spinning
  {
    var screen := new DashboardScreen();
    var outcome := screen.LoadProfile(profile);
    var requested := screen.Refresh(fetched);
    spinning := screen.refreshing;
  }

  /** The same run with the corrected refresh ends with the spinner down. */
  method RefreshSettledWithoutRestaurant(profile: Result<Profile>, fetched: Result<seq<Order>>)
    returns (spinning: bool)
    requires profile.Err? || profile.value.user.None? || profile.value.restaurants == []
    ensures !spinning
  {
    var screen := new DashboardScreen();
    var outcome := screen.LoadProfile(profile);
    var requested := screen.RefreshSettled(fetched);
    spinning := screen.refreshing;
  }
}
