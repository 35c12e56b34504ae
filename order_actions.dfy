/**
 * The server actions on orders: `updateOrderStatus`, `updateFinancials`
 * and `getMonthlyOrders`.
 *
 * The hosted database is modelled as a `Backend` object holding the
 * `order` table (keyed by `id`) and the `profile` table (keyed by
 * `user_id`). Whether the service answers a request with an error is not
 * something the code decides, so it is a parameter (`ServiceErrors`); a
 * `.single()` lookup that matches no row is an error as well. A thrown
 * `Error` becomes `Thrown(failure)`, naming the step that threw.
 */
module OrderActions {
  import opened Wrappers
  import opened Rows
  import Tally

  datatype Store = Store(orders: map<int, OrderRow>, profiles: map<string, Profile>)

  /** Which requests the database service answers with an error. */
  datatype ServiceErrors = ServiceErrors(
    orderFetch: bool,
    orderUpdate: bool,
    profileFetch: bool,
    walletUpdate: bool)

  const NoErrors := ServiceErrors(false, false, false, false)

  datatype Failure =
    | OrderFetchFailed
    | OrderUpdateFailed
    | ProfileFetchFailed
    | WalletUpdateFailed
    | StatusUpdateFailed
    | NotLoggedIn

  datatype Outcome = Done | Thrown(failure: Failure)

  datatype Transition = Transition(after: Store, outcome: Outcome)

  /** A notification handed to `sendNotification`. */
  datatype Notification = Notification(userId: string, message: string)

  /** The order row with both totals replaced, as step 2 of `updateFinancials` writes it. */
  function WithTotals(order: OrderRow, totalPrice: int, refundedAmount: int): OrderRow
  {
    order.(totalPrice := totalPrice, refundedAmount := Some(refundedAmount))
  }

  /**
   * The effect of `updateFinancials(orderId, newTotalPrice, newRefundedAmount)`:
   * read the old refund, write the new totals, read the wallet balance,
   * write the balance increased by the change in refund. The first failing
   * request ends the action; what was already written stays written.
   */
  function Financials(s: Store, orderId: int, newTotalPrice: int, newRefundedAmount: int, e: ServiceErrors): (t: Transition)
    // the order fetch fails exactly when the service errs or no row has that id; then nothing is written
    ensures t.outcome == Thrown(OrderFetchFailed) <==> e.orderFetch || orderId !in s.orders
    ensures t.outcome == Thrown(OrderFetchFailed) || t.outcome == Thrown(OrderUpdateFailed) ==> t.after == s
    // each later step throws exactly when every earlier one succeeded and its own request fails
    ensures t.outcome == Thrown(OrderUpdateFailed) <==> !e.orderFetch && orderId in s.orders && e.orderUpdate
    ensures t.outcome == Thrown(ProfileFetchFailed) <==>
      !e.orderFetch && orderId in s.orders && !e.orderUpdate && (e.profileFetch || s.orders[orderId].user !in s.profiles)
    ensures t.outcome == Thrown(WalletUpdateFailed) <==>
      !e.orderFetch && orderId in s.orders && !e.orderUpdate && !e.profileFetch && s.orders[orderId].user in s.profiles
      && e.walletUpdate
    ensures t.outcome.Thrown? ==> t.outcome.failure in {OrderFetchFailed, OrderUpdateFailed, ProfileFetchFailed, WalletUpdateFailed}
    // once the totals are written they stay written, whatever happens to the wallet
    ensures t.outcome == Done || t.outcome == Thrown(ProfileFetchFailed) || t.outcome == Thrown(WalletUpdateFailed) ==>
      orderId in s.orders && orderId in t.after.orders &&
      t.after.orders[orderId] == WithTotals(s.orders[orderId], newTotalPrice, newRefundedAmount)
    // no other order row is touched
    ensures t.after.orders.Keys == s.orders.Keys
    ensures forall id :: id in s.orders && id != orderId ==> t.after.orders[id] == s.orders[id]
    // the wallet is written only on success, and only the order owner's
    ensures t.outcome != Done ==> t.after.profiles == s.profiles
    ensures t.outcome == Done <==>
      orderId in s.orders && s.orders[orderId].user in s.profiles && e == NoErrors
    ensures t.outcome == Done ==>
      var user := s.orders[orderId].user;
      var before := s.profiles[user];
      t.after.profiles == s.profiles[user := before.(walletBalance :=
        Some(OrZero(before.walletBalance) + (newRefundedAmount - OrZero(s.orders[orderId].refundedAmount))))]
  {
    if e.orderFetch || orderId !in s.orders then Transition(s, Thrown(OrderFetchFailed))
    else if e.orderUpdate then Transition(s, Thrown(OrderUpdateFailed))
    else
      var order := s.orders[orderId];
      var written := s.(orders := s.orders[orderId := WithTotals(order, newTotalPrice, newRefundedAmount)]);
      if e.profileFetch || order.user !in s.profiles then Transition(written, Thrown(ProfileFetchFailed))
      else if e.walletUpdate then Transition(written, Thrown(WalletUpdateFailed))
      else
        var profile := s.profiles[order.user];
        var refundDifference := newRefundedAmount - OrZero(order.refundedAmount);
        var newBalance := OrZero(profile.walletBalance) + refundDifference;
        Transition(written.(profiles := s.profiles[order.user := profile.(walletBalance := Some(newBalance))]), Done)
  }

  /**
   * After a successful call, a second successful call with the same refund
   * (whatever total price it writes) leaves every wallet unchanged, since the
   * refund difference is then 0; with the same total price as well, it leaves
   * the whole store unchanged.
   */
  lemma FinancialsIdempotent(s: Store, orderId: int, firstTotalPrice: int, secondTotalPrice: int, newRefundedAmount: int)
    requires Financials(s, orderId, firstTotalPrice, newRefundedAmount, NoErrors).outcome == Done
    ensures var once := Financials(s, orderId, firstTotalPrice, newRefundedAmount, NoErrors).after;
      var twice := Financials(once, orderId, secondTotalPrice, newRefundedAmount, NoErrors);
      && twice.outcome == Done
      && twice.after.profiles == once.profiles
      && (secondTotalPrice == firstTotalPrice ==> twice.after == once)
  {
    var once := Financials(s, orderId, firstTotalPrice, newRefundedAmount, NoErrors).after;
    var user := s.orders[orderId].user;
    assert once.orders[orderId].user == user;
    assert once.profiles[user].walletBalance.Some?;
    assert once.profiles[user := once.profiles[user]] == once.profiles;
    assert once.orders[orderId := once.orders[orderId]] == once.orders;
  }

  /**
   * There is no rollback: when the wallet write fails, the new refund is
   * already stored, so a retry with the same arguments finds a refund
   * difference of 0 and the owner's wallet never receives the credit.
   */
  lemma RetryAfterWalletFailureLosesCredit(s: Store, orderId: int, newTotalPrice: int, newRefundedAmount: int)
    requires orderId in s.orders && s.orders[orderId].user in s.profiles
    ensures var failed := Financials(s, orderId, newTotalPrice, newRefundedAmount, NoErrors.(walletUpdate := true));
      var retried := Financials(failed.after, orderId, newTotalPrice, newRefundedAmount, NoErrors);
      var user := s.orders[orderId].user;
      failed.outcome == Thrown(WalletUpdateFailed) && retried.outcome == Done &&
      retried.after.profiles[user].walletBalance == Some(OrZero(s.profiles[user].walletBalance))
  {
    var failed := Financials(s, orderId, newTotalPrice, newRefundedAmount, NoErrors.(walletUpdate := true));
    assert failed.after.orders[orderId].user == s.orders[orderId].user;
  }

  /**
   * The effect of `updateOrderStatus(orderId, status)`: the status is
   * written, then the session is checked. `session` is the id of the
   * session's user, if there is one; an empty id counts as no user, as
   * `!session?.user?.id` does. The status write stays even when the session
   * check throws.
   */
  predicate LoggedIn(session: Option<string>)
  {
    session.Some? && session.value != ""
  }

  function StatusUpdate(s: Store, orderId: int, status: string, updateFails: bool, session: Option<string>): (t: Transition)
    ensures updateFails ==> t == Transition(s, Thrown(StatusUpdateFailed))
    ensures !updateFails ==> t.outcome == (if LoggedIn(session) then Done else Thrown(NotLoggedIn))
    ensures !updateFails ==> t.after.profiles == s.profiles && t.after.orders.Keys == s.orders.Keys
    ensures !updateFails ==> forall id :: id in s.orders ==>
      t.after.orders[id] == if id == orderId then s.orders[id].(status := status) else s.orders[id]
  {
    if updateFails then Transition(s, Thrown(StatusUpdateFailed))
    else
      // `.update({ status }).eq('id', orderId)` matches no row when the id is unknown; that is not an error
      var written := if orderId in s.orders then s.(orders := s.orders[orderId := s.orders[orderId].(status := status)]) else s;
      Transition(written, if LoggedIn(session) then Done else Thrown(NotLoggedIn))
  }

  /** The notification text: the new status followed by a rocket. */
  function StatusMessage(status: string): (m: string)
    ensures |m| == |status| + 2 && m[..|status|] == status && m[|status|..] == " \U{1F680}"
  {
    status + " \U{1F680}"
  }

  /** The hosted database, as far as the order actions read and write it. */
  class Backend {
    var orders: map<int, OrderRow>
    var profiles: map<string, Profile>

    function State(): Store
      reads this
    {
      Store(orders, profiles)
    }

    constructor (initial: Store)
      ensures State() == initial
    {
      orders := initial.orders;
      profiles := initial.profiles;
    }

    /** `updateFinancials`: four requests, each of which may throw. */
    method UpdateFinancials(orderId: int, newTotalPrice: int, newRefundedAmount: int, errors: ServiceErrors)
      returns (outcome: Outcome)
      modifies this
      ensures Transition(State(), outcome) == Financials(old(State()), orderId, newTotalPrice, newRefundedAmount, errors)
    {
      // Step 1: the order's owner and old refund
      if errors.orderFetch || orderId !in orders {
        return Thrown(OrderFetchFailed);
      }
      var currentOrder := orders[orderId];
      var userId := currentOrder.user;
      var oldRefundedAmount := OrZero(currentOrder.refundedAmount);
      var refundDifference := newRefundedAmount - oldRefundedAmount;

      // Step 2: the new totals
      if errors.orderUpdate {
        return Thrown(OrderUpdateFailed);
      }
      orders := orders[orderId := WithTotals(currentOrder, newTotalPrice, newRefundedAmount)];

      // Step 3: the wallet balance
      if errors.profileFetch || userId !in profiles {
        return Thrown(ProfileFetchFailed);
      }
      var profileData := profiles[userId];
      var currentBalance := OrZero(profileData.walletBalance);
      var newBalance := currentBalance + refundDifference;

      // Step 4: the new wallet balance
      if errors.walletUpdate {
        return Thrown(WalletUpdateFailed);
      }
      profiles := profiles[userId := profileData.(walletBalance := Some(newBalance))];
      return Done;
    }

    /**
     * `updateOrderStatus`: write the status, then require a session and
     * notify its user. The notification is returned rather than sent.
     */
    method UpdateOrderStatus(orderId: int, status: string, updateFails: bool, session: Option<string>)
      returns (outcome: Outcome, sent: Option<Notification>)
      modifies this
      ensures Transition(State(), outcome) == StatusUpdate(old(State()), orderId, status, updateFails, session)
      ensures sent == if outcome == Done then Some(Notification(session.value, StatusMessage(status))) else None
    {
      sent := None;
      if updateFails {
        return Thrown(StatusUpdateFailed), None;
      }
      if orderId in orders {
        orders := orders[orderId := orders[orderId].(status := status)];
      }
      if session.None? || session.value == "" {
        return Thrown(NotLoggedIn), None;
      }
      var userId := session.value;
      sent := Some(Notification(userId, StatusMessage(status)));
      outcome := Done;
    }
  }

  // ---------------------------------------------------------------------
  // getMonthlyOrders

  const MonthNames: seq<string> :=
    ["Jan", "Feb", "Mar", "Apr", "May", "Jun", "Jul", "Aug", "Sep", "Oct", "Nov", "Dec"]

  /** What `getUTCMonth()` returns for a parseable date. */
  type MonthIndex = i: int | 0 <= i < 12

  /**
   * The counter key of one order: `monthNames[getUTCMonth()]`. An
   * unparseable `created_at` (`None`) gives NaN as month index, so the
   * lookup yields `undefined`, used as the key "undefined".
   */
  function MonthKey(month: Option<MonthIndex>): (k: string)
    ensures k == "undefined" <==> month.None?
  {
    match month
    case Some(m) => MonthNames[m]
    case None => "undefined"
  }

  /** Different months get different keys, so counting keys counts months. */
  lemma MonthKeyInjective(a: Option<MonthIndex>, b: Option<MonthIndex>)
    ensures MonthKey(a) == MonthKey(b) <==> a == b
  {
  }

  function MonthKeys(months: seq<Option<MonthIndex>>): (keys: seq<string>)
    ensures |keys| == |months| && forall k :: 0 <= k < |months| ==> keys[k] == MonthKey(months[k])
  {
    seq(|months|, k requires 0 <= k < |months| => MonthKey(months[k]))
  }

  datatype MonthCount = MonthCount(name: string, orders: nat)

  /** The result of `getMonthlyOrders` for orders with the given UTC months. */
  function MonthlyCounts(months: seq<Option<MonthIndex>>): (r: seq<MonthCount>)
    // at most one entry per order, each the month of some order, no month twice
    ensures |r| <= |months|
    ensures forall i :: 0 <= i < |r| ==> r[i].name in MonthKeys(months)
    ensures forall i, j :: 0 <= i < j < |r| ==> r[i].name != r[j].name
  {
    var keys := MonthKeys(months);
    var names := Tally.FirstSeen(keys);
    Tally.FirstSeenMembers(keys);
    Tally.FirstSeenDistinct(keys);
    Tally.FirstSeenLength(keys);
    seq(|names|, i requires 0 <= i < |names| => MonthCount(names[i], Tally.Occurrences(keys, names[i])))
  }

  function Names(counts: seq<MonthCount>): (names: seq<string>)
    ensures |names| == |counts| && forall i :: 0 <= i < |counts| ==> names[i] == counts[i].name
  {
    seq(|counts|, i requires 0 <= i < |counts| => counts[i].name)
  }

  function TotalOrders(counts: seq<MonthCount>): nat
  {
    if counts == [] then 0 else counts[0].orders + TotalOrders(counts[1..])
  }

  /** The orders whose `created_at` falls in the month called `name`. */
  ghost function OrdersIn(months: seq<Option<MonthIndex>>, name: string): set<int>
  {
    set k | 0 <= k < |months| && MonthKey(months[k]) == name
  }

  lemma {:induction false} TotalIsCountSum(keys: seq<string>, names: seq<string>, counts: seq<MonthCount>)
    requires |counts| == |names|
    requires forall i :: 0 <= i < |names| ==> counts[i] == MonthCount(names[i], Tally.Occurrences(keys, names[i]))
    ensures TotalOrders(counts) == Tally.CountSum(keys, names)
  {
    if names != [] {
      TotalIsCountSum(keys, names[1..], counts[1..]);
    }
  }

  /** One more order adds its own index to its month and to no other. */
  lemma OrdersInSnoc(months: seq<Option<MonthIndex>>, name: string)
    requires months != []
    ensures var n := |months| - 1;
      OrdersIn(months, name) == OrdersIn(months[..n], name) + (if MonthKey(months[n]) == name then {n} else {})
  {
    var n := |months| - 1;
    var extra: set<int> := if MonthKey(months[n]) == name then {n} else {};
    forall k | k in OrdersIn(months, name) ensures k in OrdersIn(months[..n], name) + extra {
      if k < n {
        assert months[..n][k] == months[k];
      }
    }
    forall k | k in OrdersIn(months[..n], name) + extra ensures k in OrdersIn(months, name) {
      if k < n {
        assert months[..n][k] == months[k];
      }
    }
  }

  lemma {:induction false} OccurrencesAreOrdersIn(months: seq<Option<MonthIndex>>, name: string)
    ensures Tally.Occurrences(MonthKeys(months), name) == |OrdersIn(months, name)|
  {
    if months != [] {
      var n := |months| - 1;
      var p := months[..n];
      OccurrencesAreOrdersIn(p, name);
      OrdersInSnoc(months, name);
      assert MonthKeys(months)[..n] == MonthKeys(p);
      if MonthKey(months[n]) == name {
        assert n !in OrdersIn(p, name);
      }
    }
  }

  lemma MonthCountIsOrdersIn(months: seq<Option<MonthIndex>>, name: string)
    requires name in MonthKeys(months)
    ensures Tally.Occurrences(MonthKeys(months), name) == |OrdersIn(months, name)| > 0
  {
    OccurrencesAreOrdersIn(months, name);
    var k := Tally.FirstIndex(MonthKeys(months), name);
    assert k in OrdersIn(months, name);
  }

  /** Each listed month carries the number of orders in it, which is positive. */
  lemma MonthlyCountsAreOrdersIn(months: seq<Option<MonthIndex>>)
    ensures var r := MonthlyCounts(months);
      forall i :: 0 <= i < |r| ==> r[i].orders == |OrdersIn(months, r[i].name)| && r[i].orders > 0
  {
    var keys := MonthKeys(months);
    var names := Tally.FirstSeen(keys);
    var r := MonthlyCounts(months);
    Tally.FirstSeenMembers(keys);
    forall i | 0 <= i < |r|
      ensures r[i].orders == |OrdersIn(months, r[i].name)| && r[i].orders > 0
    {
      assert r[i] == MonthCount(names[i], Tally.Occurrences(keys, names[i]));
      assert names[i] in names;
      MonthCountIsOrdersIn(months, names[i]);
    }
  }

  /** The month of every order is listed. */
  lemma MonthlyCountsCover(months: seq<Option<MonthIndex>>)
    ensures var r := MonthlyCounts(months);
      forall k :: 0 <= k < |months| ==> exists i :: 0 <= i < |r| && r[i].name == MonthKey(months[k])
  {
    var keys := MonthKeys(months);
    var names := Tally.FirstSeen(keys);
    var r := MonthlyCounts(months);
    Tally.FirstSeenMembers(keys);
    forall k | 0 <= k < |months|
      ensures exists i :: 0 <= i < |r| && r[i].name == MonthKey(months[k])
    {
      assert keys[k] in keys;
      var i :| 0 <= i < |names| && names[i] == keys[k];
      assert r[i].name == MonthKey(months[k]);
    }
  }

  /**
   * What `getMonthlyOrders` promises: one entry per month that has an
   * order, each month once, in order of first occurrence, with the number of
   * orders in that month; the counts add up to the number of orders.
   */
  lemma MonthlyCountsCorrect(months: seq<Option<MonthIndex>>)
    ensures var r := MonthlyCounts(months);
      && (forall i :: 0 <= i < |r| ==> r[i].orders == |OrdersIn(months, r[i].name)| && r[i].orders > 0)
      && (forall i, j :: 0 <= i < j < |r| ==> r[i].name != r[j].name)
      && (forall k :: 0 <= k < |months| ==> exists i :: 0 <= i < |r| && r[i].name == MonthKey(months[k]))
      && Tally.InFirstOccurrenceOrder(MonthKeys(months), Names(r))
      && TotalOrders(r) == |months|
  {
    var keys := MonthKeys(months);
    var names := Tally.FirstSeen(keys);
    var r := MonthlyCounts(months);
    MonthlyCountsAreOrdersIn(months);
    MonthlyCountsCover(months);
    Tally.FirstSeenDistinct(keys);
    Tally.FirstSeenOrder(keys);
    Tally.FirstSeenCountsAll(keys);
    TotalIsCountSum(keys, names, r);
    assert Names(r) == names;
  }

  /**
   * The counter object after the months in `seen`: its keys are the distinct
   * months seen, created in order of first occurrence, each with its count.
   */
  ghost predicate Counted(seen: seq<string>, ordersByMonth: map<string, nat>, insertionOrder: seq<string>)
  {
    && insertionOrder == Tally.FirstSeen(seen)
    && (forall m :: m in ordersByMonth <==> m in insertionOrder)
    && forall m :: m in ordersByMonth ==> ordersByMonth[m] == Tally.Occurrences(seen, m)
  }

  /**
   * The reducer callback of `getMonthlyOrders` for one order in month
   * `month`: the key is created at zero when absent, then incremented. The
   * counter object stays exact for the months seen so far.
   */
  method CountOrder(ghost seen: seq<string>, acc: map<string, nat>, keyOrder: seq<string>, month: string)
    returns (acc': map<string, nat>, keyOrder': seq<string>)
    requires Counted(seen, acc, keyOrder)
    ensures Counted(seen + [month], acc', keyOrder')
  {
    Tally.FirstSeenSnoc(seen, month);
    acc', keyOrder' := acc, keyOrder;
    if month !in acc' {
      Tally.FirstSeenMembers(seen);
      Tally.OccurrencesEmpty(seen, month);
      acc' := acc'[month := 0];
      keyOrder' := keyOrder' + [month];
    }
    acc' := acc'[month := acc'[month] + 1];
    forall m | m in acc' ensures acc'[m] == Tally.Occurrences(seen + [month], m) {
      Tally.OccurrencesSnoc(seen, month, m);
    }
  }

  /**
   * `getMonthlyOrders`: `fetched` is the answer to the `created_at` select,
   * `None` when it is an error, which the action throws (`None` result).
   * Otherwise fold the orders into a counter object, then list its keys
   * with their counts. The object is a map plus the order in which its keys
   * were created.
   */
  method GetMonthlyOrders(fetched: Option<seq<Option<MonthIndex>>>) returns (result: Option<seq<MonthCount>>)
    ensures fetched.None? ==> result.None?
    ensures fetched.Some? ==> result == Some(MonthlyCounts(fetched.value))
  {
    if fetched.None? {
      return None;
    }
    var months := fetched.value;
    ghost var keys := MonthKeys(months);
    var ordersByMonth: map<string, nat> := map[];
    var insertionOrder: seq<string> := [];
    var i := 0;
    while i < |months|
      invariant 0 <= i <= |months|
      invariant Counted(keys[..i], ordersByMonth, insertionOrder)
    {
      assert keys[..i + 1] == keys[..i] + [MonthKey(months[i])];
      ordersByMonth, insertionOrder := CountOrder(keys[..i], ordersByMonth, insertionOrder, MonthKey(months[i]));
      i := i + 1;
    }
    assert keys[..i] == keys;
    ListingIsMonthlyCounts(months, ordersByMonth, insertionOrder);
    result := Some(Listing(ordersByMonth, insertionOrder));
  }

  /** `Object.keys(ordersByMonth).map(month => ({ name: month, orders: ordersByMonth[month] }))` */
  function Listing(ordersByMonth: map<string, nat>, keyOrder: seq<string>): (r: seq<MonthCount>)
    requires forall m :: m in keyOrder ==> m in ordersByMonth
    ensures |r| == |keyOrder|
    ensures forall j :: 0 <= j < |r| ==> r[j] == MonthCount(keyOrder[j], ordersByMonth[keyOrder[j]])
  {
    seq(|keyOrder|, j requires 0 <= j < |keyOrder| => MonthCount(keyOrder[j], ordersByMonth[keyOrder[j]]))
  }

  /** A counter object that has seen every order lists exactly `MonthlyCounts`. */
  lemma ListingIsMonthlyCounts(months: seq<Option<MonthIndex>>, ordersByMonth: map<string, nat>, keyOrder: seq<string>)
    requires keyOrder == Tally.FirstSeen(MonthKeys(months))
    requires forall m :: m in ordersByMonth <==> m in keyOrder
    requires forall m :: m in ordersByMonth ==> ordersByMonth[m] == Tally.Occurrences(MonthKeys(months), m)
    ensures forall m :: m in keyOrder ==> m in ordersByMonth
    ensures Listing(ordersByMonth, keyOrder) == MonthlyCounts(months)
  {
    var r := Listing(ordersByMonth, keyOrder);
    forall j | 0 <= j < |r| ensures r[j] == MonthlyCounts(months)[j] {
      assert keyOrder[j] in keyOrder;
    }
  }
}
