// The admin order page: the search and status filter over the order list,
// and the status menu offered for each order.

module AdminOrders {
  import opened Wrappers
  import opened Text
  import opened OrderModel
  import AdminContext
  import OrderController
  import Seqs

  /** The status filter's "show everything" choice. */
  const ALL := "all"

  /** The owner's "first last", or empty for an order whose owner is gone. */
  function OwnerName(o: AdminContext.AdminOrder): string
  {
    if o.user.Some? then o.user.value.firstName + " " + o.user.value.lastName else ""
  }

  function OwnerEmail(o: AdminContext.AdminOrder): string
  {
    if o.user.Some? then o.user.value.email else ""
  }

  /** `matchesSearch`: the order id, the owner's name or their email contains
      the query, ignoring case. */
  predicate MatchesSearch(o: AdminContext.AdminOrder, query: string)
  {
    IncludesIgnoringCase(o.orderId, query) || IncludesIgnoringCase(OwnerName(o), query)
    || IncludesIgnoringCase(OwnerEmail(o), query)
  }

  /** `matchesStatus`. */
  predicate MatchesStatus(o: AdminContext.AdminOrder, statusFilter: string)
  {
    statusFilter == ALL || StatusName(o.status) == statusFilter
  }

  predicate Shown(o: AdminContext.AdminOrder, query: string, statusFilter: string)
  {
    MatchesSearch(o, query) && MatchesStatus(o, statusFilter)
  }

  /** `filteredOrders`: the orders passing both tests, in list order. */
  function FilterOrders(orders: seq<AdminContext.AdminOrder>, query: string, statusFilter: string)
    : (r: seq<AdminContext.AdminOrder>)
    ensures forall i :: 0 <= i < |r| ==> MatchesSearch(r[i], query) && MatchesStatus(r[i], statusFilter)
    ensures forall i :: 0 <= i < |orders| && Shown(orders[i], query, statusFilter) ==> orders[i] in r
  {
    Seqs.Filter(orders, (o: AdminContext.AdminOrder) => Shown(o, query, statusFilter))
  }

  /** For an order without an owner only its id can match a query. */
  lemma OwnerlessMatchesById(o: AdminContext.AdminOrder, query: string)
    requires o.user.None?
    ensures MatchesSearch(o, query) <==> IncludesIgnoringCase(o.orderId, query)
  {
    EmptyContainsOnlyEmpty(query);
    if query == "" {
      EmptyQueryMatches(o.orderId);
    }
  }

  /** An empty query keeps exactly the orders the status filter keeps; with
      "all" as well, every order is listed. */
  lemma {:induction false} EmptyQueryFiltersByStatus(orders: seq<AdminContext.AdminOrder>, statusFilter: string)
    ensures FilterOrders(orders, "", statusFilter)
         == Seqs.Filter(orders, (o: AdminContext.AdminOrder) => MatchesStatus(o, statusFilter))
    ensures FilterOrders(orders, "", ALL) == orders
  {
    forall i | 0 <= i < |orders| ensures MatchesSearch(orders[i], "") {
      EmptyQueryMatches(orders[i].orderId);
    }
    Seqs.FilterCongruent(orders, (o: AdminContext.AdminOrder) => Shown(o, "", statusFilter),
                         (o: AdminContext.AdminOrder) => MatchesStatus(o, statusFilter));
    Seqs.FilterAll(orders, (o: AdminContext.AdminOrder) => Shown(o, "", ALL));
  }

  /** A status filter other than "all" keeps only orders of that status. */
  lemma StatusFilterKeepsThatStatus(orders: seq<AdminContext.AdminOrder>, query: string, s: Status)
    ensures forall i :: 0 <= i < |FilterOrders(orders, query, StatusName(s))| ==>
      FilterOrders(orders, query, StatusName(s))[i].status == s
  {
    var r := FilterOrders(orders, query, StatusName(s));
    forall i | 0 <= i < |r| ensures r[i].status == s {
      assert StatusName(r[i].status) == StatusName(s);
      ParseStatusName(r[i].status);
      ParseStatusName(s);
    }
  }

  /** The status menu of each order row. */
  const STATUS_MENU: seq<string> := ["processing", "shipped", "delivered", "cancelled"]

  /** The menu offers exactly the statuses the server's status update
      accepts: "pending" is never offered. */
  lemma MenuMatchesServer(name: string)
    ensures name in STATUS_MENU <==> OrderController.AdminStatus(name).Some?
    ensures "pending" !in STATUS_MENU
  {
  }
}
