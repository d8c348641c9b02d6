/** Clients of the ticket service: the worked purchase of its test suite, and
    what the running totals do over two purchases on one service.
 */
module PurchaseExamples {
  import opened TicketTypes
  import opened PairTest

  /** Two adult tickets, one child ticket and one infant ticket. */
  function FamilyTickets(): seq<Item>
  {
    [Ticket(Request(ADULT, 2)), Ticket(Request(CHILD, 1)), Ticket(Request(INFANT, 1))]
  }

  /** The family tickets are accepted and cost 50 for 3 seats. */
  lemma FamilyTicketsPriced()
    ensures PurchaseError(1, FamilyTickets()) == None
    ensures Cost(Requests(FamilyTickets())) == 50
    ensures Seats(Requests(FamilyTickets())) == 3
  {
    var adults: TicketTypeRequest := Request(ADULT, 2);
    var child: TicketTypeRequest := Request(CHILD, 1);
    var infant: TicketTypeRequest := Request(INFANT, 1);
    assert Requests(FamilyTickets()) == [adults] + [child] + [infant];
    CostOfOne(adults);
    CostOfOne(child);
    CostOfOne(infant);
    CostAppend([adults], [child]);
    CostAppend([adults] + [child], [infant]);
    assert IsOfType(FamilyTickets()[0], ADULT);
    LimitRule(FamilyTickets());
  }

  /** On a fresh dry-run service the family tickets return their totals. */
  method DryRunPurchase() returns (r: Purchase)
    ensures r == Summary(1, 50, 3)
  {
    var service := new TicketService(true);
    FamilyTicketsPriced();
    r := service.PurchaseTickets(1, FamilyTickets());
  }

  /** The totals are never reset: the same purchase made twice on one
      dry-run service reports the sum of both. */
  method RepeatedDryRunPurchase() returns (first: Purchase, second: Purchase)
    ensures first == Summary(1, 50, 3)
    ensures second == Summary(1, 100, 6)
  {
    var service := new TicketService(true);
    FamilyTicketsPriced();
    first := service.PurchaseTickets(1, FamilyTickets());
    second := service.PurchaseTickets(1, FamilyTickets());
  }

  /** Without dry run, each accepted purchase pays and then reserves once,
      each time for the running totals, so a second purchase of the same
      tickets is charged for both; a refused purchase calls nothing. */
  method PaidPurchases() returns (first: Purchase, refused: Purchase, second: Purchase, ghost calls: seq<Event>)
    ensures first == Dispatched && second == Dispatched
    ensures refused == Rejected(AdultRequired)
    ensures calls == [Pay(1, 50), Reserve(1, 3), Pay(1, 100), Reserve(1, 6)]
  {
    var service := new TicketService(false);
    FamilyTicketsPriced();
    first := service.PurchaseTickets(1, FamilyTickets());
    var childOnly := [Ticket(Request(CHILD, 1)), Ticket(Request(INFANT, 1))];
    AdultRule(childOnly);
    refused := service.PurchaseTickets(1, childOnly);
    second := service.PurchaseTickets(1, FamilyTickets());
    calls := service.log;
  }

  /** The limit counts request items, not tickets: one item of 25 adult
      tickets passes, while 21 items of one adult ticket each do not. */
  lemma LimitCountsItems()
    ensures PurchaseError(1, [Ticket(Request(ADULT, 25))]) == None
    ensures PurchaseError(1, seq(21, _ => Ticket(Request(ADULT, 1)))) == Some(LimitExceeded)
  {
    var single := [Ticket(Request(ADULT, 25))];
    assert IsOfType(single[0], ADULT);
    LimitRule(single);
    var many := seq(21, _ => Ticket(Request(ADULT, 1)));
    assert IsOfType(many[0], ADULT);
    LimitRule(many);
  }
}
