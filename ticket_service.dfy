/** The ticket service: validates a purchase of cinema tickets for an account,
    adds its price and seat count to the running totals of the service, and
    then either returns those totals (dry run) or pays and reserves through
    the payment and seat reservation collaborators.

    The specification functions (`ValidationError`, `PurchaseError`, `Cost`,
    `Seats`) state what a call must do; the lemmas say what they mean; the
    class `TicketService` is the service itself, proved against them.
 */
module PairTest {
  import opened TicketTypes

  datatype Option<T> = None | Some(value: T)

  /** One row of the fixed ticket table: what a ticket costs and how many
      seats it takes. */
  datatype TicketTypeInfo = TicketTypeInfo(price: nat, seatAllocation: nat)

  /** The fixed price and seat table of the service. */
  function Info(t: TicketType): (info: TicketTypeInfo)
  {
    match t
    case ADULT => TicketTypeInfo(20, 1)
    case CHILD => TicketTypeInfo(10, 1)
    case INFANT => TicketTypeInfo(0, 0)
  }

  /** An element of a purchase: a ticket request, or any other value, which
      the service refuses. */
  datatype Item = Ticket(request: TicketTypeRequest) | NotATicket

  /** The distinct reasons for which a purchase is refused. */
  datatype Error = InvalidAccount | NoTickets | NotARequest | AdultRequired | LimitExceeded

  /** What a purchase returns: a refusal, the totals (dry run), or nothing
      after the collaborators were called. */
  datatype Purchase =
    | Rejected(error: Error)
    | Summary(accountId: int, totalAmount: int, totalSeats: int)
    | Dispatched

  /** A call made to one of the two collaborators. */
  datatype Event = Pay(accountId: int, amount: int) | Reserve(accountId: int, seats: int)

  /** The largest number of request items one purchase may hold. */
  const MaxItems := 20

  predicate AllTickets(items: seq<Item>)
  {
    forall i :: 0 <= i < |items| ==> items[i].Ticket?
  }

  predicate IsOfType(item: Item, t: TicketType)
  {
    item.Ticket? && item.request.ticketType == t
  }

  /** The requests carried by a list of items that are all ticket requests. */
  function Requests(items: seq<Item>): (reqs: seq<TicketTypeRequest>)
    requires AllTickets(items)
    ensures |reqs| == |items|
    ensures forall i :: 0 <= i < |items| ==> reqs[i] == items[i].request
  {
    seq(|items|, i requires 0 <= i < |items| => items[i].request)
  }

  // ---------------------------------------------------------------------
  // Validation

  /** The tally the validator keeps: the number of request ITEMS of type
      `t`, one per item whatever number of tickets the item asks for. */
  function Tally(items: seq<Item>, t: TicketType): (n: nat)
  {
    if items == [] then 0
    else Tally(items[..|items| - 1], t) + (if IsOfType(items[|items| - 1], t) then 1 else 0)
  }

  /** The verdict of the ticket validation, checks taken in the service's
      order: an empty list, an element that is not a request, the adult rule,
      then the item limit. */
  function ValidationError(items: seq<Item>): (err: Option<Error>)
  {
    if |items| == 0 then Some(NoTickets)
    else if !AllTickets(items) then Some(NotARequest)
    else if (Tally(items, CHILD) > 0 || Tally(items, INFANT) > 0) && Tally(items, ADULT) == 0 then
      Some(AdultRequired)
    else if Tally(items, ADULT) + Tally(items, CHILD) + Tally(items, INFANT) > MaxItems then
      Some(LimitExceeded)
    else None
  }

  /** The verdict of a whole purchase: the account id is checked before
      anything about the tickets. */
  function PurchaseError(accountId: int, items: seq<Item>): (r: Option<Error>)
    ensures r == Some(InvalidAccount) <==> accountId <= 0
    ensures r == Some(NoTickets) <==> accountId > 0 && items == []
    ensures r == Some(NotARequest) <==> accountId > 0 && items != [] && !AllTickets(items)
    ensures r.None? ==> accountId > 0 && items != [] && AllTickets(items)
  {
    if !(accountId > 0) then Some(InvalidAccount) else ValidationError(items)
  }

  /** When every element is a request, the three tallies together count the
      items. */
  lemma {:induction false} TallySum(items: seq<Item>)
    requires AllTickets(items)
    ensures Tally(items, ADULT) + Tally(items, CHILD) + Tally(items, INFANT) == |items|
  {
    if items != [] {
      TallySum(items[..|items| - 1]);
    }
  }

  /** A tally is zero exactly when no item has that type. */
  lemma {:induction false} TallyZero(items: seq<Item>, t: TicketType)
    ensures Tally(items, t) == 0 <==> forall i :: 0 <= i < |items| ==> !IsOfType(items[i], t)
  {
    if items != [] {
      var init := items[..|items| - 1];
      TallyZero(init, t);
      assert forall i :: 0 <= i < |init| ==> init[i] == items[i];
    }
  }

  /** The adult rule: a list of requests is refused with AdultRequired exactly
      when none of its items is an adult request; this holds whatever the
      length of the list, so the rule wins over the item limit. */
  lemma AdultRule(items: seq<Item>)
    requires items != [] && AllTickets(items)
    ensures ValidationError(items) == Some(AdultRequired) <==>
              forall i :: 0 <= i < |items| ==> items[i].request.ticketType != ADULT
  {
    TallySum(items);
    TallyZero(items, ADULT);
  }

  /** The limit rule: a list of requests with an adult passes exactly when it
      holds at most 20 items, however many tickets each item asks for. */
  lemma LimitRule(items: seq<Item>)
    requires AllTickets(items)
    requires exists i :: 0 <= i < |items| && IsOfType(items[i], ADULT)
    ensures ValidationError(items) == if |items| > MaxItems then Some(LimitExceeded) else None
  {
    TallySum(items);
    TallyZero(items, ADULT);
  }

  // ---------------------------------------------------------------------
  // Aggregation

  /** The amount owed for a list of requests: price times number of tickets,
      summed over the list. */
  function Cost(reqs: seq<TicketTypeRequest>): (amount: nat)
  {
    if reqs == [] then 0
    else
      var last := reqs[|reqs| - 1];
      Cost(reqs[..|reqs| - 1]) + Info(last.ticketType).price * last.noOfTickets
  }

  /** The seats taken by a list of requests: seat allocation times number of
      tickets, summed over the list. */
  function Seats(reqs: seq<TicketTypeRequest>): (seats: nat)
  {
    if reqs == [] then 0
    else
      var last := reqs[|reqs| - 1];
      Seats(reqs[..|reqs| - 1]) + Info(last.ticketType).seatAllocation * last.noOfTickets
  }

  /** The number of tickets (not items) of type `t` in a list of requests. */
  function TicketsOf(reqs: seq<TicketTypeRequest>, t: TicketType): (n: nat)
  {
    if reqs == [] then 0
    else
      var last := reqs[|reqs| - 1];
      TicketsOf(reqs[..|reqs| - 1], t) + (if last.ticketType == t then last.noOfTickets else 0)
  }

  /** Amount and seats of a single request. */
  lemma CostOfOne(r: TicketTypeRequest)
    ensures Cost([r]) == Info(r.ticketType).price * r.noOfTickets
    ensures Seats([r]) == Info(r.ticketType).seatAllocation * r.noOfTickets
  {
    assert [r][..0] == [];
  }

  /** Extending a prefix of a list by one request adds that request's amount
      and seats. */
  lemma CostStep(reqs: seq<TicketTypeRequest>, i: nat)
    requires i < |reqs|
    ensures Cost(reqs[..i + 1]) == Cost(reqs[..i]) + Info(reqs[i].ticketType).price * reqs[i].noOfTickets
    ensures Seats(reqs[..i + 1]) == Seats(reqs[..i]) + Info(reqs[i].ticketType).seatAllocation * reqs[i].noOfTickets
  {
    assert reqs[..i + 1][..i] == reqs[..i];
  }

  /** Amount and seats of two lists bought one after the other add up. */
  lemma {:induction false} CostAppend(a: seq<TicketTypeRequest>, b: seq<TicketTypeRequest>)
    ensures Cost(a + b) == Cost(a) + Cost(b)
    ensures Seats(a + b) == Seats(a) + Seats(b)
  {
    if b == [] {
      assert a + b == a;
    } else {
      var init := b[..|b| - 1];
      CostAppend(a, init);
      assert (a + b)[..|a + b| - 1] == a + init;
    }
  }

  /** The amount and the seats do not depend on the order of the requests:
      two lists holding the same requests, in any order, cost the same and
      take the same seats. */
  lemma {:induction false} CostPermutation(a: seq<TicketTypeRequest>, b: seq<TicketTypeRequest>)
    requires multiset(a) == multiset(b)
    ensures Cost(a) == Cost(b) && Seats(a) == Seats(b)
    decreases |a|
  {
    if a == [] {
      assert |multiset(b)| == 0;
      assert b == [];
    } else {
      var init, last := a[..|a| - 1], a[|a| - 1];
      assert a == init + [last];
      assert last in multiset(b);
      var j :| 0 <= j < |b| && b[j] == last;
      var before, after := b[..j], b[j + 1..];
      assert b == before + [last] + after;
      calc {
        multiset(init);
        multiset(a) - multiset{last};
        multiset(b) - multiset{last};
        multiset(before) + multiset(after);
        multiset(before + after);
      }
      CostPermutation(init, before + after);
      CostAppend(init, [last]);
      CostAppend(before + [last], after);
      CostAppend(before, [last]);
      CostAppend(before, after);
    }
  }

  /** The amount depends only on how many tickets of each type are bought:
      it is the table's price times that number, summed over the types. */
  lemma {:induction false} CostByType(reqs: seq<TicketTypeRequest>)
    ensures Cost(reqs) == Info(ADULT).price * TicketsOf(reqs, ADULT)
                          + Info(CHILD).price * TicketsOf(reqs, CHILD)
                          + Info(INFANT).price * TicketsOf(reqs, INFANT)
  {
    if reqs != [] {
      var init, last := reqs[..|reqs| - 1], reqs[|reqs| - 1];
      CostByType(init);
      var t, n := last.ticketType, last.noOfTickets;
      assert TicketsOf(reqs, t) == TicketsOf(init, t) + n;
      assert Info(t).price * TicketsOf(reqs, t) == Info(t).price * TicketsOf(init, t) + Info(t).price * n;
    }
  }

  /** The seats depend only on how many tickets of each type are bought:
      they are the table's seat allocation times that number, summed over
      the types. */
  lemma {:induction false} SeatsByType(reqs: seq<TicketTypeRequest>)
    ensures Seats(reqs) == Info(ADULT).seatAllocation * TicketsOf(reqs, ADULT)
                           + Info(CHILD).seatAllocation * TicketsOf(reqs, CHILD)
                           + Info(INFANT).seatAllocation * TicketsOf(reqs, INFANT)
  {
    if reqs != [] {
      var init, last := reqs[..|reqs| - 1], reqs[|reqs| - 1];
      SeatsByType(init);
      var t, n := last.ticketType, last.noOfTickets;
      assert TicketsOf(reqs, t) == TicketsOf(init, t) + n;
      assert Info(t).seatAllocation * TicketsOf(reqs, t)
          == Info(t).seatAllocation * TicketsOf(init, t) + Info(t).seatAllocation * n;
    }
  }

  // ---------------------------------------------------------------------
  // The service

  class TicketService {
    var dryRun: bool

    /** The running totals. They start at zero and are never reset: every
        successful purchase adds to them. */
    var totalAmount: int
    var totalSeats: int

    /** Every request accepted by this service so far, in order. */
    ghost var accepted: seq<TicketTypeRequest>
    /** Every call made to the payment and reservation collaborators. */
    ghost var log: seq<Event>

    /** The totals are those of all requests accepted so far. */
    ghost predicate Valid()
      reads this
    {
      totalAmount == Cost(accepted) && totalSeats == Seats(accepted)
    }

    constructor (dryRun: bool)
      ensures Valid()
      ensures this.dryRun == dryRun
      ensures totalAmount == 0 && totalSeats == 0
      ensures accepted == [] && log == []
    {
      this.dryRun := false;
      totalAmount := 0;
      totalSeats := 0;
      accepted := [];
      log := [];
      new;
      if dryRun {
        this.dryRun := true;
      }
    }

    /** Buys the requested tickets for the account. A refused purchase
        changes nothing and calls no collaborator. An accepted one adds its
        amount and seats to the running totals; in a dry run it returns the
        running totals, otherwise it pays the running amount and then
        reserves the running seat count, once each. */
    method PurchaseTickets(accountId: int, ticketTypeRequests: seq<Item>) returns (r: Purchase)
      requires Valid()
      modifies this`totalAmount, this`totalSeats, this`accepted, this`log
      ensures Valid()
      ensures totalAmount >= old(totalAmount) && totalSeats >= old(totalSeats)
      ensures PurchaseError(accountId, ticketTypeRequests).Some? ==>
                && r == Rejected(PurchaseError(accountId, ticketTypeRequests).value)
                && unchanged(this)
      ensures PurchaseError(accountId, ticketTypeRequests).None? ==>
                && accepted == old(accepted) + Requests(ticketTypeRequests)
                && totalAmount == old(totalAmount) + Cost(Requests(ticketTypeRequests))
                && totalSeats == old(totalSeats) + Seats(Requests(ticketTypeRequests))
                && (dryRun ==> r == Summary(accountId, totalAmount, totalSeats) && log == old(log))
                && (!dryRun ==> r == Dispatched &&
                                log == old(log) + [Pay(accountId, totalAmount), Reserve(accountId, totalSeats)])
    {
      if !(accountId > 0) {
        return Rejected(InvalidAccount);
      }
      var err := ValidateTickets(ticketTypeRequests);
      if err.Some? {
        return Rejected(err.value);
      }
      assert AllTickets(ticketTypeRequests);
      ghost var reqs := Requests(ticketTypeRequests);
      for i := 0 to |ticketTypeRequests|
        invariant totalAmount == old(totalAmount) + Cost(reqs[..i])
        invariant totalSeats == old(totalSeats) + Seats(reqs[..i])
        invariant accepted == old(accepted) && log == old(log)
      {
        var ticket := ticketTypeRequests[i].request;
        assert ticket == reqs[i];
        CostStep(reqs, i);
        totalAmount := totalAmount + Info(ticket.ticketType).price * ticket.noOfTickets;
        totalSeats := totalSeats + Info(ticket.ticketType).seatAllocation * ticket.noOfTickets;
      }
      assert reqs[..|reqs|] == reqs;
      CostAppend(accepted, reqs);
      accepted := accepted + reqs;
      if dryRun {
        r := Summary(accountId, totalAmount, totalSeats);
      } else {
        MakePaymentAndReserveSeats(accountId, totalAmount, totalSeats);
        r := Dispatched;
      }
    }

    /** Runs the validation over the items, keeping a tally per ticket type
        of the request items seen, and returns the first rule they break. */
    method ValidateTickets(tickets: seq<Item>) returns (err: Option<Error>)
      ensures err == ValidationError(tickets)
    {
      var noOfTickets := map[ADULT := 0, CHILD := 0, INFANT := 0];
      if |tickets| == 0 {
        return Some(NoTickets);
      }
      assert tickets[..0] == [];
      assert forall t: TicketType :: t in noOfTickets && noOfTickets[t] == 0 by {
        forall t: TicketType ensures t in noOfTickets && noOfTickets[t] == 0 {
          match t
          case ADULT =>
          case CHILD =>
          case INFANT =>
        }
      }
      for i := 0 to |tickets|
        invariant forall j :: 0 <= j < i ==> tickets[j].Ticket?
        invariant forall t: TicketType :: t in noOfTickets && noOfTickets[t] == Tally(tickets[..i], t)
      {
        if !tickets[i].Ticket? {
          return Some(NotARequest);
        }
        var t := tickets[i].request.ticketType;
        assert tickets[..i + 1][..i] == tickets[..i];
        noOfTickets := noOfTickets[t := noOfTickets[t] + 1];
      }
      assert tickets[..|tickets|] == tickets;
      if (noOfTickets[CHILD] > 0 || noOfTickets[INFANT] > 0) && noOfTickets[ADULT] == 0 {
        return Some(AdultRequired);
      }
      if noOfTickets[ADULT] + noOfTickets[CHILD] + noOfTickets[INFANT] > MaxItems {
        return Some(LimitExceeded);
      }
      return None;
    }

    /** Pays the amount, then reserves the seats, for the account. */
    method MakePaymentAndReserveSeats(accountId: int, amount: int, seats: int)
      modifies this`log
      ensures log == old(log) + [Pay(accountId, amount), Reserve(accountId, seats)]
    {
      log := log + [Pay(accountId, amount)];
      log := log + [Reserve(accountId, seats)];
    }
  }
}
