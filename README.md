# Cinema ticket service, modelled in Dafny

This project models the `TicketService` class of the cinema-tickets
JavaScript exercise. A purchase names an account and a list of ticket
requests, each of type ADULT, CHILD or INFANT with a positive number of
tickets. The service checks these things, in this order:

1. the account id is a positive integer;
2. the list is not empty;
3. every element is a ticket request;
4. child or infant tickets come with at least one adult request;
5. the list has at most 20 request items.

It then adds price × tickets and seats × tickets to two running totals
held in the service. Prices and seats come from a fixed table: ADULT is 20
and 1 seat, CHILD is 10 and 1 seat, INFANT is 0 and 0 seats. In dry-run
mode the service returns `{accountId, totalAmount, totalSeats}`. Otherwise
it calls the payment collaborator with the amount, then the seat
reservation collaborator with the seat count.

Files:

- `ticket_types.dfy` (module `TicketTypes`): the three ticket types, and a
  ticket request as a subset type whose number of tickets is positive.
- `ticket_service.dfy` (module `PairTest`) holds four parts:
  - the function `Info`, the fixed price and seat table (`TicketService.js:26-39`);
  - the specification functions `ValidationError`, `PurchaseError`, `Cost`
    and `Seats`, with lemmas that say what they mean;
  - the class `TicketService`, whose methods are proved against those
    functions;
  - a ghost history of the requests the service accepted, and a ghost log
    of the collaborator calls.
- `purchase_examples.dfy` (module `PurchaseExamples`): client methods on
  the class. They cover the test suite's worked purchase and what the
  running totals do over several purchases on one service.

Three points of the code shape the model:

- The 20 limit counts request items, not tickets. The validation adds one
  to a per-type tally for each item (`TicketService.js:123`), and the limit
  compares the sum of those tallies with 20 (`TicketService.js:130`). So one
  item of 25 adult tickets passes, and 21 items of one ticket each are
  refused (`LimitCountsItems`).
- The totals are instance fields that start at zero
  (`TicketService.js:16-21`) and are only ever added to
  (`TicketService.js:80-83`); nothing resets them. A second purchase on the
  same service reports, and pays, the sum of both purchases
  (`RepeatedDryRunPurchase`, `PaidPurchases`).
- The code throws one exception type for every rejection, each with its
  own message (`TicketService.js:70, 113, 120, 127, 131`). Each message
  becomes one constructor of `Error`: `InvalidAccount`, `NoTickets`,
  `NotARequest`, `AdultRequired` and `LimitExceeded`.

## Model

| member | source | states |
|---|---|---|
| `PairTest.PurchaseError` | cinema-tickets-javascript/src/pairtest/TicketService.js:68-121 | the account check comes first: InvalidAccount exactly when the id is not positive; NoTickets exactly when the id is valid and the list is empty; NotARequest exactly when the id is valid, the list is non-empty and some element is not a request; acceptance implies all three checks passed |
| `PairTest.TallySum` | cinema-tickets-javascript/src/pairtest/TicketService.js:118-124 | when every element is a request, the three per-type tallies add up to the number of items, so the tally counts items and not tickets |
| `PairTest.TallyZero` | cinema-tickets-javascript/src/pairtest/TicketService.js:104-124 | a type's tally is zero if and only if no item has that type |
| `PairTest.AdultRule` | cinema-tickets-javascript/src/pairtest/TicketService.js:126-128 | a non-empty list of requests is refused with AdultRequired if and only if none of its items is an adult request, at any length, so this rule takes precedence over the limit |
| `PairTest.LimitRule` | cinema-tickets-javascript/src/pairtest/TicketService.js:130-132 | a list of requests with an adult item is accepted if it has at most 20 items and refused with LimitExceeded if it has more, whatever the ticket counts |
| `PairTest.CostAppend` | cinema-tickets-javascript/src/pairtest/TicketService.js:80-83 | the amount and the seats of two lists bought one after the other add up, which is what lets the running totals stand for everything bought so far |
| `PairTest.CostPermutation` | cinema-tickets-javascript/src/pairtest/TicketService.js:80-83 | two request lists holding the same requests in any order give the same amount and the same seat count, so the order in which the loop visits the requests does not matter |
| `PairTest.CostByType` | cinema-tickets-javascript/src/pairtest/TicketService.js:80-81 | the amount is the sum over the three types of the table price × the number of tickets of that type, so it depends only on the number of tickets of each type |
| `PairTest.SeatsByType` | cinema-tickets-javascript/src/pairtest/TicketService.js:80-82 | the seat count is the sum over the three types of the table seat allocation × the number of tickets of that type, so it depends only on the number of tickets of each type |
| `PairTest.TicketService.constructor` | cinema-tickets-javascript/src/pairtest/TicketService.js:54-60 | a new service has the given dry-run flag, zero totals, no accepted requests and no collaborator calls |
| `PairTest.TicketService.PurchaseTickets` | cinema-tickets-javascript/src/pairtest/TicketService.js:68-96 | a refused purchase returns its error and changes nothing, with no collaborator call; an accepted one adds exactly the request list's amount and seats to the totals, which equal those of all accepted requests and never decrease; a dry run returns the running totals with no call; otherwise the service makes one payment of the running amount and then one reservation of the running seat count |
| `PairTest.TicketService.ValidateTickets` | cinema-tickets-javascript/src/pairtest/TicketService.js:103-135 | the loop that tallies the items per type returns the first rule the list breaks, in the order: empty, element not a request, adult rule, item limit |
| `PairTest.TicketService.MakePaymentAndReserveSeats` | cinema-tickets-javascript/src/pairtest/TicketService.js:141-144 | exactly two collaborator calls are appended: a payment of the amount, then a reservation of the seats |
| `PurchaseExamples.FamilyTicketsPriced` | cinema-tickets-javascript/test/TicketService.test.js:44-58 | ADULT×2, CHILD×1, INFANT×1 is accepted and costs 50 for 3 seats |
| `PurchaseExamples.DryRunPurchase` | cinema-tickets-javascript/test/TicketService.test.js:10-58 | on a fresh dry-run service that purchase returns `{1, 50, 3}` |
| `PurchaseExamples.RepeatedDryRunPurchase` | cinema-tickets-javascript/src/pairtest/TicketService.js:80-92 | the totals are never reset: the same purchase made twice on one dry-run service returns `{1, 50, 3}` and then `{1, 100, 6}` |
| `PurchaseExamples.PaidPurchases` | cinema-tickets-javascript/src/pairtest/TicketService.js:87-95 | without dry run, the calls are exactly pay 50, reserve 3, pay 100, reserve 6 for two accepted purchases with a refused child-only purchase between them, which is refused with AdultRequired and calls nothing |
| `PurchaseExamples.LimitCountsItems` | cinema-tickets-javascript/src/pairtest/TicketService.js:123-132 | one item of 25 adult tickets is accepted, while 21 items of one adult ticket each are refused with LimitExceeded |

## Left out

- The ticket request class (`lib/TicketTypeRequest.js`) is not part of this model. A request is taken to have one of the three types and a positive integer number of tickets. This is the subset type `TicketTypeRequest`, so construction failures are not modelled.
- The exception class (`lib/InvalidPurchaseException.js`) is not part of this model. Its messages become the constructors of `Error`.
- The payment and seat reservation collaborators are not part of this model. Each call is recorded as an event in a ghost log. Their own failures (a type error on a non-integer argument) are not modelled; the totals here are always integers. The lack of compensation when a reservation fails after a payment is not modelled either.
- JavaScript's dynamic typing is not modelled. The account id is an `int`, so `Number.isInteger` on a non-number does not arise. Anything that is not a ticket request is the single value `NotATicket`.
- Rest-parameter spreading is not modelled. The request list is a `seq`. For example, the test call `purchaseTickets(1, [])` passes one element (an array) in JavaScript, and so fails as a non-request rather than as an empty list.
- Numbers are unbounded integers. JavaScript's double-precision rounding of totals beyond 2^53 is not modelled.
- `ValidateTickets` returns the first broken rule or `None`. The source throws, or returns the list it was given; the model does not return the list.
