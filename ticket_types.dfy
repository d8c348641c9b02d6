/** The ticket request values that the ticket service consumes.

    A ticket request names one of three ticket types and a number of tickets.
    Building one with an unknown type or with a number of tickets that is not
    a positive integer fails at construction, so every value of
    `TicketTypeRequest` below already satisfies that check.
 */
module TicketTypes {

  /** The three ticket categories. */
  datatype TicketType = ADULT | CHILD | INFANT

  /** The fields of a ticket request: its type and how many tickets it asks for. */
  datatype Request = Request(ticketType: TicketType, noOfTickets: int)

  /** A request that passed construction: at least one ticket. */
  type TicketTypeRequest = r: Request | r.noOfTickets > 0 witness Request(ADULT, 1)
}
