/** Lots, the rows written about them, and the transition table of the domain. */
module Battery {
  import opened Common

  datatype State = Received | Inspected | Reserved | Dismantling | Recovered | Certified | Quarantined

  datatype Lot = Lot(id: Token, tenant: string, code: string, chemistry: string, state: State,
                     version: int, receivedAt: int, expiresAt: Option<int>, hazard: int,
                     createdBy: string)
  {
    predicate CanInspect() { state == Received }
    predicate CanReserve() { state == Inspected && hazard < 70 }
    predicate CanRecover() { state == Dismantling }
    predicate CanCertify() { state == Recovered }
  }

  datatype Inspection = Inspection(id: Token, lotId: Token, tenant: string, result: string,
                                   notes: string, inspector: string, at: int)
  datatype Reservation = Reservation(id: Token, lotId: Token, tenant: string, station: string,
                                     operator: string, at: int)
  datatype Recovery = Recovery(id: Token, lotId: Token, tenant: string,
                               lithium: int, nickel: int, cobalt: int, at: int)
  datatype Certificate = Certificate(id: Token, lotId: Token, tenant: string, serial: string, at: int)
  datatype AuditEvent = AuditEvent(id: Token, tenant: string, actor: string, objectId: Token,
                                   action: string, result: string, requestId: string, at: int)
  datatype OutboxEvent = OutboxEvent(id: Token, tenant: string, lotId: Token, event: string, payload: Recovery)

  /** The domain's table of legal transitions. */
  predicate NextState(current: State, target: State) {
    match current
    case Received => target in {Inspected, Quarantined}
    case Inspected => target in {Reserved, Quarantined}
    case Reserved => target == Dismantling
    case Dismantling => target in {Recovered, Quarantined}
    case Recovered => target == Certified
    case Certified => false
    case Quarantined => false
  }
}
