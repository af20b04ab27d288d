/** The status graph of internal/domain/subscription/domain.go. */
module SubscriptionDomain {
  datatype Status = Pending | Active | Suspended | Isolated | Expired | Terminated

  function ValidTransitions(current: Status): set<Status>
  {
    match current
    case Pending => {Active, Terminated}
    case Active => {Suspended, Isolated, Expired, Terminated}
    case Suspended => {Active, Isolated, Terminated}
    case Isolated => {Active, Suspended, Terminated}
    case Expired => {Active, Terminated}
    case Terminated => {}
  }

  predicate ValidateStatusTransition(current: Status, next: Status)
  {
    next in ValidTransitions(current)
  }

  /**
   The graph: a terminated subscription stays so, and none becomes pending again; any other can be activated
   or terminated; only an active one can expire, and only active, suspended and isolated ones be suspended
   or isolated.
   */
  lemma TransitionsAre(current: Status, next: Status)
    ensures ValidateStatusTransition(current, next) <==>
              && next != current && current != Terminated && next != Pending
              && (next == Expired ==> current == Active)
              && (next == Suspended || next == Isolated ==> current == Active || current == Suspended || current == Isolated)
  {}
}
