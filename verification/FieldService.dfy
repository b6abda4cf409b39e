/** The states of field-service rows that several models share. */
module FieldService {

  datatype CaseStatus = AwaitingScheduling | CaseScheduled | CaseInProgress | CaseCompleted | CaseClosed | CaseCancelled

  datatype VisitStatus = Assigned | Arrived | Departed | Reported | VisitCancelled

  /** The priority of a case or a ticket. */
  datatype Priority = Low | Normal | High | Urgent
}
