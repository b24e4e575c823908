/**
 * The result record a pay-system handler hands back to the order
 * subsystem (`PaySystem\ServiceResult`): recorded errors, a data array,
 * the PS data and the operation type. `Outcome` is its value; the class
 * `ServiceResult` is the object the handler fills in step by step.
 */
module ServiceResults {
  import opened Wrappers
  import opened Platform

  /** `ServiceResult::MONEY_COMING`: the order subsystem should register the payment as paid. */
  datatype OperationType = MoneyComing

  /** The PS data fields `processRequest` reports for an "ok" callback. */
  datatype PsFields = PsFields(
    invoiceId: Value,     // PS_INVOICE_ID
    statusCode: int,      // PS_STATUS_CODE
    description: string,  // PS_STATUS_DESCRIPTION
    sum: Value,           // PS_SUM
    status: string,       // PS_STATUS, "Y" or "N"
    currency: Value,      // PS_CURRENCY
    responseDate: int)    // PS_RESPONSE_DATE, the current time

  /** A result as the order subsystem reads it; `D` is the type of its data. */
  datatype Outcome<D> = Outcome(
    errors: seq<string>,
    data: D,
    psData: Option<PsFields>,
    operation: Option<OperationType>)
  {
    /** Bitrix results succeed exactly when no error was recorded. */
    predicate IsSuccess() {
      errors == []
    }
  }

  /** A freshly constructed result whose data is `initial`. */
  function Started<D>(initial: D): Outcome<D> {
    Outcome([], initial, None, None)
  }

  /** A result carrying only the given errors. */
  function Failed<D>(errors: seq<string>, initial: D): Outcome<D> {
    Outcome(errors, initial, None, None)
  }

  /** The data of a result whose `setData` was never called: an empty array. */
  const NoData: map<string, Value> := map[]

  /** How a handler call ends: it returns a result, or a PHP error escapes it. */
  datatype Completion<D> = Returned(outcome: Outcome<D>) | Raised(error: string)

  class ServiceResult<D> {
    var errors: seq<string>
    var data: D
    var psData: Option<PsFields>
    var operationType: Option<OperationType>

    /** The value the result currently holds. */
    function Snapshot(): Outcome<D>
      reads this
    {
      Outcome(errors, data, psData, operationType)
    }

    constructor (initial: D)
      ensures Snapshot() == Started(initial)
    {
      errors, data, psData, operationType := [], initial, None, None;
    }

    predicate IsSuccess()
      reads this
    {
      Snapshot().IsSuccess()
    }

    method AddError(message: string)
      modifies this
      ensures Snapshot() == old(Snapshot()).(errors := old(errors) + [message])
    {
      errors := errors + [message];
    }

    method AddErrors(messages: seq<string>)
      modifies this
      ensures Snapshot() == old(Snapshot()).(errors := old(errors) + messages)
    {
      errors := errors + messages;
    }

    method SetData(d: D)
      modifies this
      ensures Snapshot() == old(Snapshot()).(data := d)
    {
      data := d;
    }

    method SetPsData(fields: PsFields)
      modifies this
      ensures Snapshot() == old(Snapshot()).(psData := Some(fields))
    {
      psData := Some(fields);
    }

    method SetOperationType(t: OperationType)
      modifies this
      ensures Snapshot() == old(Snapshot()).(operation := Some(t))
    {
      operationType := Some(t);
    }
  }
}
