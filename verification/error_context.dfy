/** src/contexts/ErrorContext.tsx: reported errors wait in a first-in first-out
    queue; the dialog shows the oldest one until it is dismissed. */
module ErrorContext {

  import opened Wrappers

  datatype ErrorKind = WalletConnect | Upload | Invalid | Dexie | Success

  datatype CustomError = CustomError(kind: ErrorKind, reason: string)

  // ---------------------------------------------------------------------------
  // The queue as values
  // ---------------------------------------------------------------------------

  /** The new queue after `addError`. */
  function Enqueue(errors: seq<CustomError>, e: CustomError): (r: seq<CustomError>)
    ensures |r| == |errors| + 1 && r[..|errors|] == errors && r[|errors|] == e
  {
    errors + [e]
  }

  /** The new queue after the dialog is closed: `slice(1)`, which leaves an
      empty queue empty. */
  function Dequeue(errors: seq<CustomError>): (r: seq<CustomError>)
    ensures errors != [] ==> [errors[0]] + r == errors
    ensures errors == [] ==> r == []
  {
    if errors == [] then [] else errors[1..]
  }

  /** The error the dialog shows: the oldest one, if any. */
  function Head(errors: seq<CustomError>): (r: Option<CustomError>)
    ensures r.Some? <==> |errors| > 0
    ensures r.Some? ==> r.value == errors[0]
  {
    if errors == [] then None else Some(errors[0])
  }

  /** What happens to the queue: an error reported, or the dialog closed. */
  datatype Event = Report(e: CustomError) | Close

  /** The error an event reports, if any. */
  function ReportedBy(event: Event): seq<CustomError> {
    if event.Report? then [event.e] else []
  }

  function Reported(events: seq<Event>): seq<CustomError> {
    if events == [] then [] else ReportedBy(events[0]) + Reported(events[1..])
  }

  /** Runs `events` against `errors`; returns the final queue and the errors the
      dialog was closing, in the order it closed them. */
  datatype Trace = Trace(waiting: seq<CustomError>, closed: seq<CustomError>)

  /** One event: the new queue, and the error the dialog closed, if any. */
  function Step(errors: seq<CustomError>, event: Event): Trace {
    match event
    case Report(e) => Trace(Enqueue(errors, e), [])
    case Close => Trace(Dequeue(errors), if errors == [] then [] else [errors[0]])
  }

  function Run(errors: seq<CustomError>, events: seq<Event>): Trace
    decreases |events|
  {
    if events == [] then Trace(errors, [])
    else
      var step := Step(errors, events[0]);
      var rest := Run(step.waiting, events[1..]);
      Trace(rest.waiting, step.closed + rest.closed)
  }

  /** One event keeps the order: what it closes, followed by the new queue, is
      the old queue followed by what it reports. */
  lemma StepIsFifo(errors: seq<CustomError>, event: Event)
    ensures Step(errors, event).closed + Step(errors, event).waiting == errors + ReportedBy(event)
  {
    if event.Close? && errors != [] {
      assert [errors[0]] + errors[1..] == errors;
    }
  }

  /** The bookkeeping of one step of the induction below, on plain sequences. */
  lemma FifoAlgebra<T>(stepClosed: seq<T>, stepWaiting: seq<T>, restClosed: seq<T>, restWaiting: seq<T>,
                       errors: seq<T>, first: seq<T>, later: seq<T>)
    requires stepClosed + stepWaiting == errors + first
    requires restClosed + restWaiting == stepWaiting + later
    ensures (stepClosed + restClosed) + restWaiting == errors + (first + later)
  {
    calc {
      (stepClosed + restClosed) + restWaiting;
      stepClosed + (restClosed + restWaiting);
      stepClosed + (stepWaiting + later);
      (stepClosed + stepWaiting) + later;
      (errors + first) + later;
    }
  }

  /** First in, first out: the errors closed, followed by those still waiting, are
      the errors that were waiting followed by those reported, in order. */
  lemma {:induction false} RunIsFifo(errors: seq<CustomError>, events: seq<Event>)
    ensures Run(errors, events).closed + Run(errors, events).waiting == errors + Reported(events)
    decreases |events|
  {
    if events != [] {
      var step := Step(errors, events[0]);
      var rest := Run(step.waiting, events[1..]);
      RunIsFifo(step.waiting, events[1..]);
      StepIsFifo(errors, events[0]);
      FifoAlgebra(step.closed, step.waiting, rest.closed, rest.waiting,
                  errors, ReportedBy(events[0]), Reported(events[1..]));
    }
  }

  // ---------------------------------------------------------------------------
  // The dialog
  // ---------------------------------------------------------------------------

  /** The label `ErrorDialog` puts before "Error". */
  function KindLabel(kind: ErrorKind): (r: Option<string>)
    ensures r.Some? <==> kind in {WalletConnect, Upload, Dexie}
    ensures kind == WalletConnect ==> r == Some("WalletConnect")
    ensures kind == Upload ==> r == Some("Upload")
    ensures kind == Dexie ==> r == Some("Dexie")
  {
    match kind
    case WalletConnect => Some("WalletConnect")
    case Upload => Some("Upload")
    case Dexie => Some("Dexie")
    case _ => None
  }

  function DialogTitle(error: Option<CustomError>): (r: string)
    ensures error.None? || KindLabel(error.value.kind).None? ==> r == "Error"
    ensures error.Some? && KindLabel(error.value.kind).Some? ==>
      r == KindLabel(error.value.kind).value + " Error"
  {
    var kind := if error.Some? then KindLabel(error.value.kind) else None;
    (if kind.Some? then kind.value + " " else "") + "Error"
  }

  // ---------------------------------------------------------------------------
  // The provider
  // ---------------------------------------------------------------------------

  class ErrorProvider {
    var errors: seq<CustomError>

    constructor ()
      ensures errors == []
    {
      errors := [];
    }

    method AddError(e: CustomError)
      modifies this`errors
      ensures errors == Enqueue(old(errors), e)
    {
      errors := errors + [e];
    }

    /** The dialog's `setError(null)`. */
    method Dismiss()
      modifies this`errors
      ensures errors == Dequeue(old(errors))
    {
      if errors != [] {
        errors := errors[1..];
      }
    }

    /** The dialog is rendered iff the queue is non-empty, with the oldest error. */
    function Shown(): (r: Option<CustomError>)
      reads this
      ensures r == Head(errors)
    {
      if |errors| > 0 then Some(errors[0]) else None
    }

    /** Applies one event, as the provider's callbacks do. */
    method Apply(event: Event) returns (closed: Option<CustomError>)
      modifies this`errors
      ensures errors == Step(old(errors), event).waiting
      ensures (if closed.Some? then [closed.value] else []) == Step(old(errors), event).closed
    {
      closed := None;
      match event {
        case Report(e) => AddError(e);
        case Close =>
          closed := Shown();
          Dismiss();
      }
    }
  }
}
