/**
  The hook that wraps one service call at a time: it keeps the last result,
  whether a call is running, and the message of the last failure.
 */
module UseApi {
  import opened Js
  import Api

  /** A toast the hook raises when asked to. */
  datatype Notice = Notice(title: string, message: string, color: string)

  /** What awaiting the service call gave: its result, or what it threw. */
  datatype Outcome<T> = Succeeded(result: T) | Threw(error: Api.Caught)

  /** The notice that goes with a settled call, if notices are wanted. */
  function NoticeFor<T>(outcome: Outcome<T>, showNotification: bool): (r: Option<Notice>)
    ensures !showNotification <==> r.None?
    ensures r.Some? && outcome.Succeeded? ==> r.value == Notice("Success", "Operation completed successfully", "green")
    ensures r.Some? && outcome.Threw? ==> r.value == Notice("Error", Api.HandleApiError(outcome.error), "red")
  {
    if !showNotification then None
    else match outcome
      case Succeeded(_) => Some(Notice("Success", "Operation completed successfully", "green"))
      case Threw(e) => Some(Notice("Error", Api.HandleApiError(e), "red"))
  }

  class ApiState<T> {
    var data: Option<T>
    var loading: bool
    var error: Option<string>

    /** A failure message is never the empty string. */
    predicate Valid()
      reads this
    {
      error.Some? ==> error.value != ""
    }

    /** `{data: null, loading: false, error: null}`. */
    constructor ()
      ensures data.None? && !loading && error.None?
      ensures Valid()
    {
      data := None;
      loading := false;
      error := None;
    }

    /** The start of `execute`: a call is running and the old failure is
        cleared; the last result stays. */
    method Start()
      modifies this
      ensures loading && error.None? && data == old(data)
      ensures Valid()
    {
      loading := true;
      error := None;
    }

    /** The end of `execute`. A result replaces the data and is returned; a
        failure keeps the data, records `handleApiError`'s message and is
        thrown again. Either way the call is no longer running. */
    method Settle(outcome: Outcome<T>, showNotification: bool) returns (r: Outcome<T>, notice: Option<Notice>)
      requires Valid()
      modifies this
      ensures r == outcome
      ensures !loading && Valid()
      ensures outcome.Succeeded? ==> data == Some(outcome.result) && error.None?
      ensures outcome.Threw? ==> data == old(data) && error == Some(Api.HandleApiError(outcome.error))
      ensures notice == NoticeFor(outcome, showNotification)
    {
      match outcome {
        case Succeeded(result) =>
          data := Some(result);
          loading := false;
          error := None;
        case Threw(e) =>
          loading := false;
          error := Some(Api.HandleApiError(e));
      }
      r := outcome;
      notice := NoticeFor(outcome, showNotification);
    }

    /** `execute` from start to end. */
    method Execute(outcome: Outcome<T>, showNotification: bool) returns (r: Outcome<T>, notice: Option<Notice>)
      requires Valid()
      modifies this
      ensures r == outcome && notice == NoticeFor(outcome, showNotification)
      ensures !loading && Valid()
      ensures outcome.Succeeded? ==> data == Some(outcome.result) && error.None?
      ensures outcome.Threw? ==> data == old(data) && error == Some(Api.HandleApiError(outcome.error))
      ensures error.Some? <==> outcome.Threw?
    {
      Start();
      r, notice := Settle(outcome, showNotification);
    }

    /** `reset`: back to the initial state from any state. */
    method Reset()
      modifies this
      ensures data.None? && !loading && error.None?
      ensures Valid()
    {
      data := None;
      loading := false;
      error := None;
    }
  }

  /** Two calls in a row: the data is that of the last call that succeeded,
      and a failure after a success leaves the first result in place. */
  method FailureKeepsEarlierResult<T>(first: T, e: Api.Caught) returns (s: ApiState<T>)
    ensures s.data == Some(first)
    ensures s.error == Some(Api.HandleApiError(e)) && !s.loading
  {
    s := new ApiState<T>();
    var _, _ := s.Execute(Succeeded(first), true);
    var _, _ := s.Execute(Threw(e), true);
  }
}
