/**
 * Shared constants and the server-time loader (namespace JReact.Playfab_Interact).
 */
module Basics {
  import opened Options

  /** The largest number of keys one remote data request may carry. */
  const MaxRequestAmount: nat := 10

  /**
   * Fetches the server time once at a time (P_TimeLoader). The GetTime call
   * is recorded in `requests`; its callbacks are GetTimeOnSuccess and
   * GetTimeOnFail. Times are ticks. The OnTimeRetrieved event is the
   * multiset of subscribed handlers; firing it returns the time it carries.
   */
  class TimeLoader {
    var currentlyLoading: bool
    var timeRetrieved: bool
    var currentTime: int
    var requests: nat
    var handlers: multiset<object>

    constructor ()
      ensures !currentlyLoading && !timeRetrieved && currentTime == 0
      ensures requests == 0 && handlers == multiset{}
    {
      currentlyLoading, timeRetrieved := false, false;
      currentTime := 0;
      requests, handlers := 0, multiset{};
    }

    /** A second request while one is in flight is refused. */
    method AvoidMultipleLoading() returns (refuse: bool)
      ensures refuse == currentlyLoading
    {
      refuse := currentlyLoading;
    }

    /** Asks the server for the time unless a request is already in flight. */
    method GetCurrentTime()
      modifies this`currentlyLoading, this`requests
      ensures old(currentlyLoading) ==> unchanged(this)
      ensures !old(currentlyLoading) ==> currentlyLoading && requests == old(requests) + 1
    {
      var refuse := AvoidMultipleLoading();
      if refuse {
        return;
      }
      currentlyLoading := true;
      requests := requests + 1;
    }

    /** The server answered: store the time and notify the subscribers with it. */
    method GetTimeOnSuccess(time: int) returns (event: Option<int>)
      modifies this`currentlyLoading, this`timeRetrieved, this`currentTime
      ensures !currentlyLoading && timeRetrieved && currentTime == time
      ensures event == if |handlers| > 0 then Some(time) else None
    {
      currentlyLoading := false;
      timeRetrieved := true;
      currentTime := time;
      if |handlers| > 0 {
        event := Some(currentTime);
      } else {
        event := None;
      }
    }

    /** The request failed: only the loading flag is cleared. */
    method GetTimeOnFail()
      modifies this`currentlyLoading
      ensures !currentlyLoading
    {
      currentlyLoading := false;
    }

    method Subscribe(handler: object)
      modifies this`handlers
      ensures handlers == old(handlers) + multiset{handler}
    {
      handlers := handlers + multiset{handler};
    }

    method UnSubscribe(handler: object)
      modifies this`handlers
      ensures handlers == old(handlers) - multiset{handler}
    {
      handlers := handlers - multiset{handler};
    }

    /** Disabling the asset clears both flags; the stored time is kept. */
    method ResetThis()
      modifies this`currentlyLoading, this`timeRetrieved
      ensures !currentlyLoading && !timeRetrieved
    {
      timeRetrieved := false;
      currentlyLoading := false;
    }
  }
}
