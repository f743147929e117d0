/**
 * The single-flight gateway to the remote key/value store (P_PlayfabDataTransfer).
 *
 * The remote client calls are not made: an accepted call is appended to
 * `requests`, and the client's success and error callbacks are the methods
 * SaveOnSuccess, SaveOnError, LoadOnSuccess and LoadOnError, which the caller
 * of the model invokes with the result. The C# events OnPlayfabDataSave and
 * OnPlayfabDataLoad are the multisets of subscribed handlers; firing an event
 * returns its payload, which the caller then hands to every subscribed handler.
 */
module DataTransfer {
  import opened Options

  /** A remote call, recorded instead of sent. */
  datatype Request =
    | UpdateUserData(data: map<string, string>, isPrivate: bool)
    | GetUserData(keys: seq<string>, playFabId: Option<string>)

  /** One entry of a GetUserData answer: the stored value and its last update time (as ticks). */
  datatype UserDataRecord = UserDataRecord(value: string, lastUpdated: int)

  /** Payload of the load event: values and update times by key. */
  datatype LoadedData = LoadedData(data: map<string, string>, time: map<string, int>)

  /** The data of the most recent UpdateUserData call in the log, or the empty map. */
  function LastSavedData(requests: seq<Request>): map<string, string>
    decreases |requests|
  {
    if requests == [] then map[]
    else if requests[|requests| - 1].UpdateUserData? then requests[|requests| - 1].data
    else LastSavedData(requests[..|requests| - 1])
  }

  /** The PlayFabId of a load request: set only when a non-empty id was given. */
  function TargetPlayer(playerPlayfabId: string): (r: Option<string>)
    ensures r.Some? <==> playerPlayfabId != ""
    ensures r.Some? ==> r.value == playerPlayfabId
  {
    if playerPlayfabId != "" then Some(playerPlayfabId) else None
  }

  /**
   * What a caller observes after handing `call` to the gateway: when the
   * gateway was ready, it is now busy and the call is recorded; otherwise
   * the busy flag and the log are as they were. The connection state and the
   * last load results are never touched by sending.
   */
  twostate predicate CallIssued(t: PlayfabDataTransfer, call: Request)
    reads t
  {
    && (if old(t.TransferReady())
        then t.isBusy && t.requests == old(t.requests) + [call]
        else t.isBusy == old(t.isBusy) && t.requests == old(t.requests))
    && t.playerLoggedIn == old(t.playerLoggedIn)
    && t.loadedData == old(t.loadedData) && t.loadedTime == old(t.loadedTime)
  }

  class PlayfabDataTransfer {
    /** What the connection checker currently answers to PlayerLoggedIntoPlayfab. */
    var playerLoggedIn: bool
    var isBusy: bool
    var savedData: map<string, string>
    var loadedData: map<string, string>
    var loadedTime: map<string, int>
    /** Handlers subscribed to the save and load events (one entry per `+=`). */
    var saveHandlers: multiset<object>
    var loadHandlers: multiset<object>
    /** Remote calls issued so far, oldest first. */
    var requests: seq<Request>

    /** The map kept for the save event is the one of the last save that was sent. */
    ghost predicate Valid()
      reads this
    {
      savedData == LastSavedData(requests)
    }

    constructor (loggedIn: bool)
      ensures Valid()
      ensures playerLoggedIn == loggedIn && !isBusy
      ensures savedData == map[] && loadedData == map[] && loadedTime == map[]
      ensures saveHandlers == multiset{} && loadHandlers == multiset{} && requests == []
    {
      playerLoggedIn := loggedIn;
      isBusy := false;
      savedData, loadedData, loadedTime := map[], map[], map[];
      saveHandlers, loadHandlers := multiset{}, multiset{};
      requests := [];
    }

    /** A transfer may start only when logged in (checked first) and not busy. */
    function TransferReady(): (r: bool)
      reads this
      ensures !playerLoggedIn ==> !r
      ensures playerLoggedIn && isBusy ==> !r
      ensures playerLoggedIn && !isBusy ==> r
    {
      if !playerLoggedIn then false
      else if isBusy then false
      else true
    }

    /**
     * Sends a save when the transfer is ready: marks it busy, keeps the map for
     * the save event and records the call. Otherwise rejects it and changes nothing.
     * The source's duplicate-key assertion cannot fail on a map and is omitted.
     */
    method SaveDataToPlayfab(dataToStore: map<string, string>, privatePermission: bool) returns (accepted: bool)
      requires Valid()
      modifies this
      ensures Valid()
      ensures accepted == old(TransferReady())
      ensures !accepted ==> unchanged(this)
      ensures accepted ==> isBusy && savedData == dataToStore
      ensures accepted ==> requests == old(requests) + [UpdateUserData(dataToStore, privatePermission)]
      ensures playerLoggedIn == old(playerLoggedIn) && loadedData == old(loadedData) && loadedTime == old(loadedTime)
      ensures saveHandlers == old(saveHandlers) && loadHandlers == old(loadHandlers)
    {
      if !TransferReady() {
        return false;
      }
      isBusy := true;
      savedData := dataToStore;
      requests := requests + [UpdateUserData(dataToStore, privatePermission)];
      return true;
    }

    /** The save callback: no longer busy; the save event carries the map that was sent. */
    method SaveOnSuccess() returns (event: Option<map<string, string>>)
      requires Valid()
      modifies this`isBusy
      ensures Valid() && !isBusy
      ensures event == if |saveHandlers| > 0 then Some(LastSavedData(requests)) else None
    {
      isBusy := false;
      if |saveHandlers| > 0 {
        event := Some(savedData);
      } else {
        event := None;
      }
    }

    /** The save error callback: no longer busy, and no event. */
    method SaveOnError()
      modifies this`isBusy
      ensures !isBusy
    {
      isBusy := false;
    }

    /**
     * Sends a load of the given keys when the transfer is ready; an empty player
     * id means the logged-in player. Otherwise rejects it and changes nothing.
     */
    method LoadDataFromPlayfab(desiredKeys: seq<string>, playerPlayfabId: string) returns (accepted: bool)
      requires Valid()
      modifies this
      ensures Valid()
      ensures accepted == old(TransferReady())
      ensures !accepted ==> unchanged(this)
      ensures accepted ==> isBusy
      ensures accepted ==> requests == old(requests) + [GetUserData(desiredKeys, TargetPlayer(playerPlayfabId))]
      ensures playerLoggedIn == old(playerLoggedIn) && savedData == old(savedData)
      ensures loadedData == old(loadedData) && loadedTime == old(loadedTime)
      ensures saveHandlers == old(saveHandlers) && loadHandlers == old(loadHandlers)
    {
      if !TransferReady() {
        return false;
      }
      isBusy := true;
      requests := requests + [GetUserData(desiredKeys, TargetPlayer(playerPlayfabId))];
      return true;
    }

    /**
     * The load callback: no longer busy; rebuilds the value and time maps from
     * empty with one entry per returned key, then fires the load event with them.
     */
    method LoadOnSuccess(result: map<string, UserDataRecord>) returns (event: Option<LoadedData>)
      modifies this`isBusy, this`loadedData, this`loadedTime
      ensures !isBusy
      ensures loadedData.Keys == result.Keys && loadedTime.Keys == result.Keys
      ensures forall k :: k in result ==> loadedData[k] == result[k].value && loadedTime[k] == result[k].lastUpdated
      ensures event == if |loadHandlers| > 0 then Some(LoadedData(loadedData, loadedTime)) else None
    {
      isBusy := false;
      loadedData := map[];
      loadedTime := map[];
      var rest := result.Keys;
      while rest != {}
        invariant !isBusy && rest <= result.Keys
        invariant loadedData.Keys == result.Keys - rest && loadedTime.Keys == result.Keys - rest
        invariant forall k :: k in loadedData ==> loadedData[k] == result[k].value
        invariant forall k :: k in loadedTime ==> loadedTime[k] == result[k].lastUpdated
        decreases rest
      {
        var k :| k in rest;
        loadedData := loadedData[k := result[k].value];
        loadedTime := loadedTime[k := result[k].lastUpdated];
        rest := rest - {k};
      }
      if |loadHandlers| > 0 {
        event := Some(LoadedData(loadedData, loadedTime));
      } else {
        event := None;
      }
    }

    /** The load error callback: no longer busy, and no event. */
    method LoadOnError()
      modifies this`isBusy
      ensures !isBusy
    {
      isBusy := false;
    }

    method SubscribeToSave(handler: object)
      modifies this`saveHandlers
      ensures saveHandlers == old(saveHandlers) + multiset{handler}
    {
      saveHandlers := saveHandlers + multiset{handler};
    }

    method UnSubscribeToSave(handler: object)
      modifies this`saveHandlers
      ensures saveHandlers == old(saveHandlers) - multiset{handler}
    {
      saveHandlers := saveHandlers - multiset{handler};
    }

    method SubscribeToLoad(handler: object)
      modifies this`loadHandlers
      ensures loadHandlers == old(loadHandlers) + multiset{handler}
    {
      loadHandlers := loadHandlers + multiset{handler};
    }

    method UnSubscribeToLoad(handler: object)
      modifies this`loadHandlers
      ensures loadHandlers == old(loadHandlers) - multiset{handler}
    {
      loadHandlers := loadHandlers - multiset{handler};
    }

    /** Enabling the asset clears the busy flag and nothing else. */
    method ResetThis()
      modifies this`isBusy
      ensures !isBusy
    {
      isBusy := false;
    }
  }
}
