/**
 * The player's display name (P_PlayerName): a reactive string whose reported
 * value falls back to a default while the stored value is not a real display
 * name.
 *
 * The player profile is represented by the two identifiers it answers with:
 * the generated device id and the PlayFab id. The UpdateUserTitleDisplayName
 * call is recorded in `requests`; its callbacks are SetNameOnSuccess and
 * SetNameOnError. The two events are the multisets of subscribed handlers,
 * and firing one returns its argument, as for the transfer gateway.
 */
module PlayerNames {
  import opened Options

  /** A stored value is a display name unless it is one of the player's ids or empty. */
  function DisplayNameValid(stored: string, deviceId: string, playfabId: string): (valid: bool)
    ensures valid <==> stored !in {"", deviceId, playfabId}
  {
    if stored == deviceId then false
    else if stored == playfabId then false
    else if stored == "" then false
    else true
  }

  /** The getter of CurrentValue: the default whenever the stored value is not a display name. */
  function ReportedName(stored: string, deviceId: string, playfabId: string, defaultName: string): (r: string)
    ensures r == defaultName <==> !DisplayNameValid(stored, deviceId, playfabId) || stored == defaultName
    ensures r == stored <==> DisplayNameValid(stored, deviceId, playfabId) || stored == defaultName
  {
    if !DisplayNameValid(stored, deviceId, playfabId) then defaultName else stored
  }

  /**
   * With a default that is itself a display name, no id and no empty string
   * is ever reported.
   */
  lemma ReportedNameIsDisplayName(stored: string, deviceId: string, playfabId: string, defaultName: string)
    requires DisplayNameValid(defaultName, deviceId, playfabId)
    ensures DisplayNameValid(ReportedName(stored, deviceId, playfabId, defaultName), deviceId, playfabId)
  {
  }

  /** Storing the reported name again reports the same name. */
  lemma ReportedNameIdempotent(stored: string, deviceId: string, playfabId: string, defaultName: string)
    ensures ReportedName(ReportedName(stored, deviceId, playfabId, defaultName), deviceId, playfabId, defaultName)
         == ReportedName(stored, deviceId, playfabId, defaultName)
  {
  }

  class PlayerName {
    const defaultName: string
    /** The base reactive string's stored value. */
    var currentValue: string
    /** What the player profile answers for GeneratePlayerId and Playfab_PlayerId. */
    var deviceId: string
    var playfabId: string
    /** Display names sent to the server, oldest first. */
    var requests: seq<string>
    var nameChangeHandlers: multiset<object>
    var nameErrorHandlers: multiset<object>

    constructor (defaultName: string, deviceId: string, playfabId: string)
      ensures this.defaultName == defaultName && this.deviceId == deviceId && this.playfabId == playfabId
      ensures currentValue == "" && requests == []
      ensures nameChangeHandlers == multiset{} && nameErrorHandlers == multiset{}
    {
      this.defaultName := defaultName;
      this.deviceId := deviceId;
      this.playfabId := playfabId;
      currentValue := "";
      requests := [];
      nameChangeHandlers, nameErrorHandlers := multiset{}, multiset{};
    }

    /** The reported name: the stored value when it is a display name, else the default. */
    function CurrentValue(): (r: string)
      reads this
      ensures !DisplayNameValid(currentValue, deviceId, playfabId) ==> r == defaultName
      ensures DisplayNameValid(currentValue, deviceId, playfabId) ==> r == currentValue
    {
      ReportedName(currentValue, deviceId, playfabId, defaultName)
    }

    /** The name given at startup is stored as it is. */
    method InjectName(name: string)
      modifies this`currentValue
      ensures currentValue == name
    {
      currentValue := name;
    }

    /** Asks the server to change the display name; nothing is stored until it answers. */
    method SetPlayerName(playerName: string)
      modifies this`requests
      ensures requests == old(requests) + [playerName]
    {
      requests := requests + [playerName];
    }

    /** The server confirmed: store the returned name and notify with the reported one. */
    method SetNameOnSuccess(displayName: string) returns (event: Option<string>)
      modifies this`currentValue
      ensures currentValue == displayName
      ensures event == if |nameChangeHandlers| > 0 then Some(ReportedName(displayName, deviceId, playfabId, defaultName)) else None
    {
      currentValue := displayName;
      if |nameChangeHandlers| > 0 {
        event := Some(CurrentValue());
      } else {
        event := None;
      }
    }

    /** The change failed: the stored name stays and the error message is notified. */
    method SetNameOnError(errorMessage: string) returns (event: Option<string>)
      ensures event == if |nameErrorHandlers| > 0 then Some(errorMessage) else None
    {
      if |nameErrorHandlers| > 0 {
        event := Some(errorMessage);
      } else {
        event := None;
      }
    }

    method SubscribeToNameChange(handler: object)
      modifies this`nameChangeHandlers
      ensures nameChangeHandlers == old(nameChangeHandlers) + multiset{handler}
    {
      nameChangeHandlers := nameChangeHandlers + multiset{handler};
    }

    method UnSubscribeToNameChange(handler: object)
      modifies this`nameChangeHandlers
      ensures nameChangeHandlers == old(nameChangeHandlers) - multiset{handler}
    {
      nameChangeHandlers := nameChangeHandlers - multiset{handler};
    }

    method SubscribeToNameChangeError(handler: object)
      modifies this`nameErrorHandlers
      ensures nameErrorHandlers == old(nameErrorHandlers) + multiset{handler}
    {
      nameErrorHandlers := nameErrorHandlers + multiset{handler};
    }

    method UnSubscribeToNameChangeError(handler: object)
      modifies this`nameErrorHandlers
      ensures nameErrorHandlers == old(nameErrorHandlers) - multiset{handler}
    {
      nameErrorHandlers := nameErrorHandlers - multiset{handler};
    }
  }
}
