/**
 * The batched save/load engine (namespace JReact.Playfab_Interact.Data):
 * saveables with their four status flags, the pooled tasks that send one
 * chunk of saveables through the transfer gateway and reconcile its answer,
 * and the queue managers that chunk a pending FIFO onto a round-robin pool.
 *
 * The three live in one module because a saveable refers to its save queue
 * and the queue to its saveables. The save and load specialisations of the
 * task and of the queue manager are one class each, told apart by `kind`.
 *
 * A failed assertion of the source ends the operation where it stands: the
 * effects before it remain and the method returns `ok == false`. The same
 * holds for the two exceptions the handlers can raise (several chunk items
 * with one key, a returned key with no timestamp).
 */
module Data {
  import opened Sequences
  import opened DataTransfer
  import Basics

  type Positive = n: nat | n >= 1 witness 1

  datatype TaskKind = SaveKind | LoadKind

  /** The four status flags of a saveable. */
  datatype Flags = Flags(saveRequested: bool, saveFailed: bool, loadRequested: bool, loadFailed: bool)

  /** One call of the concrete saveable's LoadThisFromJson: the payload and its update time (ticks). */
  datatype LoadedJson = LoadedJson(json: string, time: int)

  /** Everything a saveable holds, so that a method can state its whole effect on one. */
  datatype SaveableState = SaveableState(
    flags: Flags,
    payload: string,
    conditions: seq<bool>,
    canSave: bool,
    queue: InteractionTasks?,
    loaded: seq<LoadedJson>)

  // ---------------------------------------------------------------------
  // Flag transitions of a chunk item when its task's answer arrives
  // ---------------------------------------------------------------------

  /** SaveConfirmed: both save flags cleared. */
  function SaveConfirmedFlags(f: Flags): Flags {
    f.(saveRequested := false, saveFailed := false)
  }

  /** The CheckElements pass: an item still waiting for its save gets SaveError. */
  function SaveChecked(f: Flags): Flags {
    if f.saveRequested then f.(saveRequested := false, saveFailed := true) else f
  }

  /**
   * A chunk item after a save answer: confirmed when its key came back, then
   * failed if it is still waiting. No item is left waiting; an item ends failed
   * exactly when its key is missing and it was waiting or had already failed;
   * the load flags are untouched.
   */
  function SaveReconciled(f: Flags, returned: bool): (r: Flags)
    ensures !r.saveRequested
    ensures r.saveFailed <==> !returned && (f.saveRequested || f.saveFailed)
    ensures r.loadRequested == f.loadRequested && r.loadFailed == f.loadFailed
    ensures !f.saveRequested && !returned ==> r == f
  {
    SaveChecked(if returned then SaveConfirmedFlags(f) else f)
  }

  /** LoadConfirmed: both load flags cleared. */
  function LoadConfirmedFlags(f: Flags): Flags {
    f.(loadRequested := false, loadFailed := false)
  }

  /** The CheckLoadElements pass: an item still waiting for its load gets LoadError. */
  function LoadChecked(f: Flags): Flags {
    if f.loadRequested then f.(loadRequested := false, loadFailed := true) else f
  }

  /**
   * A chunk item after a load answer: no item is left waiting; an item ends
   * failed exactly when its key is missing and it was waiting or had already
   * failed; the save flags are untouched.
   */
  function LoadReconciled(f: Flags, returned: bool): (r: Flags)
    ensures !r.loadRequested
    ensures r.loadFailed <==> !returned && (f.loadRequested || f.loadFailed)
    ensures r.saveRequested == f.saveRequested && r.saveFailed == f.saveFailed
  {
    LoadChecked(if returned then LoadConfirmedFlags(f) else f)
  }

  /** An item answered by both a save and a load (in either order) is ready again. */
  lemma ReadyAfterAnswers(f: Flags, saved: bool, loaded: bool)
    ensures !LoadReconciled(SaveReconciled(f, saved), loaded).saveRequested
    ensures !LoadReconciled(SaveReconciled(f, saved), loaded).loadRequested
    ensures !SaveReconciled(LoadReconciled(f, loaded), saved).saveRequested
    ensures !SaveReconciled(LoadReconciled(f, loaded), saved).loadRequested
  {
  }

  // ---------------------------------------------------------------------
  // Chunk contents
  // ---------------------------------------------------------------------

  /** The data identifiers of a chunk, in order. */
  function Identifiers(items: seq<Saveable>): (ids: seq<string>)
    ensures |ids| == |items|
    ensures forall i :: 0 <= i < |items| ==> ids[i] == items[i].identifier
  {
    seq(|items|, i requires 0 <= i < |items| => items[i].identifier)
  }

  /** The serialised payloads of a chunk, in order. */
  function Payloads(items: seq<Saveable>): (p: seq<string>)
    reads items
    ensures |p| == |items|
    ensures forall i :: 0 <= i < |items| ==> p[i] == items[i].payload
  {
    seq(|items|, i requires 0 <= i < |items| reads items => items[i].payload)
  }

  /** The identifier -> payload map a save task sends for its chunk. */
  function RequestMap(items: seq<Saveable>): map<string, string>
    reads items
  {
    ZipMap(Identifiers(items), Payloads(items))
  }

  /** With distinct identifiers, the request has one entry per item, holding that item's payload. */
  lemma RequestMapContents(items: seq<Saveable>)
    requires NoDuplicates(Identifiers(items))
    ensures |RequestMap(items)| == |items|
    ensures RequestMap(items).Keys == set i | 0 <= i < |items| :: items[i].identifier
    ensures forall i :: 0 <= i < |items| ==> RequestMap(items)[items[i].identifier] == items[i].payload
  {
    var ids, pays := Identifiers(items), Payloads(items);
    ZipMapDistinct(ids, pays);
    IdentifierSet(items);
  }

  /** The keys of a request are the identifiers of its items. */
  lemma IdentifierSet(items: seq<Saveable>)
    ensures (set k | k in Identifiers(items)) == set i | 0 <= i < |items| :: items[i].identifier
  {
    var ids := Identifiers(items);
    forall k | k in ids
      ensures exists i :: 0 <= i < |items| && items[i].identifier == k
    {
      var i :| 0 <= i < |ids| && ids[i] == k;
    }
  }

  // ---------------------------------------------------------------------
  // Saveable (P_Saveable)
  // ---------------------------------------------------------------------

  /**
   * Something saved to and loaded from the remote store. The abstract members
   * of the source are fixed here: GetDataIdentifier is `identifier`,
   * SaveThisIntoJson returns `payload`, LoadThisFromJson appends to `loaded`,
   * and the virtual CanSave answers `canSave`. The save conditions are the
   * current values of the reactive booleans they refer to.
   */
  class Saveable {
    const identifier: string
    var payload: string
    var saveConditions: seq<bool>
    var canSave: bool
    var saveQueue: InteractionTasks?
    var saveRequested: bool
    var saveFailed: bool
    var loadRequested: bool
    var loadFailed: bool
    var loaded: seq<LoadedJson>

    constructor (identifier: string, payload: string, saveConditions: seq<bool>, canSave: bool)
      ensures this.identifier == identifier
      ensures State() == SaveableState(Flags(false, false, false, false), payload, saveConditions, canSave, null, [])
    {
      this.identifier := identifier;
      this.payload := payload;
      this.saveConditions := saveConditions;
      this.canSave := canSave;
      saveQueue := null;
      saveRequested, saveFailed := false, false;
      loadRequested, loadFailed := false, false;
      loaded := [];
    }

    /** The four flags as one value. */
    function Status(): Flags
      reads this
    {
      Flags(saveRequested, saveFailed, loadRequested, loadFailed)
    }

    function State(): SaveableState
      reads this
    {
      SaveableState(Status(), payload, saveConditions, canSave, saveQueue, loaded)
    }

    /**
     * The item can be manipulated: neither a save nor a load is outstanding,
     * whatever the failure flags say. A ready item's save gate depends on its
     * conditions and CanSave alone.
     */
    predicate SaveableReady()
      reads this
      ensures SaveableReady() <==> Status().(saveFailed := false, loadFailed := false) == Flags(false, false, false, false)
      ensures SaveableReady() ==> (SaveGateOpen() <==> ConditionsHold() && canSave)
    {
      !saveRequested && !loadRequested
    }

    /** Every save condition currently holds. */
    predicate ConditionsHold()
      reads this
    {
      forall i :: 0 <= i < |saveConditions| ==> saveConditions[i]
    }

    /** A save is not already outstanding, and then every save condition holds (checked in order). */
    method CheckAllConditions() returns (r: bool)
      ensures r <==> !saveRequested && ConditionsHold()
    {
      if saveRequested {
        return false;
      }
      var i := 0;
      while i < |saveConditions|
        invariant 0 <= i <= |saveConditions|
        invariant forall k :: 0 <= k < i ==> saveConditions[k]
      {
        if !saveConditions[i] {
          return false;
        }
        i := i + 1;
      }
      return true;
    }

    /** The gate of RequestSaveSchedule: not already saving, every condition met, CanSave. */
    predicate SaveGateOpen()
      reads this
    {
      !saveRequested && ConditionsHold() && canSave
    }

    /**
     * Schedules a save of this item on its save queue. A closed gate returns
     * quietly. With the gate open, a missing save queue or an outstanding load
     * fails the sanity assertions; otherwise the item is handed to the queue,
     * which keeps a single entry for it. The item itself never changes: in
     * particular SaveRequested is not set.
     */
    method RequestSaveSchedule() returns (ok: bool)
      requires saveQueue != null ==> saveQueue.Valid()
      modifies if saveQueue != null then {saveQueue} else {}
      ensures unchanged(this)
      ensures saveQueue != null ==> saveQueue.OnlyPendingChanged()
      ensures saveQueue != null ==> saveQueue.Valid()
      ensures !SaveGateOpen() ==> ok
      ensures SaveGateOpen() ==> (ok <==> saveQueue != null && !loadRequested)
      ensures ok && SaveGateOpen() ==> saveQueue.pending == ScheduleOnce(old(saveQueue.pending), this)
      ensures !(ok && SaveGateOpen()) && saveQueue != null ==> saveQueue.pending == old(saveQueue.pending)
    {
      var conditions := CheckAllConditions();
      if !conditions || !canSave {
        return true;
      }
      if saveQueue == null || loadRequested {
        return false;
      }
      saveQueue.ScheduleThis(this);
      return true;
    }

    /** Registers the save queue, replacing any previous one. */
    method RegisterSaveGroup(queue: InteractionTasks)
      requires queue.kind == SaveKind
      modifies this`saveQueue
      ensures saveQueue == queue
    {
      saveQueue := queue;
    }

    method SaveConfirmed(itemSavedValue: string)
      modifies this`saveRequested, this`saveFailed
      ensures Status() == SaveConfirmedFlags(old(Status()))
    {
      saveRequested := false;
      saveFailed := false;
    }

    method SaveError()
      modifies this`saveRequested, this`saveFailed
      ensures Status() == old(Status()).(saveRequested := false, saveFailed := true)
    {
      saveRequested := false;
      saveFailed := true;
    }

    /** The load-group hook; the base saveable does nothing with it. */
    method RegisterLoadGroup(loadGroup: InteractionTasks)
      requires loadGroup.kind == LoadKind
      ensures State() == old(State())
    {
    }

    method RequestLoad()
      modifies this`loadRequested
      ensures Status() == old(Status()).(loadRequested := true)
    {
      loadRequested := true;
    }

    method LoadError()
      modifies this`loadRequested, this`loadFailed
      ensures Status() == old(Status()).(loadRequested := false, loadFailed := true)
    {
      loadRequested := false;
      loadFailed := true;
    }

    /** Clears both load flags, then hands the payload and its time to LoadThisFromJson. */
    method LoadConfirmed(jsonData: string, dateTime: int)
      modifies this`loadRequested, this`loadFailed, this`loaded
      ensures Status() == LoadConfirmedFlags(old(Status()))
      ensures loaded == old(loaded) + [LoadedJson(jsonData, dateTime)]
    {
      loadRequested := false;
      loadFailed := false;
      LoadThisFromJson(jsonData, dateTime);
    }

    method LoadThisFromJson(jsonData: string, dateTime: int)
      modifies this`loaded
      ensures loaded == old(loaded) + [LoadedJson(jsonData, dateTime)]
    {
      loaded := loaded + [LoadedJson(jsonData, dateTime)];
    }

    /** Forgets the save queue and clears the four flags. */
    method ResetThis()
      modifies this`saveQueue, this`saveRequested, this`saveFailed, this`loadRequested, this`loadFailed
      ensures saveQueue == null && Status() == Flags(false, false, false, false)
    {
      saveQueue := null;
      loadRequested := false;
      loadFailed := false;
      saveRequested := false;
      saveFailed := false;
    }
  }

  // ---------------------------------------------------------------------
  // Tasks (P_SaveableTask, P_SaveTask, P_LoadTask)
  // ---------------------------------------------------------------------

  /**
   * A reusable pool task that sends one chunk. `completions` counts the
   * OnComplete events fired. The save fields (`isPrivate`, `dataContainer`)
   * and the load fields (`desiredKeys`, `playfabIdToLoad`) are used by the
   * matching kind only. The chunk starts empty; the source allocates an
   * array of ten empty slots that no code path reads before a setup.
   * `hasChunk` is false once the task completed: the source then holds no
   * chunk at all (null), and every later use of it raises.
   */
  class SaveableTask {
    const kind: TaskKind
    var isRunning: bool
    var taskId: int
    var taskData: seq<Saveable>
    var hasChunk: bool
    var dataTransfer: PlayfabDataTransfer?
    var completions: nat
    var isPrivate: bool
    var dataContainer: map<string, string>
    var desiredKeys: seq<string>
    var playfabIdToLoad: string

    constructor (kind: TaskKind)
      ensures this.kind == kind && !isRunning
      ensures taskId == 0 && taskData == [] && hasChunk && dataTransfer == null && completions == 0
      ensures isPrivate && dataContainer == map[] && desiredKeys == [] && playfabIdToLoad == ""
    {
      this.kind := kind;
      isRunning := false;
      taskId := 0;
      taskData := [];
      hasChunk := true;
      dataTransfer := null;
      completions := 0;
      isPrivate := true;
      dataContainer := map[];
      desiredKeys := [];
      playfabIdToLoad := "";
    }

    method InjectData(dataTransfer: PlayfabDataTransfer, taskId: int)
      modifies this`dataTransfer, this`taskId
      ensures this.dataTransfer == dataTransfer && this.taskId == taskId
    {
      this.dataTransfer := dataTransfer;
      this.taskId := taskId;
    }

    /** What the task was last set up with. */
    function Configuration(): TaskSetup
      reads this
    {
      TaskSetup(taskData, hasChunk, playfabIdToLoad)
    }

    method SetupSaveTask(isPrivate: bool, elementsToSave: seq<Saveable>)
      requires kind == SaveKind
      modifies this`isPrivate, this`taskData, this`hasChunk
      ensures this.isPrivate == isPrivate && taskData == elementsToSave && hasChunk
    {
      this.isPrivate := isPrivate;
      taskData := elementsToSave;
      hasChunk := true;
    }

    method SetupLoadTask(idToLoad: string, elementsToLoad: seq<Saveable>)
      requires kind == LoadKind
      modifies this`playfabIdToLoad, this`taskData, this`hasChunk
      ensures playfabIdToLoad == idToLoad && taskData == elementsToLoad && hasChunk
    {
      playfabIdToLoad := idToLoad;
      taskData := elementsToLoad;
      hasChunk := true;
    }

    /**
     * What the external task queue runs: marks the task running, asserts the
     * chunk fits one request, then sends it. The send's own answer is ignored,
     * so a rejected send leaves the task running and subscribed. A completed
     * task has no chunk, and reading its size raises.
     */
    method ProcessTask() returns (ok: bool)
      requires dataTransfer != null && dataTransfer.Valid()
      modifies this`isRunning, this`dataContainer, this`desiredKeys, dataTransfer, taskData
      ensures isRunning && dataTransfer.Valid()
      ensures !hasChunk || |taskData| > Basics.MaxRequestAmount ==>
        && !ok && unchanged(dataTransfer) && unchanged(taskData)
        && dataContainer == old(dataContainer) && desiredKeys == old(desiredKeys)
      ensures hasChunk && |taskData| <= Basics.MaxRequestAmount && kind == SaveKind ==>
        && (ok <==> NoDuplicates(Identifiers(taskData)))
        && unchanged(taskData) && desiredKeys == old(desiredKeys)
        && (!ok ==> unchanged(dataTransfer))
        && (ok ==> SaveSent(dataTransfer))
      ensures hasChunk && |taskData| <= Basics.MaxRequestAmount && kind == LoadKind ==>
        ok && dataContainer == old(dataContainer) && LoadSent(dataTransfer)
    {
      isRunning := true;
      if !hasChunk || |taskData| > Basics.MaxRequestAmount {
        return false;
      }
      if kind == SaveKind {
        ok := SendSaveGroup();
      } else {
        SendLoadGroup();
        ok := true;
      }
    }

    /** The effect of a successful save send: request map built, handler subscribed, call issued. */
    twostate predicate SaveSent(t: PlayfabDataTransfer)
      reads this, t, taskData
    {
      && dataContainer == RequestMap(taskData)
      && t.saveHandlers == old(t.saveHandlers) + multiset{this}
      && t.loadHandlers == old(t.loadHandlers)
      && CallIssued(t, UpdateUserData(dataContainer, isPrivate))
    }

    /**
     * The effect of a load send: the key list is the chunk's identifiers in
     * order, every chunk item is marked LoadRequested and nothing else of it
     * changes, the handler is subscribed and the call issued.
     */
    twostate predicate LoadSent(t: PlayfabDataTransfer)
      reads this, t, taskData
    {
      && taskData == old(taskData)
      && desiredKeys == Identifiers(taskData)
      && (forall i :: 0 <= i < |taskData| ==>
            taskData[i].State() == old(taskData[i].State()).(flags := old(taskData[i].Status()).(loadRequested := true)))
      && t.loadHandlers == old(t.loadHandlers) + multiset{this}
      && t.saveHandlers == old(t.saveHandlers)
      && CallIssued(t, GetUserData(desiredKeys, TargetPlayer(playfabIdToLoad)))
    }

    /** P_SaveTask.SendGroup: builds the request map, subscribes, sends. */
    method SendSaveGroup() returns (ok: bool)
      requires dataTransfer != null && dataTransfer.Valid()
      modifies this`dataContainer, dataTransfer
      ensures dataTransfer.Valid()
      ensures ok <==> NoDuplicates(Identifiers(taskData))
      ensures !ok ==> unchanged(dataTransfer)
      ensures ok ==> SaveSent(dataTransfer)
    {
      ok := AddElementsToTransporter();
      if !ok {
        return;
      }
      dataTransfer.SubscribeToSave(this);
      var _ := dataTransfer.SaveDataToPlayfab(dataContainer, isPrivate);
    }

    /**
     * The loop of AddElementToTransporter calls: clears the container and adds
     * identifier -> payload for each item in order; a repeated identifier
     * fails the assertion.
     */
    method AddElementsToTransporter() returns (ok: bool)
      modifies this`dataContainer
      ensures ok <==> NoDuplicates(Identifiers(taskData))
      ensures ok ==> dataContainer == RequestMap(taskData)
    {
      ghost var ids, pays := Identifiers(taskData), Payloads(taskData);
      dataContainer := map[];
      var i := 0;
      while i < |taskData|
        invariant 0 <= i <= |taskData|
        invariant NoDuplicates(ids[..i])
        invariant dataContainer == ZipMap(ids[..i], pays[..i])
      {
        var keyValue := taskData[i].identifier;
        var jsonToSave := taskData[i].payload;
        PrefixSnoc(ids, i);
        PrefixSnoc(pays, i);
        if keyValue in dataContainer {
          RepeatedElement(ids, i);
          return false;
        }
        AppendFresh(ids[..i], keyValue);
        ZipMapSnoc(ids[..i], pays[..i], keyValue, jsonToSave);
        dataContainer := dataContainer[keyValue := jsonToSave];
        i := i + 1;
      }
      assert ids[..i] == ids && pays[..i] == pays;
      assert dataContainer == ZipMap(ids, pays);
      assert Payloads(taskData) == pays;
      return true;
    }

    /** P_LoadTask.SendGroup: collects the keys and marks the items, subscribes, sends. */
    method SendLoadGroup()
      requires dataTransfer != null && dataTransfer.Valid()
      modifies this`desiredKeys, dataTransfer, taskData
      ensures dataTransfer.Valid()
      ensures LoadSent(dataTransfer)
    {
      AddSaveables();
      dataTransfer.SubscribeToLoad(this);
      var _ := dataTransfer.LoadDataFromPlayfab(desiredKeys, playfabIdToLoad);
    }

    /**
     * The loop of AddSaveable calls: the key list becomes the chunk's
     * identifiers in order and every item is marked LoadRequested.
     */
    method AddSaveables()
      modifies this`desiredKeys, taskData
      ensures desiredKeys == Identifiers(taskData)
      ensures forall i :: 0 <= i < |taskData| ==>
        taskData[i].State() == old(taskData[i].State()).(flags := old(taskData[i].Status()).(loadRequested := true))
    {
      desiredKeys := [];
      var i := 0;
      while i < |taskData|
        invariant 0 <= i <= |taskData|
        invariant desiredKeys == Identifiers(taskData[..i])
        invariant forall j :: 0 <= j < |taskData| ==>
          taskData[j].State() == old(taskData[j].State()).(flags :=
            if taskData[j] in taskData[..i] then old(taskData[j].Status()).(loadRequested := true)
            else old(taskData[j].Status()))
      {
        assert taskData[..i + 1] == taskData[..i] + [taskData[i]];
        desiredKeys := desiredKeys + [taskData[i].identifier];
        taskData[i].RequestLoad();
        i := i + 1;
      }
      assert taskData[..i] == taskData;
    }

    /**
     * P_SaveTask.Handle_SaveData: unsubscribes, confirms every chunk item whose
     * key came back, fails the items still waiting, then completes. A returned
     * key shared by several chunk items raises, leaving the task incomplete;
     * so does any answer once the task has completed and holds no chunk.
     */
    method HandleSaveData(dataSaved: map<string, string>) returns (ok: bool)
      requires dataTransfer != null
      modifies this`isRunning, this`taskData, this`hasChunk, this`completions, dataTransfer`saveHandlers, taskData
      ensures dataTransfer.saveHandlers == old(dataTransfer.saveHandlers) - multiset{this}
      ensures ok <==> old(hasChunk) && forall k :: k in dataSaved ==> AtMostOnce(Identifiers(old(taskData)), k)
      ensures ok ==> !isRunning && !hasChunk && taskData == [] && completions == old(completions) + 1
      ensures !ok ==>
        && isRunning == old(isRunning) && hasChunk == old(hasChunk)
        && taskData == old(taskData) && completions == old(completions)
      ensures !old(hasChunk) ==> unchanged(taskData)
      ensures ok ==> forall i :: 0 <= i < |old(taskData)| ==>
        old(taskData)[i].State() == old(taskData[i].State()).(flags :=
          SaveReconciled(old(taskData[i].Status()), old(taskData)[i].identifier in dataSaved))
    {
      dataTransfer.UnSubscribeToSave(this);
      if !hasChunk {
        return false;
      }
      ok := ConfirmItemsSaved(dataSaved);
      if !ok {
        return;
      }
      CheckElements();
      CompleteTask();
    }

    /**
     * The ConfirmItemSaved calls, one per returned key in any order: the single
     * chunk item with that identifier is confirmed; a key no item has is
     * skipped; a key several items have raises.
     */
    method ConfirmItemsSaved(dataSaved: map<string, string>) returns (ok: bool)
      modifies taskData
      ensures ok <==> forall k :: k in dataSaved ==> AtMostOnce(Identifiers(taskData), k)
      ensures ok ==> forall i :: 0 <= i < |taskData| ==>
        taskData[i].State() == old(taskData[i].State()).(flags :=
          if taskData[i].identifier in dataSaved then SaveConfirmedFlags(old(taskData[i].Status()))
          else old(taskData[i].Status()))
    {
      var items := taskData;
      var ids := Identifiers(items);
      var rest := dataSaved.Keys;
      while rest != {}
        invariant rest <= dataSaved.Keys
        invariant forall k :: k in dataSaved && k !in rest ==> AtMostOnce(ids, k)
        invariant forall i :: 0 <= i < |items| ==>
          items[i].State() == old(items[i].State()).(flags := items[i].Status())
        invariant forall i :: 0 <= i < |items| ==>
          items[i].Status() ==
            if ids[i] in dataSaved.Keys - rest then SaveConfirmedFlags(old(items[i].Status()))
            else old(items[i].Status())
        decreases rest
      {
        var key :| key in rest;
        ok := ConfirmItemSaved(key, dataSaved[key]);
        if !ok {
          return;
        }
        rest := rest - {key};
      }
      return true;
    }

    /**
     * ConfirmItemSaved: the single chunk item with this identifier is
     * confirmed; nothing happens when no item has it; several items with it
     * raise (SingleOrDefault).
     */
    method ConfirmItemSaved(key: string, value: string) returns (ok: bool)
      modifies taskData
      ensures ok <==> AtMostOnce(Identifiers(taskData), key)
      ensures !ok ==> unchanged(taskData)
      ensures forall i :: 0 <= i < |taskData| ==>
        taskData[i].State() == old(taskData[i].State()).(flags := taskData[i].Status())
      ensures ok ==> forall i :: 0 <= i < |taskData| ==>
        taskData[i].Status() ==
          if taskData[i].identifier == key then SaveConfirmedFlags(old(taskData[i].Status()))
          else old(taskData[i].Status())
    {
      var ids := Identifiers(taskData);
      var found := SingleIndex(ids, key);
      if found == Several {
        return false;
      }
      if found.Single? {
        var idx := found.index;
        taskData[idx].SaveConfirmed(value);
      }
      return true;
    }

    /** Every chunk item still waiting for its save gets SaveError. */
    method CheckElements()
      modifies taskData
      ensures forall i :: 0 <= i < |taskData| ==>
        taskData[i].State() == old(taskData[i].State()).(flags := SaveChecked(old(taskData[i].Status())))
    {
      var i := 0;
      while i < |taskData|
        invariant 0 <= i <= |taskData|
        invariant forall j :: 0 <= j < |taskData| ==>
          taskData[j].State() == old(taskData[j].State()).(flags :=
            if taskData[j] in taskData[..i] then SaveChecked(old(taskData[j].Status()))
            else old(taskData[j].Status()))
      {
        assert taskData[..i + 1] == taskData[..i] + [taskData[i]];
        if taskData[i].saveRequested {
          taskData[i].SaveError();
        }
        i := i + 1;
      }
      assert taskData[..i] == taskData;
    }

    /**
     * P_LoadTask.Handle_LoadData: unsubscribes, confirms every chunk item whose
     * key came back with that key's value and time, fails the items still
     * waiting, then completes. The handler raises, leaving the task incomplete,
     * when a returned key has no time, is shared by several chunk items, or
     * belongs to an item that was not waiting for a load, and whenever the
     * task has completed and holds no chunk.
     */
    method HandleLoadData(dataLoaded: map<string, string>, timeOfUpdate: map<string, int>) returns (ok: bool)
      requires dataTransfer != null
      modifies this`isRunning, this`taskData, this`hasChunk, this`completions, dataTransfer`loadHandlers, taskData
      ensures dataTransfer.loadHandlers == old(dataTransfer.loadHandlers) - multiset{this}
      ensures ok <==> old(hasChunk) && old(LoadAnswerAccepted(taskData, dataLoaded, timeOfUpdate))
      ensures ok ==> !isRunning && !hasChunk && taskData == [] && completions == old(completions) + 1
      ensures !ok ==>
        && isRunning == old(isRunning) && hasChunk == old(hasChunk)
        && taskData == old(taskData) && completions == old(completions)
      ensures !old(hasChunk) ==> unchanged(taskData)
      ensures ok ==> forall i :: 0 <= i < |old(taskData)| ==>
        old(taskData)[i].State() == old(taskData[i].State()).(
          flags := LoadReconciled(old(taskData[i].Status()), old(taskData)[i].identifier in dataLoaded),
          loaded := old(taskData[i].loaded) + LoadedEntry(old(taskData)[i].identifier, dataLoaded, timeOfUpdate))
    {
      ghost var accepted := LoadAnswerAccepted(taskData, dataLoaded, timeOfUpdate);
      dataTransfer.UnSubscribeToLoad(this);
      if !hasChunk {
        return false;
      }
      assert accepted == LoadAnswerAccepted(taskData, dataLoaded, timeOfUpdate);
      ok := LoadItems(dataLoaded, timeOfUpdate);
      if !ok {
        return;
      }
      CheckLoadElements();
      CompleteTask();
    }

    /**
     * A load answer is handled without raising exactly when every returned key
     * has a time, no two chunk items share a returned key, and every chunk item
     * whose key came back was waiting for a load.
     */
    ghost predicate LoadAnswerAccepted(items: seq<Saveable>, dataLoaded: map<string, string>, timeOfUpdate: map<string, int>)
      reads items
    {
      && dataLoaded.Keys <= timeOfUpdate.Keys
      && (forall k :: k in dataLoaded ==> AtMostOnce(Identifiers(items), k))
      && (forall i :: 0 <= i < |items| && items[i].identifier in dataLoaded ==> items[i].loadRequested)
    }

    /** The LoadThisFromJson call an item with this key receives from the answer, if any. */
    function LoadedEntry(key: string, dataLoaded: map<string, string>, timeOfUpdate: map<string, int>): seq<LoadedJson>
      requires dataLoaded.Keys <= timeOfUpdate.Keys
    {
      if key in dataLoaded then [LoadedJson(dataLoaded[key], timeOfUpdate[key])] else []
    }

    /**
     * The LoadSingleItem calls, one per returned key in any order, each with
     * that key's time: the single chunk item with the key is confirmed with
     * the value and time; a key no item has is skipped.
     */
    method LoadItems(dataLoaded: map<string, string>, timeOfUpdate: map<string, int>) returns (ok: bool)
      modifies taskData
      ensures ok <==> old(LoadAnswerAccepted(taskData, dataLoaded, timeOfUpdate))
      ensures ok ==> forall i :: 0 <= i < |taskData| ==>
        taskData[i].State() == old(taskData[i].State()).(
          flags := if taskData[i].identifier in dataLoaded then LoadConfirmedFlags(old(taskData[i].Status()))
                   else old(taskData[i].Status()),
          loaded := old(taskData[i].loaded) + LoadedEntry(taskData[i].identifier, dataLoaded, timeOfUpdate))
    {
      var items := taskData;
      var ids := Identifiers(items);
      var rest := dataLoaded.Keys;
      while rest != {}
        invariant rest <= dataLoaded.Keys
        invariant forall k :: k in dataLoaded && k !in rest ==> k in timeOfUpdate && AtMostOnce(ids, k)
        invariant forall i :: 0 <= i < |items| && ids[i] in dataLoaded && ids[i] !in rest ==> old(items[i].loadRequested)
        invariant forall i :: 0 <= i < |items| ==>
          if ids[i] in dataLoaded && ids[i] !in rest then
            items[i].State() == old(items[i].State()).(
              flags := LoadConfirmedFlags(old(items[i].Status())),
              loaded := old(items[i].loaded) + [LoadedJson(dataLoaded[ids[i]], timeOfUpdate[ids[i]])])
          else items[i].State() == old(items[i].State())
        decreases rest
      {
        var key :| key in rest;
        if key !in timeOfUpdate {
          return false;
        }
        ok := LoadSingleItem(key, dataLoaded[key], timeOfUpdate[key]);
        if !ok {
          return;
        }
        rest := rest - {key};
      }
      return true;
    }

    /**
     * LoadSingleItem: the single chunk item with this identifier must be
     * waiting for a load, and is confirmed with the value and time; nothing
     * happens when no item has it. Several items with it raise
     * (SingleOrDefault), and so does an item that was not waiting.
     */
    method LoadSingleItem(key: string, value: string, time: int) returns (ok: bool)
      modifies taskData
      ensures ok <==> (AtMostOnce(Identifiers(taskData), key) &&
        forall i :: 0 <= i < |taskData| && taskData[i].identifier == key ==> old(taskData[i].loadRequested))
      ensures !ok ==> unchanged(taskData)
      ensures ok ==> forall i :: 0 <= i < |taskData| ==>
        if taskData[i].identifier == key then
          taskData[i].State() == old(taskData[i].State()).(
            flags := LoadConfirmedFlags(old(taskData[i].Status())),
            loaded := old(taskData[i].loaded) + [LoadedJson(value, time)])
        else taskData[i].State() == old(taskData[i].State())
    {
      var ids := Identifiers(taskData);
      var found := SingleIndex(ids, key);
      if found == Several {
        return false;
      }
      if found.Single? {
        var idx := found.index;
        if !taskData[idx].loadRequested {
          return false;
        }
        taskData[idx].LoadConfirmed(value, time);
      }
      return true;
    }

    /** Every chunk item still waiting for its load gets LoadError. */
    method CheckLoadElements()
      modifies taskData
      ensures forall i :: 0 <= i < |taskData| ==>
        taskData[i].State() == old(taskData[i].State()).(flags := LoadChecked(old(taskData[i].Status())))
    {
      var i := 0;
      while i < |taskData|
        invariant 0 <= i <= |taskData|
        invariant forall j :: 0 <= j < |taskData| ==>
          taskData[j].State() == old(taskData[j].State()).(flags :=
            if taskData[j] in taskData[..i] then LoadChecked(old(taskData[j].Status()))
            else old(taskData[j].Status()))
      {
        assert taskData[..i + 1] == taskData[..i] + [taskData[i]];
        if taskData[i].loadRequested {
          taskData[i].LoadError();
        }
        i := i + 1;
      }
      assert taskData[..i] == taskData;
    }

    /** Fires OnComplete, then frees the slot: not running and no chunk (the source's null). */
    method CompleteTask()
      modifies this`completions, this`isRunning, this`taskData, this`hasChunk
      ensures completions == old(completions) + 1 && !isRunning && !hasChunk && taskData == []
    {
      completions := completions + 1;
      isRunning := false;
      taskData := [];
      hasChunk := false;
    }
  }

  /** What a pool task was set up with: its chunk, whether it holds one, and the player id it loads from. */
  datatype TaskSetup = TaskSetup(chunk: seq<Saveable>, hasChunk: bool, playerId: string)

  /** The setup of a task the pool has just built: an empty chunk and no player id. */
  const FreshSetup: TaskSetup := TaskSetup([], true, "")

  /** The setups of the given pool tasks, slot by slot. */
  function Configurations(pool: seq<SaveableTask>): (r: seq<TaskSetup>)
    reads pool
    ensures |r| == |pool|
  {
    seq(|pool|, k requires 0 <= k < |pool| reads pool => pool[k].Configuration())
  }

  /** The setups the rounds of a drain give their slots: each chunk, with the manager's player id. */
  function ConfiguredAll(chunks: seq<seq<Saveable>>, playerId: string): (r: seq<TaskSetup>)
    ensures |r| == |chunks|
  {
    seq(|chunks|, j requires 0 <= j < |chunks| => TaskSetup(chunks[j], true, playerId))
  }

  /**
   * After i rounds of a drain of q0 that started on slot start, the pool's
   * setups are those it had (conf0) with each round's chunk, and the
   * manager's player id, replacing what its slot held.
   */
  predicate SlotsHold(confs: seq<TaskSetup>, conf0: seq<TaskSetup>, start: nat, q0: seq<Saveable>, max: nat,
                      i: nat, playerId: string)
  {
    |conf0| > 0 && confs == Holdings(conf0, start, ConfiguredAll(Chunks(q0, max, i), playerId))
  }

  /** One more round of a drain: the next chunk replaces what the slot under the cursor held. */
  lemma SlotsHoldStep(confs: seq<TaskSetup>, conf0: seq<TaskSetup>, start: nat, q0: seq<Saveable>, max: nat,
                      i: nat, playerId: string, cursor: nat, q: seq<Saveable>)
    requires SlotsHold(confs, conf0, start, q0, max, i, playerId)
    requires cursor == (start + i) % |conf0| && q == Rest(q0, max, i)
    ensures cursor < |confs|
    ensures SlotsHold(confs[cursor := TaskSetup(Take(q, max), true, playerId)], conf0, start, q0, max, i + 1, playerId)
  {
    var c := ConfiguredAll(Chunks(q0, max, i), playerId);
    var x := TaskSetup(Take(q, max), true, playerId);
    assert ConfiguredAll(Chunks(q0, max, i + 1), playerId) == c + [x];
    HoldingsSnoc(conf0, start, c, x);
  }

  // ---------------------------------------------------------------------
  // Queue managers (P_InteractionTasks, P_SaveGroupQueue, P_LoadGroupQueue)
  // ---------------------------------------------------------------------

  /**
   * A queue manager: a pending FIFO of saveables drained in chunks onto a
   * pool of `allocatedTask` reusable tasks. The external task queue only
   * records what it is given: `scheduled` lists the tasks handed to it, in
   * order, and `dispatchedChunks` the chunk each carried at that moment. No
   * task runs during a drain, so with more chunks than slots a slot is set
   * up again before it ran.
   */
  class InteractionTasks {
    const kind: TaskKind
    const maxElementsToSend: Positive
    const allocatedTask: Positive
    const groupOfElements: seq<Saveable>
    const dataTransfer: PlayfabDataTransfer
    /** P_SaveGroupQueue's privacy flag: true, and nothing changes it. */
    const isPrivate: bool := true
    /** P_LoadGroupQueue's player id; "" stands for the source's initial null (both mean the logged-in player). */
    var playfabIdToLoad: string
    var initialized: bool
    var pending: seq<Saveable>
    var tasks: array?<SaveableTask>
    var nextTask: nat
    var scheduled: seq<SaveableTask>
    ghost var dispatchedChunks: seq<seq<Saveable>>

    constructor (kind: TaskKind, maxElementsToSend: Positive, allocatedTask: Positive,
                 groupOfElements: seq<Saveable>, dataTransfer: PlayfabDataTransfer)
      ensures Valid()
      ensures this.kind == kind && this.maxElementsToSend == maxElementsToSend
      ensures this.allocatedTask == allocatedTask && this.groupOfElements == groupOfElements
      ensures this.dataTransfer == dataTransfer
      ensures playfabIdToLoad == "" && !initialized && pending == [] && tasks == null && nextTask == 0
      ensures scheduled == [] && dispatchedChunks == []
    {
      this.kind := kind;
      this.maxElementsToSend := maxElementsToSend;
      this.allocatedTask := allocatedTask;
      this.groupOfElements := groupOfElements;
      this.dataTransfer := dataTransfer;
      playfabIdToLoad := "";
      initialized := false;
      pending := [];
      tasks := null;
      nextTask := 0;
      scheduled := [];
      dispatchedChunks := [];
    }

    /** The task objects of the pool. */
    function Pool(): seq<SaveableTask>
      reads this, tasks
    {
      if tasks == null then [] else tasks[..]
    }

    /**
     * The pending FIFO has no duplicates, the cursor is a pool index, and an
     * initialized manager has its pool: one task per slot, of this manager's
     * kind, numbered by its slot and wired to this manager's gateway. Every
     * task keeps the privacy flag it was built with, and nothing of a save
     * queue has a player id.
     */
    ghost predicate Valid()
      reads this, tasks, Pool()
    {
      && nextTask < allocatedTask
      && NoDuplicates(pending)
      && (kind == SaveKind ==> playfabIdToLoad == "")
      && (initialized ==> tasks != null)
      && (tasks != null ==>
            && tasks.Length == allocatedTask
            && forall k :: 0 <= k < tasks.Length ==>
                 && tasks[k].kind == kind && tasks[k].taskId == k && tasks[k].dataTransfer == dataTransfer
                 && tasks[k].isPrivate == isPrivate && (kind == SaveKind ==> tasks[k].playfabIdToLoad == ""))
    }

    /** The pool slot under the cursor (the source's _CurrentTask getter on a built pool). */
    function CurrentTask(): (t: SaveableTask)
      requires Valid() && tasks != null
      reads this, tasks, Pool()
      ensures t in Pool() && t.taskId == nextTask
    {
      tasks[nextTask]
    }

    /** Scheduling an item changes the FIFO exactly when it is not pending yet. */
    predicate IsThisScheduled(saveable: Saveable)
      reads this
      ensures IsThisScheduled(saveable) <==> ScheduleOnce(pending, saveable) == pending
    {
      saveable in pending
    }

    /** Nothing of the manager but its pending FIFO changed. */
    twostate predicate OnlyPendingChanged()
      reads this
    {
      && initialized == old(initialized) && tasks == old(tasks) && nextTask == old(nextTask)
      && scheduled == old(scheduled) && dispatchedChunks == old(dispatchedChunks)
      && playfabIdToLoad == old(playfabIdToLoad)
    }

    /** Appends the item to the FIFO unless it is already pending. */
    method ScheduleThis(saveable: Saveable)
      requires Valid()
      modifies this`pending
      ensures Valid()
      ensures pending == ScheduleOnce(old(pending), saveable)
    {
      if IsThisScheduled(saveable) {
        return;
      }
      pending := pending + [saveable];
    }

    /** Dequeues min(max, |pending|) items from the front, in order. */
    method GetArraySegment(maxElements: nat) returns (segment: seq<Saveable>)
      requires Valid()
      modifies this`pending
      ensures Valid()
      ensures segment == Take(old(pending), maxElements) && pending == Drop(old(pending), maxElements)
    {
      var total := maxElements;
      if |pending| < total {
        total := |pending|;
      }
      segment := [];
      var i := 0;
      while i < total
        invariant 0 <= i <= total <= |old(pending)|
        invariant segment == old(pending)[..i] && pending == old(pending)[i..]
        invariant Valid()
      {
        segment := segment + [pending[0]];
        pending := pending[1..];
        i := i + 1;
      }
    }

    /**
     * The assertions of InitiateTasks: a non-empty group, and chunks that fit
     * one request: a segment of min(count, max) items never exceeds the
     * size that ProcessTask asserts. Failing either fails the check.
     */
    function InitSane(): (sane: bool)
      ensures sane ==> |groupOfElements| > 0
      ensures sane ==> forall count: nat :: Min(count, maxElementsToSend) <= Basics.MaxRequestAmount
      ensures !sane ==> |groupOfElements| == 0 || maxElementsToSend > Basics.MaxRequestAmount
    {
      |groupOfElements| > 0 && maxElementsToSend <= Basics.MaxRequestAmount
    }

    /**
     * Does nothing once initialized. Otherwise checks the sanity assertions,
     * registers the group, builds a fresh pool of idle tasks, puts the cursor
     * on slot 0 and marks the manager initialized.
     */
    method InitiateTasks() returns (ok: bool)
      requires Valid()
      modifies this, groupOfElements
      ensures Valid()
      ensures old(initialized) ==> ok && unchanged(this) && unchanged(groupOfElements)
      ensures !old(initialized) ==> (ok <==> InitSane())
      ensures !old(initialized) && !ok ==> unchanged(this) && unchanged(groupOfElements)
      ensures !old(initialized) && ok ==>
        && initialized && nextTask == 0 && fresh(tasks)
        && (forall k :: 0 <= k < tasks.Length ==> fresh(tasks[k]) && !tasks[k].isRunning)
        && Configurations(tasks[..]) == seq(allocatedTask, _ => FreshSetup)
        && Registered()
      ensures pending == old(pending) && scheduled == old(scheduled) && dispatchedChunks == old(dispatchedChunks)
      ensures playfabIdToLoad == old(playfabIdToLoad)
    {
      if initialized {
        return true;
      }
      if !InitSane() {
        return false;
      }
      SpecificInitialization();
      SetupTasks(allocatedTask);
      nextTask := 0;
      initialized := true;
      return true;
    }

    /**
     * The effect of SpecificInitialization on the group: a save queue becomes
     * the save queue of every element; nothing else of an element changes.
     */
    twostate predicate Registered()
      reads this, groupOfElements
    {
      forall i :: 0 <= i < |groupOfElements| ==>
        groupOfElements[i].State() ==
          old(groupOfElements[i].State()).(queue := if kind == SaveKind then this else old(groupOfElements[i].saveQueue))
    }

    /** Save queue: RegisterSaveGroup on every element. Load queue: RegisterLoadGroup on every element. */
    method SpecificInitialization()
      modifies groupOfElements
      ensures Registered()
    {
      var i := 0;
      while i < |groupOfElements|
        invariant 0 <= i <= |groupOfElements|
        invariant forall j :: 0 <= j < |groupOfElements| ==>
          groupOfElements[j].State() ==
            old(groupOfElements[j].State()).(queue :=
              if kind == SaveKind && groupOfElements[j] in groupOfElements[..i] then this
              else old(groupOfElements[j].saveQueue))
      {
        assert groupOfElements[..i + 1] == groupOfElements[..i] + [groupOfElements[i]];
        if kind == SaveKind {
          groupOfElements[i].RegisterSaveGroup(this);
        } else {
          groupOfElements[i].RegisterLoadGroup(this);
        }
        i := i + 1;
      }
      assert groupOfElements[..i] == groupOfElements;
    }

    /** A fresh pool of idle tasks with ids 0..maxTasks-1, wired to the gateway. */
    method SetupTasks(maxTasks: nat)
      modifies this`tasks
      ensures fresh(tasks) && tasks.Length == maxTasks
      ensures forall k :: 0 <= k < maxTasks ==>
        && fresh(tasks[k]) && tasks[k].kind == kind && !tasks[k].isRunning
        && tasks[k].taskId == k && tasks[k].dataTransfer == dataTransfer
        && tasks[k].isPrivate && tasks[k].Configuration() == FreshSetup
    {
      var created: seq<SaveableTask> := [];
      var i := 0;
      while i < maxTasks
        invariant 0 <= i <= maxTasks && |created| == i
        invariant forall k :: 0 <= k < i ==>
          && fresh(created[k]) && created[k].kind == kind && !created[k].isRunning
          && created[k].taskId == k && created[k].dataTransfer == dataTransfer
          && created[k].isPrivate && created[k].Configuration() == FreshSetup
      {
        var newTask := new SaveableTask(kind);
        newTask.InjectData(dataTransfer, i);
        created := created + [newTask];
        i := i + 1;
      }
      tasks := new SaveableTask[maxTasks](k requires 0 <= k < maxTasks => created[k]);
    }

    /**
     * Gives the current pool task the next segment of at most `maxElements`
     * items, with the privacy flag (save) or the player id (load).
     */
    method SetupCurrentTask(maxElements: nat)
      requires Valid() && initialized
      modifies this`pending, CurrentTask()`taskData, CurrentTask()`hasChunk
      modifies CurrentTask()`isPrivate, CurrentTask()`playfabIdToLoad
      ensures Valid()
      ensures pending == Drop(old(pending), maxElements)
      ensures CurrentTask().taskData == Take(old(pending), maxElements) && CurrentTask().hasChunk
      ensures CurrentTask().isPrivate == isPrivate
      ensures CurrentTask().playfabIdToLoad == playfabIdToLoad
    {
      var current := CurrentTask();
      var segment := GetArraySegment(maxElements);
      if kind == SaveKind {
        current.SetupSaveTask(isPrivate, segment);
      } else {
        current.SetupLoadTask(playfabIdToLoad, segment);
      }
    }

    /**
     * The effect of the first i rounds of a drain that started from the
     * pending FIFO and the cursor of the previous state: i chunks were popped
     * and handed, each on the next slot round-robin, to the external queue.
     */
    twostate predicate Dispatched(i: nat)
      reads this, tasks, Pool()
    {
      && tasks != null && tasks.Length > 0 && tasks == old(tasks)
      && DrainedBy(old(pending), maxElementsToSend, tasks[..], old(nextTask), old(scheduled), old(dispatchedChunks),
                   i, pending, nextTask, scheduled, dispatchedChunks)
      && SlotsHold(Configurations(tasks[..]), old(Configurations(tasks[..])), old(nextTask), old(pending),
                   maxElementsToSend, i, playfabIdToLoad)
    }

    /**
     * One round of the drain on an idle current slot: it gets the next chunk
     * and the manager's player id, while every other slot keeps its setup; it
     * is handed to the external queue, and the cursor advances.
     */
    method DispatchOne()
      requires Valid() && initialized && !CurrentTask().isRunning
      modifies this`pending, this`nextTask, this`scheduled, this`dispatchedChunks
      modifies CurrentTask()`taskData, CurrentTask()`hasChunk, CurrentTask()`isPrivate, CurrentTask()`playfabIdToLoad
      ensures Valid() && tasks == old(tasks)
      ensures pending == Drop(old(pending), maxElementsToSend)
      ensures Configurations(tasks[..]) == old(Configurations(tasks[..]))[
                old(nextTask) := TaskSetup(Take(old(pending), maxElementsToSend), true, playfabIdToLoad)]
      ensures scheduled == old(scheduled) + [old(CurrentTask())]
      ensures dispatchedChunks == old(dispatchedChunks) + [Take(old(pending), maxElementsToSend)]
      ensures nextTask == Advance(old(nextTask), allocatedTask)
    {
      var current := CurrentTask();
      ghost var before := Configurations(tasks[..]);
      SetupCurrentTask(maxElementsToSend);
      forall k | 0 <= k < tasks.Length && k != nextTask
        ensures tasks[k] != current
      {
        assert tasks[k].taskId == k;
      }
      assert Configurations(tasks[..]) == before[nextTask := current.Configuration()];
      scheduled := scheduled + [current];
      dispatchedChunks := dispatchedChunks + [current.taskData];
      nextTask := Advance(nextTask, allocatedTask);
    }

    /**
     * The loop of ProcessCurrentQueue: n rounds of "assert the current slot
     * is idle, set it up with the next chunk, hand it to the external queue,
     * advance the cursor". A busy slot raises: the drain stops there with the
     * rounds before it done.
     */
    method DispatchChunks(n: nat) returns (ok: bool)
      requires Valid() && initialized
      modifies this`pending, this`nextTask, this`scheduled, this`dispatchedChunks
      modifies Pool()`taskData, Pool()`hasChunk, Pool()`isPrivate, Pool()`playfabIdToLoad
      ensures Valid() && initialized == old(initialized) && tasks == old(tasks)
      ensures unchanged(groupOfElements)
      ensures forall k :: 0 <= k < tasks.Length ==> tasks[k].isRunning == old(tasks[k].isRunning)
      ensures ok <==> forall j :: 0 <= j < n ==> !Slot(tasks[..], old(nextTask), j).isRunning
      ensures ok ==> Dispatched(n)
      ensures !ok ==> exists i :: 0 <= i < n && Dispatched(i) && Slot(tasks[..], old(nextTask), i).isRunning
    {
      var i;
      ok, i := DrainRounds(pending, tasks[..], nextTask, scheduled, dispatchedChunks, Configurations(tasks[..]), n);
    }

    /**
     * The rounds of DispatchChunks from the state at round 0 (FIFO q0, pool,
     * cursor start, logs sched0 and chunks0, setups conf0): it stops at the
     * first busy slot, i rounds done, or after all n.
     */
    method DrainRounds(ghost q0: seq<Saveable>, ghost pool: seq<SaveableTask>, ghost start: nat,
                       ghost sched0: seq<SaveableTask>, ghost chunks0: seq<seq<Saveable>>,
                       ghost conf0: seq<TaskSetup>, n: nat) returns (ok: bool, i: nat)
      requires Valid() && initialized && tasks[..] == pool
      requires DrainedBy(q0, maxElementsToSend, pool, start, sched0, chunks0, 0, pending, nextTask, scheduled, dispatchedChunks)
      requires Configurations(pool) == conf0
      modifies this`pending, this`nextTask, this`scheduled, this`dispatchedChunks
      modifies Pool()`taskData, Pool()`hasChunk, Pool()`isPrivate, Pool()`playfabIdToLoad
      ensures Valid() && tasks[..] == pool
      ensures i <= n && (ok <==> i == n)
      ensures forall j :: 0 <= j < i ==> !Slot(pool, start, j).isRunning
      ensures !ok ==> Slot(pool, start, i).isRunning
      ensures DrainedBy(q0, maxElementsToSend, pool, start, sched0, chunks0, i, pending, nextTask, scheduled, dispatchedChunks)
      ensures SlotsHold(Configurations(pool), conf0, start, q0, maxElementsToSend, i, playfabIdToLoad)
    {
      i := 0;
      while i < n
        invariant 0 <= i <= n
        invariant Valid() && tasks[..] == pool
        invariant forall j :: 0 <= j < i ==> !Slot(pool, start, j).isRunning
        invariant DrainedBy(q0, maxElementsToSend, pool, start, sched0, chunks0, i, pending, nextTask, scheduled, dispatchedChunks)
        invariant SlotsHold(Configurations(pool), conf0, start, q0, maxElementsToSend, i, playfabIdToLoad)
      {
        DrainStep(q0, maxElementsToSend, pool, start, sched0, chunks0, i, pending, nextTask, scheduled, dispatchedChunks);
        if CurrentTask().isRunning {
          return false, i;
        }
        DispatchRound(q0, start, conf0, i);
        i := i + 1;
      }
      return true, i;
    }

    /** Round i of a drain of q0 from slot start: DispatchOne keeps the slots' setups as SlotsHold says. */
    method DispatchRound(ghost q0: seq<Saveable>, ghost start: nat, ghost conf0: seq<TaskSetup>, ghost i: nat)
      requires Valid() && initialized && !CurrentTask().isRunning
      requires pending == Rest(q0, maxElementsToSend, i) && nextTask == (start + i) % tasks.Length
      requires SlotsHold(Configurations(tasks[..]), conf0, start, q0, maxElementsToSend, i, playfabIdToLoad)
      modifies this`pending, this`nextTask, this`scheduled, this`dispatchedChunks
      modifies CurrentTask()`taskData, CurrentTask()`hasChunk, CurrentTask()`isPrivate, CurrentTask()`playfabIdToLoad
      ensures Valid() && tasks == old(tasks)
      ensures pending == Drop(old(pending), maxElementsToSend)
      ensures SlotsHold(Configurations(tasks[..]), conf0, start, q0, maxElementsToSend, i + 1, playfabIdToLoad)
      ensures scheduled == old(scheduled) + [old(CurrentTask())]
      ensures dispatchedChunks == old(dispatchedChunks) + [Take(old(pending), maxElementsToSend)]
      ensures nextTask == Advance(old(nextTask), allocatedTask)
    {
      SlotsHoldStep(Configurations(tasks[..]), conf0, start, q0, maxElementsToSend, i, playfabIdToLoad, nextTask, pending);
      DispatchOne();
    }

    /**
     * What a drain of the FIFO q0 did, given whether the manager was
     * initialized and what its cursor and logs were when it started. An empty
     * FIFO is a no-op. Otherwise an uninitialized manager is initialized
     * first, failing (and changing nothing) when a sanity assertion fails,
     * and its fresh pool starts at slot 0. Then ChunkCount chunks are
     * dispatched round-robin, which succeeds exactly when every slot it
     * reaches is idle; success leaves the FIFO empty. Each slot a round
     * reached holds the chunk of the last round on it; the others keep the
     * setup they had (conf0), or a fresh one in a new pool.
     */
    ghost predicate DrainOutcome(q0: seq<Saveable>, wasInitialized: bool, start0: nat,
                                 sched0: seq<SaveableTask>, chunks0: seq<seq<Saveable>>,
                                 conf0: seq<TaskSetup>, ok: bool)
      reads this, tasks, Pool()
    {
      var n := ChunkCount(|q0|, maxElementsToSend);
      var start := if wasInitialized then start0 else 0;
      var confStart := if wasInitialized then conf0 else seq(allocatedTask, _ => FreshSetup);
      && (q0 == [] ==> ok)
      && (q0 == [] || (!wasInitialized && !ok) ==>
            pending == q0 && initialized == wasInitialized && nextTask == start0
            && scheduled == sched0 && dispatchedChunks == chunks0 && Configurations(Pool()) == conf0)
      && (q0 != [] && !wasInitialized ==> (ok <==> InitSane()))
      && (q0 != [] && wasInitialized ==>
            tasks != null && tasks.Length > 0
            && (ok <==> forall j :: 0 <= j < n ==> !Slot(tasks[..], start0, j).isRunning))
      && (q0 != [] && wasInitialized && !ok ==>
            exists i :: 0 <= i < n && Slot(tasks[..], start0, i).isRunning
              && DrainedBy(q0, maxElementsToSend, tasks[..], start0, sched0, chunks0,
                           i, pending, nextTask, scheduled, dispatchedChunks)
              && SlotsHold(Configurations(tasks[..]), conf0, start0, q0, maxElementsToSend, i, playfabIdToLoad))
      && (q0 != [] && ok ==>
            initialized && tasks != null && tasks.Length > 0 && pending == []
            && DrainedBy(q0, maxElementsToSend, tasks[..], start, sched0, chunks0,
                         n, pending, nextTask, scheduled, dispatchedChunks)
            && SlotsHold(Configurations(tasks[..]), confStart, start, q0, maxElementsToSend, n, playfabIdToLoad))
    }

    /**
     * n rounds into a drain (as a successful drain ends, see DrainOutcome),
     * the task handed over in round j holds the chunk of the last round on
     * its slot. With no more rounds than slots that is its own chunk. With
     * more, a slot used twice holds a later chunk (LastVisit is then above
     * j): its earlier chunk was overwritten before the task ran, and no
     * task holds it any more.
     */
    lemma DrainedSlotHolds(q0: seq<Saveable>, start: nat, sched0: seq<SaveableTask>, chunks0: seq<seq<Saveable>>,
                           conf0: seq<TaskSetup>, n: nat, j: nat)
      requires tasks != null && tasks.Length > 0 && j < n
      requires DrainedBy(q0, maxElementsToSend, tasks[..], start, sched0, chunks0, n, pending, nextTask, scheduled, dispatchedChunks)
      requires SlotsHold(Configurations(tasks[..]), conf0, start, q0, maxElementsToSend, n, playfabIdToLoad)
      ensures |sched0| + j < |scheduled| && |dispatchedChunks| == |chunks0| + n
      ensures scheduled[|sched0| + j].Configuration() ==
        TaskSetup(dispatchedChunks[|chunks0| + LastVisit(j, n, tasks.Length)], true, playfabIdToLoad)
      ensures n <= tasks.Length ==>
        scheduled[|sched0| + j].Configuration() == TaskSetup(dispatchedChunks[|chunks0| + j], true, playfabIdToLoad)
    {
      var c := ConfiguredAll(Chunks(q0, maxElementsToSend, n), playfabIdToLoad);
      var pool := tasks[..];
      var k := (start + j) % |pool|;
      assert scheduled[|sched0| + j] == Slot(pool, start, j) == pool[k];
      assert Configurations(pool)[k] == pool[k].Configuration();
      HoldingsLatest(conf0, start, c, j);
      if n <= |pool| {
        HoldingsRecent(conf0, start, c, j);
      }
    }

    /**
     * Drains the whole FIFO: nothing to do when it is empty; otherwise
     * initializes on first use and dispatches count / max + 1 chunks.
     */
    method ProcessCurrentQueue() returns (ok: bool)
      requires Valid()
      modifies this, groupOfElements, Pool()`taskData, Pool()`hasChunk, Pool()`isPrivate, Pool()`playfabIdToLoad
      ensures Valid()
      ensures DrainOutcome(old(pending), old(initialized), old(nextTask), old(scheduled), old(dispatchedChunks),
                           old(Configurations(Pool())), ok)
      ensures old(pending) == [] ==> unchanged(this)
      ensures old(pending) != [] && !old(initialized) && ok ==> Registered()
      ensures old(pending) == [] || old(initialized) || !ok ==> unchanged(groupOfElements)
      ensures playfabIdToLoad == old(playfabIdToLoad)
    {
      if |pending| == 0 {
        return true;
      }
      if !initialized {
        var initOk := InitiateTasks();
        if !initOk {
          return false;
        }
      }
      ghost var q0 := pending;
      ok := DispatchChunks(ChunkCount(|pending|, maxElementsToSend));
      if ok {
        ChunksCoverQueue(q0, maxElementsToSend);
      }
    }

    /**
     * Schedules every given item (each at most once in the FIFO), then drains
     * the FIFO. An empty trunk fails its assertion before anything happens.
     */
    method ProcessTrunk(elementsToSave: seq<Saveable>) returns (ok: bool)
      requires Valid()
      modifies this, groupOfElements, Pool()`taskData, Pool()`hasChunk, Pool()`isPrivate, Pool()`playfabIdToLoad
      ensures Valid()
      ensures elementsToSave == [] ==> !ok && unchanged(this)
      ensures elementsToSave != [] ==>
        DrainOutcome(ScheduleAll(old(pending), elementsToSave), old(initialized), old(nextTask),
                     old(scheduled), old(dispatchedChunks), old(Configurations(Pool())), ok)
      ensures elementsToSave != [] && !old(initialized) && ok ==> Registered()
      ensures elementsToSave == [] || old(initialized) || !ok ==> unchanged(groupOfElements)
      ensures playfabIdToLoad == old(playfabIdToLoad)
    {
      if |elementsToSave| == 0 {
        return false;
      }
      ghost var conf0 := Configurations(Pool());
      ScheduleEach(elementsToSave);
      assert Configurations(Pool()) == conf0;
      ok := ProcessCurrentQueue();
    }

    /** The loop of ProcessTrunk: ScheduleThis on every item, in order. */
    method ScheduleEach(elementsToSave: seq<Saveable>)
      requires Valid()
      modifies this`pending
      ensures Valid() && pending == ScheduleAll(old(pending), elementsToSave)
    {
      var i := 0;
      while i < |elementsToSave|
        invariant 0 <= i <= |elementsToSave|
        invariant Valid() && pending == ScheduleAll(old(pending), elementsToSave[..i])
      {
        assert elementsToSave[..i + 1][..i] == elementsToSave[..i];
        ScheduleThis(elementsToSave[i]);
        i := i + 1;
      }
      assert elementsToSave[..i] == elementsToSave;
    }

    /** Schedules and drains the whole group. */
    method ForceSaveAll() returns (ok: bool)
      requires Valid()
      modifies this, groupOfElements, Pool()`taskData, Pool()`hasChunk, Pool()`isPrivate, Pool()`playfabIdToLoad
      ensures Valid()
      ensures groupOfElements == [] ==> !ok && unchanged(this)
      ensures groupOfElements != [] ==>
        DrainOutcome(ScheduleAll(old(pending), groupOfElements), old(initialized), old(nextTask),
                     old(scheduled), old(dispatchedChunks), old(Configurations(Pool())), ok)
      ensures groupOfElements != [] && !old(initialized) && ok ==> Registered()
      ensures groupOfElements == [] || old(initialized) || !ok ==> unchanged(groupOfElements)
    {
      ok := ProcessTrunk(groupOfElements);
    }

    /** P_LoadGroupQueue.SetIdToLoad: later load tasks target this player. */
    method SetIdToLoad(idToLoad: string)
      requires kind == LoadKind
      modifies this`playfabIdToLoad
      ensures playfabIdToLoad == idToLoad
    {
      playfabIdToLoad := idToLoad;
    }

    /**
     * Disabling the asset empties the FIFO and forgets the initialization, so
     * the next drain rebuilds the pool; a load queue also drops its player id.
     */
    method ResetThis()
      requires Valid()
      modifies this`pending, this`initialized, this`playfabIdToLoad
      ensures Valid() && pending == [] && !initialized
      ensures playfabIdToLoad == if kind == LoadKind then "" else old(playfabIdToLoad)
    {
      pending := [];
      initialized := false;
      if kind == LoadKind {
        playfabIdToLoad := "";
      }
    }
  }
}
