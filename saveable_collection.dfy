/**
 * A saveable that stores a whole reactive collection (P_SaveableCollection).
 *
 * The saveable part is the owned `item`: its identifier is the collection's
 * name and its payload is always the serialisation of the tracker, so the
 * tasks that send `item` send what SaveThisIntoJson computes. The unseen
 * reactive collection is the sequence `collection`; `subscriptions` counts
 * how many times this saveable's add and remove handlers are subscribed to
 * it. The concrete subclass's converter (ConvertRequestToData) and the JSON
 * serialiser are the pure functions `convert` and `toJson`.
 */
module SaveableCollections {
  import opened Sequences
  import opened Data

  /**
   * What a caller observes after the item was asked to schedule a save
   * (the contract of Saveable.RequestSaveSchedule): the save queue is the
   * same, only its FIFO may have changed, and the item was appended to it
   * exactly when the gate was open and the sanity checks passed.
   */
  twostate predicate SaveAttempted(s: Saveable, ok: bool)
    reads s, if s.saveQueue != null then {s.saveQueue} else {}
  {
    && s.saveQueue == old(s.saveQueue)
    && (!s.SaveGateOpen() ==> ok)
    && (s.SaveGateOpen() ==> (ok <==> s.saveQueue != null && !s.loadRequested))
    && (s.saveQueue != null ==>
          && s.saveQueue.OnlyPendingChanged()
          && s.saveQueue.pending ==
               if ok && s.SaveGateOpen() then ScheduleOnce(old(s.saveQueue.pending), s)
               else old(s.saveQueue.pending))
  }

  class SaveableCollection<E(==), D> {
    const item: Saveable
    const collectionName: string
    const convert: E -> D
    const toJson: map<E, D> -> string
    var collection: seq<E>
    var tracker: map<E, D>
    var subscriptions: nat

    /** The item is named after the collection and carries the tracker's serialisation. */
    ghost predicate Valid()
      reads this, item
    {
      item.identifier == collectionName && item.payload == toJson(tracker)
    }

    constructor (collectionName: string, collection: seq<E>, convert: E -> D, toJson: map<E, D> -> string,
                 saveConditions: seq<bool>, canSave: bool)
      ensures Valid() && fresh(item)
      ensures this.collectionName == collectionName && this.collection == collection
      ensures this.convert == convert && this.toJson == toJson
      ensures tracker == map[] && subscriptions == 0
      ensures item.State() == SaveableState(Flags(false, false, false, false), toJson(map[]), saveConditions, canSave, null, [])
    {
      this.collectionName := collectionName;
      this.collection := collection;
      this.convert := convert;
      this.toJson := toJson;
      tracker := map[];
      subscriptions := 0;
      item := new Saveable(collectionName, toJson(map[]), saveConditions, canSave);
    }

    /** The tracker after one UpdateElementData of `e`. */
    function Track(t: map<E, D>, e: E): (r: map<E, D>)
      ensures r.Keys == t.Keys + {e} && r[e] == convert(e)
      ensures forall x :: x in t && x != e ==> r[x] == t[x]
    {
      t[e := convert(e)]
    }

    /** The tracker after UpdateElementData of every element of `s`, in order. */
    function Tracked(t: map<E, D>, s: seq<E>): map<E, D>
      decreases |s|
    {
      if s == [] then t else Track(Tracked(t, s[..|s| - 1]), s[|s| - 1])
    }

    /**
     * Tracking a sequence gives every element of it its converted entry and
     * leaves every other entry as it was.
     */
    lemma {:induction false} TrackedContents(t: map<E, D>, s: seq<E>)
      ensures Tracked(t, s).Keys == t.Keys + (set x | x in s)
      ensures forall x :: x in s ==> Tracked(t, s)[x] == convert(x)
      ensures forall x :: x in t && x !in s ==> Tracked(t, s)[x] == t[x]
      decreases |s|
    {
      if s != [] {
        var front, last := s[..|s| - 1], s[|s| - 1];
        assert s == front + [last];
        TrackedContents(t, front);
        assert forall x :: x in s <==> x in front || x == last;
      }
    }

    /** Tracking the same elements a second time changes nothing: each entry is overwritten with itself. */
    lemma TrackedIdempotent(t: map<E, D>, s: seq<E>)
      ensures Tracked(Tracked(t, s), s) == Tracked(t, s)
    {
      var once := Tracked(t, s);
      TrackedContents(t, s);
      TrackedContents(once, s);
      assert Tracked(once, s).Keys == once.Keys;
    }

    /** Removing an element that was added to a tracker without it gives the tracker back. */
    lemma AddThenRemove(t: map<E, D>, e: E)
      requires e !in t
      ensures Track(t, e) - {e} == t
    {
      assert (Track(t, e) - {e}).Keys == t.Keys;
    }

    /** The data identifier is the collection's name, which is the item's identifier. */
    function GetDataIdentifier(): (id: string)
      requires Valid()
      reads this, item
      ensures id == item.identifier
    {
      collectionName
    }

    /** The tracker's serialisation, which is what the item's tasks send. */
    function SaveThisIntoJson(): (json: string)
      requires Valid()
      reads this, item
      ensures json == item.payload
    {
      toJson(tracker)
    }

    /**
     * Writes the converted entry of `element`, overwriting any previous one,
     * and asks for a save when `wantToSave`. Without it nothing but the tracker
     * changes; the save queue is not even in the frame.
     */
    method UpdateElementData(element: E, wantToSave: bool) returns (ok: bool)
      requires Valid()
      requires wantToSave && item.saveQueue != null ==> item.saveQueue.Valid()
      modifies this`tracker, item`payload, if wantToSave && item.saveQueue != null then {item.saveQueue} else {}
      ensures Valid()
      ensures tracker == Track(old(tracker), element)
      ensures wantToSave ==> SaveAttempted(item, ok)
      ensures wantToSave && item.saveQueue != null ==> item.saveQueue.Valid()
      ensures !wantToSave ==> ok
    {
      tracker := tracker[element := convert(element)];
      item.payload := toJson(tracker);
      if wantToSave {
        ok := item.RequestSaveSchedule();
      } else {
        ok := true;
      }
    }

    /** Gives every element already in `current` its entry, without asking for a save. */
    method TrackCollection(current: seq<E>)
      requires Valid()
      modifies this`tracker, item`payload
      ensures Valid()
      ensures tracker == Tracked(old(tracker), current)
    {
      ghost var t0 := tracker;
      var i := 0;
      while i < |current|
        invariant 0 <= i <= |current|
        invariant Valid()
        invariant tracker == Tracked(t0, current[..i])
      {
        var _ := UpdateElementData(current[i], false);
        assert current[..i + 1][..i] == current[..i];
        i := i + 1;
      }
      assert current[..i] == current;
    }

    /** First save of the collection: track what it holds, then subscribe both handlers. */
    method InitiateSaveCommandWith(saveSystem: InteractionTasks)
      requires Valid()
      modifies this`tracker, this`subscriptions, item`payload
      ensures Valid()
      ensures tracker == Tracked(old(tracker), collection)
      ensures subscriptions == old(subscriptions) + 1
    {
      TrackCollection(collection);
      subscriptions := subscriptions + 1;
    }

    /** The base registration of the save queue followed by InitiateSaveCommandWith. */
    method RegisterSaveGroup(queue: InteractionTasks)
      requires Valid() && queue.kind == SaveKind
      modifies item`saveQueue, this`tracker, this`subscriptions, item`payload
      ensures Valid() && item.saveQueue == queue
      ensures tracker == Tracked(old(tracker), collection)
      ensures subscriptions == old(subscriptions) + 1
    {
      item.RegisterSaveGroup(queue);
      InitiateSaveCommandWith(queue);
    }

    /**
     * The add handler. An element already tracked fails the sanity assertion
     * and nothing changes; otherwise it gains its entry and a save is asked for.
     */
    method ElementAddedToCollection(elementAdded: E) returns (ok: bool)
      requires Valid()
      requires item.saveQueue != null ==> item.saveQueue.Valid()
      modifies this`tracker, item`payload, if item.saveQueue != null then {item.saveQueue} else {}
      ensures Valid()
      ensures item.saveQueue != null ==> item.saveQueue.Valid()
      ensures elementAdded in old(tracker) ==> !ok && tracker == old(tracker)
      ensures elementAdded in old(tracker) ==> unchanged(item) && (item.saveQueue != null ==> unchanged(item.saveQueue))
      ensures elementAdded !in old(tracker) ==> tracker == Track(old(tracker), elementAdded) && SaveAttempted(item, ok)
    {
      if elementAdded in tracker {
        return false;
      }
      ok := UpdateElementData(elementAdded, true);
    }

    /**
     * The remove handler. An untracked element fails the sanity assertion and
     * nothing changes; otherwise its entry goes and a save is asked for.
     */
    method ElementRemovedFromCollection(elementRemoved: E) returns (ok: bool)
      requires Valid()
      requires item.saveQueue != null ==> item.saveQueue.Valid()
      modifies this`tracker, item`payload, if item.saveQueue != null then {item.saveQueue} else {}
      ensures Valid()
      ensures item.saveQueue != null ==> item.saveQueue.Valid()
      ensures elementRemoved !in old(tracker) ==> !ok && tracker == old(tracker)
      ensures elementRemoved !in old(tracker) ==> unchanged(item) && (item.saveQueue != null ==> unchanged(item.saveQueue))
      ensures elementRemoved in old(tracker) ==> tracker.Keys == old(tracker).Keys - {elementRemoved}
      ensures elementRemoved in old(tracker) ==> forall x :: x in tracker ==> tracker[x] == old(tracker)[x]
      ensures elementRemoved in old(tracker) ==> SaveAttempted(item, ok)
    {
      if elementRemoved !in tracker {
        return false;
      }
      tracker := tracker - {elementRemoved};
      item.payload := toJson(tracker);
      ok := item.RequestSaveSchedule();
    }

    /** The base reset, then an empty tracker and both handlers unsubscribed once. */
    method ResetThis()
      requires Valid()
      modifies item`saveQueue, item`saveRequested, item`saveFailed, item`loadRequested, item`loadFailed
      modifies this`tracker, this`subscriptions, item`payload
      ensures Valid()
      ensures item.saveQueue == null && item.Status() == Flags(false, false, false, false)
      ensures tracker == map[]
      ensures subscriptions == if old(subscriptions) > 0 then old(subscriptions) - 1 else 0
    {
      item.ResetThis();
      tracker := map[];
      item.payload := toJson(tracker);
      if subscriptions > 0 {
        subscriptions := subscriptions - 1;
      }
    }
  }
}
