/** `pages/MyPlants.tsx`: the saved-plants list, its spotlight, and removal. */
module MyPlantsScreen {
  import opened Wrappers
  import opened Dates
  import opened Seqs
  import opened PlantTable
  import opened PlantList
  import opened Storage
  import opened Ui

  /** The spotlight text's parts: the plant's name and the two instants `formatDistance` compares. */
  datatype Spotlight = Spotlight(plantName: string, dueMs: int, nowMs: int)

  datatype Choice = No | Yes

  function HasOtherId(id: string): PlantProps -> bool
  {
    (p: PlantProps) => p.id != id
  }

  /** `oldData.filter(item => item.id != id)`. */
  function WithoutPlant(list: seq<PlantProps>, id: string): seq<PlantProps>
  {
    Filter(list, HasOtherId(id))
  }

  /** Removal drops every record with the id, keeps every other one, and keeps the order. */
  lemma {:induction false} WithoutPlantDropsExactlyTheId(list: seq<PlantProps>, id: string)
    ensures SubsequenceOf(WithoutPlant(list, id), list)
    ensures forall p :: p in WithoutPlant(list, id) <==> p in list && p.id != id
    ensures forall p: PlantProps :: p.id != id ==> multiset(WithoutPlant(list, id))[p] == multiset(list)[p]
  {
    FilterIsSubsequence(list, HasOtherId(id));
    FilterCounts(list, HasOtherId(id));
  }

  /** The state of a `MyPlants` screen. */
  class Screen {
    var myPlants: seq<PlantProps>
    var loading: bool
    var nextWatered: Option<Spotlight>

    constructor ()
      ensures myPlants == [] && loading && nextWatered.None?
    {
      myPlants, loading, nextWatered := [], true, None;
    }

    /**
     * `loadStorageData()` at `now`. A rejected load, or an empty list
     * (whose element 0 is dereferenced), ends the call before any state
     * is set, so the screen keeps loading.
     */
    method LoadStorageData(storage: DeviceStorage, now: Moment, readRejects: bool)
      requires storage.Valid()
      modifies this
      ensures readRejects || LoadList(Stored(storage.plants)) == [] ==>
        myPlants == old(myPlants) && loading == old(loading) && nextWatered == old(nextWatered)
      ensures !readRejects && LoadList(Stored(storage.plants)) != [] ==>
        && myPlants == LoadList(Stored(storage.plants))
        && nextWatered == Some(Spotlight(myPlants[0].name, Time(myPlants[0].dateTimeNotification), Time(now)))
        && !loading
    {
      ghost var listed := LoadList(Stored(storage.plants));
      var plantsStoraged := LoadPlant(storage, if readRejects then Some(Read) else None);
      if plantsStoraged.Err? || plantsStoraged.value == [] {
        return;
      }
      assert plantsStoraged.value == listed;
      var first := plantsStoraged.value[0];
      nextWatered := Some(Spotlight(first.name, Time(first.dateTimeNotification), Time(now)));
      myPlants := plantsStoraged.value;
      loading := false;
    }

    /**
     * `handleRemove(plant)` answered with `choice`: "Não" does nothing;
     * "Sim" removes the plant from the store and then from the list, or
     * alerts and keeps the list when the removal rejects.
     */
    method HandleRemove(plant: PlantProps, choice: Choice, storage: DeviceStorage, notifications: Notifications, failAt: Option<Step>)
      returns (effect: Effect)
      requires storage.Valid() && notifications.Valid() && HandlesIssued(storage, notifications)
      modifies this`myPlants, storage, notifications
      ensures storage.Valid() && notifications.Valid() && HandlesIssued(storage, notifications)
      ensures choice == No ==>
        && effect == NoEffect && myPlants == old(myPlants)
        && storage.plants == old(storage.plants) && notifications.log == old(notifications.log)
      ensures choice == Yes && failAt !in {Some(Read), Some(Cancel), Some(Write)} && plant.id in Stored(old(storage.plants)).entries ==>
        && effect == NoEffect && myPlants == WithoutPlant(old(myPlants), plant.id)
        && storage.plants == Some(Delete(Stored(old(storage.plants)), plant.id))
      ensures choice == Yes && (failAt in {Some(Read), Some(Cancel), Some(Write)} || plant.id !in Stored(old(storage.plants)).entries) ==>
        effect == Alert(CouldNotRemove) && myPlants == old(myPlants)
    {
      if choice == No {
        return NoEffect;
      }
      var removed := RemovePlant(storage, notifications, plant.id, failAt);
      if removed.Fail? {
        return Alert(CouldNotRemove);
      }
      myPlants := WithoutPlant(myPlants, plant.id);
      effect := NoEffect;
    }
  }

  /** The spotlight names a plant watered no later than any other stored plant, to the second. */
  lemma {:induction false} SpotlightIsTheEarliestPlant(t: Table)
    requires WellFormed(t) && LoadList(t) != []
    ensures LoadList(t)[0].id in t.entries
    ensures forall k :: k in t.entries ==> Seconds(LoadList(t)[0]) <= Seconds(t.entries[k].data)
  {
    FirstIsEarliest(t);
    LoadListHasOnlyEntries(t);
    assert LoadList(t)[0] in LoadList(t);
  }
}
