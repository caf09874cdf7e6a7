/**
 * `libs/storage.ts`: the device's key-value storage, the notification
 * scheduler, and the three operations the screens call.
 */
module Storage {
  import opened Wrappers
  import opened Dates
  import opened Recurrence
  import opened PlantTable
  import opened PlantList

  /** An external asynchronous call the store awaits. */
  datatype Step = Schedule | Cancel | Read | Write

  datatype Error = Rejected(step: Step) | NotFound(id: string)

  /** AsyncStorage, holding the values under the app's two keys (JSON encoding left out). */
  class DeviceStorage {
    /** The value under "@plantmanager:plants", `None` while nothing has been written. */
    var plants: Option<Table>
    /** The value under "@plantmanager:user". */
    var user: Option<string>

    ghost predicate Valid()
      reads this
    {
      plants.Some? ==> WellFormed(plants.value)
    }

    constructor ()
      ensures Valid() && plants.None? && user.None?
    {
      plants, user := None, None;
    }
  }

  datatype NotificationEvent =
    | Scheduled(handle: Handle, seconds: int, repeats: bool, plant: PlantProps)
    | Cancelled(handle: Handle)

  /** The Expo notification scheduler: hands out fresh handles and keeps a log of what was asked of it. */
  class Notifications {
    var issued: nat
    ghost var log: seq<NotificationEvent>

    ghost predicate Valid()
      reads this
    {
      forall i :: 0 <= i < |log| && log[i].Scheduled? ==> log[i].handle < issued
    }

    constructor ()
      ensures Valid() && issued == 0 && log == []
    {
      issued, log := 0, [];
    }

    /** `scheduleNotificationAsync` with a `seconds` trigger. */
    method ScheduleNotification(seconds: int, repeats: bool, plant: PlantProps) returns (h: Handle)
      requires Valid()
      modifies this
      ensures Valid()
      ensures h == old(issued) && issued == old(issued) + 1
      ensures log == old(log) + [Scheduled(h, seconds, repeats, plant)]
    {
      h := issued;
      issued := issued + 1;
      log := log + [Scheduled(h, seconds, repeats, plant)];
    }

    /** `cancelScheduledNotificationAsync`. */
    method CancelNotification(h: Handle)
      requires Valid()
      modifies this
      ensures Valid() && issued == old(issued)
      ensures log == old(log) + [Cancelled(h)]
    {
      log := log + [Cancelled(h)];
    }
  }

  /** Every handle in the store was handed out by the scheduler. */
  ghost predicate HandlesIssued(storage: DeviceStorage, notifications: Notifications)
    reads storage, notifications
  {
    storage.plants.Some? ==>
      forall k :: k in storage.plants.value.entries ==> storage.plants.value.entries[k].notificationId < notifications.issued
  }

  /** The `seconds` of the trigger `savePlant` schedules for `plant` at `now`. */
  function TriggerFor(plant: PlantProps, now: Moment): int
    requires ValidFrequency(plant.frequency)
  {
    TriggerSeconds(Time(now), NextTime(plant.dateTimeNotification, now, plant.frequency))
  }

  /**
   * `savePlant(plant)` at time `now`, where `failAt` names the awaited
   * call that rejects, if any. The record is stored as it was passed:
   * the next time only sets the trigger.
   */
  method SavePlant(storage: DeviceStorage, notifications: Notifications, plant: PlantProps, now: Moment, failAt: Option<Step>)
    returns (r: Outcome<Error>)
    requires storage.Valid() && notifications.Valid() && HandlesIssued(storage, notifications)
    requires ValidFrequency(plant.frequency)
    modifies storage, notifications
    ensures storage.Valid() && notifications.Valid() && HandlesIssued(storage, notifications)
    ensures storage.user == old(storage.user)
    ensures failAt == Some(Schedule) ==> notifications.issued == old(notifications.issued) && notifications.log == old(notifications.log)
    ensures failAt != Some(Schedule) ==>
      && notifications.issued == old(notifications.issued) + 1
      && notifications.log == old(notifications.log) + [Scheduled(old(notifications.issued), TriggerFor(plant, now), true, plant)]
    ensures failAt in {Some(Schedule), Some(Read), Some(Write)} ==>
      r == Fail(Rejected(failAt.value)) && storage.plants == old(storage.plants)
    ensures failAt !in {Some(Schedule), Some(Read), Some(Write)} ==>
      && r == Pass
      && storage.plants == Some(Spread(Stored(old(storage.plants)), plant.id, StoredEntry(plant, old(notifications.issued))))
    ensures r == Pass && plant.id in Stored(old(storage.plants)).entries ==>
      forall k :: k in storage.plants.value.entries ==> storage.plants.value.entries[k].notificationId != old(notifications.issued)
  {
    var nextTime := NextTime(plant.dateTimeNotification, now, plant.frequency);
    var seconds := TriggerSeconds(Time(now), nextTime);
    if failAt == Some(Schedule) {
      return Fail(Rejected(Schedule));
    }
    var notificationId := notifications.ScheduleNotification(seconds, true, plant);
    if failAt == Some(Read) {
      return Fail(Rejected(Read));
    }
    var oldPlants := Stored(storage.plants);
    if failAt == Some(Write) {
      return Fail(Rejected(Write));
    }
    storage.plants := Some(Spread(oldPlants, plant.id, StoredEntry(plant, notificationId)));
    r := Pass;
  }

  /** `loadPlant()`: the stored records, `hour` rendered, sorted by notification second. */
  method LoadPlant(storage: DeviceStorage, failAt: Option<Step>) returns (r: Result<seq<PlantProps>, Error>)
    requires storage.Valid()
    ensures failAt == Some(Read) ==> r == Err(Rejected(Read))
    ensures failAt != Some(Read) ==> r == Ok(LoadList(Stored(storage.plants)))
  {
    if failAt == Some(Read) {
      return Err(Rejected(Read));
    }
    var plants := Stored(storage.plants);
    r := Ok(LoadList(plants));
  }

  /**
   * `removePlant(id)`: cancel the entry's notification, then delete the
   * entry. A missing id makes `plants[id].notificationId` throw before
   * anything is cancelled.
   */
  method RemovePlant(storage: DeviceStorage, notifications: Notifications, id: string, failAt: Option<Step>)
    returns (r: Outcome<Error>)
    requires storage.Valid() && notifications.Valid() && HandlesIssued(storage, notifications)
    modifies storage, notifications
    ensures storage.Valid() && notifications.Valid() && HandlesIssued(storage, notifications)
    ensures storage.user == old(storage.user) && notifications.issued == old(notifications.issued)
    ensures failAt == Some(Read) ==> r == Fail(Rejected(Read))
    ensures failAt != Some(Read) && id !in Stored(old(storage.plants)).entries ==> r == Fail(NotFound(id))
    ensures r.Fail? && r.error != Rejected(Write) ==>
      storage.plants == old(storage.plants) && notifications.log == old(notifications.log)
    ensures failAt != Some(Read) && id in Stored(old(storage.plants)).entries && failAt != Some(Cancel) ==>
      notifications.log == old(notifications.log) + [Cancelled(Stored(old(storage.plants)).entries[id].notificationId)]
    ensures failAt != Some(Read) && id in Stored(old(storage.plants)).entries && failAt == Some(Cancel) ==>
      r == Fail(Rejected(Cancel))
    ensures failAt != Some(Read) && id in Stored(old(storage.plants)).entries && failAt == Some(Write) ==>
      r == Fail(Rejected(Write)) && storage.plants == old(storage.plants)
    ensures failAt !in {Some(Read), Some(Cancel), Some(Write)} && id in Stored(old(storage.plants)).entries ==>
      r == Pass && storage.plants == Some(Delete(Stored(old(storage.plants)), id))
  {
    if failAt == Some(Read) {
      return Fail(Rejected(Read));
    }
    var plants := Stored(storage.plants);
    if id !in plants.entries {
      return Fail(NotFound(id));
    }
    if failAt == Some(Cancel) {
      return Fail(Rejected(Cancel));
    }
    notifications.CancelNotification(plants.entries[id].notificationId);
    var remaining := Delete(plants, id);
    if failAt == Some(Write) {
      return Fail(Rejected(Write));
    }
    storage.plants := Some(remaining);
    r := Pass;
  }
}
