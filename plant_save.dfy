/**
 * `pages/PlantSave.tsx`: choosing the reminder time and saving the plant.
 * The clock is a parameter; the platform is fixed when the screen opens.
 */
module PlantSaveScreen {
  import opened Wrappers
  import opened Dates
  import opened Recurrence
  import opened PlantTable
  import opened Storage
  import opened Ui

  datatype Platform = IOS | Android | Web

  /** The state of a `PlantSave` screen opened for `plant`. */
  class Screen {
    const plant: PlantProps
    const platform: Platform
    var selectedDateTime: Moment
    var showDatePicker: bool

    /** The picker starts at `now`, and starts shown only on iOS. */
    constructor (plant: PlantProps, platform: Platform, now: Moment)
      ensures this.plant == plant && this.platform == platform
      ensures selectedDateTime == now && showDatePicker == (platform == IOS)
    {
      this.plant, this.platform := plant, platform;
      selectedDateTime, showDatePicker := now, platform == IOS;
    }

    /**
     * `handleChangeTime(event, dateTime)` at `now`: on Android every
     * change closes or reopens the picker; a past time is replaced by now
     * with an alert; no time leaves the selection alone.
     */
    method HandleChangeTime(dateTime: Option<Moment>, now: Moment) returns (effect: Effect)
      modifies this`showDatePicker, this`selectedDateTime
      ensures showDatePicker == if platform == Android then !old(showDatePicker) else old(showDatePicker)
      ensures dateTime.Some? && IsBefore(dateTime.value, now) ==>
        selectedDateTime == now && effect == Alert(PickFutureHour)
      ensures dateTime.Some? && !IsBefore(dateTime.value, now) ==>
        selectedDateTime == dateTime.value && effect == NoEffect
      ensures dateTime.None? ==> selectedDateTime == old(selectedDateTime) && effect == NoEffect
    {
      if platform == Android {
        showDatePicker := !showDatePicker;
      }
      if dateTime.Some? && IsBefore(dateTime.value, now) {
        selectedDateTime := now;
        return Alert(PickFutureHour);
      }
      if dateTime.Some? {
        selectedDateTime := dateTime.value;
      }
      effect := NoEffect;
    }

    /** `handleOpenDateTimePickerForAndroid()`. */
    method HandleOpenDateTimePickerForAndroid()
      modifies this`showDatePicker
      ensures showDatePicker == !old(showDatePicker)
    {
      showDatePicker := !showDatePicker;
    }

    /** The record `handleSave` passes to `savePlant`. */
    function RecordToSave(): (r: PlantProps)
      reads this
      ensures r.dateTimeNotification == selectedDateTime
      ensures r.(dateTimeNotification := plant.dateTimeNotification) == plant
    {
      plant.(dateTimeNotification := selectedDateTime)
    }

    /**
     * `handleSave()` at `now`: save the plant with the selected time, then
     * show the confirmation leading to MyPlants; alert instead when the
     * save rejects.
     */
    method HandleSave(storage: DeviceStorage, notifications: Notifications, now: Moment, failAt: Option<Step>)
      returns (effect: Effect)
      requires storage.Valid() && notifications.Valid() && HandlesIssued(storage, notifications)
      requires ValidFrequency(plant.frequency)
      modifies storage, notifications
      ensures storage.Valid() && notifications.Valid() && HandlesIssued(storage, notifications)
      ensures failAt in {Some(Schedule), Some(Read), Some(Write)} ==>
        effect == Alert(CouldNotSavePlant) && storage.plants == old(storage.plants)
      ensures failAt !in {Some(Schedule), Some(Read), Some(Write)} ==>
        && effect == ShowConfirmation(MyPlants)
        && storage.plants == Some(Spread(Stored(old(storage.plants)), plant.id, StoredEntry(RecordToSave(), old(notifications.issued))))
      ensures failAt != Some(Schedule) ==>
        notifications.log == old(notifications.log) + [Scheduled(old(notifications.issued), TriggerFor(RecordToSave(), now), true, RecordToSave())]
    {
      var result := SavePlant(storage, notifications, RecordToSave(), now, failAt);
      if result.Fail? {
        return Alert(CouldNotSavePlant);
      }
      effect := ShowConfirmation(MyPlants);
    }

    /** Two presses of the Android button leave the picker as it was. */
    method ToggleTwice()
      modifies this`showDatePicker
      ensures showDatePicker == old(showDatePicker)
    {
      HandleOpenDateTimePickerForAndroid();
      HandleOpenDateTimePickerForAndroid();
    }
  }
}
