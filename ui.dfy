/** What a screen handler shows or does besides changing its own state. */
module Ui {

  datatype Route = Confirmation | PlantSelect | PlantSave | MyPlants

  datatype AlertMessage =
    | PickFutureHour     // PlantSave: the picked time is in the past
    | CouldNotSavePlant  // PlantSave: savePlant rejected
    | AskForName         // UserIdentification: no name yet
    | CouldNotSaveName   // UserIdentification: the storage write rejected
    | CouldNotRemove     // MyPlants: removePlant rejected

  datatype Effect =
    | NoEffect
    | ShowConfirmation(nextScreen: Route)  // navigate("Confirmation", {..., nextScreen})
    | Alert(message: AlertMessage)
}
