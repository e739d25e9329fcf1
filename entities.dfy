/** The records the view-models receive from their repositories. Their
    declarations are not part of this model; the fields below are the ones the
    modelled code reads or copies, and every field the code may see as null is
    an `Option`. */
module Entities {
  import opened Results

  /** A journal note (`ListNoteItem`). `ownerId` and `updatedAt` stand for the
      fields the view-models copy but never touch. */
  datatype Note = Note(
    id: string,
    ownerId: Option<string>,
    title: Option<string>,
    content: Option<string>,
    emotion: Option<string>,
    createdAt: Option<string>,
    updatedAt: Option<string>)

  /** The signed-in user's profile (`UserData`). */
  datatype UserData = UserData(
    name: Option<string>,
    email: Option<string>,
    birthday: Option<string>,
    profilePhotoUrl: Option<string>)

  /** A psychologist directory entry (`PsychologistItem`); opaque here. */
  datatype Psychologist = Psychologist(id: string, name: Option<string>, price: int)

  /** Payload of a created payment transaction. */
  datatype CreatedTransaction = CreatedTransaction(orderId: Option<string>, redirectUrl: Option<string>)

  /** Payload of a transaction-status or cancellation response. */
  datatype TransactionState = TransactionState(transactionStatus: Option<string>, statusMessage: Option<string>)
}
