/** The booking records and token claims of src/lib/types.ts, extended with the
    fields the booking service reads and writes. Hotels are plain field maps
    (JsValues.Fields): the create form and updateHotel write arbitrary keys. */
module Types {
  import opened Wrappers

  /** `BookingStatus`: exactly these four. */
  datatype BookingStatus = Sent | PartialPayment | Confirmed | Cancelled

  /** The payment choice a guest makes in the booking wizard. */
  datatype PaymentOption = Deposit | Full

  /** `booking.guest`: the name the hotelier entered. */
  datatype GuestName = GuestName(firstName: string, lastName: string)

  /** `Partial<Guest>` as the wizard stores it, with the uploaded identity documents. */
  datatype GuestDetails = GuestDetails(
    firstName: Option<string>,
    lastName: Option<string>,
    email: Option<string>,
    phone: Option<string>,
    idFrontUrl: Option<string>,
    idBackUrl: Option<string>)

  datatype Room = Room(roomType: string, adults: int, children: int)

  /** A stored booking document. Timestamps are opaque naturals; the price is
      carried, never computed with. */
  datatype BookingDoc = BookingDoc(
    hotelId: string,
    guest: GuestName,
    checkIn: nat,
    checkOut: nat,
    status: BookingStatus,
    totalPrice: real,
    lastChanged: nat,
    guestDetails: Option<GuestDetails>,
    room: Room,
    mealType: string,
    paymentProofUrl: Option<string>,
    notes: Option<string>,
    paymentOption: Option<PaymentOption>)

  /** A booking as the service returns it: the document and its id. */
  datatype Booking = Booking(id: string, doc: BookingDoc)

  /** The custom claims of an identity token. They are loosely typed in the
      source: either may be absent and the role may be any string. */
  datatype Claims = Claims(role: Option<string>, hotelId: Option<string>)
}
