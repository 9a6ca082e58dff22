/** The hotel and booking service of src/lib/hotel-service.ts over an abstract
    document store: the `hotels` and `bookings` collections as maps from document
    id to document, and the blob store as a map from download URL to storage path.
    Document ids, the clock and the answers of the blob store are parameters. */
module HotelService {
  import opened Wrappers
  import opened JsValues
  import opened Types

  /** A file picked in a form; only its name enters the storage path. */
  datatype LogoFile = LogoFile(name: string)

  /** What uploadBytes followed by getDownloadURL answers. */
  datatype UploadResult = Uploaded(url: string) | UploadFailed(code: string, message: string)

  /** A thrown error: a Firebase error carries a code, a plain `Error` does not. */
  datatype ServiceError = ServiceError(code: Option<string>, message: string)

  /** The storage path a hotel logo is uploaded to. */
  function LogoPath(hotelId: string, fileName: string): string {
    "hotel-logos/" + hotelId + "/" + fileName
  }

  /** toHotel: the document's fields spread over `{id: <document id>}`. */
  function ToHotel(id: string, doc: Fields): (hotel: Fields)
    ensures hotel.Keys == doc.Keys + {"id"}
    ensures forall k :: k in doc ==> hotel[k] == doc[k]
    ensures "id" !in doc ==> hotel["id"] == Text(id)
  {
    map["id" := Text(id)] + doc
  }

  /** `hotel?.logoUrl` as a storage reference: a non-empty string. */
  function LogoUrl(doc: Fields): Option<string> {
    if "logoUrl" in doc && doc["logoUrl"].Text? && doc["logoUrl"].s != "" then Some(doc["logoUrl"].s) else None
  }

  /** A URL field used as a condition and then pushed: only non-empty strings count. */
  function PresentUrl(url: Option<string>): seq<string> {
    if url.Some? && url.value != "" then [url.value] else []
  }

  /** The logo of a hotel as read by getHotel, if it has one. */
  function LogoFiles(hotel: Option<Fields>): seq<string> {
    if hotel.Some? then PresentUrl(LogoUrl(hotel.value)) else []
  }

  /** The logo of the stored hotel `hotelId`, if it has one. */
  function HotelLogo(hotels: map<string, Fields>, hotelId: string): seq<string> {
    LogoFiles(if hotelId in hotels then Some(hotels[hotelId]) else None)
  }

  /** The files deleteBooking removes with a booking, in the order it tries them:
      identity document front, back, then the payment proof. */
  function AttachmentUrls(b: BookingDoc): (files: seq<string>)
    ensures |files| <= 3
    ensures forall u :: u in files ==> u != ""
    ensures forall u :: u in files <==>
      u != "" && (Some(u) == b.paymentProofUrl ||
                  (b.guestDetails.Some? && (Some(u) == b.guestDetails.value.idFrontUrl || Some(u) == b.guestDetails.value.idBackUrl)))
  {
    (if b.guestDetails.Some? then PresentUrl(b.guestDetails.value.idFrontUrl) else [])
    + (if b.guestDetails.Some? then PresentUrl(b.guestDetails.value.idBackUrl) else [])
    + PresentUrl(b.paymentProofUrl)
  }

  /** The status a guest's payment choice puts a booking in. */
  function StatusFor(option: PaymentOption): (status: BookingStatus)
    ensures status == PartialPayment <==> option == Deposit
    ensures status == Confirmed <==> option == Full
  {
    match option
    case Deposit => PartialPayment
    case Full => Confirmed
  }

  /** The ids of the stored bookings that belong to hotel `hotelId`. */
  function BookingsOf(bookings: map<string, BookingDoc>, hotelId: string): (ids: set<string>)
    ensures ids <= bookings.Keys
    ensures forall k :: k in ids <==> k in bookings && bookings[k].hotelId == hotelId
  {
    set k | k in bookings && bookings[k].hotelId == hotelId
  }

  /** Every file attached to the bookings with ids `ids`. */
  ghost function AttachmentsOf(bookings: map<string, BookingDoc>, ids: set<string>): set<string> {
    set k, u | k in ids && k in bookings && u in AttachmentUrls(bookings[k]) :: u
  }

  /** The files deleteHotel removes: those of the hotel's bookings that have a
      non-empty id, and the hotel's logo. */
  ghost function DoomedFiles(bookings: map<string, BookingDoc>, hotels: map<string, Fields>, hotelId: string): set<string> {
    AttachmentsOf(bookings, BookingsOf(bookings, hotelId) - {""}) + Elems(HotelLogo(hotels, hotelId))
  }

  /** The ids of the bookings in a list. */
  function Ids(list: seq<Booking>): set<string> {
    set b | b in list :: b.id
  }

  /** No id occurs twice in a list. */
  predicate DistinctIds(list: seq<Booking>) {
    forall i, j :: 0 <= i < j < |list| ==> list[i].id != list[j].id
  }

  /** The elements of a sequence, as a set. */
  function Elems(s: seq<string>): set<string> {
    set u | u in s
  }

  lemma RemoveKeysTwice<K, V>(m: map<K, V>, a: set<K>, b: set<K>)
    ensures (m - a) - b == m - (a + b)
  {
  }

  lemma AttachmentsOfInsert(bookings: map<string, BookingDoc>, ids: set<string>, k: string)
    requires k in bookings
    ensures AttachmentsOf(bookings, ids + {k}) == AttachmentsOf(bookings, ids) + Elems(AttachmentUrls(bookings[k]))
  {
  }

  /** Writing the logo URL into the returned hotel changes nothing when the
      document read back already holds it. */
  lemma LogoAlreadyThere(id: string, doc: Fields, url: string)
    requires "logoUrl" in doc && doc["logoUrl"] == Text(url)
    ensures ToHotel(id, doc)["logoUrl" := Text(url)] == ToHotel(id, doc)
  {
  }

  /** A list that pairs every stored id with its converted hotel holds every
      stored hotel. */
  lemma EveryHotelListed(hotels: map<string, Fields>, list: seq<Fields>, ids: seq<string>)
    requires |ids| == |list|
    requires forall i :: 0 <= i < |ids| ==> ids[i] in hotels && list[i] == ToHotel(ids[i], hotels[ids[i]])
    requires forall k :: k in hotels ==> k in ids
    ensures forall k :: k in hotels ==> ToHotel(k, hotels[k]) in list
  {
    forall k | k in hotels
      ensures ToHotel(k, hotels[k]) in list
    {
      var i :| 0 <= i < |ids| && ids[i] == k;
      assert list[i] == ToHotel(k, hotels[k]);
    }
  }

  /** The document store and the blob store the service talks to. */
  class Store {
    var hotels: map<string, Fields>
    var bookings: map<string, BookingDoc>
    /** Stored blobs: download URL to storage path. */
    var blobs: map<string, string>
    /** Every blob deletion requested, in order, whether or not it succeeded. */
    var deleteLog: seq<string>
    /** URLs whose deletion the blob store refuses (its security rules). */
    const undeletable: set<string>
    /** Stored URLs that `ref(storage, url)` rejects as no storage URL at all. */
    const badRefs: set<string>

    constructor (undeletable: set<string>, badRefs: set<string>)
      ensures hotels == map[] && bookings == map[] && blobs == map[] && deleteLog == []
      ensures this.undeletable == undeletable && this.badRefs == badRefs
    {
      hotels, bookings, blobs, deleteLog := map[], map[], map[], [];
      this.undeletable := undeletable;
      this.badRefs := badRefs;
    }

    /** A logo (a list of at most one URL) whose reference `ref` rejects. */
    predicate RefRejected(files: seq<string>) {
      files != [] && files[0] in badRefs
    }

    /** getHotel: null exactly when there is no such document. */
    function GetHotel(id: string): (r: Option<Fields>)
      reads this
      ensures r.None? <==> id !in hotels
      ensures r.Some? ==> r.value.Keys == hotels[id].Keys + {"id"}
      ensures r.Some? ==> forall k :: k in hotels[id] ==> r.value[k] == hotels[id][k]
      ensures r.Some? && "id" !in hotels[id] ==> r.value["id"] == Text(id)
    {
      if id in hotels then Some(ToHotel(id, hotels[id])) else None
    }

    /** getBooking: null exactly when there is no such document. */
    function GetBooking(id: string): (r: Option<Booking>)
      reads this
      ensures r.None? <==> id !in bookings
      ensures r.Some? ==> r.value.id == id && r.value.doc == bookings[id]
    {
      if id in bookings then Some(Booking(id, bookings[id])) else None
    }

    /** getHotels: every stored hotel once. The order of the query result is not modelled. */
    method GetHotels() returns (list: seq<Fields>, ghost ids: seq<string>)
      ensures |ids| == |list|
      ensures forall i, j :: 0 <= i < j < |ids| ==> ids[i] != ids[j]
      ensures forall i :: 0 <= i < |ids| ==> ids[i] in hotels && list[i] == ToHotel(ids[i], hotels[ids[i]])
      ensures forall k :: k in hotels ==> k in ids
      ensures |list| == |hotels|
      ensures forall k :: k in hotels ==> ToHotel(k, hotels[k]) in list
    {
      var remaining := hotels.Keys;
      list, ids := [], [];
      while remaining != {}
        invariant remaining <= hotels.Keys
        invariant |ids| == |list|
        invariant |list| + |remaining| == |hotels|
        invariant forall i, j :: 0 <= i < j < |ids| ==> ids[i] != ids[j]
        invariant forall i :: 0 <= i < |ids| ==> ids[i] in hotels && ids[i] !in remaining && list[i] == ToHotel(ids[i], hotels[ids[i]])
        invariant forall k :: k in hotels ==> k in remaining || k in ids
        decreases remaining
      {
        var k :| k in remaining;
        assert |remaining - {k}| == |remaining| - 1;
        list, ids := list + [ToHotel(k, hotels[k])], ids + [k];
        remaining := remaining - {k};
      }
      EveryHotelListed(hotels, list, ids);
    }

    /** getBookingsForHotel: exactly the bookings whose hotelId is `hotelId`, each
        once; none gives the empty list. The order of the query result is not modelled. */
    method GetBookingsForHotel(hotelId: string) returns (list: seq<Booking>)
      ensures Ids(list) == BookingsOf(bookings, hotelId)
      ensures DistinctIds(list)
      ensures forall i :: 0 <= i < |list| ==> list[i].id in bookings && list[i].doc == bookings[list[i].id]
    {
      var remaining := bookings.Keys;
      list := [];
      while remaining != {}
        invariant remaining <= bookings.Keys
        invariant DistinctIds(list)
        invariant forall i :: 0 <= i < |list| ==> list[i].id in bookings && list[i].id !in remaining && list[i].doc == bookings[list[i].id]
        invariant Ids(list) == BookingsOf(bookings, hotelId) - remaining
        decreases remaining
      {
        var k :| k in remaining;
        if bookings[k].hotelId == hotelId {
          assert Ids(list + [Booking(k, bookings[k])]) == Ids(list) + {k};
          list := list + [Booking(k, bookings[k])];
        }
        remaining := remaining - {k};
      }
    }

    /** deleteObject inside try/catch: the request is always made; a missing
        object or a refused deletion is swallowed. */
    method DeleteBlob(url: string)
      modifies this
      ensures deleteLog == old(deleteLog) + [url]
      ensures blobs == if url in undeletable then old(blobs) else old(blobs) - {url}
      ensures hotels == old(hotels) && bookings == old(bookings)
    {
      deleteLog := deleteLog + [url];
      if url !in undeletable {
        blobs := blobs - {url};
      }
    }

    /** createHotel: the document is written first; a logo is uploaded afterwards
        and its URL written into the document. A failed upload leaves the document
        in place, without the URL. */
    method CreateHotel(hotel: Fields, logo: Option<LogoFile>, newId: string, now: nat, upload: UploadResult)
      returns (r: Result<Fields, ServiceError>)
      requires newId !in hotels
      modifies this
      ensures bookings == old(bookings) && deleteLog == old(deleteLog)
      ensures newId in hotels && hotels - {newId} == old(hotels)
      ensures logo.None? || upload.UploadFailed? ==>
        hotels[newId] == hotel["createdAt" := Stamp(now)] && blobs == old(blobs)
      ensures logo.None? ==> r == Ok(ToHotel(newId, hotels[newId]) - {"logoUrl"})
      ensures logo.Some? && upload.UploadFailed? ==> r == Err(ServiceError(Some(upload.code), upload.message))
      ensures logo.Some? && upload.Uploaded? ==>
        && hotels[newId] == hotel["createdAt" := Stamp(now)]["logoUrl" := Text(upload.url)]
        && blobs == old(blobs)[upload.url := LogoPath(newId, logo.value.name)]
        && r.Ok? && r.value == ToHotel(newId, hotels[newId]) && r.value["logoUrl"] == Text(upload.url)
    {
      hotels := hotels[newId := hotel["createdAt" := Stamp(now)]];
      if logo.None? {
        r := Ok(ToHotel(newId, hotels[newId]) - {"logoUrl"});
        return;
      }
      match upload {
        case UploadFailed(code, message) =>
          r := Err(ServiceError(Some(code), message));
        case Uploaded(url) =>
          blobs := blobs[url := LogoPath(newId, logo.value.name)];
          hotels := hotels[newId := hotels[newId]["logoUrl" := Text(url)]];
          var created := ToHotel(newId, hotels[newId]);
          LogoAlreadyThere(newId, hotels[newId], url);
          r := Ok(created["logoUrl" := Text(url)]);
      }
    }

    /** updateHotel: with a new logo, the old logo is deleted (best effort) and the
        new one uploaded before the document is touched; the patch is then merged
        into the document, which must exist. The old logo's reference is built
        outside the `try`, so a stored logo URL that `ref` rejects aborts the
        update before anything is changed. */
    method UpdateHotel(id: string, patch: Fields, newLogo: Option<LogoFile>, upload: UploadResult)
      returns (r: Result<Fields, ServiceError>)
      modifies this
      ensures bookings == old(bookings)
      ensures newLogo.None? ==> deleteLog == old(deleteLog) && blobs == old(blobs)
      ensures newLogo.Some? && RefRejected(HotelLogo(old(hotels), id)) ==>
        && r == Err(ServiceError(Some("storage/invalid-url"), "Invalid URL"))
        && hotels == old(hotels) && blobs == old(blobs) && deleteLog == old(deleteLog)
      ensures newLogo.Some? && !RefRejected(HotelLogo(old(hotels), id)) ==>
        deleteLog == old(deleteLog) + HotelLogo(old(hotels), id)
      ensures newLogo.Some? && !RefRejected(HotelLogo(old(hotels), id)) && upload.UploadFailed? ==>
        && r == Err(ServiceError(Some(upload.code), upload.message)) && hotels == old(hotels)
        && blobs == old(blobs) - (Elems(HotelLogo(old(hotels), id)) - undeletable)
      ensures newLogo.Some? && !RefRejected(HotelLogo(old(hotels), id)) && upload.Uploaded? ==>
        blobs == (old(blobs) - (Elems(HotelLogo(old(hotels), id)) - undeletable))[upload.url := LogoPath(id, newLogo.value.name)]
      ensures id !in old(hotels) ==> r.Err? && hotels == old(hotels)
      ensures id !in old(hotels) && (newLogo.None? || upload.Uploaded?) ==>
        r == Err(ServiceError(Some("not-found"), "No document to update"))
      ensures id in old(hotels) && (newLogo.None? || (upload.Uploaded? && !RefRejected(HotelLogo(old(hotels), id)))) ==> r.Ok?
      ensures r.Ok? ==>
        && id in old(hotels)
        && hotels == old(hotels)[id := old(hotels)[id] + (if newLogo.Some? then patch["logoUrl" := Text(upload.url)] else patch)]
        && r.value == ToHotel(id, hotels[id])
    {
      var patch := patch;
      if newLogo.Some? {
        var current := GetHotel(id);
        if RefRejected(LogoFiles(current)) {
          return Err(ServiceError(Some("storage/invalid-url"), "Invalid URL"));
        }
        DeleteLogoOf(current);
        match upload {
          case UploadFailed(code, message) =>
            return Err(ServiceError(Some(code), message));
          case Uploaded(url) =>
            blobs := blobs[url := LogoPath(id, newLogo.value.name)];
            patch := patch["logoUrl" := Text(url)];
        }
      }
      if id !in hotels {
        return Err(ServiceError(Some("not-found"), "No document to update"));
      }
      hotels := hotels[id := hotels[id] + patch];
      r := Ok(ToHotel(id, hotels[id]));
    }

    /** createBooking: stores the booking under a new id with `hotelId` forced to the
        given hotel, whatever the input held, and returns it as read back. */
    method CreateBooking(hotelId: string, input: BookingDoc, newId: string, now: nat)
      returns (created: Booking)
      requires newId !in bookings
      modifies this
      ensures bookings == old(bookings)[newId := input.(hotelId := hotelId, lastChanged := now)]
      ensures created == Booking(newId, bookings[newId])
      ensures created.doc.hotelId == hotelId && newId in BookingsOf(bookings, hotelId)
      ensures hotels == old(hotels) && blobs == old(blobs) && deleteLog == old(deleteLog)
    {
      bookings := bookings[newId := input.(hotelId := hotelId, lastChanged := now)];
      var readBack := GetBooking(newId);
      created := readBack.value;
    }

    /** updateBookingGuestDetails: a missing booking is an error and nothing is
        written; otherwise guest details, notes, payment option, status and
        lastChanged are overwritten and every other field kept. The previous
        status is not consulted. */
    method UpdateBookingGuestDetails(id: string, details: GuestDetails, notes: string, option: PaymentOption, now: nat)
      returns (r: Result<(), ServiceError>)
      modifies this
      ensures id !in old(bookings) ==> r == Err(ServiceError(None, "Booking not found")) && bookings == old(bookings)
      ensures id in old(bookings) ==> r.Ok? && bookings == old(bookings)[id := old(bookings)[id].(
        guestDetails := Some(details), notes := Some(notes), paymentOption := Some(option),
        status := StatusFor(option), lastChanged := now)]
      ensures hotels == old(hotels) && blobs == old(blobs) && deleteLog == old(deleteLog)
    {
      var booking := GetBooking(id);
      if booking.None? {
        return Err(ServiceError(None, "Booking not found"));
      }
      var paymentStatus := if option == Deposit then PartialPayment else Confirmed;
      bookings := bookings[id := bookings[id].(
        guestDetails := Some(details), notes := Some(notes), paymentOption := Some(option),
        status := paymentStatus, lastChanged := now)];
      r := Ok(());
    }

    /** The loop of deleteBooking over the collected files: each deletion is
        requested in turn and its failure swallowed. */
    method DeleteFiles(files: seq<string>)
      modifies this
      ensures deleteLog == old(deleteLog) + files
      ensures blobs == old(blobs) - (Elems(files) - undeletable)
      ensures hotels == old(hotels) && bookings == old(bookings)
    {
      for i := 0 to |files|
        invariant bookings == old(bookings) && hotels == old(hotels)
        invariant deleteLog == old(deleteLog) + files[..i]
        invariant blobs == old(blobs) - (Elems(files[..i]) - undeletable)
      {
        assert files[..i + 1] == files[..i] + [files[i]];
        assert Elems(files[..i + 1]) - undeletable
            == (Elems(files[..i]) - undeletable) + ({files[i]} - undeletable);
        RemoveKeysTwice(old(blobs), Elems(files[..i]) - undeletable, {files[i]} - undeletable);
        DeleteBlob(files[i]);
      }
      assert files[..|files|] == files;
    }

    /** deleteBooking: a missing booking changes nothing. Otherwise each attached
        file is deleted in turn (failures are swallowed) and then the document. */
    method DeleteBooking(id: string)
      modifies this
      ensures hotels == old(hotels)
      ensures id !in old(bookings) ==> bookings == old(bookings) && blobs == old(blobs) && deleteLog == old(deleteLog)
      ensures id in old(bookings) ==>
        var files := AttachmentUrls(old(bookings)[id]);
        && bookings == old(bookings) - {id}
        && deleteLog == old(deleteLog) + files
        && blobs == old(blobs) - (Elems(files) - undeletable)
    {
      var booking := GetBooking(id);
      if booking.None? {
        return;
      }
      var doc := booking.value.doc;
      var filesToDelete: seq<string> := [];
      if doc.guestDetails.Some? && doc.guestDetails.value.idFrontUrl.Some? && doc.guestDetails.value.idFrontUrl.value != "" {
        filesToDelete := filesToDelete + [doc.guestDetails.value.idFrontUrl.value];
      }
      if doc.guestDetails.Some? && doc.guestDetails.value.idBackUrl.Some? && doc.guestDetails.value.idBackUrl.value != "" {
        filesToDelete := filesToDelete + [doc.guestDetails.value.idBackUrl.value];
      }
      if doc.paymentProofUrl.Some? && doc.paymentProofUrl.value != "" {
        filesToDelete := filesToDelete + [doc.paymentProofUrl.value];
      }
      assert filesToDelete == AttachmentUrls(doc);

      DeleteFiles(filesToDelete);
      bookings := bookings - {id};
    }

    /** deleteHotel: every booking of the hotel that has an id is deleted with its
        files, then the logo (best effort), and last the hotel document. */
    method DeleteHotel(hotelId: string)
      modifies this
      ensures hotels == old(hotels) - {hotelId}
      ensures bookings == old(bookings) - (BookingsOf(old(bookings), hotelId) - {""})
      ensures forall k :: k in bookings && bookings[k].hotelId == hotelId ==> k == ""
      ensures |old(deleteLog)| <= |deleteLog| && deleteLog[..|old(deleteLog)|] == old(deleteLog)
      ensures Elems(deleteLog[|old(deleteLog)|..]) == DoomedFiles(old(bookings), old(hotels), hotelId)
      ensures HotelLogo(old(hotels), hotelId) != [] ==>
        |deleteLog| > |old(deleteLog)| && deleteLog[|deleteLog| - 1] == HotelLogo(old(hotels), hotelId)[0]
      ensures blobs == old(blobs) - (DoomedFiles(old(bookings), old(hotels), hotelId) - undeletable)
    {
      var hotel := GetHotel(hotelId);
      ghost var logo := LogoFiles(hotel);
      var list := GetBookingsForHotel(hotelId);
      ghost var attempted := DeleteListedBookings(list);
      AllListedDone(list, old(bookings), hotelId);
      ghost var blobsBefore := blobs;
      DeleteLogoOf(hotel);
      ghost var listed := AttachmentsOf(old(bookings), BookingsOf(old(bookings), hotelId) - {""});
      RemoveKeysTwice(old(blobs), listed - undeletable, Elems(logo) - undeletable);
      assert (listed - undeletable) + (Elems(logo) - undeletable) == DoomedFiles(old(bookings), old(hotels), hotelId) - undeletable;
      ElemsConcat(attempted, logo);
      assert deleteLog[|old(deleteLog)|..] == attempted + logo;
      hotels := hotels - {hotelId};
    }

    /** Step 2 of deleteHotel: the logo read by getHotel is deleted, best effort.
        Here `ref` is inside the `try`, so a rejected reference is swallowed too.
        updateHotel calls this only once `ref` has accepted the URL. */
    method DeleteLogoOf(hotel: Option<Fields>)
      modifies this
      ensures hotels == old(hotels) && bookings == old(bookings)
      ensures deleteLog == old(deleteLog) + LogoFiles(hotel)
      ensures blobs == old(blobs) - (Elems(LogoFiles(hotel)) - undeletable)
    {
      if hotel.Some? && LogoUrl(hotel.value).Some? {
        DeleteBlob(LogoUrl(hotel.value).value);
      }
    }

    /** Step 1 of deleteHotel: deleteBooking for every listed booking that has an id. */
    method DeleteListedBookings(list: seq<Booking>) returns (ghost attempted: seq<string>)
      requires DistinctIds(list)
      requires forall j :: 0 <= j < |list| ==> list[j].id in bookings && list[j].doc == bookings[list[j].id]
      modifies this
      ensures hotels == old(hotels)
      ensures bookings == old(bookings) - ListedIds(list, |list|)
      ensures deleteLog == old(deleteLog) + attempted
      ensures Elems(attempted) == AttachmentsOf(old(bookings), ListedIds(list, |list|))
      ensures blobs == old(blobs) - (AttachmentsOf(old(bookings), ListedIds(list, |list|)) - undeletable)
    {
      attempted := [];
      for i := 0 to |list|
        invariant hotels == old(hotels)
        invariant bookings == old(bookings) - ListedIds(list, i)
        invariant deleteLog == old(deleteLog) + attempted
        invariant Elems(attempted) == AttachmentsOf(old(bookings), ListedIds(list, i))
        invariant blobs == old(blobs) - (AttachmentsOf(old(bookings), ListedIds(list, i)) - undeletable)
      {
        ghost var done := ListedIds(list, i);
        ListedIdsStep(list, i);
        var id := list[i].id;
        if id != "" {
          ghost var files := AttachmentUrls(old(bookings)[id]);
          assert id !in done;
          assert id in bookings && bookings[id] == old(bookings)[id];
          ghost var logBefore := deleteLog;
          DeleteBooking(id);
          assert deleteLog == logBefore + files;
          assert deleteLog == old(deleteLog) + (attempted + files);
          BookingDeleted(old(bookings), old(blobs), undeletable, done, id, attempted);
          attempted := attempted + files;
        }
      }
    }
  }

  /** The non-empty ids among the first `n` bookings of a list. */
  ghost function ListedIds(list: seq<Booking>, n: nat): set<string>
    requires n <= |list|
  {
    set j | 0 <= j < n && list[j].id != "" :: list[j].id
  }

  lemma ListedIdsStep(list: seq<Booking>, i: nat)
    requires i < |list|
    ensures ListedIds(list, i + 1) == ListedIds(list, i) + (if list[i].id != "" then {list[i].id} else {})
  {
  }

  lemma ElemsConcat(a: seq<string>, b: seq<string>)
    ensures Elems(a + b) == Elems(a) + Elems(b)
  {
  }

  /** One more booking deleted: the deleted bookings, the attempted files and the
      removed blobs each grow by that booking's share. */
  lemma BookingDeleted(bookings: map<string, BookingDoc>, blobs: map<string, string>, undeletable: set<string>,
                       done: set<string>, id: string, attempted: seq<string>)
    requires id in bookings
    requires Elems(attempted) == AttachmentsOf(bookings, done)
    ensures (bookings - done) - {id} == bookings - (done + {id})
    ensures var files := AttachmentUrls(bookings[id]);
      && Elems(attempted + files) == AttachmentsOf(bookings, done + {id})
      && (blobs - (AttachmentsOf(bookings, done) - undeletable)) - (Elems(files) - undeletable)
         == blobs - (AttachmentsOf(bookings, done + {id}) - undeletable)
  {
    var files := AttachmentUrls(bookings[id]);
    RemoveKeysTwice(bookings, done, {id});
    RemoveKeysTwice(blobs, AttachmentsOf(bookings, done) - undeletable, Elems(files) - undeletable);
    AttachmentsOfInsert(bookings, done, id);
    ElemsConcat(attempted, files);
  }

  /** Once every listed booking with an id is done, exactly the hotel's bookings
      with a non-empty id are done. */
  lemma AllListedDone(list: seq<Booking>, bookings: map<string, BookingDoc>, hotelId: string)
    requires Ids(list) == BookingsOf(bookings, hotelId)
    ensures ListedIds(list, |list|) == BookingsOf(bookings, hotelId) - {""}
  {
    forall k | k in BookingsOf(bookings, hotelId) - {""}
      ensures k in ListedIds(list, |list|)
    {
      var b :| b in list && b.id == k;
      var j :| 0 <= j < |list| && list[j] == b;
    }
  }
}
