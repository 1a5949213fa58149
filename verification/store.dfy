/** The three collections and the handlers that write to them. */
module Server {
  import opened Collections
  import opened Documents
  import opened Listings
  import Users
  import Guards

  /** The reply of insertOne; DuplicateKey when a booking with that _id is
      already stored (the store's unique index on _id). */
  datatype InsertResult = Inserted(insertedId: Id) | DuplicateKey

  class Store {
    var users: seq<Doc>
    var rooms: seq<Room>
    var bookings: seq<Booking>

    /** Object ids are unique within a collection. */
    ghost predicate Valid()
      reads this
    {
      UniqueRoomIds(rooms) && UniqueBookingIds(bookings)
    }

    constructor (users0: seq<Doc>, rooms0: seq<Room>, bookings0: seq<Booking>)
      requires UniqueRoomIds(rooms0) && UniqueBookingIds(bookings0)
      ensures Valid()
      ensures users == users0 && rooms == rooms0 && bookings == bookings0
    {
      users, rooms, bookings := users0, rooms0, bookings0;
    }

    /** PUT /user. */
    method SaveUser(payload: Doc, now: int) returns (reply: Users.SaveReply)
      requires Valid()
      modifies this
      ensures Valid()
      ensures users == Users.Save(old(users), payload, now).users
      ensures reply == Users.Save(old(users), payload, now).reply
      ensures rooms == old(rooms) && bookings == old(bookings)
    {
      var saved := Users.Save(users, payload, now);
      users := saved.users;
      reply := saved.reply;
    }

    /** PATCH /user/update/:email behind verifyAdmin, read as written or
        corrected: a caller the guard rejects changes nothing. As written,
        every stored caller gets through, so any user can set any user's
        role, their own included. */
    method UpdateUserRole(reading: Guards.Reading, caller: string, email: string, payload: Doc,
                          now: int) returns (reply: Response<WriteResult>)
      requires Valid()
      modifies this
      ensures Valid()
      ensures Guards.Passes(reading, Guards.CallerRecord(old(users), caller), "admin") ==>
        && users == Users.Update(old(users), email, payload, now).users
        && reply == Sent(Users.Update(old(users), email, payload, now).result)
      ensures !Guards.Passes(reading, Guards.CallerRecord(old(users), caller), "admin") ==>
        users == old(users) && reply == BadAccess
      ensures rooms == old(rooms) && bookings == old(bookings)
    {
      var record := Guards.CallerRecord(users, caller);
      if !Guards.Passes(reading, record, "admin") {
        return BadAccess;
      }
      var updated := Users.Update(users, email, payload, now);
      users := updated.users;
      reply := Sent(updated.result);
    }

    /** POST /bookings: the booking is stored as the client sent it, then
        the guest and the host are each sent one notification, whose
        outcome is not awaited. notified lists their addresses in order. */
    method SaveBooking(booking: Booking) returns (result: InsertResult, notified: seq<string>)
      requires Valid()
      modifies this
      ensures Valid()
      ensures FindBooking(old(bookings), booking.id).None? ==>
        && bookings == old(bookings) + [booking]
        && result == Inserted(booking.id)
        && notified == [booking.guest.email, booking.host.email]
      ensures FindBooking(old(bookings), booking.id).Some? ==>
        bookings == old(bookings) && result == DuplicateKey && notified == []
      ensures users == old(users) && rooms == old(rooms)
    {
      if FindBooking(bookings, booking.id).Some? {
        return DuplicateKey, [];
      }
      bookings := bookings + [booking];
      result := Inserted(booking.id);
      notified := [booking.guest.email, booking.host.email];
    }

    /** PATCH /room/status/:id: `$set: { booked: status }` on that room. */
    method UpdateRoomStatus(id: Id, status: Value) returns (result: WriteResult)
      requires Valid()
      modifies this
      ensures Valid()
      ensures rooms == SetBooked(old(rooms), id, status)
      ensures FindRoom(old(rooms), id).None? ==> result == WriteResult(0, 0, 0)
      ensures FindRoom(old(rooms), id).Some? ==>
        && result.matchedCount == 1 && result.upsertedCount == 0
        && (result.modifiedCount == 0 <==> old(rooms)[FindRoom(old(rooms), id).value].booked == Some(status))
        && (result.modifiedCount == 1 <==> old(rooms)[FindRoom(old(rooms), id).value].booked != Some(status))
      ensures users == old(users) && bookings == old(bookings)
    {
      var found := FindRoom(rooms, id);
      if found.None? {
        result := WriteResult(0, 0, 0);
      } else {
        var i := found.value;
        var modified := if rooms[i].booked == Some(status) then 0 else 1;
        rooms := rooms[i := rooms[i].(booked := Some(status))];
        result := WriteResult(1, modified, 0);
      }
    }

    /** DELETE /booking/:id: deleteOne on that booking. The room's booked
        flag is left as it is. */
    method CancelBooking(id: Id) returns (deletedCount: nat)
      requires Valid()
      modifies this
      ensures Valid()
      ensures bookings == WithoutBooking(old(bookings), id)
      ensures deletedCount == |old(bookings)| - |bookings|
      ensures deletedCount == 1 <==> FindBooking(old(bookings), id).Some?
      ensures FindBooking(old(bookings), id).None? ==> deletedCount == 0 && bookings == old(bookings)
      ensures deletedCount <= 1
      ensures users == old(users) && rooms == old(rooms)
    {
      var found := FindBooking(bookings, id);
      if found.None? {
        FilterAll(bookings, OtherThan(id));
        return 0;
      }
      var i := found.value;
      RemoveFirstIsWithout(bookings, id, i);
      SubsequenceKeepsUniqueIds(WithoutBooking(bookings, id), bookings);
      bookings := bookings[..i] + bookings[i + 1..];
      deletedCount := 1;
    }
  }

  /** The booking walk-through on a store: a stored booking shows in its
      guest's and its host's lists, and is gone from both once cancelled. */
  method BookingLifecycle(store: Store, booking: Booking)
    requires store.Valid() && FindBooking(store.bookings, booking.id).None?
    modifies store
  {
    var result, notified := store.SaveBooking(booking);
    assert result == Inserted(booking.id) && |notified| == 2;
    assert store.bookings[|store.bookings| - 1] == booking;
    assert booking in BookingsOfGuest(store.bookings, booking.guest.email);
    assert booking in BookingsOfHost(store.bookings, booking.host.email);
    var deleted := store.CancelBooking(booking.id);
    assert deleted == 1;
    assert booking !in BookingsOfGuest(store.bookings, booking.guest.email);
    assert booking !in BookingsOfHost(store.bookings, booking.host.email);
  }
}
