/** Rooms and bookings: the category filter, the identity-scoped queries,
    and the single-record writes on rooms and bookings. */
module Listings {
  import opened Collections
  import opened Documents

  /** A store-generated object id, kept opaque. */
  type Id = string

  /** The identity embedded in a room or a booking at creation time. */
  datatype Party = Party(name: string, email: string)

  /** A room listing; `booked` is None while the field is absent and
      otherwise holds whatever status the client last sent (Null for a
      request without one), `details` the descriptive fields no core
      handler reads. */
  datatype Room = Room(id: Id, category: string, host: Party, booked: Option<Value>, details: Doc)

  /** A booking as the client submitted it. The date is kept as the day of
      the month and the zero-based month that the statistics read from it. */
  datatype Booking = Booking(id: Id, guest: Party, host: Party, roomId: Id, price: int,
                             day: nat, month: nat, transactionId: string)

  ghost predicate UniqueRoomIds(rooms: seq<Room>)
  {
    forall i, j :: 0 <= i < j < |rooms| ==> rooms[i].id != rooms[j].id
  }

  ghost predicate UniqueBookingIds(bookings: seq<Booking>)
  {
    forall i, j :: 0 <= i < j < |bookings| ==> bookings[i].id != bookings[j].id
  }

  /** GET /rooms: an absent, empty or "null" category means no filter. */
  predicate NoCategoryFilter(category: Option<string>)
  {
    !(category.Some? && category.value != "" && category.value != "null")
  }

  function RoomsByCategory(rooms: seq<Room>, category: Option<string>): (r: seq<Room>)
    ensures NoCategoryFilter(category) <==> category.None? || category.value in {"", "null"}
    ensures NoCategoryFilter(category) ==> r == rooms
    ensures !NoCategoryFilter(category) ==>
      && (forall i :: 0 <= i < |r| ==> r[i] in rooms && r[i].category == category.value)
      && (forall j :: 0 <= j < |rooms| && rooms[j].category == category.value ==> rooms[j] in r)
    ensures IsSubsequence(r, rooms)
  {
    if NoCategoryFilter(category) then
      assert IsSubsequence(rooms, rooms) by { SubsequenceOfItself(rooms); }
      rooms
    else Filter(rooms, (x: Room) => x.category == category.value)
  }

  /** GET /my-listings/:email: the rooms whose host.email is the email. */
  function RoomsOfHost(rooms: seq<Room>, email: string): (r: seq<Room>)
    ensures forall i :: 0 <= i < |r| ==> r[i] in rooms && r[i].host.email == email
    ensures forall j :: 0 <= j < |rooms| && rooms[j].host.email == email ==> rooms[j] in r
    ensures IsSubsequence(r, rooms)
  {
    Filter(rooms, (x: Room) => x.host.email == email)
  }

  predicate HostedBy(email: string, b: Booking) { b.host.email == email }
  predicate BookedBy(email: string, b: Booking) { b.guest.email == email }

  /** GET /manage-bookings/:email: the bookings whose host.email is the email. */
  function BookingsOfHost(bookings: seq<Booking>, email: string): (r: seq<Booking>)
    ensures forall i :: 0 <= i < |r| ==> r[i] in bookings && r[i].host.email == email
    ensures forall j :: 0 <= j < |bookings| && bookings[j].host.email == email ==> bookings[j] in r
    ensures IsSubsequence(r, bookings)
  {
    Filter(bookings, (b: Booking) => HostedBy(email, b))
  }

  /** GET /my-bookings/:email: the bookings whose guest.email is the email. */
  function BookingsOfGuest(bookings: seq<Booking>, email: string): (r: seq<Booking>)
    ensures forall i :: 0 <= i < |r| ==> r[i] in bookings && r[i].guest.email == email
    ensures forall j :: 0 <= j < |bookings| && bookings[j].guest.email == email ==> bookings[j] in r
    ensures IsSubsequence(r, bookings)
  {
    Filter(bookings, (b: Booking) => BookedBy(email, b))
  }

  function FindRoom(rooms: seq<Room>, id: Id): (r: Option<nat>)
    ensures r.Some? ==> r.value < |rooms| && rooms[r.value].id == id
    ensures r.None? <==> forall j :: 0 <= j < |rooms| ==> rooms[j].id != id
  {
    FirstMatch(rooms, (x: Room) => x.id == id)
  }

  function FindBooking(bookings: seq<Booking>, id: Id): (r: Option<nat>)
    ensures r.Some? ==> r.value < |bookings| && bookings[r.value].id == id
    ensures r.None? <==> forall j :: 0 <= j < |bookings| ==> bookings[j].id != id
  {
    FirstMatch(bookings, (b: Booking) => b.id == id)
  }

  /** PATCH /room/status/:id on room values: `$set: { booked: status }` on
      the room with that id. Among rooms with distinct ids, only that
      room's booked field changes, and it is present afterwards. */
  function SetBooked(rooms: seq<Room>, id: Id, status: Value): (r: seq<Room>)
    requires UniqueRoomIds(rooms)
    ensures |r| == |rooms| && UniqueRoomIds(r)
    ensures forall j :: 0 <= j < |rooms| && rooms[j].id != id ==> r[j] == rooms[j]
    ensures forall j :: 0 <= j < |rooms| && rooms[j].id == id ==> r[j] == rooms[j].(booked := Some(status))
  {
    match FindRoom(rooms, id)
    case None => rooms
    case Some(i) => rooms[i := rooms[i].(booked := Some(status))]
  }

  /** DELETE /booking/:id on booking values: every booking but the one
      with that id, in store order. */
  function WithoutBooking(bookings: seq<Booking>, id: Id): (r: seq<Booking>)
    ensures forall i :: 0 <= i < |r| ==> r[i] in bookings && r[i].id != id
    ensures forall j :: 0 <= j < |bookings| && bookings[j].id != id ==> bookings[j] in r
    ensures IsSubsequence(r, bookings)
  {
    Filter(bookings, OtherThan(id))
  }

  function OtherThan(id: Id): Booking -> bool
  {
    (b: Booking) => b.id != id
  }

  /** deleteOne removes the first booking with the id; when ids are
      distinct that is the same as removing every booking with the id, and
      exactly one booking is gone. */
  lemma RemoveFirstIsWithout(bookings: seq<Booking>, id: Id, i: nat)
    requires UniqueBookingIds(bookings)
    requires FindBooking(bookings, id) == Some(i)
    ensures bookings[..i] + bookings[i + 1..] == WithoutBooking(bookings, id)
    ensures |WithoutBooking(bookings, id)| == |bookings| - 1
  {
    var p := OtherThan(id);
    var before, after := bookings[..i], bookings[i + 1..];
    assert bookings == before + ([bookings[i]] + after);
    forall j | 0 <= j < |before| ensures p(before[j]) {
      assert before[j] == bookings[j];
    }
    forall j | 0 <= j < |after| ensures p(after[j]) {
      assert after[j] == bookings[i + 1 + j];
    }
    calc {
      Filter(bookings, p);
      { FilterConcat(before, [bookings[i]] + after, p); }
      Filter(before, p) + Filter([bookings[i]] + after, p);
      { FilterAll(before, p); }
      before + Filter([bookings[i]] + after, p);
      { assert ([bookings[i]] + after)[1..] == after; }
      before + Filter(after, p);
      { FilterAll(after, p); }
      before + after;
    }
  }

  /** Removing bookings keeps ids distinct. */
  lemma {:induction false} SubsequenceKeepsUniqueIds(r: seq<Booking>, s: seq<Booking>)
    requires IsSubsequence(r, s) && UniqueBookingIds(s)
    ensures UniqueBookingIds(r)
    decreases |s|
  {
    if r != [] {
      if r[0] == s[0] && IsSubsequence(r[1..], s[1..]) {
        SubsequenceKeepsUniqueIds(r[1..], s[1..]);
        SubsequenceElements(r[1..], s[1..]);
        forall i, j | 0 <= i < j < |r| ensures r[i].id != r[j].id {
          if i == 0 {
            assert r[j] == r[1..][j - 1];
            var k :| 0 <= k < |s[1..]| && r[1..][j - 1] == s[1..][k];
            assert s[1..][k] == s[k + 1];
          } else {
            assert r[i] == r[1..][i - 1] && r[j] == r[1..][j - 1];
          }
        }
      } else {
        SubsequenceKeepsUniqueIds(r, s[1..]);
      }
    }
  }

  /** The walk-through of a booking: once stored, it is in its guest's
      my-bookings and its host's manage-bookings, at the end; once cancelled,
      no booking with its id is left in either. */
  lemma BookingVisibleUntilCancelled(bookings: seq<Booking>, b: Booking)
    ensures BookingsOfGuest(bookings + [b], b.guest.email) == BookingsOfGuest(bookings, b.guest.email) + [b]
    ensures BookingsOfHost(bookings + [b], b.host.email) == BookingsOfHost(bookings, b.host.email) + [b]
    ensures forall x :: x in BookingsOfGuest(WithoutBooking(bookings + [b], b.id), b.guest.email) ==> x.id != b.id
    ensures forall x :: x in BookingsOfHost(WithoutBooking(bookings + [b], b.id), b.host.email) ==> x.id != b.id
  {
    var g := (x: Booking) => BookedBy(b.guest.email, x);
    var h := (x: Booking) => HostedBy(b.host.email, x);
    FilterConcat(bookings, [b], g);
    FilterConcat(bookings, [b], h);
    assert Filter([b], g) == [b];
    assert Filter([b], h) == [b];
  }
}
