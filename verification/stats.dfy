/** The statistics of /admin-stat, /host-stat and /guest-stat: a chart of
    one ("day/month", price) point per booking in scope behind a header
    row, the sum of the prices and the number of bookings. */
module Stats {
  import opened Collections
  import opened Documents
  import opened Listings
  import Users
  import Guards

  predicate IsDigit(c: char) { '0' <= c <= '9' }

  predicate AllDigits(s: string) { forall i :: 0 <= i < |s| ==> IsDigit(s[i]) }

  function DigitChar(d: nat): (c: char)
    requires d < 10
    ensures IsDigit(c) && c as int - '0' as int == d
  {
    ('0' as int + d) as char
  }

  /** The decimal text a template literal gives a non-negative integer:
      at least one digit and no leading zero. */
  function NatToString(n: nat): (s: string)
    ensures |s| >= 1 && AllDigits(s)
    ensures s[0] == '0' ==> n == 0 && s == "0"
    decreases n
  {
    if n < 10 then [DigitChar(n)] else NatToString(n / 10) + [DigitChar(n % 10)]
  }

  /** The number a string of decimal digits denotes. */
  function ParseDigits(s: string): nat
    requires AllDigits(s)
  {
    if |s| == 0 then 0
    else ParseDigits(s[..|s| - 1]) * 10 + (s[|s| - 1] as int - '0' as int)
  }

  lemma {:induction false} ParseNatToString(n: nat)
    ensures ParseDigits(NatToString(n)) == n
    decreases n
  {
    if n >= 10 {
      ParseNatToString(n / 10);
      var s := NatToString(n);
      assert s[..|s| - 1] == NatToString(n / 10);
    }
  }

  /** `${day}/${month}` with the zero-based month of getMonth. */
  function Label(day: nat, month: nat): (r: string)
    ensures var k := |NatToString(day)|;
      && 0 < k < |r| - 1 && r[k] == '/'
      && forall i :: 0 <= i < |r| && i != k ==> IsDigit(r[i])
  {
    NatToString(day) + "/" + NatToString(month)
  }

  /** Reads a chart label back: the digits before the first slash and the
      digits after it. */
  function ParseLabel(s: string): Option<(nat, nat)>
  {
    match FirstMatch(s, (c: char) => c == '/')
    case None => None
    case Some(k) =>
      if k > 0 && k + 1 < |s| && AllDigits(s[..k]) && AllDigits(s[k + 1..])
      then Some((ParseDigits(s[..k]), ParseDigits(s[k + 1..])))
      else None
  }

  /** A label determines the day and month it was made from. */
  lemma LabelRoundTrip(day: nat, month: nat)
    ensures ParseLabel(Label(day, month)) == Some((day, month))
  {
    var d, m := NatToString(day), NatToString(month);
    var s := Label(day, month);
    var k := |d|;
    assert s[k] == '/';
    assert forall j :: 0 <= j < k ==> s[j] == d[j];
    assert FirstMatch(s, (c: char) => c == '/') == Some(k);
    assert s[..k] == d;
    assert s[k + 1..] == m;
    ParseNatToString(day);
    ParseNatToString(month);
  }

  /** Distinct (day, month) pairs never share a chart label. */
  lemma LabelInjective(d1: nat, m1: nat, d2: nat, m2: nat)
    requires Label(d1, m1) == Label(d2, m2)
    ensures d1 == d2 && m1 == m2
  {
    LabelRoundTrip(d1, m1);
    LabelRoundTrip(d2, m2);
  }

  /** The label of a booking on the 5th of January is "5/0". */
  lemma FifthOfJanuary()
    ensures Label(5, 0) == "5/0"
  {
    assert NatToString(5) == "5";
    assert NatToString(0) == "0";
  }

  /** A chart cell: text in the header row, a price in the others. */
  datatype Cell = Text(s: string) | Amount(n: int)
  datatype ChartRow = ChartRow(x: string, y: Cell)

  const ADMIN_HEADER := ChartRow("Day", Text("Sales"))
  const GUEST_HEADER := ChartRow("day", Text("sales"))

  function Point(b: Booking): ChartRow
  {
    ChartRow(Label(b.day, b.month), Amount(b.price))
  }

  /** `bookingsDetails.map(...)`: one point per booking, in store order. */
  function ChartPoints(bookings: seq<Booking>): (r: seq<ChartRow>)
    ensures |r| == |bookings|
    ensures forall i :: 0 <= i < |bookings| ==> r[i] == Point(bookings[i])
  {
    if |bookings| == 0 then [] else [Point(bookings[0])] + ChartPoints(bookings[1..])
  }

  /** `reduce((sum, item) => sum + item.price, 0)`, folded from the left. */
  function TotalPrice(bookings: seq<Booking>): int
  {
    if |bookings| == 0 then 0
    else TotalPrice(bookings[..|bookings| - 1]) + bookings[|bookings| - 1].price
  }

  /** Folding from the left is folding from the right: the total is the
      first price plus the total of the rest. */
  lemma {:induction false} TotalPriceFromFront(bookings: seq<Booking>)
    requires |bookings| > 0
    ensures TotalPrice(bookings) == bookings[0].price + TotalPrice(bookings[1..])
    decreases |bookings|
  {
    var n := |bookings| - 1;
    if n > 0 {
      TotalPriceFromFront(bookings[..n]);
      assert bookings[..n][1..] == bookings[1..][..n - 1];
    } else {
      assert bookings[..0] == [];
    }
  }

  /** With no negative price the total is never negative. */
  lemma {:induction false} TotalPriceNonNegative(bookings: seq<Booking>)
    requires forall i :: 0 <= i < |bookings| ==> bookings[i].price >= 0
    ensures TotalPrice(bookings) >= 0
    decreases |bookings|
  {
    if |bookings| > 0 {
      TotalPriceNonNegative(bookings[..|bookings| - 1]);
    }
  }

  /** The sum of the amounts a chart plots; the header adds nothing. */
  function ChartSum(rows: seq<ChartRow>): int
  {
    if |rows| == 0 then 0
    else ChartSum(rows[..|rows| - 1]) + (match rows[|rows| - 1].y case Amount(n) => n case Text(_) => 0)
  }

  lemma {:induction false} TotalPriceConcat(a: seq<Booking>, b: seq<Booking>)
    ensures TotalPrice(a + b) == TotalPrice(a) + TotalPrice(b)
    decreases |b|
  {
    if |b| == 0 {
      assert a + b == a;
    } else {
      var c := a + b;
      assert c[..|c| - 1] == a + b[..|b| - 1];
      TotalPriceConcat(a, b[..|b| - 1]);
    }
  }

  lemma {:induction false} ChartSumConcat(a: seq<ChartRow>, b: seq<ChartRow>)
    ensures ChartSum(a + b) == ChartSum(a) + ChartSum(b)
    decreases |b|
  {
    if |b| == 0 {
      assert a + b == a;
    } else {
      var c := a + b;
      assert c[..|c| - 1] == a + b[..|b| - 1];
      ChartSumConcat(a, b[..|b| - 1]);
    }
  }

  lemma {:induction false} PointsSumIsTotalPrice(bookings: seq<Booking>)
    ensures ChartSum(ChartPoints(bookings)) == TotalPrice(bookings)
    decreases |bookings|
  {
    if |bookings| > 0 {
      var n := |bookings| - 1;
      var points := ChartPoints(bookings);
      PointsSumIsTotalPrice(bookings[..n]);
      assert points[..n] == ChartPoints(bookings[..n]);
      assert points[n] == Point(bookings[n]);
    }
  }

  /** The prices the chart plots add up to the total price. */
  lemma ChartSumIsTotalPrice(header: ChartRow, bookings: seq<Booking>)
    requires header.y.Text?
    ensures ChartSum([header] + ChartPoints(bookings)) == TotalPrice(bookings)
  {
    ChartSumConcat([header], ChartPoints(bookings));
    assert ChartSum([header]) == 0 by { assert [header][..0] == []; }
    PointsSumIsTotalPrice(bookings);
  }

  /** The revenue of any scope and of its complement add up to the revenue
      of all bookings: a host's total is its share of the admin's total. */
  lemma {:induction false} TotalPricePartition(bookings: seq<Booking>, p: Booking -> bool)
    ensures TotalPrice(Filter(bookings, p)) + TotalPrice(Filter(bookings, Complement(p)))
            == TotalPrice(bookings)
    decreases |bookings|
  {
    if |bookings| > 0 {
      var first, rest := bookings[0], bookings[1..];
      var q := Complement(p);
      TotalPricePartition(rest, p);
      TotalPriceFromFront(bookings);
      var kept := if p(first) then Filter(rest, p) else Filter(rest, q);
      assert Filter(bookings, p) == (if p(first) then [first] + kept else Filter(rest, p));
      assert Filter(bookings, q) == (if p(first) then Filter(rest, q) else [first] + kept);
      assert ([first] + kept)[1..] == kept;
      TotalPriceFromFront([first] + kept);
    }
  }

  /** The chart a statistics route sends: the header, then the points. */
  function Chart(header: ChartRow, bookings: seq<Booking>): (r: seq<ChartRow>)
    requires header.y.Text?
    ensures |r| == |bookings| + 1 && r[0] == header
    ensures forall i :: 0 <= i < |bookings| ==>
      r[i + 1] == ChartRow(Label(bookings[i].day, bookings[i].month), Amount(bookings[i].price))
    ensures ChartSum(r) == TotalPrice(bookings)
  {
    ChartSumIsTotalPrice(header, bookings);
    [header] + ChartPoints(bookings)
  }

  datatype AdminStats = AdminStats(totalUser: nat, totalRooms: nat, totalPrice: int,
                                   totalBookings: nat, chartData: seq<ChartRow>)
  datatype HostStats = HostStats(totalUser: nat, totalRooms: nat, totalPrice: int,
                                 totalBooking: nat, chartData: seq<ChartRow>, timestamp: Option<Value>)
  datatype GuestStats = GuestStats(totalPrice: int, timestamp: Option<Value>,
                                   totalBooking: nat, chartData: seq<ChartRow>)

  /** `const { Timestamp } = record`: undefined when the field is absent. */
  function TimestampOf(record: Doc): Option<Value>
  {
    if "Timestamp" in record then Some(record["Timestamp"]) else None
  }

  /** /admin-stat once the guards have passed: every booking is in scope. */
  function AdminStat(users: seq<Doc>, rooms: seq<Room>, bookings: seq<Booking>): (r: AdminStats)
    ensures r.totalUser == |users| && r.totalRooms == |rooms|
    ensures r.totalBookings == |bookings| && |r.chartData| == r.totalBookings + 1
    ensures r.chartData[0] == ChartRow("Day", Text("Sales"))
    ensures forall i :: 0 <= i < |bookings| ==> r.chartData[i + 1] == Point(bookings[i])
    ensures ChartSum(r.chartData) == r.totalPrice == TotalPrice(bookings)
  {
    AdminStats(|users|, |rooms|, TotalPrice(bookings), |bookings|, Chart(ADMIN_HEADER, bookings))
  }

  /** /host-stat once the guards have passed: the caller's bookings as host,
      the system-wide user and room counts, and the caller's Timestamp. */
  function HostStat(users: seq<Doc>, rooms: seq<Room>, bookings: seq<Booking>, email: string,
                    record: Doc): (r: HostStats)
    ensures r.totalUser == |users| && r.totalRooms == |rooms|
    ensures r.totalBooking == |BookingsOfHost(bookings, email)| && |r.chartData| == r.totalBooking + 1
    ensures r.chartData[0] == ChartRow("Day", Text("Sales"))
    ensures forall i :: 0 <= i < r.totalBooking ==>
      r.chartData[i + 1] == Point(BookingsOfHost(bookings, email)[i])
    ensures ChartSum(r.chartData) == r.totalPrice == TotalPrice(BookingsOfHost(bookings, email))
    ensures r.timestamp == TimestampOf(record)
  {
    var scoped := BookingsOfHost(bookings, email);
    HostStats(|users|, |rooms|, TotalPrice(scoped), |scoped|, Chart(ADMIN_HEADER, scoped), TimestampOf(record))
  }

  /** /guest-stat: the caller's bookings as guest and the caller's Timestamp,
      with the lower-case header. */
  function GuestStat(bookings: seq<Booking>, email: string, record: Doc): (r: GuestStats)
    ensures r.totalBooking == |BookingsOfGuest(bookings, email)| && |r.chartData| == r.totalBooking + 1
    ensures r.chartData[0] == ChartRow("day", Text("sales"))
    ensures forall i :: 0 <= i < r.totalBooking ==>
      r.chartData[i + 1] == Point(BookingsOfGuest(bookings, email)[i])
    ensures ChartSum(r.chartData) == r.totalPrice == TotalPrice(BookingsOfGuest(bookings, email))
    ensures r.timestamp == TimestampOf(record)
  {
    var scoped := BookingsOfGuest(bookings, email);
    GuestStats(TotalPrice(scoped), TimestampOf(record), |scoped|, Chart(GUEST_HEADER, scoped))
  }

  /** GET /admin-stat behind verifyAdmin, read as written or corrected. */
  function AdminStatRoute(reading: Guards.Reading, users: seq<Doc>, rooms: seq<Room>,
                          bookings: seq<Booking>, caller: string): (r: Response<AdminStats>)
    ensures r != NoResponse
    ensures r.Sent? <==> Guards.Passes(reading, Guards.CallerRecord(users, caller), "admin")
    ensures r.Sent? ==> r.body == AdminStat(users, rooms, bookings)
  {
    if Guards.Passes(reading, Guards.CallerRecord(users, caller), "admin")
    then Sent(AdminStat(users, rooms, bookings)) else BadAccess
  }

  /** GET /host-stat behind verifyHost, read as written or corrected; the
      Timestamp comes from findOne({ email }), the caller's first record. */
  function HostStatRoute(reading: Guards.Reading, users: seq<Doc>, rooms: seq<Room>,
                         bookings: seq<Booking>, caller: string): (r: Response<HostStats>)
    ensures r != NoResponse
    ensures r.Sent? <==> Guards.Passes(reading, Guards.CallerRecord(users, caller), "host")
    ensures r.Sent? ==>
      && Guards.CallerRecord(users, caller).Some?
      && r.body == HostStat(users, rooms, bookings, caller, Guards.CallerRecord(users, caller).value)
  {
    var record := Guards.CallerRecord(users, caller);
    if Guards.Passes(reading, record, "host")
    then Sent(HostStat(users, rooms, bookings, caller, record.value)) else BadAccess
  }

  /** GET /guest-stat has no role guard; a caller without a user record
      makes the destructuring of null throw, and the handler sends nothing. */
  function GuestStatRoute(users: seq<Doc>, bookings: seq<Booking>, caller: string): (r: Response<GuestStats>)
    ensures r != BadAccess
    ensures r.NoResponse? <==> forall j :: 0 <= j < |users| ==> Get(users[j], "email") != Str(caller)
    ensures r.Sent? ==>
      && Guards.CallerRecord(users, caller).Some?
      && r.body == GuestStat(bookings, caller, Guards.CallerRecord(users, caller).value)
  {
    match Guards.CallerRecord(users, caller)
    case None => NoResponse
    case Some(record) => Sent(GuestStat(bookings, caller, record))
  }

  /** As written, the guards let every stored caller through: a guest gets
      the admin's and a host's figures alike. Only an unknown caller gets
      Bad Access. */
  lemma AsWrittenStatRoutesServeStoredCallers(users: seq<Doc>, rooms: seq<Room>,
                                              bookings: seq<Booking>, caller: string)
    ensures Users.FindUser(users, Str(caller)).Some? ==>
      var record := users[Users.FindUser(users, Str(caller)).value];
      && AdminStatRoute(Guards.AsWritten, users, rooms, bookings, caller)
         == Sent(AdminStat(users, rooms, bookings))
      && HostStatRoute(Guards.AsWritten, users, rooms, bookings, caller)
         == Sent(HostStat(users, rooms, bookings, caller, record))
    ensures Users.FindUser(users, Str(caller)).None? ==>
      && AdminStatRoute(Guards.AsWritten, users, rooms, bookings, caller) == BadAccess
      && HostStatRoute(Guards.AsWritten, users, rooms, bookings, caller) == BadAccess
  {
  }

  /** Behind the corrected guards, every caller that is not a stored admin,
      including one with no record at all, gets Bad Access from /admin-stat;
      likewise for hosts and /host-stat. */
  lemma StatRoutesRejectOtherRoles(users: seq<Doc>, rooms: seq<Room>, bookings: seq<Booking>, caller: string)
    ensures (Users.FindUser(users, Str(caller)).None? ||
             Get(users[Users.FindUser(users, Str(caller)).value], "role") != Str("admin"))
            ==> AdminStatRoute(Guards.Corrected, users, rooms, bookings, caller) == BadAccess
    ensures (Users.FindUser(users, Str(caller)).None? ||
             Get(users[Users.FindUser(users, Str(caller)).value], "role") != Str("host"))
            ==> HostStatRoute(Guards.Corrected, users, rooms, bookings, caller) == BadAccess
  {
    Guards.AdmitsExactlyStoredRole(users, caller, "admin");
    Guards.AdmitsExactlyStoredRole(users, caller, "host");
  }

  /** The host's figures are its share of the admin's: host revenue plus
      the revenue of every other host's bookings is the total revenue, and
      the host's count is what GET /manage-bookings returns. */
  lemma HostShareOfAdminStat(users: seq<Doc>, rooms: seq<Room>, bookings: seq<Booking>,
                             email: string, record: Doc)
    ensures var host := HostStat(users, rooms, bookings, email, record);
      && host.totalPrice + TotalPrice(Filter(bookings, Complement((b: Booking) => HostedBy(email, b))))
         == AdminStat(users, rooms, bookings).totalPrice
      && host.totalBooking <= AdminStat(users, rooms, bookings).totalBookings
  {
    TotalPricePartition(bookings, (b: Booking) => HostedBy(email, b));
  }
}
