/** The admin report: total revenue (the sum of all final fares, 0 when
    there are none), the number of completed trips, and the average fare
    (revenue over trips, 0 when there are no trips). */
module Reports {
  import opened Domain
  import opened Keys
  import opened Invariants
  import opened Transitions

  datatype Summary = Summary(revenue: real, trips: nat, average: real)

  /** A booking's contribution to the sum: a missing final fare adds
      nothing, as SQL `SUM` skips NULL. */
  function FareOf(b: Booking): real {
    if b.fareFinal.Some? then b.fareFinal.value else 0.0
  }

  function Revenue(bs: map<int, Booking>): (total: real)
    ensures (forall k :: k in bs ==> bs[k].fareFinal.None?) ==> total == 0.0
    ensures (forall k :: k in bs ==> FareOf(bs[k]) >= 0.0) ==> total >= 0.0
    decreases bs.Keys
  {
    if bs.Keys == {} then 0.0
    else
      var k := Least(bs.Keys);
      FareOf(bs[k]) + Revenue(bs - {k})
  }

  function CompletedIds(bs: map<int, Booking>): set<int> {
    set k | k in bs && bs[k].status == Completed
  }

  function CompletedTrips(bs: map<int, Booking>): nat {
    |CompletedIds(bs)|
  }

  function Summarize(bs: map<int, Booking>): (r: Summary)
    ensures r.trips == CompletedTrips(bs) && r.revenue == Revenue(bs)
    ensures r.trips > 0 ==> r.average * (r.trips as real) == r.revenue
    ensures r.trips == 0 ==> r.average == 0.0
  {
    var revenue := Revenue(bs);
    var trips := CompletedTrips(bs);
    Summary(revenue, trips, if trips > 0 then revenue / trips as real else 0.0)
  }

  /** The sum does not depend on the order the rows are visited: any one
      row can be taken out first. */
  lemma {:induction false} RevenueWithout(bs: map<int, Booking>, k: int)
    requires k in bs
    ensures Revenue(bs) == FareOf(bs[k]) + Revenue(bs - {k})
    decreases bs.Keys
  {
    var m := Least(bs.Keys);
    if m != k {
      var rest := bs - {m};
      RevenueWithout(rest, k);
      RevenueWithout(bs - {k}, m);
      assert rest - {k} == (bs - {k}) - {m};
    }
  }

  /** Replacing one row changes the revenue by the difference of the two
      rows' final fares. */
  lemma {:induction false} RevenueAfterUpdate(bs: map<int, Booking>, k: int, b: Booking)
    requires k in bs
    ensures Revenue(bs[k := b]) == Revenue(bs) - FareOf(bs[k]) + FareOf(b)
  {
    RevenueWithout(bs, k);
    RevenueWithout(bs[k := b], k);
    assert bs[k := b] - {k} == bs - {k};
  }

  /** A row update that keeps the final fare and whether the booking is
      completed leaves the whole report unchanged. */
  lemma {:induction false} SummaryUnchanged(bs: map<int, Booking>, k: int, b: Booking)
    requires k in bs && b.fareFinal == bs[k].fareFinal
    requires b.status == Completed <==> bs[k].status == Completed
    ensures Summarize(bs[k := b]) == Summarize(bs)
  {
    RevenueAfterUpdate(bs, k, b);
    assert CompletedIds(bs[k := b]) == CompletedIds(bs);
  }

  /** Completing a booking that had no final fare adds its estimate to the
      revenue and one to the trip count. */
  lemma {:induction false} CompletionAddsFare(s: Store, bid: int, now: int)
    requires bid in s.bookings && Resolves(s, s.bookings[bid])
    requires s.bookings[bid].status != Completed && s.bookings[bid].fareFinal.None?
    ensures Summarize(Complete(s, bid, now).bookings).revenue
            == Summarize(s.bookings).revenue + s.bookings[bid].fareEstimate
    ensures Summarize(Complete(s, bid, now).bookings).trips == Summarize(s.bookings).trips + 1
  {
    var bs := s.bookings;
    var nb := Complete(s, bid, now).bookings[bid];
    RevenueAfterUpdate(bs, bid, nb);
    assert CompletedIds(bs[bid := nb]) == CompletedIds(bs) + {bid};
  }

  /** In a consistent store only completed bookings carry a final fare, so
      with no completed trip the revenue is 0 as well as the average. */
  lemma {:induction false} NoTripsNoRevenue(s: Store)
    requires Valid(s) && CompletedTrips(s.bookings) == 0
    ensures Summarize(s.bookings) == Summary(0.0, 0, 0.0)
  {
    forall k | k in s.bookings ensures s.bookings[k].fareFinal.None? {
      assert Consistent(s.bookings[k]);
      assert s.bookings[k].status == Completed ==> k in CompletedIds(s.bookings);
    }
  }

  /** Three completed trips with fares 200, 300 and 400 report revenue 900,
      three trips and an average of 300. */
  lemma ThreeTripsExample(b: Booking)
    requires b.status == Completed
    ensures var bs := map[1 := b.(fareFinal := Some(200.0)), 2 := b.(fareFinal := Some(300.0)),
                          3 := b.(fareFinal := Some(400.0))];
            Summarize(bs) == Summary(900.0, 3, 300.0)
  {
    var b1, b2, b3 := b.(fareFinal := Some(200.0)), b.(fareFinal := Some(300.0)), b.(fareFinal := Some(400.0));
    var bs := map[1 := b1, 2 := b2, 3 := b3];
    var bs1 := map[2 := b2, 3 := b3];
    var bs2 := map[3 := b3];
    assert Revenue(bs2) == 400.0 by {
      assert (bs2 - {3}).Keys == {};
      RevenueWithout(bs2, 3);
    }
    assert Revenue(bs1) == 700.0 by {
      assert bs1 - {2} == bs2;
      RevenueWithout(bs1, 2);
    }
    assert Revenue(bs) == 900.0 by {
      assert bs - {1} == bs1;
      RevenueWithout(bs, 1);
    }
    assert CompletedIds(bs) == {1, 2, 3} by {
      assert forall k :: k in CompletedIds(bs) <==> k in {1, 2, 3};
    }
    assert |{1, 2, 3}| == 3;
  }
}
