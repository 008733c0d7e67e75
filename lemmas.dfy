/** Every handler, with the added status guards, takes a consistent store to
    a consistent store. */
module Lemmas {
  import opened Domain
  import opened Fare
  import opened Keys
  import opened Invariants
  import opened Transitions

  // ------------------------------------------- exclusivity under one update

  /** An idle booking takes a free unit. */
  lemma {:induction false} EngageKeepsExclusive(bs: map<int, Booking>, units: map<int, UnitStatus>, kind: Kind,
                                                bid: int, nb: Booking, u: int)
    requires Exclusive(bs, units, kind)
    requires bid in bs && !Active(bs[bid])
    requires Engages(nb, kind, u) && u in units && units[u] == Available
    ensures Exclusive(bs[bid := nb], units[u := OnTrip], kind)
  {
    var bs', units' := bs[bid := nb], units[u := OnTrip];
    assert !Busy(bs, kind, u);
    forall k1, k2, v | k1 in bs' && k2 in bs' && Engages(bs'[k1], kind, v) && Engages(bs'[k2], kind, v)
      ensures k1 == k2
    {
      assert k1 != bid ==> Engages(bs[k1], kind, v);
      assert k2 != bid ==> Engages(bs[k2], kind, v);
    }
    forall v | v in units' ensures units'[v] == OnTrip <==> Busy(bs', kind, v) {
      if v == u {
        assert Engages(bs'[bid], kind, u);
      } else {
        if Busy(bs, kind, v) {
          var k :| k in bs && Engages(bs[k], kind, v);
          assert Engages(bs'[k], kind, v);
        }
        if Busy(bs', kind, v) {
          var k :| k in bs' && Engages(bs'[k], kind, v);
          assert Engages(bs[k], kind, v);
        }
      }
    }
  }

  /** An active booking lets go of its unit. */
  lemma {:induction false} ReleaseKeepsExclusive(bs: map<int, Booking>, units: map<int, UnitStatus>, kind: Kind,
                                                 bid: int, nb: Booking, u: int)
    requires Exclusive(bs, units, kind)
    requires bid in bs && Engages(bs[bid], kind, u) && !Active(nb) && u in units
    ensures Exclusive(bs[bid := nb], units[u := Available], kind)
  {
    var bs', units' := bs[bid := nb], units[u := Available];
    forall k | k in bs' ensures !Engages(bs'[k], kind, u) {
      assert k != bid ==> bs'[k] == bs[k];
    }
    forall v | v in units' ensures units'[v] == OnTrip <==> Busy(bs', kind, v) {
      if v != u {
        if Busy(bs, kind, v) {
          var k :| k in bs && Engages(bs[k], kind, v);
          assert k != bid;
          assert Engages(bs'[k], kind, v);
        }
        if Busy(bs', kind, v) {
          var k :| k in bs' && Engages(bs'[k], kind, v);
          assert Engages(bs[k], kind, v);
        }
      }
    }
  }

  /** An active booking stays active with the same unit. */
  lemma {:induction false} StayKeepsExclusive(bs: map<int, Booking>, units: map<int, UnitStatus>, kind: Kind,
                                              bid: int, nb: Booking)
    requires Exclusive(bs, units, kind)
    requires bid in bs && Active(bs[bid]) && Active(nb) && RefOf(nb, kind) == RefOf(bs[bid], kind)
    ensures Exclusive(bs[bid := nb], units, kind)
  {
    var bs' := bs[bid := nb];
    assert forall k, v :: k in bs ==> (Engages(bs'[k], kind, v) <==> Engages(bs[k], kind, v));
    forall v | v in units ensures Busy(bs', kind, v) <==> Busy(bs, kind, v) {
      if Busy(bs, kind, v) {
        var k :| k in bs && Engages(bs[k], kind, v);
        assert Engages(bs'[k], kind, v);
      }
      if Busy(bs', kind, v) {
        var k :| k in bs' && Engages(bs'[k], kind, v);
        assert Engages(bs[k], kind, v);
      }
    }
  }

  /** A booking that holds nothing before and after changes nothing. */
  lemma {:induction false} IdleKeepsExclusive(bs: map<int, Booking>, units: map<int, UnitStatus>, kind: Kind,
                                              bid: int, nb: Booking)
    requires Exclusive(bs, units, kind)
    requires (bid in bs ==> !Active(bs[bid])) && !Active(nb)
    ensures Exclusive(bs[bid := nb], units, kind)
  {
    var bs' := bs[bid := nb];
    forall v | v in units ensures Busy(bs', kind, v) <==> Busy(bs, kind, v) {
      if Busy(bs, kind, v) {
        var k :| k in bs && Engages(bs[k], kind, v);
        assert Engages(bs'[k], kind, v);
      }
      if Busy(bs', kind, v) {
        var k :| k in bs' && Engages(bs'[k], kind, v);
        assert Engages(bs[k], kind, v);
      }
    }
  }

  /** A new, available unit that no booking names. */
  lemma {:induction false} NewUnitKeepsExclusive(bs: map<int, Booking>, units: map<int, UnitStatus>, kind: Kind, u: int)
    requires Exclusive(bs, units, kind)
    requires forall k :: k in bs ==> RefOf(bs[k], kind) != Some(u)
    ensures Exclusive(bs, units[u := Available], kind)
  {
    forall k | k in bs ensures !Engages(bs[k], kind, u) { }
  }

  // ----------------------------------------------------- status projections

  lemma DriverStatusesAfter(ds: map<int, Driver>, d: Option<int>, st: UnitStatus)
    requires d.Some? ==> d.value in ds
    ensures DriverStatuses(WithDriverStatus(ds, d, st))
            == if d.Some? then DriverStatuses(ds)[d.value := st] else DriverStatuses(ds)
  {
    if d.Some? {
      assert DriverStatuses(ds[d.value := ds[d.value].(status := st)]) == DriverStatuses(ds)[d.value := st];
    }
  }

  lemma CabStatusesAfter(cs: map<int, Cab>, c: Option<int>, st: UnitStatus)
    requires c.Some? ==> c.value in cs
    ensures CabStatuses(WithCabStatus(cs, c, st))
            == if c.Some? then CabStatuses(cs)[c.value := st] else CabStatuses(cs)
  {
    if c.Some? {
      assert CabStatuses(cs[c.value := cs[c.value].(status := st)]) == CabStatuses(cs)[c.value := st];
    }
  }

  // --------------------------------------------------------- per handler

  lemma {:induction false} CreateKeepsValid(s: Store, customerId: int, pickup: string, dropoff: string,
                                            distanceKm: real, now: int)
    requires Valid(s)
    ensures Valid(Create(s, NewBooking(customerId, pickup, dropoff, distanceKm, now)))
  {
    var nb := NewBooking(customerId, pickup, dropoff, distanceKm, now);
    var id := NextId(s.bookings.Keys);
    IdleKeepsExclusive(s.bookings, DriverStatuses(s.drivers), OfDriver, id, nb);
    IdleKeepsExclusive(s.bookings, CabStatuses(s.cabs), OfCab, id, nb);
  }

  lemma {:induction false} AssignKeepsValid(s: Store, bid: int, d: int, c: int)
    requires Valid(s)
    requires bid in s.bookings && d in s.drivers && c in s.cabs && AssignReady(s, bid, d, c)
    ensures Valid(Assign(s, bid, d, c))
  {
    var s' := Assign(s, bid, d, c);
    var nb := s'.bookings[bid];
    DriverStatusesAfter(s.drivers, Some(d), OnTrip);
    CabStatusesAfter(s.cabs, Some(c), OnTrip);
    EngageKeepsExclusive(s.bookings, DriverStatuses(s.drivers), OfDriver, bid, nb, d);
    EngageKeepsExclusive(s.bookings, CabStatuses(s.cabs), OfCab, bid, nb, c);
  }

  lemma {:induction false} CancelKeepsValid(s: Store, bid: int)
    requires Valid(s)
    requires bid in s.bookings && s.bookings[bid].status in {Pending, Assigned}
    ensures Valid(Cancel(s, bid))
  {
    var b := s.bookings[bid];
    var nb := b.(status := Cancelled);
    DriverStatusesAfter(s.drivers, b.driverId, Available);
    CabStatusesAfter(s.cabs, b.cabId, Available);
    if b.status == Pending {
      IdleKeepsExclusive(s.bookings, DriverStatuses(s.drivers), OfDriver, bid, nb);
      IdleKeepsExclusive(s.bookings, CabStatuses(s.cabs), OfCab, bid, nb);
    } else {
      ReleaseKeepsExclusive(s.bookings, DriverStatuses(s.drivers), OfDriver, bid, nb, b.driverId.value);
      ReleaseKeepsExclusive(s.bookings, CabStatuses(s.cabs), OfCab, bid, nb, b.cabId.value);
    }
  }

  lemma {:induction false} StartKeepsValid(s: Store, bid: int)
    requires Valid(s)
    requires bid in s.bookings && StartReady(s, bid)
    ensures Valid(Start(s, bid))
  {
    var b := s.bookings[bid];
    var nb := b.(status := EnRoute);
    var d, c := b.driverId.value, b.cabId.value;
    DriverStatusesAfter(s.drivers, b.driverId, OnTrip);
    CabStatusesAfter(s.cabs, b.cabId, OnTrip);
    assert Busy(s.bookings, OfDriver, d) by { assert Engages(s.bookings[bid], OfDriver, d); }
    assert Busy(s.bookings, OfCab, c) by { assert Engages(s.bookings[bid], OfCab, c); }
    assert DriverStatuses(s.drivers)[d := OnTrip] == DriverStatuses(s.drivers);
    assert CabStatuses(s.cabs)[c := OnTrip] == CabStatuses(s.cabs);
    StayKeepsExclusive(s.bookings, DriverStatuses(s.drivers), OfDriver, bid, nb);
    StayKeepsExclusive(s.bookings, CabStatuses(s.cabs), OfCab, bid, nb);
  }

  lemma {:induction false} CompleteKeepsValid(s: Store, bid: int, now: int)
    requires Valid(s)
    requires bid in s.bookings && CompleteReady(s, bid)
    ensures Valid(Complete(s, bid, now))
  {
    var b := s.bookings[bid];
    var nb := b.(status := Completed, completedAt := Some(now), fareFinal := Some(b.fareEstimate));
    DriverStatusesAfter(s.drivers, b.driverId, Available);
    CabStatusesAfter(s.cabs, b.cabId, Available);
    ReleaseKeepsExclusive(s.bookings, DriverStatuses(s.drivers), OfDriver, bid, nb, b.driverId.value);
    ReleaseKeepsExclusive(s.bookings, CabStatuses(s.cabs), OfCab, bid, nb, b.cabId.value);
  }

  lemma {:induction false} AddDriverKeepsValid(s: Store, username: string, email: string, licenseNo: string)
    requires Valid(s)
    ensures Valid(InsertDriver(s, username, email, licenseNo))
  {
    var did := NextId(s.drivers.Keys);
    var dr := Driver(NextId(s.users.Keys), licenseNo, Available);
    assert DriverStatuses(s.drivers[did := dr]) == DriverStatuses(s.drivers)[did := Available];
    NewUnitKeepsExclusive(s.bookings, DriverStatuses(s.drivers), OfDriver, did);
  }

  lemma {:induction false} AddCabKeepsValid(s: Store, registrationNo: string, driverId: Option<int>)
    requires Valid(s)
    ensures Valid(InsertCab(s, registrationNo, driverId))
  {
    var cid := NextId(s.cabs.Keys);
    var cab := Cab(registrationNo, driverId, Available);
    assert CabStatuses(s.cabs[cid := cab]) == CabStatuses(s.cabs)[cid := Available];
    NewUnitKeepsExclusive(s.bookings, CabStatuses(s.cabs), OfCab, cid);
  }

  // ------------------------------------------------------------ lifecycle

  /** The happy path: a booking created, assigned a free driver and cab,
      started and completed leaves a consistent store in which the final
      fare is the estimate priced at creation and the driver and cab are
      free again. */
  lemma {:induction false} TripRoundTrip(s: Store, customerId: int, pickup: string, dropoff: string,
                                         distanceKm: real, created: int, finished: int, d: int, c: int)
    requires Valid(s)
    requires d in s.drivers && c in s.cabs && s.drivers[d].status == Available && s.cabs[c].status == Available
    ensures var id := NextId(s.bookings.Keys);
            var s1 := Create(s, NewBooking(customerId, pickup, dropoff, distanceKm, created));
            var s2 := Assign(s1, id, d, c);
            var s3 := Start(s2, id);
            var s4 := Complete(s3, id, finished);
            && Valid(s4)
            && s4.bookings[id].status == Completed
            && s4.bookings[id].fareFinal == Some(Estimate(distanceKm))
            && s4.bookings[id].completedAt == Some(finished)
            && s4.bookings[id].driverId == Some(d) && s4.bookings[id].cabId == Some(c)
            && s4.drivers[d].status == Available && s4.cabs[c].status == Available
  {
    var id := NextId(s.bookings.Keys);
    var s1 := Create(s, NewBooking(customerId, pickup, dropoff, distanceKm, created));
    CreateKeepsValid(s, customerId, pickup, dropoff, distanceKm, created);
    AssignKeepsValid(s1, id, d, c);
    var s2 := Assign(s1, id, d, c);
    StartKeepsValid(s2, id);
    CompleteKeepsValid(Start(s2, id), id, finished);
  }
}
