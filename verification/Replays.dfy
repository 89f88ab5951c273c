/** What a request does that is sent again, or sent under an idempotency key already used. */
module Replays {
  import opened Models
  import opened Submissions
  import opened Ledger

  /** What the caller of the provider is told. */
  function Answer(d: Desk, day: Day, r: Request): Ledger.Outcome {
    match r
    case Create(key, reference, user, p) =>
      if p.Booking? then Book(d, day.rooms, day.preset, key, reference, user, p).0
      else
        var store := Executed(d.store, key, reference, user, p);
        AppendedKey(d.store.entries, key, Record(reference, user, p, false, false));
        Success(store.entries[KeyAt(store.entries, key)].record)
    case Amend(key, user, reference, patch) => Change(d, day.rooms, day.preset, key, user, reference, patch).0
    case Withdraw(key, user, kind, reference) => Revoke(d, key, user, kind, reference).0
  }

  function Next(d: Desk, day: Day, r: Request): Desk {
    Serve(d, day.rooms, day.preset, r)
  }

  // ---- The same request again -----------------------------------------------------------------

  lemma {:induction false} FoundAgain(entries: seq<Entry>, user: string, kind: Kind, reference: string, record: Record)
    requires Matches(record, user, kind, reference)
    ensures var k := Find(entries, user, kind, reference);
            k < |entries| ==> Find(entries[k := entries[k].(record := record)], user, kind, reference) == k
  {
    if entries != [] && !Matches(entries[0].record, user, kind, reference) {
      FoundAgain(entries[1..], user, kind, reference, record);
      var k := Find(entries, user, kind, reference);
      if k < |entries| {
        assert entries[k := entries[k].(record := record)][1..]
            == entries[1..][k - 1 := entries[k].(record := record)];
      }
    }
  }

  lemma CreatedAgain(d: Desk, day: Day, r: Request)
    requires DeskOK(d) && Possible(d, r) && r.Create?
    ensures Next(Next(d, day, r), day, r) == Next(d, day, r)
    ensures Answer(d, day, r).Success? ==>
      Answer(Next(d, day, r), day, r) == if r.payload.Booking? then Failure(NotFree) else Answer(d, day, r)
  {
    AppendedKey(d.store.entries, r.key, Record(r.reference, r.user, r.payload, false, false));
    if r.payload.Booking? && Answer(d, day, r).Success? {
      var taken := Next(d, day, r).booked;
      var reference := Answer(d, day, r).record.reference;
      assert reference in taken && Overlap(taken[reference], SlotOf(r.payload));
      assert !Free(day.preset, taken, SlotOf(r.payload), None);
    }
  }

  lemma WithdrawnAgain(d: Desk, day: Day, r: Request)
    requires r.Withdraw?
    ensures Next(Next(d, day, r), day, r) == Next(d, day, r)
    ensures Answer(d, day, r).Success? ==>
      Answer(Next(d, day, r), day, r) == if FreshKey(d, r) then Failure(AlreadyRevoked) else Answer(d, day, r)
  {
    var k := Find(d.store.entries, r.user, r.kind, r.reference);
    if k < |d.store.entries| {
      FoundAgain(d.store.entries, r.user, r.kind, r.reference, d.store.entries[k].record.(revoked := true));
    }
  }

  /** An update merged into what it has already been merged into changes nothing. */
  lemma MergedAgain(d: Desk, day: Day, r: Request)
    requires DeskOK(d) && r.Amend? && Answer(d, day, r).Success?
    ensures var before := Merged(d.store, r.user, r.reference, r.patch);
            var after := Merged(Next(d, day, r).store, r.user, r.reference, r.patch);
            && before.0.None? && before.1.Some? && after.0.None? && after.1.Some?
            && (if before.1.value.Booking? then
                  after.1.value.Booking? && SlotOf(after.1.value) == SlotOf(before.1.value)
                else after.1.value == before.1.value)
  {
    var k := Find(d.store.entries, r.user, PatchKind(r.patch), r.reference);
    var p := d.store.entries[k].record.payload;
    MergeLaws(p, p, r.patch);
    var d' := Next(d, day, r);
    if r.key !in d.store.updates {
      FoundAgain(d.store.entries, r.user, PatchKind(r.patch), r.reference, d'.store.entries[k].record);
      assert Contract(Merge(p, r.patch));
    }
  }

  /** Moved again, a booking is asked to keep the slot it has; presets may still stand against that. */
  predicate ClearOfPresets(d: Desk, day: Day, r: Request) {
    var moved := Next(d, day, r).booked;
    r.Amend? && r.patch.BookingPatch? && r.reference in moved
    ==> forall i :: 0 <= i < |day.preset| ==> !Overlap(day.preset[i], moved[r.reference])
  }

  lemma AmendedTwiceIsOnce(d: Desk, day: Day, r: Request)
    requires DeskOK(d) && r.Amend?
    ensures Next(Next(d, day, r), day, r) == Next(d, day, r)
  {
    if Answer(d, day, r).Success? {
      MergedAgain(d, day, r);
      assert Next(Next(d, day, r), day, r).store == Next(d, day, r).store;
    }
  }

  lemma AmendedAgain(d: Desk, day: Day, r: Request)
    requires DeskOK(d) && r.Amend? && Answer(d, day, r).Success? && ClearOfPresets(d, day, r)
    ensures Answer(Next(d, day, r), day, r) == Answer(d, day, r)
  {
    MergedAgain(d, day, r);
  }

  /** The answer to a request that succeeded when it is sent again at once. */
  function SecondAnswer(d: Desk, day: Day, r: Request): Ledger.Outcome {
    match r
    case Create(_, _, _, p) => if p.Booking? then Failure(NotFree) else Answer(d, day, r)
    case Amend(_, _, _, _) => Answer(d, day, r)
    case Withdraw(_, _, _, _) => if FreshKey(d, r) then Failure(AlreadyRevoked) else Answer(d, day, r)
  }

  /**
   * Sent twice, a request leaves what it leaves sent once, whatever it is and whether or not it succeeds. Only the
   * answer may differ: a booking's own slot stands against it, and what has been revoked cannot be revoked again.
   */
  lemma TwiceIsOnce(d: Desk, day: Day, r: Request)
    requires DeskOK(d) && Ledger.Possible(d, r)
    ensures Next(Next(d, day, r), day, r) == Next(d, day, r)
    ensures Answer(d, day, r).Success? && ClearOfPresets(d, day, r) ==>
      Answer(Next(d, day, r), day, r) == SecondAnswer(d, day, r)
  {
    match r
    case Create(_, _, _, _) => CreatedAgain(d, day, r);
    case Amend(_, _, _, _) =>
      AmendedTwiceIsOnce(d, day, r);
      if Answer(d, day, r).Success? && ClearOfPresets(d, day, r) {
        AmendedAgain(d, day, r);
      }
    case Withdraw(_, _, _, _) => WithdrawnAgain(d, day, r);
  }

  // ---- Much later -----------------------------------------------------------------------------

  lemma ServeRemembers(d: Desk, day: Day, r: Request, key: string)
    requires key in d.store.updates
    ensures key in Next(d, day, r).store.updates && Next(d, day, r).store.updates[key] == d.store.updates[key]
  {}

  lemma {:induction false} RememberedForGood(trace: seq<Desk>, days: seq<Day>, requests: seq<Request>, n: nat, m: nat,
                                             key: string)
    requires History(trace, days, requests) && n <= m < |trace| && key in trace[n].store.updates
    ensures key in trace[m].store.updates && trace[m].store.updates[key] == trace[n].store.updates[key]
    decreases m
  {
    if n < m {
      RememberedForGood(trace, days, requests, n, m - 1, key);
      assert Follows(trace[m - 1], days[m - 1], requests[m - 1], trace[m]);
      ServeRemembers(trace[m - 1], days[m - 1], requests[m - 1], key);
    }
  }

  /**
   * However much later, and whatever has been changed or revoked since, the repository answers a key it has seen from
   * memory and changes nothing: a creation's key with that creation's record as it is by then, an update's or a
   * revocation's with what it answered the first time.
   */
  lemma LaterReplays(trace: seq<Desk>, days: seq<Day>, requests: seq<Request>, n: nat, m: nat, key: string,
                     user: string,
                     kind: Kind, reference: string, p: Payload)
    requires History(trace, days, requests) && n <= m < |trace|
    ensures var before, now := trace[n].store, trace[m].store;
            && (key in before.updates ==>
                  && Updated(now, key, user, reference, p) == now == Revoked(now, key, user, kind, reference)
                  && key in now.updates && now.updates[key] == before.updates[key])
            && var k := KeyAt(before.entries, key);
               k < |before.entries| ==>
                 && Executed(now, key, reference, user, p) == now && KeyAt(now.entries, key) == k < |now.entries|
                 && now.entries[k].record.reference == before.entries[k].record.reference
                 && now.entries[k].record.user == before.entries[k].record.user
                 && (before.entries[k].record.revoked ==> now.entries[k].record == before.entries[k].record)
  {
    RevokedForGood(trace, days, requests, n, m);
    if key in trace[n].store.updates {
      RememberedForGood(trace, days, requests, n, m, key);
    }
  }

  // ---- One key for two requests ---------------------------------------------------------------

  const DAY := Day(map["R1" := "North"], [])
  const NINE := Booking("R1", 1, 9, 10, "planning", "North")
  const TEN := Booking("R1", 1, 10, 11, "review", "North")

  function MoveTo(from: int, until: int): Patch {
    BookingPatch(None, None, Some(from), Some(until), None)
  }

  ghost predicate Happens(trace: seq<Desk>, requests: seq<Request>) {
    History(trace, seq(|requests|, _ => DAY), requests)
  }

  const B1 := Record("B1", "ann", NINE, false, false)
  const B2 := Record("B2", "ann", TEN, false, false)
  const MOVED := Record("B1", "ann", NINE.(from := 11, until := 12), true, false)
  const BLANK := Desk(Store([], map[]), map[])
  const ONE_BOOKED := Desk(Store([Entry("book", B1)], map[]), map["B1" := SlotOf(NINE)])
  const BOTH_BOOKED := Desk(Store([Entry("book", B1), Entry("book2", B2)], map[]),
                            map["B1" := SlotOf(NINE), "B2" := SlotOf(TEN)])
  const ONE_REVOKED := Desk(Store([Entry("book", B1.(revoked := true)), Entry("book2", B2)],
                                  map["revoke" := B1.(revoked := true)]), map["B2" := SlotOf(TEN)])
  const ONE_MOVED := Desk(Store([Entry("book", MOVED)], map["move" := MOVED]), map["B1" := Slot("R1", 1, 11, 12)])

  lemma BookingTheFirst()
    ensures Follows(BLANK, DAY, Create("book", "B1", "ann", NINE), ONE_BOOKED)
  {}

  /**
   * One task that books twice under the key all its bookings share: the second is answered with the first one's record,
   * and holds its own slot in that one's place, which is free for others again.
   */
  lemma TwoBookingsUnderOneKey() returns (trace: seq<Desk>)
    ensures Happens(trace, [Create("book", "B1", "ann", NINE), Create("book", "B1", "ann", TEN)])
    ensures Answer(trace[1], DAY, Create("book", "B1", "ann", TEN)) == Success(B1)
    ensures trace[2].store.entries == [Entry("book", B1)] && trace[2].booked == map["B1" := SlotOf(TEN)]
    ensures !Consistent(trace[2]) && Free([], trace[2].booked, SlotOf(NINE), None)
  {
    BookingTheFirst();
    trace := [BLANK, ONE_BOOKED, ONE_BOOKED.(booked := map["B1" := SlotOf(TEN)])];
    assert Follows(trace[1], DAY, Create("book", "B1", "ann", TEN), trace[2]);
    assert !BookedRight(trace[2], 0);
  }

  lemma BookingTheSecond()
    ensures Follows(ONE_BOOKED, DAY, Create("book2", "B2", "ann", TEN), BOTH_BOOKED)
  {
    var r := Create("book2", "B2", "ann", TEN);
    assert Free([], ONE_BOOKED.booked, SlotOf(TEN), None);
    assert KeyAt(ONE_BOOKED.store.entries, "book2") == 1 == KeyAt(BOTH_BOOKED.store.entries, "book2");
    assert Next(ONE_BOOKED, DAY, r).store == BOTH_BOOKED.store;
    assert Next(ONE_BOOKED, DAY, r).booked == BOTH_BOOKED.booked;
  }

  lemma RevokingTheFirst()
    ensures Follows(BOTH_BOOKED, DAY, Withdraw("revoke", "ann", BookingKind, "B1"), ONE_REVOKED)
  {
    assert Find(BOTH_BOOKED.store.entries, "ann", BookingKind, "B1") == 0;
    assert Next(BOTH_BOOKED, DAY, Withdraw("revoke", "ann", BookingKind, "B1")).store == ONE_REVOKED.store;
  }

  lemma RevokingTheSecond()
    ensures Follows(ONE_REVOKED, DAY, Withdraw("revoke", "ann", BookingKind, "B2"), ONE_REVOKED.(booked := map[]))
    ensures Answer(ONE_REVOKED, DAY, Withdraw("revoke", "ann", BookingKind, "B2")) == Success(B1.(revoked := true))
  {
    assert Find(ONE_REVOKED.store.entries, "ann", BookingKind, "B2") == 1;
  }

  /** Two bookings revoked by one task: the second stays on record as live, but its room is given away. */
  lemma TwoRevocationsUnderOneKey() returns (trace: seq<Desk>)
    ensures Happens(trace, [Create("book", "B1", "ann", NINE), Create("book2", "B2", "ann", TEN),
                            Withdraw("revoke", "ann", BookingKind, "B1"), Withdraw("revoke", "ann", BookingKind, "B2")])
    ensures Answer(trace[3], DAY, Withdraw("revoke", "ann", BookingKind, "B2")) == Success(B1.(revoked := true))
    ensures trace[4].store.entries[1..] == [Entry("book2", B2)] && trace[4].booked == map[] && !Consistent(trace[4])
  {
    BookingTheFirst();
    BookingTheSecond();
    RevokingTheFirst();
    RevokingTheSecond();
    trace := [BLANK, ONE_BOOKED, BOTH_BOOKED, ONE_REVOKED, ONE_REVOKED.(booked := map[])];
    assert !BookedRight(trace[4], 1);
  }

  lemma MovingOnce()
    ensures Follows(ONE_BOOKED, DAY, Amend("move", "ann", "B1", MoveTo(11, 12)), ONE_MOVED)
  {
    assert Find(ONE_BOOKED.store.entries, "ann", BookingKind, "B1") == 0;
    assert Free([], ONE_BOOKED.booked, Slot("R1", 1, 11, 12), Some("B1"));
    assert Next(ONE_BOOKED, DAY, Amend("move", "ann", "B1", MoveTo(11, 12))).store == ONE_MOVED.store;
  }

  lemma MovingTwice()
    ensures Follows(ONE_MOVED, DAY, Amend("move", "ann", "B1", MoveTo(13, 14)),
                    ONE_MOVED.(booked := map["B1" := Slot("R1", 1, 13, 14)]))
  {
    assert Find(ONE_MOVED.store.entries, "ann", BookingKind, "B1") == 0;
    assert Free([], ONE_MOVED.booked, Slot("R1", 1, 13, 14), Some("B1"));
  }

  /** A booking moved twice by one task: the record stays with the first move, while the room is held for the second. */
  lemma TwoMovesUnderOneKey() returns (trace: seq<Desk>)
    ensures Happens(trace, [Create("book", "B1", "ann", NINE), Amend("move", "ann", "B1", MoveTo(11, 12)),
                            Amend("move", "ann", "B1", MoveTo(13, 14))])
    ensures trace[3].store.entries == [Entry("book", MOVED)] && trace[3].booked == map["B1" := Slot("R1", 1, 13, 14)]
    ensures !Consistent(trace[3])
  {
    BookingTheFirst();
    MovingOnce();
    MovingTwice();
    trace := [BLANK, ONE_BOOKED, ONE_MOVED, ONE_MOVED.(booked := map["B1" := Slot("R1", 1, 13, 14)])];
    assert !BookedRight(trace[3], 0);
  }
}
