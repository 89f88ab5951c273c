/** What each request to the booking desk is answered, and what it leaves on record. */
module Recording {
  import opened Models
  import opened Submissions
  import opened Ledger
  import opened Replays

  // ---- Free rooms -----------------------------------------------------------------------------

  predicate During(s: Slot, time: int) {
    s.from <= time < s.until
  }

  /** Two times that last overlap exactly if they share a moment of a day in a room. */
  lemma OverlapMeansSharedTime(a: Slot, b: Slot)
    requires a.from < a.until && b.from < b.until
    ensures Overlap(a, b) <==> a.room == b.room && a.day == b.day
                               && exists time :: During(a, time) && During(b, time)
  {
    if Overlap(a, b) {
      var time := if a.from < b.from then b.from else a.from;
      assert During(a, time) && During(b, time);
    }
  }

  /** The slot overlaps no preset and nothing booked but the booking that is being moved. */
  predicate ClearOf(preset: seq<Slot>, booked: map<string, Slot>, wanted: Slot, moving: Option<string>) {
    && (forall i :: 0 <= i < |preset| ==> !Overlap(preset[i], wanted))
    && forall ref <- booked :: moving == Some(ref) || !Overlap(booked[ref], wanted)
  }

  lemma FreeIffClear(preset: seq<Slot>, booked: map<string, Slot>, wanted: Slot, moving: Option<string>)
    ensures Free(preset, booked, wanted, moving) <==> ClearOf(preset, booked, wanted, moving)
  {
    if i :| 0 <= i < |preset| && Overlap(preset[i], wanted) {
      if FreedPreset(preset, booked, moving, i) {
        assert Overlap(booked[moving.value], wanted) && !Freed(preset, booked, moving, moving.value);
      }
    }
  }

  // ---- Records --------------------------------------------------------------------------------

  predicate IsOf(r: Record, user: string, kind: Kind, reference: string) {
    r.user == user && r.reference == reference && KindOf(r.payload) == kind
  }

  /** The first record of this user, kind and reference. */
  predicate FirstMatch(entries: seq<Entry>, user: string, kind: Kind, reference: string, k: nat) {
    && k < |entries| && IsOf(entries[k].record, user, kind, reference)
    && forall i :: 0 <= i < k ==> !IsOf(entries[i].record, user, kind, reference)
  }

  predicate NoMatch(entries: seq<Entry>, user: string, kind: Kind, reference: string) {
    forall i :: 0 <= i < |entries| ==> !IsOf(entries[i].record, user, kind, reference)
  }

  /** `after` differs from `before` in record `k` only, which is now `record`. */
  predicate OneRecordNow(before: seq<Entry>, after: seq<Entry>, k: nat, record: Record) {
    && k < |before| == |after| && after[k] == Entry(before[k].key, record)
    && forall i :: 0 <= i < |before| && i != k ==> after[i] == before[i]
  }

  predicate Changed<T(==)>(change: Option<T>, before: T, after: T) {
    match change
    case None => after == before
    case Some(value) => after == value
  }

  /** A field that may be empty: an update can fill it, not empty it. */
  predicate Filled<T(==)>(change: Option<T>, before: Option<T>, after: Option<T>) {
    match change
    case None => after == before
    case Some(value) => after == Some(value)
  }

  /** Field by field what the update makes of a submission; a one-way trip keeps no end date it is not given. */
  predicate Amended(p: Payload, patch: Patch, q: Payload) {
    match patch
    case TripPatch(origin, destination, startDate, oneWay, endDate, purpose) =>
      && p.Trip? && q.Trip? && Changed(origin, p.origin, q.origin) && Changed(destination, p.destination, q.destination)
      && Changed(startDate, p.startDate, q.startDate) && Changed(oneWay, p.oneWay, q.oneWay)
      && Changed(purpose, p.purpose, q.purpose)
      && if q.oneWay && endDate.None? then q.endDate.None? else Filled(endDate, p.endDate, q.endDate)
    case ExpensePatch(kind, amount, currency, receipts, trip) =>
      && p.Claim? && q.Claim? && Changed(kind, p.kind, q.kind) && Changed(amount, p.amount, q.amount)
      && Changed(currency, p.currency, q.currency) && Changed(receipts, p.receipts, q.receipts)
      && Filled(trip, p.trip, q.trip)
    case LeavePatch(kind, startDate, lastDate, reason) =>
      && p.Absence? && q.Absence? && Changed(kind, p.kind, q.kind) && Changed(startDate, p.startDate, q.startDate)
      && Changed(lastDate, p.lastDate, q.lastDate) && Filled(reason, p.reason, q.reason)
    case BookingPatch(room, day, from, until, subject) =>
      && p.Booking? && q.Booking? && Changed(room, p.room, q.room) && Changed(day, p.day, q.day)
      && Changed(from, p.from, q.from) && Changed(until, p.until, q.until) && Changed(subject, p.subject, q.subject)
      && q.roomName == p.roomName
  }

  /** A booking is recorded under its room's name. */
  function Named(rooms: map<string, string>, p: Payload): Payload
    requires p.Booking? ==> p.room in rooms
  {
    if p.Booking? then p.(roomName := rooms[p.room]) else p
  }

  /** The room and time a booking asks for. */
  function TimeOf(p: Payload): Slot
    requires p.Booking?
  {
    Slot(p.room, p.day, p.from, p.until)
  }

  // ---- What requests are answered -------------------------------------------------------------

  /** What stands against a payload: a room nobody knows, or one that is taken. */
  predicate Stands(day: Day, booked: map<string, Slot>, p: Payload, moving: Option<string>, reason: Refusal) {
    && p.Booking?
    && match reason
       case NoSuchRoom => p.room !in day.rooms
       case NotFree => p.room in day.rooms && !ClearOf(day.preset, booked, TimeOf(p), moving)
       case _ => false
  }

  predicate NothingStands(day: Day, booked: map<string, Slot>, p: Payload, moving: Option<string>) {
    p.Booking? ==> p.room in day.rooms && ClearOf(day.preset, booked, TimeOf(p), moving)
  }

  predicate TakesSlot(before: map<string, Slot>, after: map<string, Slot>, reference: string, p: Payload) {
    after == if p.Booking? then before[reference := TimeOf(p)] else before
  }

  /** A creation: refused with a reason, or on record exactly as submitted, or already on record under its key. */
  ghost predicate Created(d: Desk, day: Day, r: Request, answer: Ledger.Outcome, d': Desk)
    requires r.Create?
  {
    if answer.Failure? then Stands(day, d.booked, r.payload, None, answer.reason) && d' == d
    else
      && NothingStands(day, d.booked, r.payload, None)
      && d'.store.updates == d.store.updates && TakesSlot(d.booked, d'.booked, answer.record.reference, r.payload)
      && if exists k :: 0 <= k < |d.store.entries| && d.store.entries[k].key == r.key
         then d'.store == d.store && Entry(r.key, answer.record) in d.store.entries
         else
           && answer.record == Record(r.reference, r.user, Named(day.rooms, r.payload), false, false)
           && d'.store.entries == d.store.entries + [Entry(r.key, answer.record)]
  }

  /** Why a change is refused, `q` being what it would make of record `k`. */
  predicate StandsAgainstChange(d: Desk, day: Day, reference: string, q: Payload, reason: Refusal) {
    if reason == BreaksContract then !Contract(q)
    else Contract(q) && Stands(day, d.booked, q, Some(reference), reason)
  }

  ghost predicate AmendedAt(d: Desk, day: Day, r: Request, k: nat, q: Payload, answer: Ledger.Outcome, d': Desk)
    requires r.Amend? && k < |d.store.entries|
  {
    var was := d.store.entries[k].record;
    && !was.revoked && Amended(was.payload, r.patch, q)
    && if answer.Failure? then StandsAgainstChange(d, day, r.reference, q, answer.reason) && d' == d
       else
         && Contract(q) && NothingStands(day, d.booked, q, Some(r.reference))
         && TakesSlot(d.booked, d'.booked, r.reference, q)
         && if r.key in d.store.updates then d'.store == d.store && answer.record == d.store.updates[r.key]
            else
              && answer.record == was.(payload := Named(day.rooms, q), revised := true)
              && OneRecordNow(d.store.entries, d'.store.entries, k, answer.record)
              && d'.store.updates == d.store.updates[r.key := answer.record]
  }

  /** A change: refused with a reason, answered from memory, or made, field by field, to the record found alone. */
  ghost predicate Changes(d: Desk, day: Day, r: Request, answer: Ledger.Outcome, d': Desk)
    requires r.Amend?
  {
    if NoMatch(d.store.entries, r.user, PatchKind(r.patch), r.reference) then answer == Failure(NotFound) && d' == d
    else
      exists k: nat :: FirstMatch(d.store.entries, r.user, PatchKind(r.patch), r.reference, k)
        && if d.store.entries[k].record.revoked then answer == Failure(AlreadyRevoked) && d' == d
           else exists q :: AmendedAt(d, day, r, k, q, answer, d')
  }

  /** Only the slot of this booking is free again. */
  ghost predicate GivesBack(before: map<string, Slot>, after: map<string, Slot>, reference: string) {
    reference !in after && forall ref :: ref != reference ==>
      (ref in after <==> ref in before) && (ref in before ==> after[ref] == before[ref])
  }

  /** A revocation: refused with a reason, answered from memory, or marked on the record found and no other. */
  ghost predicate Withdraws(d: Desk, r: Request, answer: Ledger.Outcome, d': Desk)
    requires r.Withdraw?
  {
    if NoMatch(d.store.entries, r.user, r.kind, r.reference) then answer == Failure(NotFound) && d' == d
    else
      exists k: nat :: FirstMatch(d.store.entries, r.user, r.kind, r.reference, k)
        && var was := d.store.entries[k].record;
           if was.revoked then answer == Failure(AlreadyRevoked) && d' == d
           else
             && answer.Success? && GivesBack(d.booked, d'.booked, r.reference)
             && if r.key in d.store.updates then d'.store == d.store && answer.record == d.store.updates[r.key]
                else
                  && answer.record == was.(revoked := true)
                  && OneRecordNow(d.store.entries, d'.store.entries, k, answer.record)
                  && d'.store.updates == d.store.updates[r.key := answer.record]
  }

  ghost predicate Serves(d: Desk, day: Day, r: Request, answer: Ledger.Outcome, d': Desk) {
    match r
    case Create(_, _, _, _) => Created(d, day, r, answer, d')
    case Amend(_, _, _, _) => Changes(d, day, r, answer, d')
    case Withdraw(_, _, _, _) => Withdraws(d, r, answer, d')
  }

  // ---- Proof ----------------------------------------------------------------------------------

  lemma KeyIsThere(entries: seq<Entry>, key: string)
    ensures KeyAt(entries, key) < |entries| <==> exists k :: 0 <= k < |entries| && entries[k].key == key
    ensures KeyAt(entries, key) < |entries| ==> Entry(key, entries[KeyAt(entries, key)].record) in entries
  {}

  lemma CreationIsServed(d: Desk, day: Day, r: Request)
    requires r.Create?
    ensures Created(d, day, r, Answer(d, day, r), Next(d, day, r))
  {
    KeyIsThere(d.store.entries, r.key);
    var named := if r.payload.Booking? && r.payload.room in day.rooms then Named(day.rooms, r.payload) else r.payload;
    AppendedKey(d.store.entries, r.key, Record(r.reference, r.user, named, false, false));
    if r.payload.Booking? {
      FreeIffClear(day.preset, d.booked, SlotOf(r.payload), None);
    }
  }

  lemma FoundFirst(entries: seq<Entry>, user: string, kind: Kind, reference: string)
    ensures var k := Find(entries, user, kind, reference);
            if k == |entries| then NoMatch(entries, user, kind, reference)
            else FirstMatch(entries, user, kind, reference, k) && !NoMatch(entries, user, kind, reference)
  {
    FindsTheFirst(entries, user, kind, reference);
  }

  lemma {:induction false} FindsTheFirst(entries: seq<Entry>, user: string, kind: Kind, reference: string)
    ensures forall i :: 0 <= i < Find(entries, user, kind, reference) ==>
              !IsOf(entries[i].record, user, kind, reference)
  {
    if entries != [] && !IsOf(entries[0].record, user, kind, reference) {
      FindsTheFirst(entries[1..], user, kind, reference);
      forall i | 0 <= i < Find(entries, user, kind, reference)
        ensures !IsOf(entries[i].record, user, kind, reference)
      {
        assert i > 0 ==> entries[i] == entries[1..][i - 1];
      }
    }
  }

  lemma MergedIsAmended(p: Payload, patch: Patch)
    requires KindOf(p) == PatchKind(patch)
    ensures Amended(p, patch, Merge(p, patch))
  {}

  lemma ChangeIsServed(d: Desk, day: Day, r: Request)
    requires r.Amend?
    ensures Changes(d, day, r, Answer(d, day, r), Next(d, day, r))
  {
    var k := Find(d.store.entries, r.user, PatchKind(r.patch), r.reference);
    FoundFirst(d.store.entries, r.user, PatchKind(r.patch), r.reference);
    if k < |d.store.entries| && !d.store.entries[k].record.revoked {
      var q := Merge(d.store.entries[k].record.payload, r.patch);
      MergedIsAmended(d.store.entries[k].record.payload, r.patch);
      if q.Booking? {
        FreeIffClear(day.preset, d.booked, SlotOf(q), Some(r.reference));
      }
      assert AmendedAt(d, day, r, k, q, Answer(d, day, r), Next(d, day, r));
    }
  }

  lemma WithdrawalIsServed(d: Desk, day: Day, r: Request)
    requires r.Withdraw?
    ensures Withdraws(d, r, Answer(d, day, r), Next(d, day, r))
  {
    FoundFirst(d.store.entries, r.user, r.kind, r.reference);
  }

  /** Over any requests on any days, each is answered and recorded as it should be. */
  lemma RequestsAreServed(trace: seq<Desk>, days: seq<Day>, requests: seq<Request>, n: nat)
    requires History(trace, days, requests) && n < |requests|
    ensures Serves(trace[n], days[n], requests[n], Answer(trace[n], days[n], requests[n]), trace[n + 1])
  {
    assert Ledger.Follows(trace[n], days[n], requests[n], trace[n + 1]);
    match requests[n]
    case Create(_, _, _, _) => CreationIsServed(trace[n], days[n], requests[n]);
    case Amend(_, _, _, _) => ChangeIsServed(trace[n], days[n], requests[n]);
    case Withdraw(_, _, _, _) => WithdrawalIsServed(trace[n], days[n], requests[n]);
  }
}
