/**
 * Submissions on record and rooms booked (repositories/actions.py, tools/local_enterprise.py). Calls to the provider
 * are taken as atomic.
 */
module Ledger {
  import opened Models
  import opened Submissions

  datatype Record = Record(reference: string, user: string, payload: Payload, revised: bool, revoked: bool)

  /** Idempotency key and record, in the order of creation. */
  datatype Entry = Entry(key: string, record: Record)

  /** `updates` remembers what each update or revocation answered, by idempotency key. */
  datatype Store = Store(entries: seq<Entry>, updates: map<string, Record>)

  // ---- The repository -------------------------------------------------------------------------

  function KeyAt(entries: seq<Entry>, key: string): (k: nat)
    ensures k <= |entries|
    ensures k < |entries| ==> entries[k].key == key
    ensures forall i :: 0 <= i < k ==> entries[i].key != key
  {
    if entries == [] then 0 else if entries[0].key == key then 0 else 1 + KeyAt(entries[1..], key)
  }

  predicate Matches(r: Record, user: string, kind: Kind, reference: string) {
    r.user == user && KindOf(r.payload) == kind && r.reference == reference
  }

  /** `_find`: the first record of this user, type and reference. */
  function Find(entries: seq<Entry>, user: string, kind: Kind, reference: string): (k: nat)
    ensures k <= |entries|
    ensures k < |entries| ==> Matches(entries[k].record, user, kind, reference)
    ensures k == |entries| ==> forall i :: 0 <= i < |entries| ==> !Matches(entries[i].record, user, kind, reference)
  {
    if entries == [] then 0
    else if Matches(entries[0].record, user, kind, reference) then 0
    else 1 + Find(entries[1..], user, kind, reference)
  }

  function Executed(s: Store, key: string, reference: string, user: string, payload: Payload): Store {
    if KeyAt(s.entries, key) < |s.entries| then s
    else s.(entries := s.entries + [Entry(key, Record(reference, user, payload, false, false))])
  }

  function Updated(s: Store, key: string, user: string, reference: string, payload: Payload): Store {
    var k := Find(s.entries, user, KindOf(payload), reference);
    if key in s.updates || k == |s.entries| then s
    else
      var record := s.entries[k].record.(payload := payload, revised := true);
      Store(s.entries[k := s.entries[k].(record := record)], s.updates[key := record])
  }

  function Revoked(s: Store, key: string, user: string, kind: Kind, reference: string): Store {
    var k := Find(s.entries, user, kind, reference);
    if key in s.updates || k == |s.entries| then s
    else
      var record := s.entries[k].record.(revoked := true);
      Store(s.entries[k := s.entries[k].(record := record)], s.updates[key := record])
  }

  class Repository {
    var entries: seq<Entry>
    var updates: map<string, Record>

    ghost function View(): Store
      reads this
    {
      Store(entries, updates)
    }

    constructor ()
      ensures View() == Store([], map[])
    {
      entries, updates := [], map[];
    }

    method ExecuteOnce(key: string, reference: string, user: string, payload: Payload) returns (r: Record)
      modifies this
      ensures View() == Executed(old(View()), key, reference, user, payload)
      ensures KeyAt(entries, key) < |entries| && r == entries[KeyAt(entries, key)].record
    {
      var k := KeyAt(entries, key);
      if k == |entries| {
        entries := entries + [Entry(key, Record(reference, user, payload, false, false))];
      }
      AppendedKey(old(entries), key, Record(reference, user, payload, false, false));
      r := entries[KeyAt(entries, key)].record;
    }

    method UpdateSubmitted(key: string, user: string, reference: string, payload: Payload) returns (r: Option<Record>)
      modifies this
      ensures View() == Updated(old(View()), key, user, reference, payload)
      ensures r == if key in updates then Some(updates[key]) else None
    {
      if key in updates {
        return Some(updates[key]);
      }
      var k := Find(entries, user, KindOf(payload), reference);
      if k == |entries| {
        return None;
      }
      var record := entries[k].record.(payload := payload, revised := true);
      entries := entries[k := entries[k].(record := record)];
      updates := updates[key := record];
      return Some(record);
    }

    method RevokeSubmitted(key: string, user: string, kind: Kind, reference: string) returns (r: Option<Record>)
      modifies this
      ensures View() == Revoked(old(View()), key, user, kind, reference)
      ensures r == if key in updates then Some(updates[key]) else None
    {
      if key in updates {
        return Some(updates[key]);
      }
      var k := Find(entries, user, kind, reference);
      if k == |entries| {
        return None;
      }
      var record := entries[k].record.(revoked := true);
      entries := entries[k := entries[k].(record := record)];
      updates := updates[key := record];
      return Some(record);
    }
  }

  lemma {:induction false} AppendedKey(entries: seq<Entry>, key: string, record: Record)
    ensures KeyAt(entries, key) == |entries| ==> KeyAt(entries + [Entry(key, record)], key) == |entries|
  {
    if entries != [] && entries[0].key != key {
      assert (entries + [Entry(key, record)])[1..] == entries[1..] + [Entry(key, record)];
      AppendedKey(entries[1..], key, record);
    }
  }

  // ---- Rooms ----------------------------------------------------------------------------------

  datatype Slot = Slot(room: string, day: int, from: int, until: int)

  function SlotOf(p: Payload): Slot
    requires p.Booking?
  {
    Slot(p.room, p.day, p.from, p.until)
  }

  /** Half-open times: one meeting may start when another ends. */
  predicate Overlap(a: Slot, b: Slot) {
    a.room == b.room && a.day == b.day && a.from < b.until && b.from < a.until
  }

  datatype Desk = Desk(store: Store, booked: map<string, Slot>)

  datatype Refusal = NoSuchRoom | NotFree | NotFound | AlreadyRevoked | BreaksContract

  datatype Outcome = Failure(reason: Refusal) | Success(record: Record)

  /** The room must be free of presets and of everything booked, except the slot of the booking being moved. */
  predicate Free(preset: seq<Slot>, booked: map<string, Slot>, wanted: Slot, ignore: Option<string>) {
    && (forall i :: 0 <= i < |preset| ==> !Overlap(preset[i], wanted) || FreedPreset(preset, booked, ignore, i))
    && forall ref <- booked :: !Overlap(booked[ref], wanted) || Freed(preset, booked, ignore, ref)
  }

  /** Making room removes the first equal slot from presets and bookings, in that order. */
  predicate FreedPreset(preset: seq<Slot>, booked: map<string, Slot>, ignore: Option<string>, i: nat)
    requires i < |preset|
  {
    ignore.Some? && ignore.value in booked && preset[i] == booked[ignore.value]
    && forall j :: 0 <= j < i ==> preset[j] != preset[i]
  }

  predicate Freed(preset: seq<Slot>, booked: map<string, Slot>, ignore: Option<string>, ref: string) {
    ignore == Some(ref) && ref in booked && booked[ref] !in preset
  }

  function Book(d: Desk, rooms: map<string, string>, preset: seq<Slot>, key: string, reference: string, user: string,
          p: Payload)
    : (Outcome, Desk)
    requires p.Booking?
  {
    if p.room !in rooms then (Failure(NoSuchRoom), d)
    else if !Free(preset, d.booked, SlotOf(p), None) then (Failure(NotFree), d)
    else
      var named := p.(roomName := rooms[p.room]);
      var store := Executed(d.store, key, reference, user, named);
      AppendedKey(d.store.entries, key, Record(reference, user, named, false, false));
      var record := store.entries[KeyAt(store.entries, key)].record;
      (Success(record), Desk(store, d.booked[record.reference := SlotOf(p)]))
  }

  /** `_merged`: the record a change would leave, checked against the contract it was created under. */
  function Merged(s: Store, user: string, reference: string, patch: Patch): (Option<Refusal>, Option<Payload>) {
    var k := Find(s.entries, user, PatchKind(patch), reference);
    if k == |s.entries| then (Some(NotFound), None)
    else if s.entries[k].record.revoked then (Some(AlreadyRevoked), None)
    else
      var merged := Merge(s.entries[k].record.payload, patch);
      if Contract(merged) then (None, Some(merged)) else (Some(BreaksContract), None)
  }

  function ApplyUpdate(d: Desk, key: string, user: string, reference: string, p: Payload): (Outcome, Store) {
    var store := Updated(d.store, key, user, reference, p);
    (if key in store.updates then Success(store.updates[key]) else Failure(NotFound), store)
  }

  function Change(d: Desk, rooms: map<string, string>, preset: seq<Slot>, key: string, user: string,
          reference: string, patch: Patch)
    : (Outcome, Desk)
  {
    var (refusal, merged) := Merged(d.store, user, reference, patch);
    if refusal.Some? || merged.None? then (Failure(Or(refusal, NotFound)), d)
    else if !merged.value.Booking? then
      var (outcome, store) := ApplyUpdate(d, key, user, reference, merged.value);
      (outcome, d.(store := store))
    else if merged.value.room !in rooms then (Failure(NoSuchRoom), d)
    else if !Free(preset, d.booked, SlotOf(merged.value), Some(reference)) then (Failure(NotFree), d)
    else
      var (outcome, store) := ApplyUpdate(d, key, user, reference, merged.value.(roomName := rooms[merged.value.room]));
      (outcome, Desk(store, if outcome.Success? then d.booked[reference := SlotOf(merged.value)] else d.booked))
  }

  function Revoke(d: Desk, key: string, user: string, kind: Kind, reference: string): (Outcome, Desk) {
    var k := Find(d.store.entries, user, kind, reference);
    if k == |d.store.entries| then (Failure(NotFound), d)
    else if d.store.entries[k].record.revoked then (Failure(AlreadyRevoked), d)
    else
      var store := Revoked(d.store, key, user, kind, reference);
      if key in store.updates then (Success(store.updates[key]), Desk(store, d.booked - {reference}))
      else (Failure(NotFound), d)
  }

  datatype Request =
    | Create(key: string, reference: string, user: string, payload: Payload)
    | Amend(key: string, user: string, reference: string, patch: Patch)
    | Withdraw(key: string, user: string, kind: Kind, reference: string)

  /** Requests meet their input contracts; a new record gets a reference of its own. */
  predicate Possible(d: Desk, r: Request) {
    match r
    case Create(key, reference, _, payload) =>
      && Contract(payload)
      && forall i :: 0 <= i < |d.store.entries| && d.store.entries[i].key != key ==>
           d.store.entries[i].record.reference != reference
    case Amend(_, _, _, _) => true
    case Withdraw(_, _, _, _) => true
  }

  function Serve(d: Desk, rooms: map<string, string>, preset: seq<Slot>, r: Request): Desk {
    match r
    case Create(key, reference, user, payload) =>
      if payload.Booking? then Book(d, rooms, preset, key, reference, user, payload).1
      else d.(store := Executed(d.store, key, reference, user, payload))
    case Amend(key, user, reference, patch) => Change(d, rooms, preset, key, user, reference, patch).1
    case Withdraw(key, user, kind, reference) => Revoke(d, key, user, kind, reference).1
  }

  // ---- What every request keeps ---------------------------------------------------------------

  predicate DistinctEntries(entries: seq<Entry>) {
    forall i, j :: 0 <= i < j < |entries| ==>
      entries[i].key != entries[j].key && entries[i].record.reference != entries[j].record.reference
  }

  predicate AllMeetContract(entries: seq<Entry>) {
    forall i :: 0 <= i < |entries| ==> Contract(entries[i].record.payload)
  }

  predicate NoOverlaps(booked: map<string, Slot>) {
    && (forall a <- booked :: booked[a].from < booked[a].until)
    && forall a <- booked, b <- booked :: a != b ==> !Overlap(booked[a], booked[b])
  }

  predicate DeskOK(d: Desk) {
    DistinctEntries(d.store.entries) && AllMeetContract(d.store.entries) && NoOverlaps(d.booked)
  }

  lemma NewSlotFits(booked: map<string, Slot>, preset: seq<Slot>, ref: string, wanted: Slot, ignore: Option<string>)
    requires NoOverlaps(booked) && wanted.from < wanted.until && Free(preset, booked, wanted, ignore)
    requires ignore.None? || ignore == Some(ref)
    ensures NoOverlaps(booked[ref := wanted])
  {}

  lemma ExecutedKeeps(s: Store, key: string, reference: string, user: string, p: Payload)
    requires DistinctEntries(s.entries) && AllMeetContract(s.entries) && Contract(p)
    requires forall i :: 0 <= i < |s.entries| && s.entries[i].key != key ==> s.entries[i].record.reference != reference
    ensures DistinctEntries(Executed(s, key, reference, user, p).entries)
    ensures AllMeetContract(Executed(s, key, reference, user, p).entries)
  {}

  lemma UpdatedKeeps(s: Store, key: string, user: string, reference: string, p: Payload)
    requires DistinctEntries(s.entries) && AllMeetContract(s.entries) && Contract(p)
    ensures DistinctEntries(Updated(s, key, user, reference, p).entries)
    ensures AllMeetContract(Updated(s, key, user, reference, p).entries)
  {}

  lemma RevokedKeeps(s: Store, key: string, user: string, kind: Kind, reference: string)
    requires DistinctEntries(s.entries) && AllMeetContract(s.entries)
    ensures DistinctEntries(Revoked(s, key, user, kind, reference).entries)
    ensures AllMeetContract(Revoked(s, key, user, kind, reference).entries)
  {}

  lemma ChangeKeeps(d: Desk, rooms: map<string, string>, preset: seq<Slot>, key: string, user: string,
          reference: string, patch: Patch)
    requires DeskOK(d)
    ensures DeskOK(Change(d, rooms, preset, key, user, reference, patch).1)
  {
    var merged := Merged(d.store, user, reference, patch).1;
    if merged.Some? {
      var p := merged.value;
      UpdatedKeeps(d.store, key, user, reference, p);
      if p.Booking? && p.room in rooms {
        UpdatedKeeps(d.store, key, user, reference, p.(roomName := rooms[p.room]));
        if Free(preset, d.booked, SlotOf(p), Some(reference)) {
          NewSlotFits(d.booked, preset, reference, SlotOf(p), Some(reference));
        }
      }
    }
  }

  /**
   * No request ever makes two bookings overlap, or leaves a record that its create contract would refuse; in particular
   * moving a booking may overlap its own old slot but nothing else.
   */
  lemma ServeKeeps(d: Desk, rooms: map<string, string>, preset: seq<Slot>, r: Request)
    requires DeskOK(d) && Possible(d, r)
    ensures DeskOK(Serve(d, rooms, preset, r))
  {
    match r
    case Create(key, reference, user, p) =>
      ExecutedKeeps(d.store, key, reference, user, p);
      if p.Booking? && p.room in rooms && Free(preset, d.booked, SlotOf(p), None) {
        var named := p.(roomName := rooms[p.room]);
        ExecutedKeeps(d.store, key, reference, user, named);
        NewSlotFits(d.booked, preset, Book(d, rooms, preset, key, reference, user, p).0.record.reference, SlotOf(p),
                    None);
      }
    case Amend(key, user, reference, patch) => ChangeKeeps(d, rooms, preset, key, user, reference, patch);
    case Withdraw(key, user, kind, reference) => RevokedKeeps(d.store, key, user, kind, reference);
  }

  /** A day's requests: rooms and presets may differ from one to the next, as days pass. */
  datatype Day = Day(rooms: map<string, string>, preset: seq<Slot>)

  ghost predicate Follows(d: Desk, day: Day, r: Request, d': Desk) {
    Possible(d, r) && d' == Serve(d, day.rooms, day.preset, r)
  }

  ghost predicate History(trace: seq<Desk>, days: seq<Day>, requests: seq<Request>) {
    && |trace| == |requests| + 1 && |days| == |requests| && trace[0] == Desk(Store([], map[]), map[])
    && forall i :: 0 <= i < |requests| ==> Follows(trace[i], days[i], requests[i], trace[i + 1])
  }

  lemma {:induction false} HistoryKeeps(trace: seq<Desk>, days: seq<Day>, requests: seq<Request>, n: nat)
    requires History(trace, days, requests) && n < |trace|
    ensures DeskOK(trace[n])
  {
    if n > 0 {
      HistoryKeeps(trace, days, requests, n - 1);
      assert Follows(trace[n - 1], days[n - 1], requests[n - 1], trace[n]);
      ServeKeeps(trace[n - 1], days[n - 1].rooms, days[n - 1].preset, requests[n - 1]);
    }
  }

  // ---- Revoked for good -----------------------------------------------------------------------

  /**
   * Records are only added; who submitted them and under which reference never changes; a revoked one changes no more.
   */
  predicate OnlyGrows(a: seq<Entry>, b: seq<Entry>) {
    && |a| <= |b|
    && forall i :: 0 <= i < |a| ==>
         && b[i].key == a[i].key && b[i].record.reference == a[i].record.reference
            && b[i].record.user == a[i].record.user
         && KindOf(b[i].record.payload) == KindOf(a[i].record.payload)
         && (a[i].record.revoked ==> b[i].record == a[i].record)
  }

  lemma MergeKeepsKind(p: Payload, patch: Patch)
    requires KindOf(p) == PatchKind(patch)
    ensures KindOf(Merge(p, patch)) == KindOf(p)
  {}

  lemma ChangeOnlyGrows(d: Desk, rooms: map<string, string>, preset: seq<Slot>, key: string, user: string,
          reference: string, patch: Patch)
    ensures OnlyGrows(d.store.entries, Change(d, rooms, preset, key, user, reference, patch).1.store.entries)
  {
    var k := Find(d.store.entries, user, PatchKind(patch), reference);
    if k < |d.store.entries| && !d.store.entries[k].record.revoked {
      var merged := Merge(d.store.entries[k].record.payload, patch);
      MergeKeepsKind(d.store.entries[k].record.payload, patch);
      UpdateOnlyGrows(d.store, key, user, reference, merged);
      if merged.Booking? && merged.room in rooms {
        UpdateOnlyGrows(d.store, key, user, reference, merged.(roomName := rooms[merged.room]));
      }
    }
  }

  lemma UpdateOnlyGrows(s: Store, key: string, user: string, reference: string, p: Payload)
    requires var k := Find(s.entries, user, KindOf(p), reference); k < |s.entries| ==> !s.entries[k].record.revoked
    ensures OnlyGrows(s.entries, Updated(s, key, user, reference, p).entries)
  {}

  lemma ServeOnlyGrows(d: Desk, rooms: map<string, string>, preset: seq<Slot>, r: Request)
    ensures OnlyGrows(d.store.entries, Serve(d, rooms, preset, r).store.entries)
  {
    if r.Amend? {
      ChangeOnlyGrows(d, rooms, preset, r.key, r.user, r.reference, r.patch);
    }
  }

  /** Whatever is requested later, a revoked record is never changed and never comes back to life. */
  lemma {:induction false} RevokedForGood(trace: seq<Desk>, days: seq<Day>, requests: seq<Request>, n: nat, m: nat)
    requires History(trace, days, requests) && n <= m < |trace|
    ensures OnlyGrows(trace[n].store.entries, trace[m].store.entries)
    decreases m
  {
    if n < m {
      RevokedForGood(trace, days, requests, n, m - 1);
      assert Follows(trace[m - 1], days[m - 1], requests[m - 1], trace[m]);
      ServeOnlyGrows(trace[m - 1], days[m - 1].rooms, days[m - 1].preset, requests[m - 1]);
    }
  }

  // ---- Bookings and records -------------------------------------------------------------------

  predicate LiveBooking(d: Desk, i: nat)
    requires i < |d.store.entries|
  {
    d.store.entries[i].record.payload.Booking? && !d.store.entries[i].record.revoked
  }

  predicate BookedRight(d: Desk, i: nat)
    requires i < |d.store.entries|
  {
    var r := d.store.entries[i].record;
    if LiveBooking(d, i) then r.reference in d.booked && d.booked[r.reference] == SlotOf(r.payload)
    else r.reference !in d.booked
  }

  /** The rooms taken are exactly those of the live bookings on record. */
  ghost predicate Consistent(d: Desk) {
    && (forall i :: 0 <= i < |d.store.entries| ==> BookedRight(d, i))
    && forall ref <- d.booked :: exists i :: 0 <= i < |d.store.entries| && d.store.entries[i].record.reference == ref
  }

  predicate FreshKey(d: Desk, r: Request) {
    match r
    case Create(key, _, _, _) => KeyAt(d.store.entries, key) == |d.store.entries|
    case Amend(key, _, _, _) => key !in d.store.updates
    case Withdraw(key, _, _, _) => key !in d.store.updates
  }

  lemma OneRecordChanges(d: Desk, d': Desk, k: nat, r: Record)
    requires DistinctEntries(d.store.entries) && Consistent(d) && k < |d.store.entries|
    requires d'.store.entries == d.store.entries[k := d.store.entries[k].(record := r)]
    requires r.reference == d.store.entries[k].record.reference
    requires forall ref :: ref != r.reference ==> (ref in d.booked <==> ref in d'.booked)
    requires forall ref :: ref != r.reference && ref in d.booked ==> d'.booked[ref] == d.booked[ref]
    ensures Consistent(d') <==> BookedRight(d', k)
  {
    forall i | 0 <= i < |d.store.entries| && i != k
      ensures BookedRight(d', i)
    {
      assert BookedRight(d, i);
      assert d.store.entries[i].record.reference != d.store.entries[k].record.reference;
    }
    forall ref | ref in d'.booked
      ensures exists i :: 0 <= i < |d'.store.entries| && d'.store.entries[i].record.reference == ref
    {
      if ref == r.reference {
        assert d'.store.entries[k].record.reference == ref;
      } else {
        var i :| 0 <= i < |d.store.entries| && d.store.entries[i].record.reference == ref;
        assert d'.store.entries[i].record.reference == ref;
      }
    }
  }

  lemma NewBookingIsConsistent(d: Desk, entry: Entry)
    requires Consistent(d) && entry.record.payload.Booking? && !entry.record.revoked
    requires forall i :: 0 <= i < |d.store.entries| ==> d.store.entries[i].record.reference != entry.record.reference
    ensures Consistent(Desk(d.store.(entries := d.store.entries + [entry]),
                            d.booked[entry.record.reference := SlotOf(entry.record.payload)]))
  {
    var d' := Desk(d.store.(entries := d.store.entries + [entry]),
                   d.booked[entry.record.reference := SlotOf(entry.record.payload)]);
    forall i | 0 <= i < |d'.store.entries|
      ensures BookedRight(d', i)
    {
      assert i < |d.store.entries| ==> BookedRight(d, i);
    }
    assert d'.store.entries[|d.store.entries|].record.reference == entry.record.reference;
    assert forall i :: 0 <= i < |d.store.entries| ==> d'.store.entries[i] == d.store.entries[i];
  }

  /**
   * A successful booking keeps rooms and records in step exactly when its idempotency key is new. Under a used key the
   * record stays as it was, while the new slot is taken all the same: even for a booking that has been revoked.
   */
  lemma BookingConsistentIffNewKey(d: Desk, rooms: map<string, string>, preset: seq<Slot>, r: Request)
    requires DeskOK(d) && Consistent(d) && Possible(d, r) && r.Create? && r.payload.Booking?
    requires Book(d, rooms, preset, r.key, r.reference, r.user, r.payload).0.Success?
    ensures Consistent(Serve(d, rooms, preset, r)) <==> FreshKey(d, r)
  {
    var entries, k := d.store.entries, KeyAt(d.store.entries, r.key);
    var d' := Serve(d, rooms, preset, r);
    var named := r.payload.(roomName := rooms[r.payload.room]);
    if k == |entries| {
      var entry := Entry(r.key, Record(r.reference, r.user, named, false, false));
      AppendedKey(entries, r.key, entry.record);
      NewBookingIsConsistent(d, entry);
    } else {
      UsedKeyTakesAnotherSlot(d, k, SlotOf(r.payload), preset);
      OneRecordChanges(d, d', k, entries[k].record);
    }
  }

  lemma UsedKeyTakesAnotherSlot(d: Desk, k: nat, wanted: Slot, preset: seq<Slot>)
    requires Consistent(d) && k < |d.store.entries| && Free(preset, d.booked, wanted, None)
             && wanted.from < wanted.until
    ensures !BookedRight(Desk(d.store, d.booked[d.store.entries[k].record.reference := wanted]), k)
  {
    assert BookedRight(d, k);
  }

  lemma MovedRightIff(d: Desk, rooms: map<string, string>, preset: seq<Slot>, r: Request, k: nat)
    requires AllMeetContract(d.store.entries) && r.Amend? && r.patch.BookingPatch?
    requires k < |d.store.entries| && k == Find(d.store.entries, r.user, BookingKind, r.reference) && BookedRight(d, k)
    requires Change(d, rooms, preset, r.key, r.user, r.reference, r.patch).0.Success?
    ensures |Serve(d, rooms, preset, r).store.entries| == |d.store.entries|
            && d.store.entries[k].record.payload.Booking?
    ensures BookedRight(Serve(d, rooms, preset, r), k)
            <==> FreshKey(d, r)
                 || SlotOf(Merge(d.store.entries[k].record.payload, r.patch))
                    == SlotOf(d.store.entries[k].record.payload)
  {}

  /** Moving a booking keeps them in step exactly when its key is new, or the move changes no slot. */
  lemma MoveConsistentIff(d: Desk, rooms: map<string, string>, preset: seq<Slot>, r: Request)
    requires DeskOK(d) && Consistent(d) && r.Amend? && r.patch.BookingPatch?
    requires Change(d, rooms, preset, r.key, r.user, r.reference, r.patch).0.Success?
    ensures var k := Find(d.store.entries, r.user, BookingKind, r.reference);
            && k < |d.store.entries| && d.store.entries[k].record.payload.Booking?
            && (Consistent(Serve(d, rooms, preset, r))
                <==> FreshKey(d, r)
                     || SlotOf(Merge(d.store.entries[k].record.payload, r.patch))
                        == SlotOf(d.store.entries[k].record.payload))
  {
    var k := Find(d.store.entries, r.user, BookingKind, r.reference);
    var d' := Serve(d, rooms, preset, r);
    assert BookedRight(d, k);
    MovedRightIff(d, rooms, preset, r, k);
    assert d.store.entries[k := d.store.entries[k]] == d.store.entries;
    OneRecordChanges(d, d', k, d'.store.entries[k].record);
  }

  /** Revoking a booking keeps them in step exactly when its key is new. */
  lemma RevocationConsistentIffNewKey(d: Desk, rooms: map<string, string>, preset: seq<Slot>, r: Request)
    requires DeskOK(d) && Consistent(d) && r.Withdraw? && r.kind == BookingKind
    requires Revoke(d, r.key, r.user, r.kind, r.reference).0.Success?
    ensures Consistent(Serve(d, rooms, preset, r)) <==> FreshKey(d, r)
  {
    var k := Find(d.store.entries, r.user, BookingKind, r.reference);
    var d' := Serve(d, rooms, preset, r);
    assert BookedRight(d, k);
    assert d.store.entries[k := d.store.entries[k]] == d.store.entries;
    OneRecordChanges(d, d', k, d'.store.entries[k].record);
  }

  lemma OtherCreationsKeepConsistency(d: Desk, key: string, reference: string, user: string, p: Payload)
    requires Consistent(d) && !p.Booking?
    requires forall i :: 0 <= i < |d.store.entries| && d.store.entries[i].key != key ==>
               d.store.entries[i].record.reference != reference
    ensures Consistent(d.(store := Executed(d.store, key, reference, user, p)))
  {
    var d' := d.(store := Executed(d.store, key, reference, user, p));
    if d' != d {
      forall i | 0 <= i < |d'.store.entries|
        ensures BookedRight(d', i)
      {
        assert i < |d.store.entries| ==> BookedRight(d, i);
      }
      assert forall i :: 0 <= i < |d.store.entries| ==> d'.store.entries[i] == d.store.entries[i];
    }
  }

  lemma OtherChangesKeepConsistency(d: Desk, rooms: map<string, string>, preset: seq<Slot>, r: Request)
    requires DeskOK(d) && Consistent(d) && r.Amend? && !r.patch.BookingPatch?
    ensures Consistent(Serve(d, rooms, preset, r))
  {
    var d' := Serve(d, rooms, preset, r);
    var k := Find(d.store.entries, r.user, PatchKind(r.patch), r.reference);
    if k < |d.store.entries| && d' != d {
      assert BookedRight(d, k);
      MergeKeepsKind(d.store.entries[k].record.payload, r.patch);
      OneRecordChanges(d, d', k, d'.store.entries[k].record);
    }
  }

  lemma OtherRevocationsKeepConsistency(d: Desk, rooms: map<string, string>, preset: seq<Slot>, r: Request)
    requires DeskOK(d) && Consistent(d) && r.Withdraw? && r.kind != BookingKind
    ensures Consistent(Serve(d, rooms, preset, r))
  {
    var d' := Serve(d, rooms, preset, r);
    var k := Find(d.store.entries, r.user, r.kind, r.reference);
    if k < |d.store.entries| && d' != d {
      assert BookedRight(d, k);
      assert d.store.entries[k := d.store.entries[k]] == d.store.entries;
      OneRecordChanges(d, d', k, d'.store.entries[k].record);
    }
  }

  /** As long as no idempotency key is used twice, the rooms taken are always exactly those of the live bookings. */
  lemma NewKeysKeepConsistency(d: Desk, rooms: map<string, string>, preset: seq<Slot>, r: Request)
    requires DeskOK(d) && Consistent(d) && Possible(d, r) && FreshKey(d, r)
    ensures Consistent(Serve(d, rooms, preset, r))
  {
    match r
    case Create(key, reference, user, p) =>
      if !p.Booking? {
        OtherCreationsKeepConsistency(d, key, reference, user, p);
      } else if Book(d, rooms, preset, key, reference, user, p).0.Success? {
        BookingConsistentIffNewKey(d, rooms, preset, r);
      }
    case Amend(key, user, reference, patch) =>
      if !patch.BookingPatch? {
        OtherChangesKeepConsistency(d, rooms, preset, r);
      } else if Change(d, rooms, preset, key, user, reference, patch).0.Success? {
        MoveConsistentIff(d, rooms, preset, r);
      }
    case Withdraw(key, user, kind, reference) =>
      if kind != BookingKind {
        OtherRevocationsKeepConsistency(d, rooms, preset, r);
      } else if Revoke(d, key, user, kind, reference).0.Success? {
        RevocationConsistentIffNewKey(d, rooms, preset, r);
      }
  }

  lemma {:induction false} AlwaysConsistent(trace: seq<Desk>, days: seq<Day>, requests: seq<Request>, n: nat)
    requires History(trace, days, requests) && n < |trace|
    requires forall i :: 0 <= i < n ==> FreshKey(trace[i], requests[i])
    ensures Consistent(trace[n])
  {
    if n > 0 {
      HistoryKeeps(trace, days, requests, n - 1);
      AlwaysConsistent(trace, days, requests, n - 1);
      assert Follows(trace[n - 1], days[n - 1], requests[n - 1], trace[n]);
      NewKeysKeepConsistency(trace[n - 1], days[n - 1].rooms, days[n - 1].preset, requests[n - 1]);
    }
  }

  // ---- The provider as the program updates it -------------------------------------------------

  class Provider {
    const repository: Repository
    var booked: map<string, Slot>

    ghost function View(): Desk
      reads this, repository
    {
      Desk(repository.View(), booked)
    }

    constructor (repository: Repository)
      ensures View() == Desk(repository.View(), map[]) && this.repository == repository
    {
      this.repository, booked := repository, map[];
    }

    method BookRoom(rooms: map<string, string>, preset: seq<Slot>, key: string, reference: string, user: string,
                    p: Payload)
      returns (outcome: Outcome)
      requires p.Booking?
      modifies this, repository
      ensures (outcome, View()) == Book(old(View()), rooms, preset, key, reference, user, p)
    {
      if p.room !in rooms {
        return Failure(NoSuchRoom);
      }
      if !Free(preset, booked, SlotOf(p), None) {
        return Failure(NotFree);
      }
      var record := repository.ExecuteOnce(key, reference, user, p.(roomName := rooms[p.room]));
      booked := booked[record.reference := SlotOf(p)];
      return Success(record);
    }

    method UpdateSubmission(rooms: map<string, string>, preset: seq<Slot>, key: string, user: string,
            reference: string, patch: Patch)
      returns (outcome: Outcome)
      modifies this, repository
      ensures (outcome, View()) == Change(old(View()), rooms, preset, key, user, reference, patch)
    {
      var k := Find(repository.entries, user, PatchKind(patch), reference);
      if k == |repository.entries| {
        return Failure(NotFound);
      }
      if repository.entries[k].record.revoked {
        return Failure(AlreadyRevoked);
      }
      var merged := Merge(repository.entries[k].record.payload, patch);
      if !Contract(merged) {
        return Failure(BreaksContract);
      }
      if merged.Booking? {
        if merged.room !in rooms {
          return Failure(NoSuchRoom);
        }
        if !Free(preset, booked, SlotOf(merged), Some(reference)) {
          return Failure(NotFree);
        }
        merged := merged.(roomName := rooms[merged.room]);
      }
      var updated := repository.UpdateSubmitted(key, user, reference, merged);
      if updated.None? {
        return Failure(NotFound);
      }
      if merged.Booking? {
        booked := booked[reference := SlotOf(merged)];
      }
      return Success(updated.value);
    }

    method RevokeSubmission(key: string, user: string, kind: Kind, reference: string) returns (outcome: Outcome)
      modifies this, repository
      ensures (outcome, View()) == Revoke(old(View()), key, user, kind, reference)
    {
      var k := Find(repository.entries, user, kind, reference);
      if k == |repository.entries| {
        return Failure(NotFound);
      }
      if repository.entries[k].record.revoked {
        return Failure(AlreadyRevoked);
      }
      var revoked := repository.RevokeSubmitted(key, user, kind, reference);
      if revoked.None? {
        return Failure(NotFound);
      }
      booked := booked - {reference};
      return Success(revoked.value);
    }
  }
}
