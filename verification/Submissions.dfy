/**
 * What employees submit, the contracts submissions are created under, and how an update is merged (tools/contracts.py).
 */
module Submissions {
  import opened Models

  datatype Payload =
    | Trip(origin: string, destination: string, startDate: int, oneWay: bool, endDate: Option<int>, purpose: string)
    | Claim(kind: string, amount: real, currency: string, receipts: seq<string>, trip: Option<string>)
    | Absence(kind: string, startDate: int, lastDate: int, reason: Option<string>)
    | Booking(room: string, day: int, from: int, until: int, subject: string, roomName: string)

  datatype Kind = TripKind | ExpenseKind | LeaveKind | BookingKind

  function KindOf(p: Payload): Kind {
    match p
    case Trip(_, _, _, _, _, _) => TripKind
    case Claim(_, _, _, _, _) => ExpenseKind
    case Absence(_, _, _, _) => LeaveKind
    case Booking(_, _, _, _, _, _) => BookingKind
  }

  predicate Sized(s: string, most: nat) {
    1 <= |s| <= most
  }

  predicate SizedIfGiven(s: Option<string>, most: nat) {
    s.Some? ==> |s.value| <= most
  }

  predicate RoomIdChar(c: char) {
    'A' <= c <= 'Z' || 'a' <= c <= 'z' || '0' <= c <= '9' || c == '_' || c == '-'
  }

  /** The contract a submission is created under. */
  predicate Contract(p: Payload) {
    match p
    case Trip(origin, destination, startDate, oneWay, endDate, purpose) =>
      Sized(origin, 200) && Sized(destination, 200) && Sized(purpose, 1000)
      && if oneWay then endDate.None? else endDate.Some? && startDate <= endDate.value
    case Claim(kind, amount, currency, receipts, trip) =>
      Sized(kind, 100) && amount > 0.0 && receipts != [] && SizedIfGiven(trip, 256)
      && |currency| == 3 && forall i :: 0 <= i < 3 ==> 'A' <= currency[i] <= 'Z'
    case Absence(kind, startDate, lastDate, reason) =>
      Sized(kind, 100) && startDate <= lastDate && SizedIfGiven(reason, 1000)
    case Booking(room, _, from, until, subject, _) =>
      Sized(room, 64) && (forall i :: 0 <= i < |room| ==> RoomIdChar(room[i])) && from < until && Sized(subject, 200)
  }

  /** An update names only what changes. */
  datatype Patch =
    | TripPatch(origin: Option<string>, destination: Option<string>, startDate: Option<int>, oneWay: Option<bool>,
                endDate: Option<int>, purpose: Option<string>)
    | ExpensePatch(kind: Option<string>, amount: Option<real>, currency: Option<string>, receipts: Option<seq<string>>,
                   trip: Option<string>)
    | LeavePatch(kind: Option<string>, startDate: Option<int>, lastDate: Option<int>, reason: Option<string>)
    | BookingPatch(room: Option<string>, day: Option<int>, from: Option<int>, until: Option<int>,
                   subject: Option<string>)

  function Or<T>(change: Option<T>, kept: T): T {
    if change.Some? then change.value else kept
  }

  function OrKept<T>(change: Option<T>, kept: Option<T>): Option<T> {
    if change.Some? then change else kept
  }

  function PatchKind(patch: Patch): Kind {
    match patch
    case TripPatch(_, _, _, _, _, _) => TripKind
    case ExpensePatch(_, _, _, _, _) => ExpenseKind
    case LeavePatch(_, _, _, _) => LeaveKind
    case BookingPatch(_, _, _, _, _) => BookingKind
  }

  /**
   * The old values with the changes over them; a trip that becomes or stays one-way loses an end date not given anew.
   */
  function Merge(p: Payload, patch: Patch): Payload
    requires KindOf(p) == PatchKind(patch)
  {
    match p
    case Trip(origin, destination, startDate, oneWay, endDate, purpose) =>
      var merged := Trip(Or(patch.origin, origin), Or(patch.destination, destination), Or(patch.startDate, startDate),
                         Or(patch.oneWay, oneWay), OrKept(patch.endDate, endDate), Or(patch.purpose, purpose));
      if merged.oneWay && patch.endDate.None? then merged.(endDate := None) else merged
    case Claim(kind, amount, currency, receipts, trip) =>
      Claim(Or(patch.kind, kind), Or(patch.amount, amount), Or(patch.currency, currency), Or(patch.receipts, receipts),
            OrKept(patch.trip, trip))
    case Absence(kind, startDate, lastDate, reason) =>
      Absence(Or(patch.kind, kind), Or(patch.startDate, startDate), Or(patch.lastDate, lastDate),
              OrKept(patch.reason, reason))
    case Booking(room, day, from, until, subject, roomName) =>
      Booking(Or(patch.room, room), Or(patch.day, day), Or(patch.from, from), Or(patch.until, until),
              Or(patch.subject, subject), roomName)
  }

  predicate Fits(change: Option<string>, most: nat) {
    change.Some? ==> Sized(change.value, most)
  }

  /** What an update names must be fit for a submission of its own. */
  predicate NamesFit(patch: Patch) {
    match patch
    case TripPatch(origin, destination, _, _, _, purpose) =>
      Fits(origin, 200) && Fits(destination, 200) && Fits(purpose, 1000)
    case ExpensePatch(kind, amount, currency, receipts, trip) =>
      Fits(kind, 100) && (amount.Some? ==> amount.value > 0.0) && (receipts.Some? ==> receipts.value != [])
      && SizedIfGiven(trip, 256)
      && (currency.Some? ==> |currency.value| == 3 && forall i :: 0 <= i < 3 ==> 'A' <= currency.value[i] <= 'Z')
    case LeavePatch(kind, _, _, reason) => Fits(kind, 100) && SizedIfGiven(reason, 1000)
    case BookingPatch(room, _, _, _, subject) =>
      Fits(room, 64) && Fits(subject, 200)
      && (room.Some? ==> forall i :: 0 <= i < |room.value| ==> RoomIdChar(room.value[i]))
  }

  /** The dates and times as they stand after the update, some new and some old, must still fit each other. */
  predicate DatesFit(p: Payload, patch: Patch)
    requires KindOf(p) == PatchKind(patch)
  {
    match p
    case Trip(_, _, startDate, oneWay, endDate, _) =>
      if Or(patch.oneWay, oneWay) then patch.endDate.None?
      else (patch.endDate.Some? || endDate.Some?)
           && Or(patch.startDate, startDate) <= OrKept(patch.endDate, endDate).value
    case Claim(_, _, _, _, _) => true
    case Absence(_, startDate, lastDate, _) => Or(patch.startDate, startDate) <= Or(patch.lastDate, lastDate)
    case Booking(_, _, from, until, _, _) => Or(patch.from, from) < Or(patch.until, until)
  }

  /**
   * An update of a submission on record passes its create contract exactly if what it names is fit and the dates still
   * fit: a trip that becomes one-way must not be given an end date and loses the one it had; one that becomes a round
   * trip needs one that is not before its start.
   */
  lemma UpdateAcceptedIff(p: Payload, patch: Patch)
    requires Contract(p) && KindOf(p) == PatchKind(patch)
    ensures Contract(Merge(p, patch)) <==> NamesFit(patch) && DatesFit(p, patch)
  {}

  function NoChange(kind: Kind): Patch {
    match kind
    case TripKind => TripPatch(None, None, None, None, None, None)
    case ExpenseKind => ExpensePatch(None, None, None, None, None)
    case LeaveKind => LeavePatch(None, None, None, None)
    case BookingKind => BookingPatch(None, None, None, None, None)
  }

  /** The update that names every field of `q`. */
  function Everything(q: Payload): Patch {
    match q
    case Trip(origin, destination, startDate, oneWay, endDate, purpose) =>
      TripPatch(Some(origin), Some(destination), Some(startDate), Some(oneWay), endDate, Some(purpose))
    case Claim(kind, amount, currency, receipts, trip) =>
      ExpensePatch(Some(kind), Some(amount), Some(currency), Some(receipts), trip)
    case Absence(kind, startDate, lastDate, reason) => LeavePatch(Some(kind), Some(startDate), Some(lastDate), reason)
    case Booking(room, day, from, until, subject, _) =>
      BookingPatch(Some(room), Some(day), Some(from), Some(until), Some(subject))
  }

  /** Fields that can be left empty cannot be emptied by an update, except a one-way trip's end date. */
  function Completed(p: Payload, q: Payload): Payload {
    match q
    case Trip(_, _, _, _, _, _) => q
    case Claim(_, _, _, _, trip) => if p.Claim? then q.(trip := OrKept(trip, p.trip)) else q
    case Absence(_, _, _, reason) => if p.Absence? then q.(reason := OrKept(reason, p.reason)) else q
    case Booking(_, _, _, _, _, _) => if p.Booking? then q.(roomName := p.roomName) else q
  }

  /**
   * Naming nothing changes nothing; naming everything leaves nothing of the old; the same update twice is as good as
   * once.
   */
  lemma MergeLaws(p: Payload, q: Payload, patch: Patch)
    requires Contract(p) && Contract(q) && KindOf(p) == KindOf(q) == PatchKind(patch)
    ensures PatchKind(NoChange(KindOf(p))) == KindOf(p) && Merge(p, NoChange(KindOf(p))) == p
    ensures PatchKind(Everything(q)) == KindOf(p) && Merge(p, Everything(q)) == Completed(p, q)
    ensures KindOf(Merge(p, patch)) == KindOf(p) && Merge(Merge(p, patch), patch) == Merge(p, patch)
  {}
}
