/** What each step of the event bridge gives its subscribers, told from what was published and nothing else. */
module Subscribing {
  import opened RunBridge

  ghost predicate EndedBefore<D(!new)>(actions: seq<Action<D>>, n: nat)
    requires n <= |actions|
  {
    exists j :: 0 <= j < n && actions[j].PublishEnd?
  }

  /** Everything published before the end of the run, in order. */
  ghost function PublishedBefore<D(!new)>(actions: seq<Action<D>>, n: nat): History<D>
    requires n <= |actions|
  {
    if n == 0 then []
    else
      var a := actions[n - 1];
      PublishedBefore(actions, n - 1) + if a.Publish? && !EndedBefore(actions, n - 1) then [(a.event, a.data)] else []
  }

  lemma {:induction false} HistoryIsWhatWasPublished<D(!new)>(trace: seq<World<D>>, size: nat, actions: seq<Action<D>>,
                                                              n: nat)
    requires size >= 1 && Run(trace, size, actions) && n < |trace|
    ensures trace[n].history == PublishedBefore(actions, n) && (trace[n].log.ended <==> EndedBefore(actions, n))
  {
    if n > 0 {
      HistoryIsWhatWasPublished(trace, size, actions, n - 1);
      assert Follows(trace[n - 1], size, actions[n - 1], trace[n]);
    }
  }

  /**
   * Of a log that keeps so many events, a reader is told of a gap if the next one is gone; otherwise it gets all there
   * is, or the end, or has to wait.
   */
  predicate ReadsOn<D(==)>(history: History<D>, size: nat, ended: bool, s: Subscriber<D>, s': Subscriber<D>)
    requires s.cursor <= |history|
  {
    if s.cursor + size < |history| then s' == s.(sent := s.sent + [SentGap(s.cursor)], closed := true)
    else if s.cursor < |history| then
      s' == s.(queued := Slice(history, s.cursor, |history|), cursor := |history|)
    else if ended then s' == s.(sent := s.sent + [SentEnd], closed := true)
    else s' == s
  }

  /** One subscriber moves like this, all others stay. */
  predicate OnlyMoves<D(==)>(before: seq<Subscriber<D>>, after: seq<Subscriber<D>>, who: nat, s': Subscriber<D>) {
    && who < |before| == |after| && after[who] == s'
    && forall k :: 0 <= k < |before| && k != who ==> after[k] == before[k]
  }

  ghost predicate Heard<D(!new)>(history: History<D>, size: nat, ended: bool, a: Action<D>,
                                 before: seq<Subscriber<D>>, after: seq<Subscriber<D>>)
  {
    match a
    case Publish(_, _) => after == before
    case PublishEnd => after == before
    case Join(last) =>
      var start := if last.Some? then last.value + 1 else 0;
      after == before + [Subscriber(start, start, [], [], false)]
    case Read(who) =>
      && who < |before| == |after| && before[who].cursor <= |history|
      && ReadsOn(history, size, ended, before[who], after[who]) && OnlyMoves(before, after, who, after[who])
    case Yield(who) =>
      && who < |before| && before[who].queued != []
      && var s := before[who];
         OnlyMoves(before, after, who, s.(queued := s.queued[1..], sent := s.sent + [Sent(s.queued[0])]))
    case TimeOut(who) =>
      && who < |before| && before[who].cursor == |history| && !ended
      && OnlyMoves(before, after, who, before[who].(sent := before[who].sent + [Heartbeat]))
    case Leave(who) => who < |before| && OnlyMoves(before, after, who, before[who].(closed := true))
  }

  lemma ReadIsHeard<D(!new)>(w: World<D>, size: nat, s: Subscriber<D>)
    requires size >= 1 && LogOK(w.log, size, w.history) && s.cursor <= |w.history|
    ensures ReadsOn(w.history, size, w.log.ended, s, ReadStep(w.log, s))
  {
    PollReadsHistory(w.log, size, w.history, s.cursor);
  }

  /** In every interleaving each step moves the subscriber it is about, as told, and no other. */
  lemma {:induction false} StepsAreHeard<D(!new)>(trace: seq<World<D>>, size: nat, actions: seq<Action<D>>, n: nat)
    requires size >= 1 && Run(trace, size, actions) && n < |actions|
    ensures Heard(PublishedBefore(actions, n), size, EndedBefore(actions, n), actions[n],
                  trace[n].subscribers, trace[n + 1].subscribers)
  {
    RunKeeps(trace, size, actions, n);
    HistoryIsWhatWasPublished(trace, size, actions, n);
    assert Follows(trace[n], size, actions[n], trace[n + 1]);
    var w, a := trace[n], actions[n];
    if a.Read? || a.TimeOut? {
      var s := w.subscribers[a.who];
      assert SubscriberOK(w, size, s);
      ReadIsHeard(w, size, s);
      PollReadsHistory(w.log, size, w.history, s.cursor);
    }
  }
}
