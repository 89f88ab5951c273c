/** Unfinished matters: how plans appear to the user and to the context supervisor (core/matters.py). */
module Matters {
  import opened Models

  /** `recover_interrupted`: reads a task left RUNNING by a dead run as the state it really is in. */
  function RecoverTask(t: Task, drafts: map<string, TaskDraft>): Task {
    if t.status.Running? then t.(status := if t.id in drafts then WaitingInput else Pending) else t
  }

  function RecoverInterrupted(tasks: seq<Task>, drafts: map<string, TaskDraft>): (r: seq<Task>)
    ensures |r| == |tasks|
  {
    seq(|tasks|, i requires 0 <= i < |tasks| => RecoverTask(tasks[i], drafts))
  }

  function Recover(plan: Plan): Plan {
    plan.(tasks := RecoverInterrupted(plan.tasks, plan.drafts))
  }

  datatype MatterStatus = AwaitsInput | AwaitsConfirmation | InProgress | Shelved

  datatype MatterTask = MatterTask(id: string, title: string, domain: AgentName, status: TaskStatus)

  datatype Matter = Matter(
    planId: string,
    status: MatterStatus,
    taskId: string,
    title: string,
    knownFields: seq<DraftField>,
    missingFields: seq<string>,
    tasks: seq<MatterTask>)

  datatype OpenMatterTask = OpenMatterTask(id: string, title: string, domain: AgentName, status: TaskStatus,
          missingFields: seq<string>)

  datatype OpenMatter = OpenMatter(planId: string, shelved: bool, tasks: seq<OpenMatterTask>)

  predicate Stuck(t: Task) {
    t.status.WaitingInput? || t.status.WaitingConfirmation?
  }

  /** The first task with one of the given statuses, in plan order. */
  function FirstWith(tasks: seq<Task>, wanted: set<TaskStatus>): (r: Option<Task>)
    ensures r.Some? ==> r.value in tasks && r.value.status in wanted
    ensures r.None? ==> forall t <- tasks :: t.status !in wanted
  {
    if tasks == [] then None
    else if tasks[0].status in wanted then Some(tasks[0])
    else FirstWith(tasks[1..], wanted)
  }

  function MatterOf(plan: Plan, status: MatterStatus, focus: Task, draft: TaskDraft): Matter {
    Matter(plan.planId, status, focus.id, focus.title, draft.knownFields, draft.missingFields,
           seq(|plan.tasks|, i requires 0 <= i < |plan.tasks| =>
             MatterTask(plan.tasks[i].id, plan.tasks[i].title, plan.tasks[i].domain, plan.tasks[i].status)))
  }

  /** A pending confirmation, as far as the card needs it. */
  datatype PendingCard = PendingCard(taskId: string, draft: TaskDraft)

  function Card(plan: Plan, pending: Option<PendingCard>, shelved: bool, running: bool): Option<Matter> {
    var stuck := FirstWith(plan.tasks, {WaitingInput, WaitingConfirmation});
    if stuck.Some? then
      var status := if shelved then Shelved else if stuck.value.status.WaitingConfirmation? then AwaitsConfirmation
                    else AwaitsInput;
      var draft := if pending.Some? && pending.value.taskId == stuck.value.id then pending.value.draft
                   else if stuck.value.id in plan.drafts then plan.drafts[stuck.value.id] else TaskDraft([], []);
      Some(MatterOf(plan, status, stuck.value, draft))
    else if shelved || !running then None
    else
      var busy := FirstWith(plan.tasks, {Running});
      var working := if busy.Some? then busy else FirstWith(plan.tasks, {Pending});
      if working.None? then None
      else
        var known := if working.value.id in plan.drafts then plan.drafts[working.value.id].knownFields else [];
        Some(MatterOf(plan, InProgress, working.value, TaskDraft(known, [])))
  }

  function ShelvedCards(shelved: seq<Plan>): seq<Matter> {
    if shelved == [] then []
    else
      var card := Card(shelved[|shelved| - 1], None, true, false);
      (if card.Some? then [card.value] else []) + ShelvedCards(shelved[..|shelved| - 1])
  }

  /** `project_matters`: the current plan first, then the shelved ones, most recently shelved first. */
  function ProjectMatters(current: Plan, shelved: seq<Plan>, running: bool, pending: Option<PendingCard>): seq<Matter> {
    var shown := if running then current else Recover(current);
    var card := Card(shown, pending, false, running);
    (if card.Some? then [card.value] else []) + ShelvedCards(shelved)
  }

  /** The drafts a matter's missing fields come from; when two plans share an id the later one wins. */
  function DraftsOf(planId: string, current: Plan, shelved: seq<Plan>): map<string, TaskDraft> {
    if shelved == [] then (if current.planId == planId then current.drafts else map[])
    else if shelved[|shelved| - 1].planId == planId then shelved[|shelved| - 1].drafts
    else DraftsOf(planId, current, shelved[..|shelved| - 1])
  }

  function OpenMatterOf(card: Matter, drafts: map<string, TaskDraft>): OpenMatter {
    OpenMatter(card.planId, card.status.Shelved?,
               seq(|card.tasks|, i requires 0 <= i < |card.tasks| =>
                 var t := card.tasks[i];
                 OpenMatterTask(t.id, t.title, t.domain, t.status,
                                if t.status.WaitingInput? && t.id in drafts then drafts[t.id].missingFields else [])))
  }

  /** `open_matters`: what the supervisor is shown at the start of a turn. */
  function OpenMatters(current: Plan, shelved: seq<Plan>): (r: seq<OpenMatter>) {
    var cards := ProjectMatters(current, shelved, false, None);
    seq(|cards|, i requires 0 <= i < |cards| => OpenMatterOf(cards[i], DraftsOf(cards[i].planId, current, shelved)))
  }

  predicate HasStuck(plan: Plan) {
    exists t <- plan.tasks :: Stuck(t)
  }

  // ---- Which plans are listed ---------------------------------------------------------------

  lemma CardOfIdle(plan: Plan, shelved: bool)
    ensures Card(plan, None, shelved, false).Some? <==> HasStuck(plan)
    ensures Card(plan, None, shelved, false).Some? ==>
              Card(plan, None, shelved, false).value.planId == plan.planId
              && (Card(plan, None, shelved, false).value.status.Shelved? <==> shelved)
  {}

  /** The shelved plans that still hold a stuck task, most recently shelved first. */
  function StuckShelved(shelved: seq<Plan>): (r: seq<Plan>)
    ensures forall p <- r :: p in shelved && HasStuck(p)
  {
    if shelved == [] then []
    else
      var last := shelved[|shelved| - 1];
      (if HasStuck(last) then [last] else []) + StuckShelved(shelved[..|shelved| - 1])
  }

  lemma {:induction false} ShelvedCardsList(shelved: seq<Plan>)
    ensures |ShelvedCards(shelved)| == |StuckShelved(shelved)|
    ensures forall i :: 0 <= i < |ShelvedCards(shelved)| ==>
              ShelvedCards(shelved)[i].status.Shelved?
              && ShelvedCards(shelved)[i].planId == StuckShelved(shelved)[i].planId
  {
    if shelved != [] {
      ShelvedCardsList(shelved[..|shelved| - 1]);
      CardOfIdle(shelved[|shelved| - 1], true);
    }
  }

  /** The plans a turn starts with, as they should be listed: the recovered current one, then the shelved ones. */
  function Listed(current: Plan, shelved: seq<Plan>): seq<Plan> {
    (if HasStuck(Recover(current)) then [Recover(current)] else []) + StuckShelved(shelved)
  }

  /**
   * The supervisor is shown exactly the plans that hold a stuck task, in that order: the current one unshelved, the
   * others shelved. Nothing open is hidden and nothing closed is listed.
   */
  lemma ListsExactlyTheStuckPlans(current: Plan, shelved: seq<Plan>)
    ensures |OpenMatters(current, shelved)| == |Listed(current, shelved)|
    ensures forall i :: 0 <= i < |OpenMatters(current, shelved)| ==>
              && OpenMatters(current, shelved)[i].planId == Listed(current, shelved)[i].planId
              && (OpenMatters(current, shelved)[i].shelved <==> !(i == 0 && HasStuck(Recover(current))))
  {
    CardOfIdle(Recover(current), false);
    ShelvedCardsList(shelved);
  }

  lemma {:induction false} CurrentIsListedIffStuck(current: Plan, shelved: seq<Plan>)
    ensures (exists m <- OpenMatters(current, shelved) :: !m.shelved) <==> HasStuck(Recover(current))
  {
    ListsExactlyTheStuckPlans(current, shelved);
    if HasStuck(Recover(current)) {
      assert OpenMatters(current, shelved)[0] in OpenMatters(current, shelved);
    }
  }

  // ---- What a listed plan shows ---------------------------------------------------------------

  lemma {:induction false} DraftsOfShelved(current: Plan, shelved: seq<Plan>, p: Plan)
    requires p in shelved && forall q <- shelved :: q.planId == p.planId ==> q == p
    ensures DraftsOf(p.planId, current, shelved) == p.drafts
  {
    var last := shelved[|shelved| - 1];
    if last.planId != p.planId {
      assert shelved == shelved[..|shelved| - 1] + [last];
      DraftsOfShelved(current, shelved[..|shelved| - 1], p);
    }
  }

  lemma {:induction false} DraftsOfCurrent(current: Plan, shelved: seq<Plan>)
    requires forall q <- shelved :: q.planId != current.planId
    ensures DraftsOf(current.planId, current, shelved) == current.drafts
  {
    if shelved != [] {
      assert shelved[|shelved| - 1] in shelved;
      DraftsOfCurrent(current, shelved[..|shelved| - 1]);
    }
  }

  lemma {:induction false} ShelvedCardsShow(shelved: seq<Plan>, i: nat)
    requires i < |StuckShelved(shelved)|
    ensures i < |ShelvedCards(shelved)| && CardShows(ShelvedCards(shelved)[i], StuckShelved(shelved)[i])
  {
    ShelvedCardsList(shelved);
    var init, last := shelved[..|shelved| - 1], shelved[|shelved| - 1];
    CardOfIdle(last, true);
    if HasStuck(last) {
      if i > 0 {
        ShelvedCardsShow(init, i - 1);
      }
    } else {
      ShelvedCardsShow(init, i);
    }
  }

  predicate CardShows(card: Matter, p: Plan) {
    && |card.tasks| == |p.tasks|
    && forall j :: 0 <= j < |p.tasks| ==>
         card.tasks[j] == MatterTask(p.tasks[j].id, p.tasks[j].title, p.tasks[j].domain, p.tasks[j].status)
  }

  /** Every task with its state, and for what waits the fields its own draft still misses. */
  predicate Shows(m: OpenMatter, p: Plan) {
    && |m.tasks| == |p.tasks|
    && forall j :: 0 <= j < |p.tasks| ==>
         var t := p.tasks[j];
         m.tasks[j] == OpenMatterTask(t.id, t.title, t.domain, t.status,
                                      if t.status.WaitingInput? && t.id in p.drafts then p.drafts[t.id].missingFields
                                      else [])
  }

  lemma ShelvedMatterShows(current: Plan, shelved: seq<Plan>, i: nat)
    requires forall p <- shelved :: p.planId != current.planId
    requires forall p <- shelved, q <- shelved :: p.planId == q.planId ==> p == q
    requires i < |Listed(current, shelved)| && !(i == 0 && HasStuck(Recover(current)))
    ensures i < |OpenMatters(current, shelved)| && Shows(OpenMatters(current, shelved)[i], Listed(current, shelved)[i])
  {
    ListsExactlyTheStuckPlans(current, shelved);
    var k := if HasStuck(Recover(current)) then i - 1 else i;
    CardOfIdle(Recover(current), false);
    assert Listed(current, shelved)[i] == StuckShelved(shelved)[k] && StuckShelved(shelved)[k] in shelved;
    ShelvedCardsShow(shelved, k);
    DraftsOfShelved(current, shelved, StuckShelved(shelved)[k]);
  }

  /** With distinct plan ids, each listed matter shows the tasks and the missing fields of its own plan. */
  lemma MattersShowTheirPlans(current: Plan, shelved: seq<Plan>, i: nat)
    requires forall p <- shelved :: p.planId != current.planId
    requires forall p <- shelved, q <- shelved :: p.planId == q.planId ==> p == q
    requires i < |Listed(current, shelved)|
    ensures i < |OpenMatters(current, shelved)| && Shows(OpenMatters(current, shelved)[i], Listed(current, shelved)[i])
  {
    if i == 0 && HasStuck(Recover(current)) {
      ListsExactlyTheStuckPlans(current, shelved);
      CardOfIdle(Recover(current), false);
      DraftsOfCurrent(current, shelved);
    } else {
      ShelvedMatterShows(current, shelved, i);
    }
  }

  /**
   * While a run is on, the current plan has a card until nothing is left to do: what is asked first, then what runs,
   * then what waits its turn.
   */
  lemma RunningPlanShowsWork(plan: Plan)
    ensures var card := Card(plan, None, false, true);
            var wanted := if HasStuck(plan) then {WaitingInput, WaitingConfirmation}
                          else if exists t <- plan.tasks :: t.status.Running? then {Running} else {Pending};
            && (card.Some? <==> exists t <- plan.tasks :: t.status in wanted)
            && (card.Some? ==>
                  exists t <- plan.tasks ::
                    t.status in wanted && card.value.taskId == t.id && card.value.title == t.title)
  {
    var stuck, busy := FirstWith(plan.tasks, {WaitingInput, WaitingConfirmation}), FirstWith(plan.tasks, {Running});
    var queued := FirstWith(plan.tasks, {Pending});
  }

  /** The first task in plan order with one of these statuses. */
  predicate FirstIs(plan: Plan, wanted: set<TaskStatus>, k: nat) {
    k < |plan.tasks| && plan.tasks[k].status in wanted && forall j :: 0 <= j < k ==> plan.tasks[j].status !in wanted
  }

  lemma {:induction false} FirstWithIsFirst(tasks: seq<Task>, wanted: set<TaskStatus>) returns (k: nat)
    ensures k <= |tasks| && forall j :: 0 <= j < k ==> tasks[j].status !in wanted
    ensures k < |tasks| ==> tasks[k].status in wanted && FirstWith(tasks, wanted) == Some(tasks[k])
    ensures k == |tasks| ==> FirstWith(tasks, wanted) == None
  {
    if tasks == [] || tasks[0].status in wanted {
      k := 0;
    } else {
      var rest := FirstWithIsFirst(tasks[1..], wanted);
      k := rest + 1;
      assert forall j :: 1 <= j < k ==> tasks[j] == tasks[1..][j - 1];
    }
  }

  /**
   * The card of a plan that waits, for its task `k`: with what its draft knows and misses, or, while a confirmation of
   * that very task is open, with what the confirmation shows; and every task of the plan.
   */
  predicate ShowsDraft(card: Matter, plan: Plan, pending: Option<PendingCard>, shelved: bool, k: nat)
    requires k < |plan.tasks|
  {
    var t := plan.tasks[k];
    var waitsAs := if t.status.WaitingInput? then AwaitsInput else AwaitsConfirmation;
    && card.planId == plan.planId && card.taskId == t.id && card.title == t.title && CardShows(card, plan)
    && card.status == (if shelved then Shelved else waitsAs)
    && (if pending.Some? && pending.value.taskId == t.id then
          card.knownFields == pending.value.draft.knownFields && card.missingFields == pending.value.draft.missingFields
        else if t.id in plan.drafts then
          card.knownFields == plan.drafts[t.id].knownFields && card.missingFields == plan.drafts[t.id].missingFields
        else card.knownFields == [] && card.missingFields == [])
  }

  lemma WaitingCardShowsItsDraft(plan: Plan, pending: Option<PendingCard>, shelved: bool, running: bool)
    returns (k: nat)
    requires HasStuck(plan)
    ensures FirstIs(plan, {WaitingInput, WaitingConfirmation}, k) && Card(plan, pending, shelved, running).Some?
    ensures ShowsDraft(Card(plan, pending, shelved, running).value, plan, pending, shelved, k)
  {
    k := FirstWithIsFirst(plan.tasks, {WaitingInput, WaitingConfirmation});
    var t :| t in plan.tasks && Stuck(t);
    assert t.status in {WaitingInput, WaitingConfirmation};
  }

  /**
   * What the user sees first while the current plan waits, during a run or, with what a dead run left taken back,
   * after it: the first task that waits, and the confirmation open for it. The shelved matters that wait come behind.
   */
  lemma CurrentMatterComesFirst(current: Plan, shelved: seq<Plan>, running: bool, pending: Option<PendingCard>)
    returns (k: nat)
    requires HasStuck(if running then current else Recover(current))
    ensures var plan, matters := if running then current else Recover(current),
                                 ProjectMatters(current, shelved, running, pending);
            && |matters| == 1 + |StuckShelved(shelved)| && FirstIs(plan, {WaitingInput, WaitingConfirmation}, k)
            && ShowsDraft(matters[0], plan, pending, false, k)
  {
    k := WaitingCardShowsItsDraft(if running then current else Recover(current), pending, false, running);
    ShelvedCardsList(shelved);
  }

  /** During a run, of a plan that waits for nothing: the first running task, else the first queued one. */
  lemma WorkingCardShowsWhatIsKnown(plan: Plan, pending: Option<PendingCard>) returns (k: nat)
    requires !HasStuck(plan) && Card(plan, pending, false, true).Some?
    ensures FirstIs(plan, if exists t <- plan.tasks :: t.status.Running? then {Running} else {Pending}, k)
    ensures var t, card := plan.tasks[k], Card(plan, pending, false, true).value;
            && card.planId == plan.planId && card.taskId == t.id && card.title == t.title && CardShows(card, plan)
            && card.status == InProgress && card.missingFields == []
            && card.knownFields == if t.id in plan.drafts then plan.drafts[t.id].knownFields else []
  {
    var stuck := FirstWithIsFirst(plan.tasks, {WaitingInput, WaitingConfirmation});
    var busy := FirstWithIsFirst(plan.tasks, {Running});
    var queued := FirstWithIsFirst(plan.tasks, {Pending});
    k := if busy < |plan.tasks| then busy else queued;
    assert busy < |plan.tasks| ==> plan.tasks[busy] in plan.tasks;
    assert stuck < |plan.tasks| ==> plan.tasks[stuck] in plan.tasks && Stuck(plan.tasks[stuck]);
  }
}
