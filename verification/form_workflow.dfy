/** The six workflow operations: a permission check on a snapshot, later an atomic transaction that reads again. */
module FormWorkflow {
  import opened Basics
  import opened FormStatus

  type Id = string

  datatype Actor = Actor(id: Id, role: string, ulb: Option<Id>, state: Option<Id>)

  datatype Submission = Submission(
    ownerType: string, ulbId: Option<Id>, stateId: Option<Id>, status: int,
    ownerOrgType: Option<string>, ownerOrgId: Option<Id>, ownerRoleCode: Option<string>,
    submittedBy: Option<Id>, submittedAt: Option<int>, lastActionBy: Option<Id>, lastActionAt: Option<int>)

  datatype HistoryEntry = HistoryEntry(from: int, to: int, op: Op, actorId: Id, actorRole: string,
                                       actorOrgId: Option<Id>, at: int)

  datatype Op = SaveDraft | Submit | ReturnByState | ApproveByState | ReturnByMoHUA | AcknowledgeByMoHUA

  datatype Error = NotFound | Forbidden | InvalidTransition | SideEffectFailed

  /** The two collections a transaction writes; the history is kept per form. */
  datatype Store = Store(subs: map<Id, Submission>, history: map<Id, seq<HistoryEntry>>)

  // ----- permissions

  predicate SameOrg(user: Option<Id>, form: Option<Id>) {
    user.Some? && user.value != "" && form.Some? && user.value == form.value
  }

  predicate CanEdit(a: Actor, s: Submission) {
    a.role == "ULB" && SameOrg(a.ulb, s.ulbId)
    && s.status in {NOT_STARTED, IN_PROGRESS, RETURNED_BY_STATE, RETURNED_BY_MOHUA}
  }

  predicate CanSubmit(a: Actor, s: Submission) {
    a.role == "ULB" && SameOrg(a.ulb, s.ulbId) && s.status in {IN_PROGRESS, RETURNED_BY_STATE, RETURNED_BY_MOHUA}
  }

  predicate CanReturn(a: Actor, s: Submission) {
    if a.role == "STATE" then SameOrg(a.state, s.stateId) && s.status == UNDER_REVIEW_BY_STATE
    else (a.role == "MoHUA" || a.role == "ADMIN") && s.status == UNDER_REVIEW_BY_MOHUA
  }

  predicate CanApprove(a: Actor, s: Submission) {
    if a.role == "STATE" then SameOrg(a.state, s.stateId) && s.status == UNDER_REVIEW_BY_STATE
    else a.role == "ADMIN" && s.status == UNDER_REVIEW_BY_STATE
  }

  predicate CanAcknowledge(a: Actor, s: Submission) {
    (a.role == "MoHUA" || a.role == "ADMIN") && s.status == UNDER_REVIEW_BY_MOHUA
  }

  predicate Permitted(op: Op, a: Actor, s: Submission) {
    match op
    case SaveDraft => CanEdit(a, s)
    case Submit => CanSubmit(a, s)
    case ReturnByState => CanReturn(a, s)
    case ApproveByState => CanApprove(a, s)
    case ReturnByMoHUA => CanReturn(a, s)
    case AcknowledgeByMoHUA => CanAcknowledge(a, s)
  }

  /** The status the transaction asks for; approval still asks for MoHUA review directly. */
  function Target(op: Op): int {
    match op
    case SaveDraft => IN_PROGRESS
    case Submit => UNDER_REVIEW_BY_STATE
    case ReturnByState => RETURNED_BY_STATE
    case ApproveByState => UNDER_REVIEW_BY_MOHUA
    case ReturnByMoHUA => RETURNED_BY_MOHUA
    case AcknowledgeByMoHUA => SUBMISSION_ACKNOWLEDGED_BY_MOHUA
  }

  // ----- one status change

  function OwnerOrgId(ownerOrgType: Option<string>, s: Submission): Option<Id> {
    if ownerOrgType == Some("ULB") then s.ulbId
    else if ownerOrgType == Some("STATE") then s.stateId
    else None
  }

  function ActorOrgId(a: Actor): Option<Id> {
    if a.ulb.Some? && a.ulb.value != "" then a.ulb
    else if a.state.Some? && a.state.value != "" then a.state
    else None
  }

  predicate Accepts(from: int, to: int) { from == to || CanTransition(from, to) }

  function Moved(s: Submission, op: Op, a: Actor, now: int): Submission {
    var owner := DefaultOwner(Target(op));
    s.(status := Target(op), ownerOrgType := owner, ownerOrgId := OwnerOrgId(owner, s), ownerRoleCode := owner,
       lastActionBy := Some(a.id), lastActionAt := Some(now),
       submittedBy := if op == Submit then Some(a.id) else s.submittedBy,
       submittedAt := if op == Submit then Some(now) else s.submittedAt)
  }

  function Record(s: Submission, op: Op, a: Actor, now: int): HistoryEntry {
    HistoryEntry(s.status, Target(op), op, a.id, a.role, ActorOrgId(a), now)
  }

  function HistoryOf(st: Store, id: Id): seq<HistoryEntry> { if id in st.history then st.history[id] else [] }

  /** The store after a transaction that got through. */
  function Committed(st: Store, id: Id, op: Op, a: Actor, now: int): Store
    requires id in st.subs
  {
    var s := st.subs[id];
    Store(st.subs[id := Moved(s, op, a, now)], st.history[id := HistoryOf(st, id) + [Record(s, op, a, now)]])
  }

  /** The record `findOrCreateFormSubmissionForDataRecord` starts from. */
  function Initial(ownerType: string, ulbId: Option<Id>, stateId: Option<Id>): Submission {
    Submission(ownerType, ulbId, stateId, NOT_STARTED, Some(ownerType), if ownerType == "ULB" then ulbId else stateId,
               Some(ownerType), None, None, None, None)
  }

  // ----- the services

  class Workflow {
    var subs: map<Id, Submission>
    var history: map<Id, seq<HistoryEntry>>

    ghost function State(): Store
      reads this
    {
      Store(subs, history)
    }

    constructor ()
      ensures State() == Store(map[], map[])
    {
      subs, history := map[], map[];
    }

    method FindOrCreate(id: Id, ownerType: string, ulbId: Option<Id>, stateId: Option<Id>) returns (s: Submission)
      modifies this
      ensures id in old(subs) ==> s == old(subs)[id] && State() == old(State())
      ensures id !in old(subs) ==> s == Initial(ownerType, ulbId, stateId)
      ensures State() == Opened(old(State()), id, ownerType, ulbId, stateId)
    {
      if id in subs { return subs[id]; }
      s := Initial(ownerType, ulbId, stateId);
      subs := subs[id := s];
    }

    method UpdateFormStatus(id: Id, op: Op, actor: Actor, now: int) returns (r: Result<Submission, Error>)
      modifies this
      ensures id !in old(subs) ==> r == Failure(NotFound)
      ensures id in old(subs) ==> (r.Success? <==> Accepts(old(subs)[id].status, Target(op)))
      ensures r.Success? ==> id in subs && r.value == subs[id] && State() == Committed(old(State()), id, op, actor, now)
      ensures r.Failure? ==> State() == old(State())
    {
      if id !in subs { return Failure(NotFound); }
      var submission := subs[id];
      var fromStatus, newStatus := submission.status, Target(op);
      if fromStatus != newStatus {
        if newStatus !in AllowedNext(fromStatus) { return Failure(InvalidTransition); }
      }
      var ownerOrgType := DefaultOwner(newStatus);
      var updated := submission.(
        status := newStatus, ownerOrgType := ownerOrgType, ownerOrgId := OwnerOrgId(ownerOrgType, submission),
        ownerRoleCode := ownerOrgType, lastActionBy := Some(actor.id), lastActionAt := Some(now));
      if op == Submit {
        updated := updated.(submittedBy := Some(actor.id), submittedAt := Some(now));
      }
      subs := subs[id := updated];
      var entry := HistoryEntry(fromStatus, newStatus, op, actor.id, actor.role, ActorOrgId(actor), now);
      history := history[id := (if id in history then history[id] else []) + [entry]];
      r := Success(updated);
    }

    /** The checked part of an operation: `None` when it goes on to a transaction. */
    method Check(op: Op, id: Id, actor: Actor) returns (early: Option<Result<Submission, Error>>)
      ensures early == None <==> MayStart(State(), op, id, actor)
      ensures early.Some? && early.value.Success? ==> op == SaveDraft && id in subs && early.value.value == subs[id]
    {
      if id !in subs { return Some(Failure(NotFound)); }
      if !Permitted(op, actor, subs[id]) { return Some(Failure(Forbidden)); }
      if op == SaveDraft && subs[id].status != NOT_STARTED { return Some(Success(subs[id])); }
      early := None;
    }

    /** The session of an operation: status change, then threads, messages and notifications, which may throw. */
    method Transact(op: Op, id: Id, actor: Actor, sideEffectsSucceed: bool, now: int)
        returns (r: Result<Submission, Error>)
      modifies this
      ensures r.Success? <==> Commits(old(State()), op, id) && sideEffectsSucceed
      ensures State() == AfterTransaction(old(State()), op, id, actor, sideEffectsSucceed, now)
      ensures r.Success? ==> id in subs && r.value == subs[id]
    {
      var subs0, history0 := subs, history;
      r := UpdateFormStatus(id, op, actor, now);
      if r.Success? && !sideEffectsSucceed {
        r := Failure(SideEffectFailed);
      }
      if r.Failure? {
        subs, history := subs0, history0;
      }
    }
  }

  // ----- many operations in flight

  predicate MayStart(st: Store, op: Op, id: Id, actor: Actor) {
    id in st.subs && Permitted(op, actor, st.subs[id]) && (op == SaveDraft ==> st.subs[id].status == NOT_STARTED)
  }

  predicate Commits(st: Store, op: Op, id: Id) {
    id in st.subs && Accepts(st.subs[id].status, Target(op))
  }

  function AfterTransaction(st: Store, op: Op, id: Id, actor: Actor, sideEffectsSucceed: bool, now: int): Store {
    if Commits(st, op, id) && sideEffectsSucceed then Committed(st, id, op, actor, now) else st
  }

  function Opened(st: Store, id: Id, ownerType: string, ulbId: Option<Id>, stateId: Option<Id>): Store {
    if id in st.subs then st
    else st.(subs := st.subs[id := Initial(ownerType, ulbId, stateId)])
  }

  /** A checked operation on its way to its transaction; `seen` is the status its check saw. */
  datatype Ticket = Ticket(op: Op, id: Id, actor: Actor, seen: int)

  datatype World = World(st: Store, flying: map<nat, Ticket>)

  datatype Step =
    | Open(id: Id, ownerType: string, ulbId: Option<Id>, stateId: Option<Id>)
    | Start(pid: nat, op: Op, id: Id, actor: Actor)
    | Finish(pid: nat, sideEffectsSucceed: bool, now: int)

  predicate Enabled(w: World, s: Step) {
    match s
    case Open(_, _, _, _) => true
    case Start(pid, op, id, actor) => pid !in w.flying && MayStart(w.st, op, id, actor)
    case Finish(pid, _, _) => pid in w.flying
  }

  /** A step that is not enabled does not happen. */
  function Next(w: World, s: Step): World {
    if !Enabled(w, s) then w
    else match s
      case Open(id, ownerType, ulbId, stateId) => w.(st := Opened(w.st, id, ownerType, ulbId, stateId))
      case Start(pid, op, id, actor) => w.(flying := w.flying[pid := Ticket(op, id, actor, w.st.subs[id].status)])
      case Finish(pid, ok, now) =>
        var t := w.flying[pid];
        World(AfterTransaction(w.st, t.op, t.id, t.actor, ok, now), w.flying - {pid})
  }

  /** The world after a list of steps, starting from an empty one. */
  function After(run: seq<Step>): World {
    if run == [] then World(Store(map[], map[]), map[]) else Next(After(run[..|run| - 1]), run[|run| - 1])
  }

  // ----- what every run keeps

  predicate Chained(h: seq<HistoryEntry>, status: int) {
    && (h == [] ==> status == NOT_STARTED)
    && (h != [] ==> h[0].from == NOT_STARTED && h[|h| - 1].to == status)
    && forall i :: 0 <= i < |h| - 1 ==> h[i].to == h[i + 1].from
  }

  predicate OwnerIsDefault(s: Submission) {
    && s.ownerOrgType == DefaultOwner(s.status) && s.ownerRoleCode == s.ownerOrgType
    && s.ownerOrgId == OwnerOrgId(s.ownerOrgType, s)
  }

  function LastSubmit(h: seq<HistoryEntry>): Option<HistoryEntry> {
    if h == [] then None
    else if h[|h| - 1].op == Submit then Some(h[|h| - 1])
    else LastSubmit(h[..|h| - 1])
  }

  /** The edges the service ever takes; a self-loop is an operation that lost a race. */
  predicate TakenEdge(e: HistoryEntry) {
    && (e.op == SaveDraft ==> e.from in {NOT_STARTED, IN_PROGRESS, RETURNED_BY_STATE} && e.to == IN_PROGRESS)
    && (e.op == Submit ==> e.from in {IN_PROGRESS, UNDER_REVIEW_BY_STATE, RETURNED_BY_STATE} && e.to == UNDER_REVIEW_BY_STATE)
    && (e.op == ReturnByState ==> e.from in {UNDER_REVIEW_BY_STATE, RETURNED_BY_STATE} && e.to == RETURNED_BY_STATE)
    && e.op in {SaveDraft, Submit, ReturnByState}
  }

  predicate FormOk(s: Submission, h: seq<HistoryEntry>) {
    && Chained(h, s.status) && NOT_STARTED <= s.status <= RETURNED_BY_STATE
    && (forall i :: 0 <= i < |h| ==> Accepts(h[i].from, h[i].to) && TakenEdge(h[i]))
    && (OwnerIsDefault(s) <==> s.ownerType == "ULB" || h != [])
    && s.submittedAt == (match LastSubmit(h) case Some(e) => Some(e.at) case None => None)
    && s.submittedBy == (match LastSubmit(h) case Some(e) => Some(e.actorId) case None => None)
    && s.lastActionBy == (if h == [] then None else Some(h[|h| - 1].actorId))
    && s.lastActionAt == (if h == [] then None else Some(h[|h| - 1].at))
  }

  predicate StoreOk(st: Store) {
    st.history.Keys <= st.subs.Keys && forall id :: id in st.subs ==> FormOk(st.subs[id], HistoryOf(st, id))
  }

  lemma CommitKeepsFormOk(s: Submission, h: seq<HistoryEntry>, op: Op, a: Actor, now: int)
    requires FormOk(s, h) && Accepts(s.status, Target(op))
    ensures FormOk(Moved(s, op, a, now), h + [Record(s, op, a, now)])
  {
    var h' := h + [Record(s, op, a, now)];
    assert h'[..|h'| - 1] == h;
  }

  lemma StepKeepsStoreOk(w: World, s: Step)
    requires StoreOk(w.st)
    ensures StoreOk(Next(w, s).st)
  {
    if Enabled(w, s) && s.Finish? {
      var t := w.flying[s.pid];
      if Commits(w.st, t.op, t.id) && s.sideEffectsSucceed {
        CommitKeepsFormOk(w.st.subs[t.id], HistoryOf(w.st, t.id), t.op, t.actor, s.now);
      }
    }
  }

  /**
   However many operations are in flight with outdated checks, every form keeps a connected history of allowed
   transitions from NOT_STARTED to its status, default owners, submission fields equal to the last SUBMIT, and
   never leaves statuses 1 to 4.
   */
  lemma {:induction false} EveryRunKeepsStoreOk(run: seq<Step>)
    ensures StoreOk(After(run).st)
  {
    if run != [] {
      EveryRunKeepsStoreOk(run[..|run| - 1]);
      StepKeepsStoreOk(After(run[..|run| - 1]), run[|run| - 1]);
    }
  }

  lemma OnlyStateReviewForwards(status: int, op: Op)
    requires NOT_STARTED <= status <= RETURNED_BY_STATE && op in {ApproveByState, ReturnByMoHUA, AcknowledgeByMoHUA}
    ensures !Accepts(status, Target(op))
  {
  }

  /** In any reachable store the three operations beyond state review abort, whatever the check saw. */
  lemma {:induction false} ForwardingAlwaysAborts(run: seq<Step>, op: Op, id: Id)
    requires op in {ApproveByState, ReturnByMoHUA, AcknowledgeByMoHUA}
    ensures !Commits(After(run).st, op, id)
  {
    EveryRunKeepsStoreOk(run);
    var st := After(run).st;
    if id in st.subs {
      assert FormOk(st.subs[id], HistoryOf(st, id));
      OnlyStateReviewForwards(st.subs[id].status, op);
    }
  }

  /** Forms can be opened, and a permitted operation started and finished, after every run. */
  lemma OpeningHappens(run: seq<Step>, id: Id, ownerType: string, ulbId: Option<Id>, stateId: Option<Id>)
    ensures var w := After(run);
            After(run + [Open(id, ownerType, ulbId, stateId)]) == World(Opened(w.st, id, ownerType, ulbId, stateId), w.flying)
  {
    var longer := run + [Open(id, ownerType, ulbId, stateId)];
    assert longer[..|longer| - 1] == run;
  }

  lemma OperationHappens(run: seq<Step>, pid: nat, op: Op, id: Id, a: Actor, ok: bool, now: int)
    requires pid !in After(run).flying && MayStart(After(run).st, op, id, a)
    ensures var w := After(run);
            After(run + [Start(pid, op, id, a)] + [Finish(pid, ok, now)])
              == World(AfterTransaction(w.st, op, id, a, ok, now), w.flying)
  {
    var started := run + [Start(pid, op, id, a)];
    var finished := started + [Finish(pid, ok, now)];
    assert started[..|started| - 1] == run && finished[..|finished| - 1] == started;
    var w := After(run);
    assert (w.flying[pid := Ticket(op, id, a, w.st.subs[id].status)]) - {pid} == w.flying;
  }

  /** The form of a ULB stands at this status after the run, with nothing in flight. */
  predicate StandsAt(run: seq<Step>, id: Id, status: int) {
    var w := After(run);
    && w.flying == map[] && id in w.st.subs && w.st.subs[id].status == status
    && w.st.subs[id].ulbId == Some("u") && w.st.subs[id].stateId == Some("s")
  }

  lemma GoesOn(run: seq<Step>, id: Id, op: Op, role: string)
    requires id in After(run).st.subs && StandsAt(run, id, After(run).st.subs[id].status)
    requires MayStart(After(run).st, op, id, Actor("a", role, Some("u"), Some("s"))) && Commits(After(run).st, op, id)
    ensures exists longer :: StandsAt(longer, id, Target(op))
  {
    var a := Actor("a", role, Some("u"), Some("s"));
    OperationHappens(run, 0, op, id, a, true, 0);
    assert StandsAt(run + [Start(0, op, id, a)] + [Finish(0, true, 0)], id, Target(op));
  }

  lemma FirstRun() returns (run: seq<Step>)
    ensures StandsAt(run, "f", NOT_STARTED)
  {
    OpeningHappens([], "f", "ULB", Some("u"), Some("s"));
    run := [] + [Open("f", "ULB", Some("u"), Some("s"))];
    assert After([]).st.subs == map[];
  }

  lemma RunTo(status: int) returns (run: seq<Step>)
    requires status in {NOT_STARTED, IN_PROGRESS, UNDER_REVIEW_BY_STATE, RETURNED_BY_STATE}
    ensures StandsAt(run, "f", status)
  {
    run := FirstRun();
    if status != NOT_STARTED {
      GoesOn(run, "f", SaveDraft, "ULB");
      run :| StandsAt(run, "f", IN_PROGRESS);
      if status != IN_PROGRESS {
        GoesOn(run, "f", Submit, "ULB");
        run :| StandsAt(run, "f", UNDER_REVIEW_BY_STATE);
        if status != UNDER_REVIEW_BY_STATE {
          GoesOn(run, "f", ReturnByState, "STATE");
          run :| StandsAt(run, "f", RETURNED_BY_STATE);
        }
      }
    }
  }

  predicate Reached(status: int, run: seq<Step>, id: Id) {
    id in After(run).st.subs && After(run).st.subs[id].status == status
  }

  /** Four statuses are reached by these operations, and no other. */
  lemma StatusesReached(status: int)
    ensures status in {NOT_STARTED, IN_PROGRESS, UNDER_REVIEW_BY_STATE, RETURNED_BY_STATE}
            <==> exists run, id :: Reached(status, run, id)
  {
    forall run, id | Reached(status, run, id) ensures NOT_STARTED <= status <= RETURNED_BY_STATE {
      EveryRunKeepsStoreOk(run);
      assert FormOk(After(run).st.subs[id], HistoryOf(After(run).st, id));
    }
    if status in {NOT_STARTED, IN_PROGRESS, UNDER_REVIEW_BY_STATE, RETURNED_BY_STATE} {
      var run := RunTo(status);
      assert Reached(status, run, "f");
    }
  }

  /** The flying operation was permitted at the status its check saw. */
  predicate TicketEarned(w: World, pid: nat)
    requires pid in w.flying
  {
    var t := w.flying[pid];
    && t.id in w.st.subs
    && Permitted(t.op, t.actor, w.st.subs[t.id].(status := t.seen)) && (t.op == SaveDraft ==> t.seen == NOT_STARTED)
  }

  lemma StepKeepsTicket(w: World, s: Step, pid: nat)
    requires pid in Next(w, s).flying
    requires pid in w.flying ==> TicketEarned(w, pid)
    ensures TicketEarned(Next(w, s), pid)
  {
    if Enabled(w, s) {
      if s.Start? && s.pid == pid {
        assert w.st.subs[s.id].(status := w.st.subs[s.id].status) == w.st.subs[s.id];
      } else {
        var t := w.flying[pid];
        assert Next(w, s).flying[pid] == t && t.id in Next(w, s).st.subs;
      }
    }
  }

  lemma {:induction false} TicketsStayEarned(run: seq<Step>, pid: nat)
    requires pid in After(run).flying
    ensures TicketEarned(After(run), pid)
  {
    var before := After(run[..|run| - 1]);
    if pid in before.flying {
      TicketsStayEarned(run[..|run| - 1], pid);
    }
    StepKeepsTicket(before, run[|run| - 1], pid);
  }

  /** A committed self-loop is always the trace of a race: the form had moved since the check. */
  lemma {:induction false} SelfLoopMeansOutdatedCheck(run: seq<Step>, pid: nat)
    requires pid in After(run).flying
    ensures var w, t := After(run), After(run).flying[pid];
            t.id in w.st.subs && (w.st.subs[t.id].status == Target(t.op) ==> t.seen != w.st.subs[t.id].status)
  {
    TicketsStayEarned(run, pid);
    EveryRunKeepsStoreOk(run);
    assert TicketEarned(After(run), pid);
  }

  /**
   In any reachable store, whoever is granted an operation, platform admins aside, is the owner the record names,
   unless the form is not ULB-owned and nothing has happened to it yet.
   */
  lemma {:induction false} PermittedActorIsOwner(run: seq<Step>, op: Op, a: Actor, id: Id)
    requires id in After(run).st.subs && Permitted(op, a, After(run).st.subs[id]) && a.role != "ADMIN"
    ensures var s := After(run).st.subs[id];
            s.ownerType == "ULB" || HistoryOf(After(run).st, id) != [] ==>
              && s.ownerOrgType == s.ownerRoleCode == Some(a.role)
              && s.ownerOrgId == (if a.role == "ULB" then a.ulb else if a.role == "STATE" then a.state else None)
  {
    EveryRunKeepsStoreOk(run);
    assert FormOk(After(run).st.subs[id], HistoryOf(After(run).st, id));
  }

  // ----- who may do what, and what it writes

  /** The actor belongs to this ULB or state. */
  predicate BelongsTo(org: Option<Id>, form: Option<Id>) { org == form && org != None && org != Some("") }

  /**
   Drafting and submitting are for the form's own ULB, while the ULB is the default owner; a submission needs a form
   that was started. State review is for the form's own state, approval also for an admin. What the ministry owns is
   for the ministry and admins.
   */
  lemma PermittedExactlyWhen(op: Op, a: Actor, s: Submission)
    ensures Permitted(op, a, s) <==>
              match op
              case SaveDraft => a.role == "ULB" && BelongsTo(a.ulb, s.ulbId) && DefaultOwner(s.status) == Some("ULB")
              case Submit =>
                a.role == "ULB" && BelongsTo(a.ulb, s.ulbId) && DefaultOwner(s.status) == Some("ULB") && s.status != NOT_STARTED
              case ApproveByState =>
                s.status == UNDER_REVIEW_BY_STATE && (a.role == "ADMIN" || (a.role == "STATE" && BelongsTo(a.state, s.stateId)))
              case AcknowledgeByMoHUA => a.role in {"MoHUA", "ADMIN"} && DefaultOwner(s.status) == Some("MoHUA")
              case _ =>
                || (a.role in {"MoHUA", "ADMIN"} && DefaultOwner(s.status) == Some("MoHUA"))
                || (s.status == UNDER_REVIEW_BY_STATE && a.role == "STATE" && BelongsTo(a.state, s.stateId))
  {
  }

  /**
   In any reachable store the ULB or state that the record names as owner is granted exactly its part of the work: to
   draft a form not started, to submit one in progress or returned, to return or approve one under review.
   */
  lemma {:induction false} OwnerMayStartExactlyWhen(run: seq<Step>, op: Op, a: Actor, id: Id)
    requires id in After(run).st.subs && a.role in {"ULB", "STATE"}
    requires After(run).st.subs[id].ownerType == "ULB" || HistoryOf(After(run).st, id) != []
    requires var s := After(run).st.subs[id];
             s.ownerOrgType == Some(a.role) && BelongsTo(if a.role == "ULB" then a.ulb else a.state, s.ownerOrgId)
    ensures var status := After(run).st.subs[id].status;
            MayStart(After(run).st, op, id, a) <==>
              || (op == SaveDraft && status == NOT_STARTED)
              || (op == Submit && status in {IN_PROGRESS, RETURNED_BY_STATE})
              || (op in {ReturnByState, ReturnByMoHUA, ApproveByState} && status == UNDER_REVIEW_BY_STATE)
  {
    EveryRunKeepsStoreOk(run);
    var s := After(run).st.subs[id];
    assert FormOk(s, HistoryOf(After(run).st, id));
    PermittedExactlyWhen(op, a, s);
  }

  /** The statuses an operation can start its status change from, a self-loop included. */
  lemma CommitsExactlyWhen(st: Store, op: Op, id: Id)
    ensures Commits(st, op, id) <==>
              && id in st.subs
              && st.subs[id].status in match op
                                       case SaveDraft =>
                                         {NO_STATUS, NOT_STARTED, IN_PROGRESS, RETURNED_BY_STATE, RETURNED_BY_MOHUA, RETURNED_BY_PMU}
                                       case Submit =>
                                         {IN_PROGRESS, UNDER_REVIEW_BY_STATE, RETURNED_BY_STATE, RETURNED_BY_MOHUA, APPROVED_BY_STATE}
                                       case ReturnByState => {UNDER_REVIEW_BY_STATE, RETURNED_BY_STATE}
                                       case ApproveByState => {UNDER_REVIEW_BY_MOHUA, AWAITING_CLAIM_LETTER, UNDER_REVIEW_BY_PMU}
                                       case ReturnByMoHUA => {UNDER_REVIEW_BY_MOHUA, RETURNED_BY_MOHUA}
                                       case AcknowledgeByMoHUA => {UNDER_REVIEW_BY_MOHUA, SUBMISSION_ACKNOWLEDGED_BY_MOHUA}
  {
  }

  /** The form goes to the next party: its new status, and who owns it then. */
  predicate HandedOver(was: Submission, now: Submission, status: int, role: Option<string>, org: Option<Id>) {
    && now.status == status && now.ownerOrgType == role && now.ownerRoleCode == role && now.ownerOrgId == org
    && now.ownerType == was.ownerType && now.ulbId == was.ulbId && now.stateId == was.stateId
  }

  /** What a transaction that gets through writes: the status and owner of its operation, and one entry of history. */
  lemma TransactionWrites(st: Store, op: Op, id: Id, a: Actor, now: int)
    requires Commits(st, op, id)
    ensures var next := AfterTransaction(st, op, id, a, true, now);
            && next.subs.Keys == st.subs.Keys && next.history.Keys == st.history.Keys + {id}
            && (forall other :: other in st.subs && other != id ==> next.subs[other] == st.subs[other])
            && (forall other :: other in st.history && other != id ==> next.history[other] == st.history[other])
    ensures var was, then_ := st.subs[id], AfterTransaction(st, op, id, a, true, now).subs[id];
            && then_.lastActionBy == Some(a.id) && then_.lastActionAt == Some(now)
            && (op == Submit ==> then_.submittedBy == Some(a.id) && then_.submittedAt == Some(now))
            && (op != Submit ==> then_.submittedBy == was.submittedBy && then_.submittedAt == was.submittedAt)
            && match op
               case SaveDraft => HandedOver(was, then_, IN_PROGRESS, Some("ULB"), was.ulbId)
               case Submit => HandedOver(was, then_, UNDER_REVIEW_BY_STATE, Some("STATE"), was.stateId)
               case ReturnByState => HandedOver(was, then_, RETURNED_BY_STATE, Some("ULB"), was.ulbId)
               case ApproveByState => HandedOver(was, then_, UNDER_REVIEW_BY_MOHUA, Some("MoHUA"), None)
               case ReturnByMoHUA => HandedOver(was, then_, RETURNED_BY_MOHUA, Some("ULB"), was.ulbId)
               case AcknowledgeByMoHUA => HandedOver(was, then_, SUBMISSION_ACKNOWLEDGED_BY_MOHUA, None, None)
    ensures var h, h' := HistoryOf(st, id), HistoryOf(AfterTransaction(st, op, id, a, true, now), id);
            && |h'| == |h| + 1 && h'[..|h|] == h
            && var e := h'[|h|];
               && e.from == st.subs[id].status && e.op == op && e.at == now && e.actorId == a.id && e.actorRole == a.role
               && e.to == AfterTransaction(st, op, id, a, true, now).subs[id].status
               && e.actorOrgId == (if a.ulb != None && a.ulb != Some("") then a.ulb
                                   else if a.state != None && a.state != Some("") then a.state else None)
  {
  }

  /** A transaction that does not get through writes nothing. */
  lemma AbortWritesNothing(st: Store, op: Op, id: Id, a: Actor, ok: bool, now: int)
    requires !ok || !Commits(st, op, id)
    ensures AfterTransaction(st, op, id, a, ok, now) == st
  {
  }

  /** A form is opened once, not started, for its own ULB if it is a ULB's and for its state otherwise. */
  lemma OpeningWrites(st: Store, id: Id, ownerType: string, ulbId: Option<Id>, stateId: Option<Id>)
    ensures var next := Opened(st, id, ownerType, ulbId, stateId);
            && next.history == st.history && next.subs.Keys == st.subs.Keys + {id}
            && (forall other :: other in st.subs ==> next.subs[other] == st.subs[other])
            && (id !in st.subs ==>
                  var s := next.subs[id];
                  && s.ownerType == ownerType && s.ulbId == ulbId && s.stateId == stateId && s.status == NOT_STARTED
                  && s.ownerOrgType == Some(ownerType) && s.ownerRoleCode == Some(ownerType)
                  && (ownerType == "ULB" ==> s.ownerOrgId == ulbId) && (ownerType != "ULB" ==> s.ownerOrgId == stateId)
                  && s.submittedBy == None && s.submittedAt == None && s.lastActionBy == None && s.lastActionAt == None)
  {
  }
}
