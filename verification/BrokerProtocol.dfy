/**
  Whole runs of the browser approval broker: the step system and its invariant.

  One async lock serialises interactions, responses, revocations and releases; its holder is one
  program counter, and every await or release of the state mutex is a step boundary. Session
  starts, tab insertions, shutdown, grant edits and the access flag run outside that lock and
  may fall between any two steps.
*/
module BrokerProtocol {
  import opened Prelude
  import opened BrokerState

  /** History: what the page's element looked like, what was parked, how the user answered and
      when, which approvals were taken for execution, what was sent to the page (naming the approval
      it acts on, if any), and which approved actions were carried out. */
  datatype Entry =
    | Inspects(key: Key, element: Element, origin: Origin)
    | Parks(p: Pending)
    | Answers(p: Pending, approve: bool, allowSite: bool, now: nat)
    | Approves(p: Pending, allowSite: bool)
    | Dispatches(key: Key, element: Element, origin: Origin, approval: Option<Pending>)
    | Executes(p: Pending, allowSite: bool)

  datatype Holder =
    | Free
    // an interaction, or a listing of the pending approvals when there is no key
    | Scanning(next: Option<Key>)
    | Pruning(next: Option<Key>, expired: seq<Pending>)
    | Looking(key: Key)
    | LookingPending(key: Key)
    | Inspecting(key: Key)
    | Deciding(key: Key, element: Element, origin: Origin)
    | Acting(key: Key, element: Element, origin: Origin)
    | Parking(key: Key, element: Element, origin: Origin)
    // a response
    | Retiring(p: Pending, outcome: Outcome)
    | Taking(p: Pending, allowSite: bool)
    | CheckingAccess(p: Pending, allowSite: bool)
    | CheckingPolicy(p: Pending, allowSite: bool)
    | CheckingSession(p: Pending, allowSite: bool)
    | Reinspecting(p: Pending, allowSite: bool)
    | Executing(p: Pending, allowSite: bool)
    | Recording(p: Pending, allowSite: bool, outcome: Outcome)
    // closing
    | CheckingTab(session: Id, tab: int)
    | ClosingTab(session: Id, tab: int)
    | ClosingSession(session: Id)

  datatype StartPhase = Opening | Confirming | Ended(success: bool)

  datatype Start = Start(caller: Caller, phase: StartPhase)

  datatype World = World(s: State, holder: Holder, starts: map<Id, Start>, used: set<Id>, log: seq<Entry>)

  const INITIAL_WORLD := World(INITIAL_STATE, Free, map[], {}, [])

  datatype Inspection = Inspection(element: Element, origin: Origin)

  datatype Step =
    // outside the lock
    | InsertSession(id: Id, caller: Caller)
    | OpenSession(id: Id, ok: bool)
    | ConfirmSession(id: Id)
    | AddTab(id: Id, tab: int)
    | SetGrants(grants: seq<Grant>)
    | SetAccessFlag(present: bool)
    | Shutdown
    // under the lock, in one critical section
    | SetEnabled(enabled: bool)
    | SetPolicy(policy: Policy)
    | RevokeRoutine(job: string)
    | ReleaseTab(tab: int)
    // taking the lock
    | Interact(key: Key)
    | ListApprovals
    | Respond(id: Id, approve: bool, allowSite: bool, now: nat)
    | CloseTab(id: Id, tab: int)
    | CloseSession(id: Id)
    // the holder's next section
    | Scan(expired: seq<Pending>, now: nat)
    | Expire
    | Look
    | LookPending
    | Inspect(found: Inspection)
    | Decide
    | Act
    | Park(id: Id, now: nat)
    | Retire
    | Take
    | CheckAccess
    | CheckPolicy
    | CheckSession
    | Reinspect(again: Option<Inspection>, stale: bool)
    | Execute(outcome: Outcome)
    | Record
    | CheckTab
    | FinishTab
    | FinishSession
    /** A failed await, transport, receipt or argument check: the call returns its error. */
    | Fail

  function ClassOf(c: Classifier, key: Key, element: Element): ActionClass {
    c(key.tool, key.value, element)
  }

  /** The points at which the code returns an error without another state change. */
  predicate CanFail(h: Holder) {
    h.Scanning? || h.Pruning? || h.Inspecting? || h.Parking? || h.Retiring? || h.CheckingTab? || h.ClosingTab?
    || h.ClosingSession?
  }

  predicate Snapshot(s: State, expired: seq<Pending>, now: nat) {
    && (forall p :: p in expired ==> p.id in s.pending && s.pending[p.id] == p && Expired(p, now))
    && (forall id :: id in s.pending && Expired(s.pending[id], now) ==> s.pending[id] in expired)
  }

  predicate Enabled(w: World, step: Step) {
    match step
    case InsertSession(id, _) => id !in w.starts
    case OpenSession(id, _) => id in w.starts && w.starts[id].phase.Opening?
    case ConfirmSession(id) => id in w.starts && w.starts[id].phase.Confirming?
    case AddTab(_, _) => true
    case SetGrants(_) => true
    case SetAccessFlag(_) => true
    case Shutdown => true
    case SetEnabled(_) => w.holder.Free?
    case SetPolicy(_) => w.holder.Free?
    case RevokeRoutine(_) => w.holder.Free?
    case ReleaseTab(_) => w.holder.Free?
    case Interact(_) => w.holder.Free?
    case ListApprovals => w.holder.Free?
    case Respond(_, _, _, _) => w.holder.Free?
    case CloseTab(_, _) => w.holder.Free?
    case CloseSession(_) => w.holder.Free?
    case Scan(expired, now) => w.holder.Scanning? && Snapshot(w.s, expired, now)
    case Expire => w.holder.Pruning?
    case Look => w.holder.Looking?
    case LookPending => w.holder.LookingPending?
    case Inspect(_) => w.holder.Inspecting?
    case Decide => w.holder.Deciding?
    case Act => w.holder.Acting?
    case Park(id, _) => w.holder.Parking? && id !in w.used
    case Retire => w.holder.Retiring?
    case Take => w.holder.Taking?
    case CheckAccess => w.holder.CheckingAccess?
    case CheckPolicy => w.holder.CheckingPolicy?
    case CheckSession => w.holder.CheckingSession?
    case Reinspect(_, _) => w.holder.Reinspecting?
    case Execute(outcome) => w.holder.Executing? && !outcome.Declined?
    case Record => w.holder.Recording?
    case CheckTab => w.holder.CheckingTab?
    case FinishTab => w.holder.ClosingTab?
    case FinishSession => w.holder.ClosingSession?
    case Fail => CanFail(w.holder)
  }

  // ----- Steps outside the lock -----

  function WithPhase(w: World, id: Id, phase: StartPhase): World
    requires id in w.starts
  {
    w.(starts := w.starts[id := w.starts[id].(phase := phase)])
  }

  function ApplyInsertSession(w: World, id: Id, caller: Caller): World {
    w.(s := SessionInserted(w.s, id, caller),
       starts := w.starts[id := Start(caller, if Admitted(w.s, caller) then Opening else Ended(false))])
  }

  function ApplyOpenSession(w: World, id: Id, ok: bool): World
    requires id in w.starts
  {
    if ok then WithPhase(w, id, Confirming)
    else WithPhase(w, id, Ended(false)).(s := SessionRemoved(w.s, id))
  }

  /** The final ownership check. */
  function ApplyConfirm(w: World, id: Id): World
    requires id in w.starts
  {
    var caller := w.starts[id].caller;
    WithPhase(w, id, Ended(Admitted(w.s, caller) && OwnsSession(w.s, caller, id)))
  }

  // ----- Steps of an interaction -----

  function ApplyInteract(w: World, key: Key): World {
    if Admitted(w.s, Task) && OwnsSession(w.s, Task, key.session) then w.(holder := Scanning(Some(key))) else w
  }

  function ApplyExpire(w: World): World
    requires w.holder.Pruning?
  {
    w.(s := AllExpired(w.s, w.holder.expired),
       holder := if w.holder.next.Some? then Looking(w.holder.next.value) else Free)
  }

  /** A resolved key replays its outcome; nothing is sent. */
  function ApplyLook(w: World): World
    requires w.holder.Looking?
  {
    w.(holder := if w.holder.key in w.s.resolved then Free else LookingPending(w.holder.key))
  }

  function ApplyLookPending(w: World): World
    requires w.holder.LookingPending?
  {
    w.(holder := if w.holder.key in w.s.byAction then Free else Inspecting(w.holder.key))
  }

  function ApplyInspect(c: Classifier, w: World, found: Inspection): World
    requires w.holder.Inspecting?
  {
    var key := w.holder.key;
    w.(holder := match ClassOf(c, key, found.element)
         case SensitiveField => Free
         case RoutineAction => Acting(key, found.element, found.origin)
         case Consequential => Deciding(key, found.element, found.origin),
       log := w.log + [Inspects(key, found.element, found.origin)])
  }

  function ApplyDecide(w: World): World
    requires w.holder.Deciding?
  {
    var h := w.holder;
    w.(holder := if h.key.session in w.s.sessions && h.origin in w.s.sessions[h.key.session].allowed
                 then Acting(h.key, h.element, h.origin)
                 else Parking(h.key, h.element, h.origin))
  }

  function ApplyAct(w: World): World
    requires w.holder.Acting?
  {
    w.(holder := Free, log := w.log + [Dispatches(w.holder.key, w.holder.element, w.holder.origin, None)])
  }

  function ApplyPark(w: World, id: Id, now: nat): World
    requires w.holder.Parking?
  {
    var p := Pending(id, w.holder.key, w.holder.origin, w.holder.element, now);
    w.(s := Parked(w.s, p), holder := Free, used := w.used + {id}, log := w.log + [Parks(p)])
  }

  // ----- Steps of a response -----

  function ApplyRespond(w: World, id: Id, approve: bool, allowSite: bool, now: nat): World {
    if id !in w.s.pending then w
    else
      var p := w.s.pending[id];
      w.(holder := if Expired(p, now) then Retiring(p, NotExecuted)
                   else if approve then Taking(p, allowSite)
                   else Retiring(p, Declined),
         log := w.log + [Answers(p, approve, allowSite, now)])
  }

  function ApplyRetire(w: World): World
    requires w.holder.Retiring?
  {
    w.(s := Resolved(w.s, w.holder.p, w.holder.outcome), holder := Free)
  }

  function ApplyTake(w: World): World
    requires w.holder.Taking?
  {
    var h := w.holder;
    w.(s := Taken(w.s, h.p), holder := CheckingAccess(h.p, h.allowSite), log := w.log + [Approves(h.p, h.allowSite)])
  }

  function ApplyCheckSession(w: World): World
    requires w.holder.CheckingSession?
  {
    var h := w.holder;
    var id := h.p.key.session;
    w.(holder := if id in w.s.sessions && w.s.sessions[id].kind.Attended? && h.p.key.tab in w.s.sessions[id].tabs
                 then Reinspecting(h.p, h.allowSite) else Free)
  }

  function ApplyReinspect(c: Classifier, w: World, again: Option<Inspection>, stale: bool): World
    requires w.holder.Reinspecting?
  {
    var h := w.holder;
    w.(holder :=
       if again.None? then Recording(h.p, h.allowSite, if stale then Stale else NotExecuted)
       else if again.value != Inspection(h.p.element, h.p.origin)
               || !ClassOf(c, h.p.key, again.value.element).Consequential?
       then Recording(h.p, h.allowSite, Stale)
       else Executing(h.p, h.allowSite),
       log := if again.None? then w.log
              else w.log + [Inspects(h.p.key, again.value.element, again.value.origin)])
  }

  function ApplyExecute(w: World, outcome: Outcome): World
    requires w.holder.Executing?
  {
    var h := w.holder;
    w.(holder := Recording(h.p, h.allowSite, outcome),
       log := w.log + [Dispatches(h.p.key, h.p.element, h.p.origin, Some(h.p))])
  }

  function ApplyRecord(w: World): World
    requires w.holder.Recording?
  {
    var h := w.holder;
    w.(s := OutcomeRecorded(w.s, h.p, h.allowSite, h.outcome),
       holder := Free,
       log := if h.outcome.Executed? then w.log + [Executes(h.p, h.allowSite)] else w.log)
  }

  function ApplyCloseTab(w: World, id: Id, tab: int): World {
    if Admitted(w.s, Task) && OwnsSession(w.s, Task, id) then w.(holder := CheckingTab(id, tab)) else w
  }

  function ApplyCheckTab(w: World): World
    requires w.holder.CheckingTab?
  {
    var h := w.holder;
    w.(holder := if h.session in w.s.sessions && h.tab in w.s.sessions[h.session].tabs
                 then ClosingTab(h.session, h.tab) else Free)
  }

  function Apply(c: Classifier, w: World, step: Step): World
    requires Enabled(w, step)
  {
    match step
    case InsertSession(id, caller) => ApplyInsertSession(w, id, caller)
    case OpenSession(id, ok) => ApplyOpenSession(w, id, ok)
    case ConfirmSession(id) => ApplyConfirm(w, id)
    case AddTab(id, tab) => w.(s := TabInserted(w.s, id, tab))
    case SetGrants(grants) => w.(s := w.s.(grants := grants))
    case SetAccessFlag(present) => w.(s := w.s.(accessFlag := present))
    case Shutdown => w.(s := Drained(w.s))
    case SetEnabled(enabled) => w.(s := EnabledSet(w.s, enabled))
    case SetPolicy(policy) => w.(s := PolicySet(w.s, policy))
    case RevokeRoutine(job) => w.(s := RoutineRevoked(w.s, job))
    case ReleaseTab(tab) => w.(s := TabReleased(w.s, tab))
    case Interact(key) => ApplyInteract(w, key)
    case ListApprovals => w.(holder := Scanning(None))
    case Respond(id, approve, allowSite, now) => ApplyRespond(w, id, approve, allowSite, now)
    case CloseTab(id, tab) => ApplyCloseTab(w, id, tab)
    case CloseSession(id) => w.(holder := ClosingSession(id))
    case Scan(expired, now) => w.(holder := Pruning(w.holder.next, expired))
    case Expire => ApplyExpire(w)
    case Look => ApplyLook(w)
    case LookPending => ApplyLookPending(w)
    case Inspect(found) => ApplyInspect(c, w, found)
    case Decide => ApplyDecide(w)
    case Act => ApplyAct(w)
    case Park(id, now) => ApplyPark(w, id, now)
    case Retire => ApplyRetire(w)
    case Take => ApplyTake(w)
    case CheckAccess =>
      w.(holder := if AccessEnabled(w.s, Task) then CheckingPolicy(w.holder.p, w.holder.allowSite) else Free)
    case CheckPolicy =>
      w.(holder := if w.s.policy.attended then CheckingSession(w.holder.p, w.holder.allowSite) else Free)
    case CheckSession => ApplyCheckSession(w)
    case Reinspect(again, stale) => ApplyReinspect(c, w, again, stale)
    case Execute(outcome) => ApplyExecute(w, outcome)
    case Record => ApplyRecord(w)
    case CheckTab => ApplyCheckTab(w)
    case FinishTab => w.(s := TabClosed(w.s, w.holder.session, w.holder.tab), holder := Free)
    case FinishSession => w.(s := SessionClosed(w.s, w.holder.session), holder := Free)
    case Fail => w.(holder := Free)
  }

  ghost predicate IsRun(c: Classifier, ws: seq<World>, steps: seq<Step>) {
    && |ws| == |steps| + 1
    && ws[0] == INITIAL_WORLD
    && forall i :: 0 <= i < |steps| ==> Enabled(ws[i], steps[i]) && ws[i + 1] == Apply(c, ws[i], steps[i])
  }

  // ----- Legal histories -----

  /** An executed approval that also allowed its site. */
  ghost predicate SiteGranted(before: seq<Entry>, session: Id, origin: Origin) {
    exists p :: Executes(p, true) in before && p.key.session == session && p.origin == origin
  }

  predicate ActsOn(e: Entry, p: Pending) {
    e.Dispatches? && e.approval == Some(p)
  }

  /** The user approved within ten minutes. */
  ghost predicate UserApproved(before: seq<Entry>, p: Pending, allowSite: bool) {
    exists now: nat :: Answers(p, true, allowSite, now) in before && now < p.requestedAt + 600_000
  }

  ghost predicate Approved(before: seq<Entry>, p: Pending) {
    exists allowSite :: Approves(p, allowSite) in before
  }

  /** The last thing that happened was this inspection. */
  predicate JustInspected(before: seq<Entry>, key: Key, element: Element, origin: Origin) {
    before != [] && before[|before| - 1] == Inspects(key, element, origin)
  }

  /** What must have happened before an entry. */
  ghost predicate Legal(c: Classifier, before: seq<Entry>, e: Entry) {
    match e
    case Inspects(_, _, _) => true
    case Parks(p) =>
      && JustInspected(before, p.key, p.element, p.origin)
      && ClassOf(c, p.key, p.element).Consequential?
      && forall q :: Parks(q) in before ==> q.id != p.id
    case Answers(p, _, _, _) => Parks(p) in before
    case Approves(p, allowSite) => Parks(p) in before && UserApproved(before, p, allowSite) && !Approved(before, p)
    case Executes(p, allowSite) =>
      Approves(p, allowSite) in before && Dispatches(p.key, p.element, p.origin, Some(p)) in before
    case Dispatches(key, element, origin, None) =>
      && JustInspected(before, key, element, origin)
      && (ClassOf(c, key, element).RoutineAction?
          || (ClassOf(c, key, element).Consequential? && SiteGranted(before, key.session, origin)))
    case Dispatches(key, element, origin, Some(p)) =>
      && JustInspected(before, key, element, origin)
      && ClassOf(c, key, element).Consequential?
      && p.key == key && p.element == element && p.origin == origin
      && Approved(before, p)
      && forall e :: e in before ==> !ActsOn(e, p)
  }

  ghost predicate LegalLog(c: Classifier, log: seq<Entry>) {
    forall i :: 0 <= i < |log| ==> Legal(c, log[..i], log[i])
  }

  lemma LegalAppend(c: Classifier, log: seq<Entry>, e: Entry)
    requires LegalLog(c, log) && Legal(c, log, e)
    ensures LegalLog(c, log + [e])
  {
    hide Legal;
    var next := log + [e];
    forall i | 0 <= i < |next| ensures Legal(c, next[..i], next[i]) {
      if i < |log| {
        assert next[..i] == log[..i];
      } else {
        assert next[..i] == log;
      }
    }
  }

  // ----- The invariant -----

  /** The two approval maps are mutually inverse and no action is both pending and resolved. */
  predicate MapsCoherent(s: State) {
    && (forall id :: id in s.pending ==>
          s.pending[id].id == id && s.pending[id].key in s.byAction && s.byAction[s.pending[id].key] == id)
    && (forall k :: k in s.byAction ==> s.byAction[k] in s.pending && s.pending[s.byAction[k]].key == k)
    && (forall k :: k in s.byAction ==> k !in s.resolved)
  }

  predicate TabsDisjoint(s: State) {
    forall i, j :: i in s.sessions && j in s.sessions && i != j ==> s.sessions[i].tabs !! s.sessions[j].tabs
  }

  /** No attended session while access is blocked, none of a kind the policy disables. */
  predicate Revoked(s: State) {
    && (s.blocked ==> forall id :: id in s.sessions ==> s.sessions[id].routine.Some?)
    && (forall id :: id in s.sessions ==> PolicyAllows(s.policy, s.sessions[id].kind))
  }

  /** Every session was inserted by a start, for that start's caller. */
  predicate SessionsStarted(w: World) {
    forall id :: id in w.s.sessions ==> id in w.starts && OwnsSession(w.s, w.starts[id].caller, id)
  }

  predicate SessionsInv(w: World) {
    TabsDisjoint(w.s) && Revoked(w.s) && SessionsStarted(w)
  }

  /** A key acts on an attended session, as long as the session lives. */
  predicate AttendedKey(w: World, k: Key) {
    k.session in w.starts && (k.session in w.s.sessions ==> w.s.sessions[k.session].routine.None?)
  }

  predicate KeysInv(w: World) {
    && (forall k :: k in w.s.byAction ==> AttendedKey(w, k))
    && (forall k :: k in w.s.resolved ==> AttendedKey(w, k))
  }

  ghost predicate GrantsInv(w: World) {
    forall id, o :: id in w.s.sessions && o in w.s.sessions[id].allowed ==> SiteGranted(w.log, id, o)
  }

  ghost predicate PendingInv(w: World) {
    && (forall id :: id in w.s.pending ==> Parks(w.s.pending[id]) in w.log && !Approved(w.log, w.s.pending[id]))
    && (forall p :: Parks(p) in w.log ==> p.id in w.used)
  }

  /** What the maps hold under an approval's id and key is that approval. */
  predicate Fits(s: State, p: Pending) {
    && (p.id in s.pending ==> s.pending[p.id] == p)
    && (p.key in s.byAction ==> s.byAction[p.key] == p.id)
    && p.key !in s.resolved
  }

  predicate Untouched(s: State, k: Key) {
    k !in s.byAction && k !in s.resolved
  }

  ghost predicate InHand(w: World, p: Pending, allowSite: bool) {
    && Untouched(w.s, p.key)
    && p.id !in w.s.pending && p.id in w.used
    && Approves(p, allowSite) in w.log
    && AttendedKey(w, p.key)
  }

  ghost predicate Undispatched(w: World, p: Pending) {
    forall e :: e in w.log ==> !ActsOn(e, p)
  }

  ghost predicate HolderInv(c: Classifier, w: World) {
    match w.holder
    case Free => true
    case Scanning(next) => next.Some? ==> AttendedKey(w, next.value)
    case Pruning(next, expired) =>
      && (next.Some? ==> AttendedKey(w, next.value))
      && forall p :: p in expired ==> Fits(w.s, p) && AttendedKey(w, p.key)
    case Looking(k) => AttendedKey(w, k)
    case LookingPending(k) => AttendedKey(w, k) && k !in w.s.resolved
    case Inspecting(k) => AttendedKey(w, k) && Untouched(w.s, k)
    case Deciding(k, e, o) =>
      AttendedKey(w, k) && Untouched(w.s, k) && ClassOf(c, k, e).Consequential? && JustInspected(w.log, k, e, o)
    case Acting(k, e, o) =>
      && AttendedKey(w, k) && Untouched(w.s, k) && JustInspected(w.log, k, e, o)
      && (ClassOf(c, k, e).RoutineAction?
          || (ClassOf(c, k, e).Consequential? && SiteGranted(w.log, k.session, o)))
    case Parking(k, e, o) =>
      AttendedKey(w, k) && Untouched(w.s, k) && ClassOf(c, k, e).Consequential? && JustInspected(w.log, k, e, o)
    case Retiring(p, _) => Fits(w.s, p) && AttendedKey(w, p.key) && p.id in w.used
    case Taking(p, a) =>
      && Fits(w.s, p) && AttendedKey(w, p.key) && p.id in w.used
      && Parks(p) in w.log && UserApproved(w.log, p, a) && !Approved(w.log, p) && Undispatched(w, p)
    case CheckingAccess(p, a) => InHand(w, p, a) && Undispatched(w, p)
    case CheckingPolicy(p, a) => InHand(w, p, a) && Undispatched(w, p)
    case CheckingSession(p, a) => InHand(w, p, a) && Undispatched(w, p)
    case Reinspecting(p, a) => InHand(w, p, a) && Undispatched(w, p)
    case Executing(p, a) =>
      && InHand(w, p, a) && Undispatched(w, p)
      && ClassOf(c, p.key, p.element).Consequential? && JustInspected(w.log, p.key, p.element, p.origin)
    case Recording(p, a, outcome) =>
      && InHand(w, p, a)
      && (outcome.Executed? ==> Dispatches(p.key, p.element, p.origin, Some(p)) in w.log)
    case CheckingTab(_, _) => true
    case ClosingTab(_, _) => true
    case ClosingSession(_) => true
  }

  ghost predicate Inv(c: Classifier, w: World) {
    && MapsCoherent(w.s)
    && SessionsInv(w)
    && KeysInv(w)
    && GrantsInv(w)
    && PendingInv(w)
    && LegalLog(c, w.log)
    && HolderInv(c, w)
  }

  lemma InvInitial(c: Classifier)
    ensures Inv(c, INITIAL_WORLD)
  {
  }

  // ----- Steps that only take something away -----

  predicate SessionShrinks(a: Session, b: Session) {
    b.kind == a.kind && b.routine == a.routine && b.allowed == a.allowed && b.tabs <= a.tabs
  }

  predicate Shrinks(s: State, t: State) {
    && (forall id :: id in t.sessions ==> id in s.sessions && SessionShrinks(s.sessions[id], t.sessions[id]))
    && (forall id :: id in t.pending ==> id in s.pending && t.pending[id] == s.pending[id])
    && (forall k :: k in t.byAction ==> k in s.byAction && t.byAction[k] == s.byAction[k])
    && (forall k :: k in t.resolved ==> k in s.resolved)
  }

  lemma HolderShrinks(c: Classifier, w: World, t: State)
    requires HolderInv(c, w) && Shrinks(w.s, t)
    ensures HolderInv(c, w.(s := t))
  {
    hide ClassOf;
    match w.holder {
      case Pruning(next, expired) =>
        forall p | p in expired ensures Fits(t, p) && AttendedKey(w.(s := t), p.key) {
          assert Fits(w.s, p);
        }
      case _ =>
    }
  }

  lemma SessionsShrink(w: World, t: State)
    requires SessionsInv(w) && KeysInv(w) && Shrinks(w.s, t) && Revoked(t)
    ensures SessionsInv(w.(s := t)) && KeysInv(w.(s := t))
  {
    hide Revoked;
  }

  lemma HistoryShrinks(w: World, t: State)
    requires GrantsInv(w) && PendingInv(w) && Shrinks(w.s, t)
    ensures GrantsInv(w.(s := t)) && PendingInv(w.(s := t))
  {
    hide SiteGranted, Approved;
  }

  lemma InvShrink(c: Classifier, w: World, t: State)
    requires Inv(c, w) && Shrinks(w.s, t) && MapsCoherent(t) && Revoked(t)
    ensures Inv(c, w.(s := t))
  {
    hide HolderInv, LegalLog, MapsCoherent, Revoked, SessionsInv, KeysInv, GrantsInv, PendingInv, Shrinks;
    HolderShrinks(c, w, t);
    SessionsShrink(w, t);
    HistoryShrinks(w, t);
  }

  lemma ShrunkRevoked(s: State, t: State)
    requires Revoked(s) && Shrinks(s, t) && t.blocked == s.blocked && t.policy == s.policy
    ensures Revoked(t)
  {
  }

  lemma ForgottenShrinks(s: State, m: Match)
    requires MapsCoherent(s)
    ensures Shrinks(s, Forgotten(s, m)) && MapsCoherent(Forgotten(s, m))
  {
    hide Matches;
  }

  lemma FewerSessionsForgotten(s: State, sessions: map<Id, Session>, m: Match)
    requires MapsCoherent(s) && Revoked(s)
    requires forall id :: id in sessions ==> id in s.sessions && SessionShrinks(s.sessions[id], sessions[id])
    ensures var t := Forgotten(s.(sessions := sessions), m);
            Shrinks(s, t) && MapsCoherent(t) && Revoked(t)
  {
    hide MatchedIds, KeysOf, Matches;
    ForgottenShrinks(s.(sessions := sessions), m);
    ShrunkRevoked(s, Forgotten(s.(sessions := sessions), m));
  }

  lemma StateParts(c: Classifier, w: World)
    requires Inv(c, w)
    ensures MapsCoherent(w.s) && SessionsInv(w)
  {
  }

  lemma SessionsShrinkForgotten(c: Classifier, w: World, sessions: map<Id, Session>, m: Match)
    requires Inv(c, w)
    requires forall id :: id in sessions ==> id in w.s.sessions && SessionShrinks(w.s.sessions[id], sessions[id])
    ensures Inv(c, w.(s := Forgotten(w.s.(sessions := sessions), m)))
  {
    hide Forgotten, Inv, MapsCoherent, Revoked, Shrinks, SessionShrinks;
    StateParts(c, w);
    FewerSessionsForgotten(w.s, sessions, m);
    InvShrink(c, w, Forgotten(w.s.(sessions := sessions), m));
  }

  lemma InvSetEnabled(c: Classifier, w: World, enabled: bool)
    requires Inv(c, w)
    ensures Inv(c, w.(s := EnabledSet(w.s, enabled)))
  {
    hide Inv;
    StateParts(c, w);
    InvShrink(c, w, EnabledSet(w.s, enabled));
  }

  lemma InvSetPolicy(c: Classifier, w: World, policy: Policy)
    requires Inv(c, w)
    ensures Inv(c, w.(s := PolicySet(w.s, policy)))
  {
    hide Inv;
    StateParts(c, w);
    InvShrink(c, w, PolicySet(w.s, policy));
  }

  lemma InvRevokeRoutine(c: Classifier, w: World, job: string)
    requires Inv(c, w)
    ensures Inv(c, w.(s := RoutineRevoked(w.s, job)))
  {
    hide Inv;
    StateParts(c, w);
    InvShrink(c, w, RoutineRevoked(w.s, job));
  }

  lemma InvShutdown(c: Classifier, w: World)
    requires Inv(c, w)
    ensures Inv(c, w.(s := Drained(w.s)))
  {
    hide Inv;
    StateParts(c, w);
    InvShrink(c, w, Drained(w.s));
  }

  lemma InvSessionRemoved(c: Classifier, w: World, id: Id)
    requires Inv(c, w)
    ensures Inv(c, w.(s := SessionRemoved(w.s, id)))
  {
    hide Inv;
    StateParts(c, w);
    InvShrink(c, w, SessionRemoved(w.s, id));
  }

  lemma InvReleaseTab(c: Classifier, w: World, tab: int)
    requires Inv(c, w)
    ensures Inv(c, w.(s := TabReleased(w.s, tab)))
  {
    hide Inv, Forgotten;
    SessionsShrinkForgotten(c, w, WithoutTab(w.s.sessions, Holders(w.s, tab), tab), Match(Holders(w.s, tab), Some(tab)));
  }

  lemma InvTabClosed(c: Classifier, w: World, id: Id, tab: int)
    requires Inv(c, w)
    ensures Inv(c, w.(s := TabClosed(w.s, id, tab)))
  {
    hide Inv, Forgotten;
    SessionsShrinkForgotten(c, w, WithoutTab(w.s.sessions, {id}, tab), Match({id}, Some(tab)));
  }

  lemma InvSessionClosed(c: Classifier, w: World, id: Id)
    requires Inv(c, w)
    ensures Inv(c, w.(s := SessionClosed(w.s, id)))
  {
    hide Inv, Forgotten;
    SessionsShrinkForgotten(c, w, w.s.sessions - {id}, Match({id}, None));
  }

  // ----- Other steps outside the lock -----

  lemma HolderStarts(c: Classifier, w: World, v: World)
    requires HolderInv(c, w)
    requires v.holder == w.holder && v.log == w.log && v.used == w.used
    requires v.s.pending == w.s.pending && v.s.byAction == w.s.byAction && v.s.resolved == w.s.resolved
    requires forall k :: AttendedKey(w, k) ==> AttendedKey(v, k)
    ensures HolderInv(c, v)
  {
    hide ClassOf, AttendedKey;
    match w.holder {
      case Pruning(next, expired) =>
        forall p | p in expired ensures Fits(v.s, p) && AttendedKey(v, p.key) {
          assert Fits(w.s, p);
        }
      case _ =>
    }
  }

  lemma GrantsOfSessions(w: World, v: World)
    requires GrantsInv(w) && v.log == w.log
    requires forall id, o :: id in v.s.sessions && o in v.s.sessions[id].allowed ==>
               id in w.s.sessions && o in w.s.sessions[id].allowed
    ensures GrantsInv(v)
  {
    hide SiteGranted;
  }

  lemma PendingOfSessions(w: World, v: World)
    requires PendingInv(w) && v.log == w.log && v.used == w.used && v.s.pending == w.s.pending
    ensures PendingInv(v)
  {
    hide Approved;
  }

  lemma MapsOfSessions(w: World, v: World)
    requires MapsCoherent(w.s) && KeysInv(w)
    requires v.s.pending == w.s.pending && v.s.byAction == w.s.byAction && v.s.resolved == w.s.resolved
    requires forall k :: AttendedKey(w, k) ==> AttendedKey(v, k)
    ensures MapsCoherent(v.s) && KeysInv(v)
  {
    hide AttendedKey;
  }

  /** Steps that change sessions and starts only. */
  lemma InvSessions(c: Classifier, w: World, v: World)
    requires Inv(c, w) && SessionsInv(v)
    requires v.holder == w.holder && v.log == w.log && v.used == w.used
    requires v.s.pending == w.s.pending && v.s.byAction == w.s.byAction && v.s.resolved == w.s.resolved
    requires forall k :: AttendedKey(w, k) ==> AttendedKey(v, k)
    requires forall id, o :: id in v.s.sessions && o in v.s.sessions[id].allowed ==>
               id in w.s.sessions && o in w.s.sessions[id].allowed
    ensures Inv(c, v)
  {
    hide HolderInv, LegalLog, AttendedKey, SessionsInv, MapsCoherent, KeysInv, GrantsInv, PendingInv;
    HolderStarts(c, w, v);
    MapsOfSessions(w, v);
    GrantsOfSessions(w, v);
    PendingOfSessions(w, v);
  }

  lemma InvInsertSession(c: Classifier, w: World, id: Id, caller: Caller)
    requires Inv(c, w) && id !in w.starts
    ensures Inv(c, ApplyInsertSession(w, id, caller))
  {
    hide Inv;
    StateParts(c, w);
    InvSessions(c, w, ApplyInsertSession(w, id, caller));
  }

  lemma InvPhase(c: Classifier, w: World, id: Id, phase: StartPhase)
    requires Inv(c, w) && id in w.starts
    ensures Inv(c, WithPhase(w, id, phase))
  {
    hide Inv;
    StateParts(c, w);
    InvSessions(c, w, WithPhase(w, id, phase));
  }

  lemma InvOpenSession(c: Classifier, w: World, id: Id, ok: bool)
    requires Inv(c, w) && id in w.starts
    ensures Inv(c, ApplyOpenSession(w, id, ok))
  {
    hide Inv;
    if ok {
      InvPhase(c, w, id, Confirming);
    } else {
      InvPhase(c, w, id, Ended(false));
      InvSessionRemoved(c, WithPhase(w, id, Ended(false)), id);
    }
  }

  lemma InvAddTab(c: Classifier, w: World, id: Id, tab: int)
    requires Inv(c, w)
    ensures Inv(c, w.(s := TabInserted(w.s, id, tab)))
  {
    hide Inv;
    StateParts(c, w);
    if !TabTaken(w.s, tab) && id in w.s.sessions {
      assert forall other :: other in w.s.sessions ==> tab !in w.s.sessions[other].tabs;
    }
    InvSessions(c, w, w.(s := TabInserted(w.s, id, tab)));
  }

  lemma InvSettings(c: Classifier, w: World, grants: seq<Grant>, accessFlag: bool)
    requires Inv(c, w)
    ensures Inv(c, w.(s := w.s.(grants := grants, accessFlag := accessFlag)))
  {
    hide Inv;
    StateParts(c, w);
    InvSessions(c, w, w.(s := w.s.(grants := grants, accessFlag := accessFlag)));
  }

  // ----- The holder's steps -----

  /** Steps that only move the holder. */
  lemma InvHolder(c: Classifier, w: World, h: Holder)
    requires Inv(c, w) && HolderInv(c, w.(holder := h))
    ensures Inv(c, w.(holder := h))
  {
    hide HolderInv, LegalLog, MapsCoherent, SiteGranted, Approved;
  }

  lemma ResolvedKeepsMaps(s: State, p: Pending, outcome: Outcome)
    requires MapsCoherent(s)
    requires p.id in s.pending ==> s.pending[p.id] == p
    requires p.key in s.byAction ==> s.byAction[p.key] == p.id
    ensures MapsCoherent(Taken(s, p)) && MapsCoherent(Resolved(s, p, outcome))
  {
  }

  /** What expiring or retiring approvals may do to the state. */
  predicate Retires(s: State, t: State, keys: set<Key>) {
    && t == s.(pending := t.pending, byAction := t.byAction, resolved := t.resolved)
    && (forall id :: id in t.pending ==> id in s.pending && t.pending[id] == s.pending[id])
    && (forall k :: k in t.byAction ==> k in s.byAction && t.byAction[k] == s.byAction[k])
    && t.resolved.Keys == s.resolved.Keys + keys
    && forall k :: k in s.resolved && k !in keys ==> t.resolved[k] == s.resolved[k]
  }

  function ExpiredKeys(expired: seq<Pending>): set<Key> {
    set p | p in expired :: p.key
  }

  lemma ResolvedRetires(s: State, t: State, keys: set<Key>, p: Pending, outcome: Outcome)
    requires Retires(s, t, keys) && MapsCoherent(t) && Fits(s, p)
    ensures Retires(s, Resolved(t, p, outcome), keys + {p.key}) && MapsCoherent(Resolved(t, p, outcome))
  {
    ResolvedKeepsMaps(t, p, outcome);
    hide MapsCoherent;
  }

  lemma {:induction false} AllExpiredRetires(s: State, expired: seq<Pending>)
    requires MapsCoherent(s) && forall p :: p in expired ==> Fits(s, p)
    ensures MapsCoherent(AllExpired(s, expired)) && Retires(s, AllExpired(s, expired), ExpiredKeys(expired))
  {
    if expired != [] {
      hide MapsCoherent, Retires, Fits, Resolved;
      var n := |expired| - 1;
      var init, last := expired[..n], expired[n];
      assert expired == init + [last];
      assert forall p :: p in init ==> p in expired;
      AllExpiredRetires(s, init);
      assert last in expired && Fits(s, last);
      assert ExpiredKeys(expired) == ExpiredKeys(init) + {last.key};
      ResolvedRetires(s, AllExpired(s, init), ExpiredKeys(init), last, NotExecuted);
    }
  }

  lemma InvRetires(c: Classifier, w: World, t: State, keys: set<Key>)
    requires Inv(c, w) && MapsCoherent(t) && Retires(w.s, t, keys)
    requires forall k :: k in keys ==> AttendedKey(w, k)
    ensures Inv(c, w.(s := t, holder := Free))
  {
    hide LegalLog, MapsCoherent, SiteGranted, Approved;
  }

  lemma ExpireReady(c: Classifier, w: World)
    requires w.holder.Pruning? && HolderInv(c, w) && MapsCoherent(w.s)
    ensures var t := AllExpired(w.s, w.holder.expired);
            && MapsCoherent(t) && Retires(w.s, t, ExpiredKeys(w.holder.expired))
            && (forall k :: k in ExpiredKeys(w.holder.expired) ==> AttendedKey(w, k))
            && (w.holder.next.Some? ==>
                  HolderInv(c, w.(s := t, holder := Looking(w.holder.next.value))))
  {
    AllExpiredRetires(w.s, w.holder.expired);
    hide MapsCoherent, AllExpired, Fits;
  }

  lemma InvExpire(c: Classifier, w: World)
    requires Inv(c, w) && w.holder.Pruning?
    ensures Inv(c, ApplyExpire(w))
  {
    hide HolderInv, MapsCoherent, SessionsInv, KeysInv, GrantsInv, PendingInv, LegalLog, AllExpired, AttendedKey, Retires,
      ExpiredKeys;
    var t := AllExpired(w.s, w.holder.expired);
    ExpireReady(c, w);
    hide Inv;
    InvRetires(c, w, t, ExpiredKeys(w.holder.expired));
    if w.holder.next.Some? {
      InvHolder(c, w.(s := t, holder := Free), Looking(w.holder.next.value));
    }
  }

  lemma InvRetire(c: Classifier, w: World)
    requires Inv(c, w) && w.holder.Retiring?
    ensures Inv(c, ApplyRetire(w))
  {
    hide LegalLog, MapsCoherent, SessionsInv, GrantsInv, KeysInv, PendingInv;
    var p := w.holder.p;
    ResolvedKeepsMaps(w.s, p, w.holder.outcome);
    InvRetires(c, w, Resolved(w.s, p, w.holder.outcome), {p.key});
  }

  // ----- The holder's steps that write history -----

  lemma LogGrows(log: seq<Entry>, e: Entry)
    ensures forall x :: x in log + [e] <==> x in log || x == e
    ensures forall id, o :: SiteGranted(log, id, o) ==> SiteGranted(log + [e], id, o)
    ensures forall q :: Approved(log + [e], q) <==> Approved(log, q) || (e.Approves? && e.p == q)
  {
    forall id, o | SiteGranted(log, id, o) ensures SiteGranted(log + [e], id, o) {
      var p :| Executes(p, true) in log && p.key.session == id && p.origin == o;
      assert Executes(p, true) in log + [e];
    }
    forall q | Approved(log, q) ensures Approved(log + [e], q) {
      var a :| Approves(q, a) in log;
      assert Approves(q, a) in log + [e];
    }
    forall q | e.Approves? && e.p == q ensures Approved(log + [e], q) {
      assert Approves(q, e.allowSite) in log + [e];
    }
  }

  /** Approved implies parked before. */
  lemma ApprovedWasParked(c: Classifier, log: seq<Entry>, p: Pending)
    requires LegalLog(c, log) && Approved(log, p)
    ensures Parks(p) in log
  {
    var a :| Approves(p, a) in log;
    var i :| 0 <= i < |log| && log[i] == Approves(p, a);
    assert Legal(c, log[..i], log[i]);
  }

  lemma DispatchedWasApproved(c: Classifier, log: seq<Entry>, p: Pending, e: Entry)
    requires LegalLog(c, log) && e in log && ActsOn(e, p)
    ensures Approved(log, p)
  {
    var i :| 0 <= i < |log| && log[i] == e;
    assert Legal(c, log[..i], log[i]);
    var a :| Approves(p, a) in log[..i];
    assert Approves(p, a) in log;
  }

  /** An approval taken from the pending ones has not acted yet. */
  lemma PendingIsFresh(c: Classifier, w: World, id: Id)
    requires Inv(c, w) && id in w.s.pending
    ensures var p := w.s.pending[id];
            Fits(w.s, p) && p.id in w.used && Undispatched(w, p) && AttendedKey(w, p.key) && Parks(p) in w.log
            && !Approved(w.log, p)
  {
    var p := w.s.pending[id];
    hide Legal;
    forall e | e in w.log ensures !ActsOn(e, p) {
      if ActsOn(e, p) {
        DispatchedWasApproved(c, w.log, p, e);
        assert false;
      }
    }
  }

  lemma ParkedKeepsMaps(s: State, p: Pending)
    requires MapsCoherent(s) && p.id !in s.pending && Untouched(s, p.key)
    ensures MapsCoherent(Parked(s, p))
  {
  }

  lemma GrantsGrow(w: World, e: Entry, v: World)
    requires GrantsInv(w) && v.s.sessions == w.s.sessions && v.log == w.log + [e]
    ensures GrantsInv(v)
  {
    LogGrows(w.log, e);
    hide SiteGranted;
  }

  lemma ParkPending(w: World, p: Pending, v: World)
    requires PendingInv(w) && p.id !in w.used && !Approved(w.log, p)
    requires v.s == Parked(w.s, p) && v.used == w.used + {p.id} && v.log == w.log + [Parks(p)]
    ensures PendingInv(v)
  {
    LogGrows(w.log, Parks(p));
    hide SiteGranted, Approved;
  }

  lemma ParkSessions(w: World, p: Pending, v: World)
    requires SessionsInv(w) && KeysInv(w) && AttendedKey(w, p.key)
    requires v.s == Parked(w.s, p) && v.starts == w.starts
    ensures SessionsInv(v) && KeysInv(v)
  {
  }

  lemma ParkIsLegal(c: Classifier, w: World, p: Pending)
    requires LegalLog(c, w.log) && PendingInv(w) && p.id !in w.used && ClassOf(c, p.key, p.element).Consequential?
    requires MapsCoherent(w.s) && JustInspected(w.log, p.key, p.element, p.origin)
    ensures LegalLog(c, w.log + [Parks(p)]) && !Approved(w.log, p) && p.id !in w.s.pending
  {
    assert Legal(c, w.log, Parks(p));
    LegalAppend(c, w.log, Parks(p));
    if Approved(w.log, p) {
      ApprovedWasParked(c, w.log, p);
      assert false;
    }
  }

  lemma InvPark(c: Classifier, w: World, id: Id, now: nat)
    requires Inv(c, w) && w.holder.Parking? && id !in w.used
    ensures Inv(c, ApplyPark(w, id, now))
  {
    hide Legal, LegalLog, MapsCoherent, SiteGranted, Approved, ClassOf, SessionsInv, GrantsInv, KeysInv;
    var p := Pending(id, w.holder.key, w.holder.origin, w.holder.element, now);
    var v := ApplyPark(w, id, now);
    ParkIsLegal(c, w, p);
    ParkedKeepsMaps(w.s, p);
    ParkPending(w, p, v);
    ParkSessions(w, p, v);
    GrantsGrow(w, Parks(p), v);
    hide PendingInv;
  }

  lemma TakePending(w: World, p: Pending, allowSite: bool, v: World)
    requires PendingInv(w) && MapsCoherent(w.s)
    requires v.s == Taken(w.s, p) && v.used == w.used && v.log == w.log + [Approves(p, allowSite)]
    ensures PendingInv(v)
  {
    LogGrows(w.log, Approves(p, allowSite));
    hide SiteGranted, Approved;
  }

  lemma TakeSessions(w: World, p: Pending, v: World)
    requires SessionsInv(w) && KeysInv(w)
    requires v.s == Taken(w.s, p) && v.starts == w.starts
    ensures SessionsInv(v) && KeysInv(v)
  {
  }

  lemma TakeHolds(c: Classifier, w: World)
    requires w.holder.Taking? && HolderInv(c, w)
    ensures HolderInv(c, ApplyTake(w))
  {
  }

  lemma InvTake(c: Classifier, w: World)
    requires Inv(c, w) && w.holder.Taking?
    ensures Inv(c, ApplyTake(w))
  {
    hide MapsCoherent, SiteGranted, ClassOf, SessionsInv, GrantsInv, KeysInv, PendingInv;
    var p := w.holder.p;
    var e := Approves(p, w.holder.allowSite);
    assert Legal(c, w.log, e);
    LegalAppend(c, w.log, e);
    hide Legal, LegalLog, Approved;
    ResolvedKeepsMaps(w.s, p, Executed);
    TakePending(w, p, w.holder.allowSite, ApplyTake(w));
    TakeSessions(w, p, ApplyTake(w));
    GrantsGrow(w, e, ApplyTake(w));
    TakeHolds(c, w);
    hide HolderInv;
  }

  lemma DispatchPending(w: World, v: World, e: Entry)
    requires PendingInv(w) && e.Dispatches? && v.used == w.used && v.s == w.s && v.log == w.log + [e]
    ensures PendingInv(v)
  {
    LogGrows(w.log, e);
    hide SiteGranted, Approved;
  }

  lemma ExecuteIsLegal(c: Classifier, w: World)
    requires w.holder.Executing? && HolderInv(c, w) && LegalLog(c, w.log)
    ensures var p := w.holder.p; LegalLog(c, w.log + [Dispatches(p.key, p.element, p.origin, Some(p))])
  {
    var p := w.holder.p;
    var e := Dispatches(p.key, p.element, p.origin, Some(p));
    assert Approved(w.log, p) by { assert Approves(p, w.holder.allowSite) in w.log; }
    hide LegalLog, SiteGranted, Approved;
    assert Legal(c, w.log, e);
    LegalAppend(c, w.log, e);
  }

  lemma ExecuteHolds(c: Classifier, w: World, outcome: Outcome)
    requires w.holder.Executing? && HolderInv(c, w)
    ensures HolderInv(c, ApplyExecute(w, outcome))
  {
    hide ClassOf, Undispatched;
  }

  lemma InvExecute(c: Classifier, w: World, outcome: Outcome)
    requires Inv(c, w) && w.holder.Executing?
    ensures Inv(c, ApplyExecute(w, outcome))
  {
    hide HolderInv, MapsCoherent, SessionsInv, KeysInv, GrantsInv, PendingInv, LegalLog;
    var p := w.holder.p;
    var v := ApplyExecute(w, outcome);
    var e := Dispatches(p.key, p.element, p.origin, Some(p));
    ExecuteIsLegal(c, w);
    ExecuteHolds(c, w, outcome);
    SessionsAlike(w, v);
    GrantsGrow(w, e, v);
    DispatchPending(w, v, e);
  }

  lemma SessionsAlike(w: World, v: World)
    requires SessionsInv(w) && KeysInv(w) && v.s == w.s && v.starts == w.starts
    ensures SessionsInv(v) && KeysInv(v)
  {
  }

  lemma InvAct(c: Classifier, w: World)
    requires Inv(c, w) && w.holder.Acting?
    ensures Inv(c, ApplyAct(w))
  {
    hide MapsCoherent, SiteGranted, Approved, ClassOf, SessionsInv, GrantsInv, KeysInv, PendingInv;
    var e := Dispatches(w.holder.key, w.holder.element, w.holder.origin, None);
    assert Legal(c, w.log, e);
    LegalAppend(c, w.log, e);
    hide LegalLog, Legal;
    var v := ApplyAct(w);
    SessionsAlike(w, v);
    GrantsGrow(w, e, v);
    DispatchPending(w, v, e);
  }

  lemma RecordedGrants(w: World, p: Pending, allowSite: bool, outcome: Outcome, log: seq<Entry>)
    requires GrantsInv(w)
    requires forall id, o :: SiteGranted(w.log, id, o) ==> SiteGranted(log, id, o)
    requires outcome.Executed? && allowSite ==> Executes(p, true) in log
    ensures GrantsInv(w.(s := OutcomeRecorded(w.s, p, allowSite, outcome), holder := Free, log := log))
  {
    if outcome.Executed? && allowSite {
      assert SiteGranted(log, p.key.session, p.origin);
    }
    hide SiteGranted;
  }

  lemma RecordedSessions(w: World, p: Pending, allowSite: bool, outcome: Outcome, v: World)
    requires SessionsInv(w) && KeysInv(w) && AttendedKey(w, p.key)
    requires v.s == OutcomeRecorded(w.s, p, allowSite, outcome) && v.starts == w.starts
    ensures SessionsInv(v) && KeysInv(v)
  {
  }

  lemma RecordPending(w: World, v: World, e: Entry)
    requires PendingInv(w) && e.Executes? && v.used == w.used && v.s.pending == w.s.pending
    requires v.log == w.log || v.log == w.log + [e]
    ensures PendingInv(v)
  {
    LogGrows(w.log, e);
    hide SiteGranted, Approved;
  }

  lemma RecordIsLegal(c: Classifier, w: World)
    requires w.holder.Recording? && LegalLog(c, w.log) && HolderInv(c, w)
    ensures LegalLog(c, ApplyRecord(w).log)
  {
    var e := Executes(w.holder.p, w.holder.allowSite);
    if w.holder.outcome.Executed? {
      assert Legal(c, w.log, e);
      LegalAppend(c, w.log, e);
    }
  }

  lemma RecordKeepsMaps(s: State, p: Pending, allowSite: bool, outcome: Outcome)
    requires MapsCoherent(s) && Untouched(s, p.key)
    ensures MapsCoherent(OutcomeRecorded(s, p, allowSite, outcome))
  {
  }

  lemma InvRecord(c: Classifier, w: World)
    requires Inv(c, w) && w.holder.Recording?
    ensures Inv(c, ApplyRecord(w))
  {
    hide Legal, LegalLog, MapsCoherent, SiteGranted, Approved, ClassOf, SessionsInv, GrantsInv, KeysInv, PendingInv;
    var h := w.holder;
    var v := ApplyRecord(w);
    RecordIsLegal(c, w);
    RecordKeepsMaps(w.s, h.p, h.allowSite, h.outcome);
    RecordPending(w, v, Executes(h.p, h.allowSite));
    RecordedSessions(w, h.p, h.allowSite, h.outcome, v);
    LogGrows(w.log, Executes(h.p, h.allowSite));
    RecordedGrants(w, h.p, h.allowSite, h.outcome, v.log);
    hide LegalLog, OutcomeRecorded;
  }

  // ----- The holder's steps that change nothing else -----

  predicate MovesHolder(step: Step) {
    step.Interact? || step.ListApprovals? || step.CloseTab? || step.CloseSession? || step.Scan?
    || step.Look? || step.LookPending? || step.Decide? || step.CheckAccess? || step.CheckPolicy?
    || step.CheckSession? || step.CheckTab? || step.Fail?
  }

  lemma InteractHolds(c: Classifier, w: World, key: Key)
    requires Inv(c, w) && w.holder.Free?
    ensures HolderInv(c, ApplyInteract(w, key))
  {
    hide MapsCoherent, GrantsInv, PendingInv, LegalLog;
  }

  lemma ScanHolds(c: Classifier, w: World, expired: seq<Pending>, now: nat)
    requires Inv(c, w) && w.holder.Scanning? && Snapshot(w.s, expired, now)
    ensures HolderInv(c, w.(holder := Pruning(w.holder.next, expired)))
  {
    forall p | p in expired ensures Fits(w.s, p) && AttendedKey(w, p.key) {
      PendingIsFresh(c, w, p.id);
    }
    hide Inv, Fits, AttendedKey;
    assert HolderInv(c, w) by { StateParts(c, w); }
  }

  lemma RespondHolds(c: Classifier, w: World, v: World, p: Pending, approve: bool, allowSite: bool, now: nat)
    requires Fits(w.s, p) && p.id in w.used && Undispatched(w, p) && AttendedKey(w, p.key) && Parks(p) in w.log
    requires !Approved(w.log, p) && v == w.(holder := v.holder, log := w.log + [Answers(p, approve, allowSite, now)])
    requires || v.holder.Retiring?
             || (v.holder == Taking(p, allowSite) && approve && now < p.requestedAt + 600_000)
    requires (v.holder.Retiring? || v.holder.Taking?) && v.holder.p == p
    ensures HolderInv(c, v)
  {
    var e := Answers(p, approve, allowSite, now);
    LogGrows(w.log, e);
    if v.holder.Taking? {
      assert e in v.log;
    }
    hide Approved, Fits, SiteGranted;
  }

  lemma NotePending(w: World, v: World, e: Entry)
    requires PendingInv(w) && (e.Answers? || e.Inspects?)
    requires v.used == w.used && v.s == w.s && v.log == w.log + [e]
    ensures PendingInv(v)
  {
    LogGrows(w.log, e);
    hide SiteGranted, Approved;
  }

  /** Steps that move the holder and note an inspection or an answer. */
  lemma InvNote(c: Classifier, w: World, v: World, e: Entry)
    requires Inv(c, w) && (e.Answers? || e.Inspects?) && Legal(c, w.log, e)
    requires v == w.(holder := v.holder, log := w.log + [e]) && HolderInv(c, v)
    ensures Inv(c, v)
  {
    hide HolderInv, MapsCoherent, SessionsInv, KeysInv, GrantsInv, PendingInv, LegalLog, Legal;
    LegalAppend(c, w.log, e);
    SessionsAlike(w, v);
    GrantsGrow(w, e, v);
    NotePending(w, v, e);
  }

  lemma InvRespond(c: Classifier, w: World, id: Id, approve: bool, allowSite: bool, now: nat)
    requires Inv(c, w) && w.holder.Free?
    ensures Inv(c, ApplyRespond(w, id, approve, allowSite, now))
  {
    hide HolderInv, Inv, Undispatched, Approved, AttendedKey, Fits, Expired;
    if id in w.s.pending {
      var v := ApplyRespond(w, id, approve, allowSite, now);
      var p := w.s.pending[id];
      PendingIsFresh(c, w, id);
      ExpiresAfterTenMinutes(p, now);
      RespondHolds(c, w, v, p, approve, allowSite, now);
      InvNote(c, w, v, Answers(p, approve, allowSite, now));
    }
  }

  lemma InspectHolds(c: Classifier, w: World, found: Inspection)
    requires w.holder.Inspecting? && HolderInv(c, w)
    ensures HolderInv(c, ApplyInspect(c, w, found))
  {
    hide ClassOf, SiteGranted, Approved;
  }

  lemma InvInspect(c: Classifier, w: World, found: Inspection)
    requires Inv(c, w) && w.holder.Inspecting?
    ensures Inv(c, ApplyInspect(c, w, found))
  {
    InspectHolds(c, w, found);
    hide Inv, HolderInv, ClassOf;
    InvNote(c, w, ApplyInspect(c, w, found), Inspects(w.holder.key, found.element, found.origin));
  }

  lemma ReinspectHolds(c: Classifier, w: World, again: Option<Inspection>, stale: bool)
    requires w.holder.Reinspecting? && HolderInv(c, w)
    ensures HolderInv(c, ApplyReinspect(c, w, again, stale))
  {
    hide ClassOf, SiteGranted, Approved;
  }

  lemma InvReinspect(c: Classifier, w: World, again: Option<Inspection>, stale: bool)
    requires Inv(c, w) && w.holder.Reinspecting?
    ensures Inv(c, ApplyReinspect(c, w, again, stale))
  {
    var v := ApplyReinspect(c, w, again, stale);
    ReinspectHolds(c, w, again, stale);
    hide Inv, HolderInv, ClassOf;
    match again {
      case None => InvHolder(c, w, v.holder);
      case Some(found) => InvNote(c, w, v, Inspects(w.holder.p.key, found.element, found.origin));
    }
  }

  lemma InteractionHolds(c: Classifier, w: World, step: Step)
    requires GrantsInv(w) && HolderInv(c, w) && Enabled(w, step)
    requires step.Look? || step.LookPending? || step.Decide?
    ensures HolderInv(c, Apply(c, w, step))
  {
    hide ClassOf, SiteGranted;
  }

  lemma ResponseHolds(c: Classifier, w: World, step: Step)
    requires HolderInv(c, w) && Enabled(w, step)
    requires step.CheckAccess? || step.CheckPolicy? || step.CheckSession?
    ensures HolderInv(c, Apply(c, w, step))
  {
    hide ClassOf, AccessEnabled;
  }

  lemma IdleHolds(c: Classifier, w: World, step: Step)
    requires Enabled(w, step)
    requires step.ListApprovals? || step.CloseTab? || step.CloseSession? || step.CheckTab? || step.Fail?
    requires HolderInv(c, w)
    ensures HolderInv(c, Apply(c, w, step))
  {
    hide Admitted, OwnsSession;
  }

  lemma MoveHolds(c: Classifier, w: World, step: Step)
    requires Inv(c, w) && Enabled(w, step) && MovesHolder(step)
    ensures HolderInv(c, Apply(c, w, step))
  {
    hide HolderInv, MapsCoherent, SessionsInv, KeysInv, GrantsInv, PendingInv, LegalLog;
    hide Admitted;
    match step {
      case Interact(key) => InteractHolds(c, w, key);
      case Scan(expired, now) => ScanHolds(c, w, expired, now);
      case Look => InteractionHolds(c, w, step);
      case LookPending => InteractionHolds(c, w, step);
      case Decide => InteractionHolds(c, w, step);
      case CheckAccess => ResponseHolds(c, w, step);
      case CheckPolicy => ResponseHolds(c, w, step);
      case CheckSession => ResponseHolds(c, w, step);
      case _ => IdleHolds(c, w, step);
    }
  }

  lemma MovesOnlyHolder(c: Classifier, w: World, step: Step)
    requires Enabled(w, step) && MovesHolder(step)
    ensures Apply(c, w, step) == w.(holder := Apply(c, w, step).holder)
  {
  }

  lemma InvMove(c: Classifier, w: World, step: Step)
    requires Inv(c, w) && Enabled(w, step) && MovesHolder(step)
    ensures Inv(c, Apply(c, w, step))
  {
    hide *;
    MoveHolds(c, w, step);
    MovesOnlyHolder(c, w, step);
    InvHolder(c, w, Apply(c, w, step).holder);
  }

  lemma InvStep(c: Classifier, w: World, step: Step)
    requires Inv(c, w) && Enabled(w, step)
    ensures Inv(c, Apply(c, w, step))
  {
    hide Inv, Admitted, OwnsSession, AllExpired, Forgotten;
    if MovesHolder(step) {
      InvMove(c, w, step);
    } else {
      match step {
        case InsertSession(id, caller) => InvInsertSession(c, w, id, caller);
        case OpenSession(id, ok) => InvOpenSession(c, w, id, ok);
        case ConfirmSession(id) => InvPhase(c, w, id, ApplyConfirm(w, id).starts[id].phase);
        case AddTab(id, tab) => InvAddTab(c, w, id, tab);
        case SetGrants(grants) => InvSettings(c, w, grants, w.s.accessFlag);
        case SetAccessFlag(present) => InvSettings(c, w, w.s.grants, present);
        case Shutdown => InvShutdown(c, w);
        case SetEnabled(enabled) => InvSetEnabled(c, w, enabled);
        case SetPolicy(policy) => InvSetPolicy(c, w, policy);
        case RevokeRoutine(job) => InvRevokeRoutine(c, w, job);
        case ReleaseTab(tab) => InvReleaseTab(c, w, tab);
        case Respond(id, approve, allowSite, now) => InvRespond(c, w, id, approve, allowSite, now);
        case Inspect(found) => InvInspect(c, w, found);
        case Reinspect(again, stale) => InvReinspect(c, w, again, stale);
        case Expire => InvExpire(c, w);
        case Act => InvAct(c, w);
        case Park(id, now) => InvPark(c, w, id, now);
        case Retire => InvRetire(c, w);
        case Take => InvTake(c, w);
        case Execute(outcome) => InvExecute(c, w, outcome);
        case Record => InvRecord(c, w);
        case FinishTab => InvTabFinished(c, w);
        case FinishSession => InvSessionFinished(c, w);
      }
    }
  }

  lemma InvTabFinished(c: Classifier, w: World)
    requires Inv(c, w) && w.holder.ClosingTab?
    ensures Inv(c, w.(s := TabClosed(w.s, w.holder.session, w.holder.tab), holder := Free))
  {
    InvHolder(c, w, Free);
    hide Inv, TabClosed;
    InvTabClosed(c, w.(holder := Free), w.holder.session, w.holder.tab);
  }

  lemma InvSessionFinished(c: Classifier, w: World)
    requires Inv(c, w) && w.holder.ClosingSession?
    ensures Inv(c, w.(s := SessionClosed(w.s, w.holder.session), holder := Free))
  {
    InvHolder(c, w, Free);
    hide Inv, SessionClosed;
    InvSessionClosed(c, w.(holder := Free), w.holder.session);
  }

  lemma {:induction false} InvRun(c: Classifier, ws: seq<World>, steps: seq<Step>, n: nat)
    requires IsRun(c, ws, steps) && n < |ws|
    ensures Inv(c, ws[n])
  {
    if n == 0 {
      InvInitial(c);
    } else {
      InvRun(c, ws, steps, n - 1);
      hide Inv, Apply, Enabled;
      InvStep(c, ws[n - 1], steps[n - 1]);
    }
  }
}
