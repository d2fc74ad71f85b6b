/**
  The browser approval broker's state and its critical sections
  (src-tauri/src/browser_broker.rs).

  Every function below is what one critical section of the state mutex does; the class performs
  the same updates in place.
*/
module BrokerState {
  import opened Prelude

  type Id = nat

  type Origin = string

  datatype Kind = Attended | Managed

  /** Who calls: the attended agent, or a routine. */
  datatype Caller = Task | Routine(job: string)

  datatype Tool = Click | Fill | Press

  datatype Key = Key(session: Id, tab: int, tool: Tool, reference: string, value: string)

  datatype Element = Element(
    tag: string, inputType: string, role: string, name: string, id: string, labelText: string,
    autocomplete: string, inForm: bool, contentEditable: bool)

  datatype ActionClass = RoutineAction | Consequential | SensitiveField

  /** The element policy: any function of the action and the element's facts. */
  type Classifier = (Tool, string, Element) -> ActionClass

  datatype Session = Session(kind: Kind, routine: Option<string>, tabs: set<int>, allowed: set<Origin>)

  datatype Pending = Pending(id: Id, key: Key, origin: Origin, element: Element, requestedAt: nat)

  datatype Outcome = Executed | Declined | Stale | NotExecuted

  datatype Grant = Grant(job: string, enabled: bool)

  datatype Policy = Policy(attended: bool, managed: bool)

  const APPROVAL_TIMEOUT_MS: nat := 600_000

  datatype State = State(
    blocked: bool,
    accessFlag: bool,
    sessions: map<Id, Session>,
    pending: map<Id, Pending>,
    byAction: map<Key, Id>,
    resolved: map<Key, Outcome>,
    grants: seq<Grant>,
    policy: Policy)

  const INITIAL_STATE := State(false, false, map[], map[], map[], map[], [], Policy(true, true))

  function KindOf(caller: Caller): Kind {
    if caller.Task? then Attended else Managed
  }

  function RoutineOf(caller: Caller): Option<string> {
    if caller.Task? then None else Some(caller.job)
  }

  predicate PolicyAllows(policy: Policy, kind: Kind) {
    if kind.Attended? then policy.attended else policy.managed
  }

  predicate AccessEnabled(s: State, caller: Caller) {
    match caller
    case Task => !s.blocked && s.accessFlag
    case Routine(job) => exists i :: 0 <= i < |s.grants| && s.grants[i] == Grant(job, true)
  }

  predicate Admitted(s: State, caller: Caller) {
    PolicyAllows(s.policy, KindOf(caller)) && AccessEnabled(s, caller)
  }

  /** The session exists and belongs to the caller. */
  predicate OwnsSession(s: State, caller: Caller, id: Id) {
    id in s.sessions && s.sessions[id].kind == KindOf(caller) && s.sessions[id].routine == RoutineOf(caller)
  }

  predicate Expired(p: Pending, now: nat) {
    SaturatingSub(now, p.requestedAt) >= APPROVAL_TIMEOUT_MS
  }

  /** Ten minutes after it was parked an approval can no longer be answered. */
  lemma ExpiresAfterTenMinutes(p: Pending, now: nat)
    ensures Expired(p, now) <==> p.requestedAt + 600_000 <= now
  {
  }

  // ----- Sessions -----

  function WithoutActions(s: State): State {
    s.(pending := map[], byAction := map[], resolved := map[])
  }

  function AttendedIds(s: State): set<Id> {
    set id | id in s.sessions && s.sessions[id].routine == None
  }

  function DisabledIds(s: State, policy: Policy): set<Id> {
    set id | id in s.sessions && !PolicyAllows(policy, s.sessions[id].kind)
  }

  function RoutineIds(s: State, job: string): set<Id> {
    set id | id in s.sessions && s.sessions[id].routine == Some(job)
  }

  /** set_enabled */
  function EnabledSet(s: State, enabled: bool): State {
    if enabled then s.(blocked := false)
    else WithoutActions(s).(blocked := true, sessions := s.sessions - AttendedIds(s))
  }

  /** set_transport_policy */
  function PolicySet(s: State, policy: Policy): State {
    var kept := s.(policy := policy, sessions := s.sessions - DisabledIds(s, policy));
    if policy.attended then kept else WithoutActions(kept)
  }

  /** revoke_routine_sessions */
  function RoutineRevoked(s: State, job: string): State {
    s.(sessions := s.sessions - RoutineIds(s, job))
  }

  /** drain_sessions_for_shutdown */
  function Drained(s: State): State {
    WithoutActions(s).(blocked := true, sessions := map[])
  }

  /** start_session's insertion */
  function SessionInserted(s: State, id: Id, caller: Caller): State {
    if Admitted(s, caller)
    then s.(sessions := s.sessions[id := Session(KindOf(caller), RoutineOf(caller), {}, {})])
    else s
  }

  function SessionRemoved(s: State, id: Id): State {
    s.(sessions := s.sessions - {id})
  }

  predicate TabTaken(s: State, tab: int) {
    exists id :: id in s.sessions && tab in s.sessions[id].tabs
  }

  /** open_tab and accept_shared_tab: a tab another session has is refused. */
  function TabInserted(s: State, id: Id, tab: int): State {
    if TabTaken(s, tab) || id !in s.sessions then s
    else s.(sessions := s.sessions[id := s.sessions[id].(tabs := s.sessions[id].tabs + {tab})])
  }

  // ----- Actions -----

  /** The actions of some sessions, on one tab or on all. */
  datatype Match = Match(sessions: set<Id>, tab: Option<int>)

  predicate Matches(m: Match, key: Key) {
    key.session in m.sessions && (m.tab.Some? ==> key.tab == m.tab.value)
  }

  function KeysOf(pending: map<Id, Pending>, ids: set<Id>): set<Key>
    requires ids <= pending.Keys
  {
    set id | id in ids :: pending[id].key
  }

  function MatchedIds(s: State, m: Match): set<Id> {
    set id | id in s.pending && Matches(m, s.pending[id].key)
  }

  /** remove_actions_matching */
  function Forgotten(s: State, m: Match): State {
    s.(pending := s.pending - MatchedIds(s, m),
       byAction := s.byAction - KeysOf(s.pending, MatchedIds(s, m)),
       resolved := map k | k in s.resolved && !Matches(m, k) :: s.resolved[k])
  }

  function Holders(s: State, tab: int): set<Id> {
    set id | id in s.sessions && tab in s.sessions[id].tabs
  }

  function WithoutTab(sessions: map<Id, Session>, ids: set<Id>, tab: int): map<Id, Session> {
    map id | id in sessions ::
      if id in ids then sessions[id].(tabs := sessions[id].tabs - {tab}) else sessions[id]
  }

  /** release_tab */
  function TabReleased(s: State, tab: int): State {
    Forgotten(s.(sessions := WithoutTab(s.sessions, Holders(s, tab), tab)), Match(Holders(s, tab), Some(tab)))
  }

  /** close_tab's final section */
  function TabClosed(s: State, id: Id, tab: int): State {
    Forgotten(s.(sessions := WithoutTab(s.sessions, {id}, tab)), Match({id}, Some(tab)))
  }

  /** close_session's final section */
  function SessionClosed(s: State, id: Id): State {
    Forgotten(SessionRemoved(s, id), Match({id}, None))
  }

  function Parked(s: State, p: Pending): State {
    s.(byAction := s.byAction[p.key := p.id], pending := s.pending[p.id := p])
  }

  function Taken(s: State, p: Pending): State {
    s.(pending := s.pending - {p.id}, byAction := s.byAction - {p.key})
  }

  function Resolved(s: State, p: Pending, outcome: Outcome): State {
    var t := Taken(s, p);
    t.(resolved := t.resolved[p.key := outcome])
  }

  /** The removals of prune_expired_approvals, one by one. */
  function AllExpired(s: State, expired: seq<Pending>): State {
    if expired == [] then s
    else Resolved(AllExpired(s, expired[..|expired| - 1]), expired[|expired| - 1], NotExecuted)
  }

  function SiteAllowed(s: State, id: Id, origin: Origin): State {
    if id !in s.sessions then s
    else s.(sessions := s.sessions[id := s.sessions[id].(allowed := s.sessions[id].allowed + {origin})])
  }

  /** What respond_to_approval records after an approved action ended. */
  function OutcomeRecorded(s: State, p: Pending, allowSite: bool, outcome: Outcome): State {
    var t := if outcome == Executed && allowSite then SiteAllowed(s, p.key.session, p.origin) else s;
    t.(resolved := t.resolved[p.key := outcome])
  }

  // ----- What list_tabs shows -----

  /** The extension's tab list cut down to the session's tabs, and the active tab if owned. */
  function ListedTabs(s: State, id: Id, tabs: seq<int>, active: Option<int>): (r: (seq<int>, Option<int>))
    ensures forall t :: t in r.0 <==> t in tabs && id in s.sessions && t in s.sessions[id].tabs
    ensures r.1 == active || r.1 == None
    ensures r.1.Some? <==> active.Some? && id in s.sessions && active.value in s.sessions[id].tabs
  {
    var owned := if id in s.sessions then s.sessions[id].tabs else {};
    (OwnedTabs(tabs, owned), if active.Some? && active.value in owned then active else None)
  }

  function OwnedTabs(tabs: seq<int>, owned: set<int>): (r: seq<int>)
    ensures forall t :: t in r <==> t in tabs && t in owned
  {
    if tabs == [] then []
    else
      assert tabs == [tabs[0]] + tabs[1..];
      (if tabs[0] in owned then [tabs[0]] else []) + OwnedTabs(tabs[1..], owned)
  }

  // ----- The broker object -----

  class BrowserBroker {
    var blocked: bool
    var accessFlag: bool
    var sessions: map<Id, Session>
    var pending: map<Id, Pending>
    var byAction: map<Key, Id>
    var resolved: map<Key, Outcome>
    var grants: seq<Grant>
    var policy: Policy

    function View(): State
      reads this
    {
      State(blocked, accessFlag, sessions, pending, byAction, resolved, grants, policy)
    }

    constructor ()
      ensures View() == INITIAL_STATE
    {
      blocked, accessFlag := false, false;
      sessions, pending, byAction, resolved := map[], map[], map[], map[];
      grants, policy := [], Policy(true, true);
    }

    method RemoveSessions(ids: set<Id>)
      requires ids <= sessions.Keys
      modifies this`sessions
      ensures sessions == old(sessions) - ids
    {
      var rest := ids;
      while rest != {}
        invariant rest <= ids && sessions == old(sessions) - (ids - rest)
      {
        var id :| id in rest;
        sessions := sessions - {id};
        rest := rest - {id};
      }
    }

    method SetEnabled(enabled: bool) returns (cancelled: map<Id, Pending>)
      modifies this
      ensures View() == EnabledSet(old(View()), enabled)
      ensures cancelled == if enabled then map[] else old(pending)
    {
      blocked := !enabled;
      if enabled {
        return map[];
      }
      cancelled := pending;
      pending, byAction, resolved := map[], map[], map[];
      RemoveSessions(set id | id in sessions && sessions[id].routine == None);
    }

    method SetTransportPolicy(next: Policy)
      modifies this
      ensures View() == PolicySet(old(View()), next)
    {
      policy := next;
      RemoveSessions(set id | id in sessions && !PolicyAllows(next, sessions[id].kind));
      if !next.attended {
        pending, byAction, resolved := map[], map[], map[];
      }
    }

    method RevokeRoutineSessions(job: string)
      modifies this`sessions
      ensures View() == RoutineRevoked(old(View()), job)
    {
      RemoveSessions(set id | id in sessions && sessions[id].routine == Some(job));
    }

    method TerminateSessions()
      modifies this
      ensures View() == Drained(old(View()))
    {
      blocked := true;
      pending, byAction, resolved, sessions := map[], map[], map[], map[];
    }

    method InsertSession(id: Id, caller: Caller) returns (inserted: bool)
      modifies this`sessions
      ensures View() == SessionInserted(old(View()), id, caller) && inserted == Admitted(old(View()), caller)
    {
      inserted := Admitted(View(), caller);
      if inserted {
        sessions := sessions[id := Session(KindOf(caller), RoutineOf(caller), {}, {})];
      }
    }

    method InsertTab(id: Id, tab: int) returns (accepted: bool)
      modifies this`sessions
      ensures View() == TabInserted(old(View()), id, tab)
      ensures accepted == (!TabTaken(old(View()), tab) && id in old(sessions))
    {
      var rest := sessions.Keys;
      while rest != {}
        invariant rest <= sessions.Keys
        invariant forall other :: other in sessions && other !in rest ==> tab !in sessions[other].tabs
      {
        var other :| other in rest;
        if tab in sessions[other].tabs {
          assert TabTaken(View(), tab);
          return false;
        }
        rest := rest - {other};
      }
      if id !in sessions {
        return false;
      }
      sessions := sessions[id := sessions[id].(tabs := sessions[id].tabs + {tab})];
      accepted := true;
    }

    method RemoveApprovals(ids: set<Id>) returns (removed: map<Id, Pending>)
      requires ids <= pending.Keys
      modifies this`pending, this`byAction
      ensures pending == old(pending) - ids
      ensures byAction == old(byAction) - KeysOf(old(pending), ids)
      ensures removed == map id | id in ids :: old(pending)[id]
    {
      var rest := ids;
      removed := map[];
      while rest != {}
        invariant rest <= ids && pending == old(pending) - (ids - rest)
        invariant byAction == old(byAction) - KeysOf(old(pending), ids - rest)
        invariant removed == map id | id in ids - rest :: old(pending)[id]
      {
        var id :| id in rest;
        var p := pending[id];
        pending := pending - {id};
        byAction := byAction - {p.key};
        removed := removed[id := p];
        assert ids - (rest - {id}) == (ids - rest) + {id};
        rest := rest - {id};
      }
      assert ids - rest == ids;
    }

    /** remove_actions_matching: collects the matching approvals, removes each with its action
        entry, then drops the matching outcomes. */
    method RemoveActionsMatching(m: Match) returns (removed: map<Id, Pending>)
      modifies this`pending, this`byAction, this`resolved
      ensures View() == Forgotten(old(View()), m)
      ensures removed == map id | id in old(pending) && Matches(m, old(pending)[id].key) :: old(pending)[id]
    {
      hide Matches;
      removed := RemoveApprovals(set id | id in pending && Matches(m, pending[id].key));
      resolved := map k | k in resolved && !Matches(m, k) :: resolved[k];
    }

    method ReleaseTab(tab: int) returns (released: bool, cancelled: map<Id, Pending>)
      modifies this`sessions, this`pending, this`byAction, this`resolved
      ensures View() == TabReleased(old(View()), tab) && released == TabTaken(old(View()), tab)
    {
      var holders: set<Id> := {};
      var rest := sessions.Keys;
      while rest != {}
        invariant rest <= sessions.Keys == old(sessions).Keys
        invariant holders == set id | id in old(sessions) && id !in rest && tab in old(sessions)[id].tabs
        invariant sessions == WithoutTab(old(sessions), holders, tab)
        invariant unchanged(`pending) && unchanged(`byAction) && unchanged(`resolved)
      {
        var id :| id in rest;
        if tab in sessions[id].tabs {
          sessions := sessions[id := sessions[id].(tabs := sessions[id].tabs - {tab})];
          holders := holders + {id};
        }
        rest := rest - {id};
      }
      released := holders != {};
      assert holders == Holders(old(View()), tab);
      assert released == TabTaken(old(View()), tab) by {
        if released {
          var id :| id in holders;
        }
      }
      cancelled := RemoveActionsMatching(Match(holders, Some(tab)));
    }

    method CloseTab(id: Id, tab: int) returns (cancelled: map<Id, Pending>)
      modifies this`sessions, this`pending, this`byAction, this`resolved
      ensures View() == TabClosed(old(View()), id, tab)
    {
      if id in sessions {
        sessions := sessions[id := sessions[id].(tabs := sessions[id].tabs - {tab})];
      }
      assert sessions == WithoutTab(old(sessions), {id}, tab);
      cancelled := RemoveActionsMatching(Match({id}, Some(tab)));
    }

    method CloseSession(id: Id) returns (cancelled: map<Id, Pending>)
      modifies this`sessions, this`pending, this`byAction, this`resolved
      ensures View() == SessionClosed(old(View()), id)
    {
      sessions := sessions - {id};
      cancelled := RemoveActionsMatching(Match({id}, None));
    }

    /** The snapshot prune_expired_approvals takes: every expired approval, once. */
    method ExpiredApprovals(now: nat) returns (expired: seq<Pending>)
      ensures forall p :: p in expired <==>
                exists id :: id in pending && pending[id] == p && p.requestedAt + 600_000 <= now
      ensures (forall id :: id in pending ==> pending[id].id == id) ==>
                forall i, j :: 0 <= i < j < |expired| ==> expired[i].id != expired[j].id
    {
      expired := [];
      var rest := pending.Keys;
      while rest != {}
        invariant rest <= pending.Keys
        invariant forall p :: p in expired <==>
                    exists id :: id in pending && id !in rest && pending[id] == p && p.requestedAt + 600_000 <= now
        invariant (forall id :: id in pending ==> pending[id].id == id) ==>
                    forall i, j :: 0 <= i < j < |expired| ==> expired[i].id != expired[j].id
      {
        var id :| id in rest;
        if Expired(pending[id], now) {
          forall i | (forall id :: id in pending ==> pending[id].id == id) && 0 <= i < |expired|
            ensures expired[i].id != id
          {
            assert expired[i] in expired;
          }
          expired := expired + [pending[id]];
        }
        rest := rest - {id};
      }
    }

    method ExpireAll(expired: seq<Pending>)
      modifies this`pending, this`byAction, this`resolved
      ensures View() == AllExpired(old(View()), expired)
    {
      for n := 0 to |expired|
        invariant View() == AllExpired(old(View()), expired[..n])
      {
        assert expired[..n + 1][..n] == expired[..n];
        Retire(expired[n], NotExecuted);
      }
      assert expired[..|expired|] == expired;
    }

    method Take(p: Pending)
      modifies this`pending, this`byAction
      ensures View() == Taken(old(View()), p)
    {
      pending := pending - {p.id};
      byAction := byAction - {p.key};
    }

    /** An expired or declined approval: taken, and its outcome kept. */
    method Retire(p: Pending, outcome: Outcome)
      modifies this`pending, this`byAction, this`resolved
      ensures View() == Resolved(old(View()), p, outcome)
    {
      Take(p);
      resolved := resolved[p.key := outcome];
    }

    method Park(p: Pending)
      modifies this`pending, this`byAction
      ensures View() == Parked(old(View()), p)
    {
      byAction := byAction[p.key := p.id];
      pending := pending[p.id := p];
    }

    method RecordOutcome(p: Pending, allowSite: bool, outcome: Outcome)
      modifies this`sessions, this`resolved
      ensures View() == OutcomeRecorded(old(View()), p, allowSite, outcome)
    {
      if outcome == Executed && allowSite && p.key.session in sessions {
        var session := sessions[p.key.session];
        sessions := sessions[p.key.session := session.(allowed := session.allowed + {p.origin})];
      }
      resolved := resolved[p.key := outcome];
    }
  }
}
