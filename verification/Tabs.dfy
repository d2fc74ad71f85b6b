/** The extension's tab and share registries (extension/src/browser.ts). */
module TabRegistries {
  import opened Prelude
  import opened OrderedMap

  datatype Ownership = Created | Shared

  /** A reference handed out by a snapshot: the epoch it was taken in and the node it names. */
  datatype Ref = Ref(epoch: nat, node: nat)

  datatype TaskTab = TaskTab(epoch: nat, refs: set<Ref>, ownership: Ownership)

  /** `serial` tells one session object from a later one with the same id. */
  datatype TaskSession = TaskSession(serial: nat, tabs: seq<Slot<TaskTab>>, active: Option<int>, group: Option<int>)

  type Registry = map<string, TaskSession>

  datatype Failure = SessionExists | SessionNotFound | TabAlreadyOwned | TabNotOwned | ShareNotFound

  const NO_TAB := TaskTab(0, {}, Shared)

  // ----- The tab registry -----

  predicate Owns(r: Registry, sid: string, tab: int) {
    sid in r && Has(r[sid].tabs, tab)
  }

  function TabOf(r: Registry, sid: string, tab: int): TaskTab
    requires sid in r
  {
    Get(r[sid].tabs, tab, NO_TAB)
  }

  /** Each tab is in at most one session. */
  ghost predicate UniqueOwners(r: Registry) {
    forall a, b, tab: int :: a in r && b in r && Has(r[a].tabs, tab) && Has(r[b].tabs, tab) ==> a == b
  }

  predicate OwnerIs(r: Registry, tab: int, owner: Option<string>) {
    match owner
    case Some(sid) => Owns(r, sid, tab)
    case None => forall sid :: sid in r ==> !Has(r[sid].tabs, tab)
  }

  function Started(r: Registry, sid: string, serial: nat): Result<Registry, Failure> {
    if sid in r then Err(SessionExists) else Ok(r[sid := TaskSession(serial, [], None, None)])
  }

  /** add: the tab must be nobody's; it becomes the session's active tab. */
  function Added(r: Registry, owner: Option<string>, sid: string, tab: int, ownership: Ownership)
    : Result<Registry, Failure>
  {
    if owner.Some? then Err(TabAlreadyOwned)
    else if sid !in r then Err(SessionNotFound)
    else Ok(r[sid := r[sid].(tabs := Put(r[sid].tabs, tab, TaskTab(0, {}, ownership)), active := Some(tab))])
  }

  function WithTab(r: Registry, sid: string, tab: int, value: TaskTab): Registry
    requires sid in r
  {
    r[sid := r[sid].(tabs := Put(r[sid].tabs, tab, value))]
  }

  function Invalidated(r: Registry, sid: string, tab: int): Registry {
    if !Owns(r, sid, tab) then r
    else
      var t := TabOf(r, sid, tab);
      WithTab(r, sid, tab, t.(epoch := t.epoch + 1, refs := {}))
  }

  function SnapshotRefs(epoch: nat, nodes: set<nat>): set<Ref> {
    set n | n in nodes :: Ref(epoch, n)
  }

  /** setRefs: a snapshot of another epoch is dropped. */
  function RefsSet(r: Registry, sid: string, tab: int, epoch: nat, nodes: set<nat>): Registry {
    if !Owns(r, sid, tab) || TabOf(r, sid, tab).epoch != epoch then r
    else WithTab(r, sid, tab, TabOf(r, sid, tab).(refs := SnapshotRefs(epoch, nodes)))
  }

  predicate AcceptsRef(r: Registry, sid: string, tab: int, ref: Ref) {
    Owns(r, sid, tab) && ref in TabOf(r, sid, tab).refs
  }

  predicate AnyCreated(tabs: seq<Slot<TaskTab>>) {
    exists slot :: slot in tabs && slot.value.ownership.Created?
  }

  function SessionWithout(s: TaskSession, tab: int): TaskSession {
    var rest := Remove(s.tabs, tab);
    TaskSession(s.serial, rest,
                if s.active != Some(tab) then s.active else if rest == [] then None else Some(rest[0].key),
                if AnyCreated(rest) then s.group else None)
  }

  /** removeTab; removing from a session that is gone is an error and changes nothing. */
  function TabRemoved(r: Registry, sid: string, tab: int): Registry {
    if sid in r then r[sid := SessionWithout(r[sid], tab)] else r
  }

  function OwnedKey(slot: Slot<TaskTab>, ownership: Ownership): seq<int> {
    if slot.value.ownership == ownership then [slot.key] else []
  }

  function TabsOwned(tabs: seq<Slot<TaskTab>>, ownership: Ownership): (ids: seq<int>)
    ensures forall id :: id in ids <==> exists slot :: slot in tabs && slot == Slot(id, slot.value)
                                          && slot.value.ownership == ownership
  {
    if tabs == [] then []
    else
      assert tabs == [tabs[0]] + tabs[1..];
      OwnedKey(tabs[0], ownership) + TabsOwned(tabs[1..], ownership)
  }

  /** Moving one slot from the rest of the tabs to the ids collected so far. */
  lemma CollectNext(tabs: seq<Slot<TaskTab>>, i: nat, ownership: Ownership, ids: seq<int>)
    requires i < |tabs|
    ensures ids + OwnedKey(tabs[i], ownership) + TabsOwned(tabs[i + 1..], ownership)
            == ids + TabsOwned(tabs[i..], ownership)
  {
    var own, rest := OwnedKey(tabs[i], ownership), TabsOwned(tabs[i + 1..], ownership);
    assert tabs[i..][1..] == tabs[i + 1..];
    assert TabsOwned(tabs[i..], ownership) == own + rest;
    hide TabsOwned, OwnedKey;
    assert ids + own + rest == ids + (own + rest);
  }

  lemma NothingLeft(tabs: seq<Slot<TaskTab>>, ownership: Ownership, ids: seq<int>)
    ensures TabsOwned(tabs[|tabs|..], ownership) == [] && ids + [] == ids
  {
  }

  datatype Cleanup = Cleanup(created: seq<int>, shared: seq<int>)

  function CleanupOf(tabs: seq<Slot<TaskTab>>): Cleanup {
    Cleanup(TabsOwned(tabs, Created), TabsOwned(tabs, Shared))
  }

  // ----- The share registry -----

  type Offers = map<string, int>

  function Revoked(offers: Offers, tab: int): Offers {
    map share | share in offers && offers[share] != tab :: offers[share]
  }

  function Offered(offers: Offers, tab: int, share: string): Offers {
    Revoked(offers, tab)[share := tab]
  }

  /** A tab has at most one open offer. */
  predicate OneOfferPerTab(offers: Offers) {
    forall a, b :: a in offers && b in offers && offers[a] == offers[b] ==> a == b
  }

  predicate HasOffer(offers: Offers, tab: int) {
    exists share :: share in offers && offers[share] == tab
  }

  lemma OfferedOnce(offers: Offers, tab: int, share: string)
    requires OneOfferPerTab(offers)
    ensures OneOfferPerTab(Offered(offers, tab, share))
  {
  }

  // ----- How the operations change ownership -----

  lemma TabRemovedOwners(r: Registry, sid: string, tab: int)
    ensures forall a, t :: Owns(TabRemoved(r, sid, tab), a, t) <==> Owns(r, a, t) && (a != sid || t != tab)
    ensures forall a, t :: Owns(TabRemoved(r, sid, tab), a, t) ==>
              TabOf(TabRemoved(r, sid, tab), a, t) == TabOf(r, a, t)
  {
    forall a, t | a in r
      ensures Owns(TabRemoved(r, sid, tab), a, t) <==> Owns(r, a, t) && (a != sid || t != tab)
      ensures Owns(TabRemoved(r, sid, tab), a, t) ==> TabOf(TabRemoved(r, sid, tab), a, t) == TabOf(r, a, t)
    {
      HasRemove(r[a].tabs, tab, t, NO_TAB);
    }
  }

  lemma WithTabOwners(r: Registry, sid: string, tab: int, value: TaskTab)
    requires sid in r
    ensures forall a, t :: Owns(WithTab(r, sid, tab, value), a, t) <==> Owns(r, a, t) || (a == sid && t == tab)
    ensures forall a, t :: Owns(WithTab(r, sid, tab, value), a, t) ==>
              TabOf(WithTab(r, sid, tab, value), a, t) == if a == sid && t == tab then value else TabOf(r, a, t)
  {
    forall a, t | a in r
      ensures Owns(WithTab(r, sid, tab, value), a, t) <==> Owns(r, a, t) || (a == sid && t == tab)
      ensures Owns(WithTab(r, sid, tab, value), a, t) ==>
                TabOf(WithTab(r, sid, tab, value), a, t) == if a == sid && t == tab then value else TabOf(r, a, t)
    {
      GetPut(r[a].tabs, tab, value, t, NO_TAB);
    }
  }

  /** Adding refuses a tab that somebody has, then a session that is not there, and otherwise gives the
      session that tab alone, fresh and active. */
  lemma AddedMeans(r: Registry, owner: Option<string>, sid: string, tab: int, ownership: Ownership)
    ensures Added(r, owner, sid, tab, ownership)
            == if owner.Some? then Err(TabAlreadyOwned)
               else if sid !in r then Err(SessionNotFound)
               else Ok(Added(r, None, sid, tab, ownership).value)
    ensures sid in r ==>
              var next := Added(r, None, sid, tab, ownership).value;
              && next[sid].active == Some(tab) && next[sid].group == r[sid].group
              && (forall a, t :: Owns(next, a, t) <==> Owns(r, a, t) || (a == sid && t == tab))
              && (forall a, t :: Owns(next, a, t) ==>
                    TabOf(next, a, t) == if a == sid && t == tab then TaskTab(0, {}, ownership) else TabOf(r, a, t))
  {
    if sid in r {
      var next := Added(r, None, sid, tab, ownership).value;
      forall a, t | a in r
        ensures Owns(next, a, t) <==> Owns(r, a, t) || (a == sid && t == tab)
        ensures Owns(next, a, t) ==>
                  TabOf(next, a, t) == if a == sid && t == tab then TaskTab(0, {}, ownership) else TabOf(r, a, t)
      {
        GetPut(r[sid].tabs, tab, TaskTab(0, {}, ownership), t, NO_TAB);
      }
    }
  }

  /** A snapshot of a tab's current epoch replaces its references by exactly those it names; any other
      changes nothing. */
  lemma RefsSetMeans(r: Registry, sid: string, tab: int, epoch: nat, nodes: set<nat>)
    ensures var next := RefsSet(r, sid, tab, epoch, nodes);
            if Owns(r, sid, tab) && TabOf(r, sid, tab).epoch == epoch then
              && Owns(next, sid, tab)
              && (forall ref :: ref in TabOf(next, sid, tab).refs <==> ref.epoch == epoch && ref.node in nodes)
              && TabOf(next, sid, tab).epoch == epoch && TabOf(next, sid, tab).ownership == TabOf(r, sid, tab).ownership
            else next == r
  {
    if Owns(r, sid, tab) && TabOf(r, sid, tab).epoch == epoch {
      WithTabOwners(r, sid, tab, TabOf(r, sid, tab).(refs := SnapshotRefs(epoch, nodes)));
      hide WithTab, Has, Get;
      forall ref ensures ref in SnapshotRefs(epoch, nodes) <==> ref.epoch == epoch && ref.node in nodes {
        assert ref == Ref(ref.epoch, ref.node);
      }
    }
  }

  /** The tab list of a session without one of its tabs: the first tab left becomes active if the removed
      one was, and the group is kept exactly as long as a created tab is left. */
  lemma SessionWithoutMeans(s: TaskSession, tab: int)
    ensures var next := SessionWithout(s, tab);
            && next.tabs == Remove(s.tabs, tab) && next.serial == s.serial
            && (s.active != Some(tab) ==> next.active == s.active)
            && (s.active == Some(tab) && next.tabs == [] ==> next.active == None)
            && (s.active == Some(tab) && next.tabs != [] ==> next.active == Some(next.tabs[0].key))
            && ((exists slot :: slot in next.tabs && slot.value.ownership == Created) ==> next.group == s.group)
            && ((forall slot :: slot in next.tabs ==> slot.value.ownership != Created) ==> next.group == None)
  {
  }

  lemma {:induction false} EachOwnedOnce(tabs: seq<Slot<TaskTab>>)
    ensures multiset(TabsOwned(tabs, Created)) + multiset(TabsOwned(tabs, Shared)) == multiset(Keys(tabs))
  {
    if tabs != [] {
      var rest := tabs[1..];
      EachOwnedOnce(rest);
      assert TabsOwned(tabs, Created) == OwnedKey(tabs[0], Created) + TabsOwned(rest, Created);
      assert TabsOwned(tabs, Shared) == OwnedKey(tabs[0], Shared) + TabsOwned(rest, Shared);
      assert Keys(tabs) == [tabs[0].key] + Keys(rest);
      hide TabsOwned, Keys;
    }
  }

  lemma OwnedAre(tabs: seq<Slot<TaskTab>>, ownership: Ownership, id: int)
    requires id in TabsOwned(tabs, ownership)
    ensures exists slot :: slot in tabs && slot.key == id && slot.value.ownership == ownership
  {
  }

  /** Cleaning up a session accounts for each of its tabs once, among the created or the shared ones. */
  lemma CleanupIsComplete(tabs: seq<Slot<TaskTab>>)
    ensures var cleanup := CleanupOf(tabs);
            && multiset(cleanup.created) + multiset(cleanup.shared) == multiset(Keys(tabs))
            && (forall id :: id in cleanup.created ==>
                  exists slot :: slot in tabs && slot.key == id && slot.value.ownership == Created)
            && (forall id :: id in cleanup.shared ==>
                  exists slot :: slot in tabs && slot.key == id && slot.value.ownership == Shared)
  {
    hide TabsOwned, Keys;
    EachOwnedOnce(tabs);
    var cleanup := CleanupOf(tabs);
    forall id | id in cleanup.created
      ensures exists slot :: slot in tabs && slot.key == id && slot.value.ownership == Created
    {
      OwnedAre(tabs, Created, id);
    }
    forall id | id in cleanup.shared
      ensures exists slot :: slot in tabs && slot.key == id && slot.value.ownership == Shared
    {
      OwnedAre(tabs, Shared, id);
    }
  }

  lemma AddedKeepsUnique(r: Registry, sid: string, tab: int, ownership: Ownership)
    requires UniqueOwners(r) && sid in r && OwnerIs(r, tab, None)
    ensures UniqueOwners(Added(r, None, sid, tab, ownership).value)
  {
    var next := Added(r, None, sid, tab, ownership).value;
    forall a, b, t: int | a in next && b in next && Has(next[a].tabs, t) && Has(next[b].tabs, t) ensures a == b {
      GetPut(r[sid].tabs, tab, TaskTab(0, {}, ownership), t, NO_TAB);
    }
  }

  lemma TabRemovedKeepsUnique(r: Registry, sid: string, tab: int)
    requires UniqueOwners(r)
    ensures UniqueOwners(TabRemoved(r, sid, tab))
  {
    TabRemovedOwners(r, sid, tab);
    var next := TabRemoved(r, sid, tab);
    forall a, b, t: int | a in next && b in next && Has(next[a].tabs, t) && Has(next[b].tabs, t) ensures a == b {
      assert Owns(next, a, t) && Owns(next, b, t);
    }
  }

  lemma WithTabKeepsUnique(r: Registry, sid: string, tab: int, value: TaskTab)
    requires UniqueOwners(r) && Owns(r, sid, tab)
    ensures UniqueOwners(WithTab(r, sid, tab, value))
  {
    WithTabOwners(r, sid, tab, value);
    var next := WithTab(r, sid, tab, value);
    forall a, b, t: int | a in next && b in next && Has(next[a].tabs, t) && Has(next[b].tabs, t) ensures a == b {
      assert Owns(next, a, t) && Owns(next, b, t);
    }
  }

  // ----- The registry objects -----

  class TaskTabRegistry {
    var sessions: Registry
    var started: nat

    ghost predicate Valid()
      reads this
    {
      UniqueOwners(sessions)
    }

    constructor ()
      ensures Valid() && sessions == map[]
    {
      sessions, started := map[], 0;
    }

    method Start(sid: string) returns (failure: Option<Failure>)
      requires Valid()
      modifies this
      ensures Valid()
      ensures match Started(old(sessions), sid, old(started))
              case Ok(r) => failure == None && sessions == r && started == old(started) + 1
              case Err(e) => failure == Some(e) && unchanged(this)
      ensures failure == if sid in old(sessions) then Some(SessionExists) else None
      ensures failure == None ==> sessions == old(sessions)[sid := TaskSession(old(started), [], None, None)]
    {
      if sid in sessions {
        return Some(SessionExists);
      }
      sessions := sessions[sid := TaskSession(started, [], None, None)];
      started := started + 1;
      failure := None;
    }

    method Find(tab: int) returns (owner: Option<string>)
      ensures OwnerIs(sessions, tab, owner)
    {
      var rest := sessions.Keys;
      while rest != {}
        invariant rest <= sessions.Keys
        invariant forall sid :: sid in sessions && sid !in rest ==> !Has(sessions[sid].tabs, tab)
      {
        var sid :| sid in rest;
        if Has(sessions[sid].tabs, tab) {
          return Some(sid);
        }
        rest := rest - {sid};
      }
      owner := None;
    }

    method Add(sid: string, tab: int, ownership: Ownership) returns (failure: Option<Failure>)
      requires Valid()
      modifies this`sessions
      ensures Valid()
      ensures failure == Some(TabAlreadyOwned) <==> !OwnerIs(old(sessions), tab, None)
      ensures failure.Some? ==> failure == Some(TabAlreadyOwned) || failure == Some(SessionNotFound)
      ensures failure.None? <==> OwnerIs(old(sessions), tab, None) && sid in old(sessions)
      ensures sessions == if failure.None? then Added(old(sessions), None, sid, tab, ownership).value else old(sessions)
      ensures failure.None? ==>
                && Owns(sessions, sid, tab) && TabOf(sessions, sid, tab) == TaskTab(0, {}, ownership)
                && sessions[sid].active == Some(tab)
    {
      var owner := Find(tab);
      if owner.Some? {
        return Some(TabAlreadyOwned);
      }
      if sid !in sessions {
        return Some(SessionNotFound);
      }
      AddedKeepsUnique(sessions, sid, tab, ownership);
      AddedMeans(sessions, None, sid, tab, ownership);
      var session := sessions[sid];
      sessions := sessions[sid := session.(tabs := Put(session.tabs, tab, TaskTab(0, {}, ownership)),
                                           active := Some(tab))];
      failure := None;
    }

    method Invalidate(sid: string, tab: int) returns (failure: Option<Failure>)
      requires Valid()
      modifies this`sessions
      ensures Valid() && sessions == Invalidated(old(sessions), sid, tab)
      ensures failure.None? <==> Owns(old(sessions), sid, tab)
    {
      if sid !in sessions {
        return Some(SessionNotFound);
      }
      if !Has(sessions[sid].tabs, tab) {
        return Some(TabNotOwned);
      }
      var t := Get(sessions[sid].tabs, tab, NO_TAB);
      WithTabKeepsUnique(sessions, sid, tab, t.(epoch := t.epoch + 1, refs := {}));
      sessions := WithTab(sessions, sid, tab, t.(epoch := t.epoch + 1, refs := {}));
      failure := None;
    }

    /** The tab's references are replaced only by a snapshot of its current epoch. */
    method SetRefs(sid: string, tab: int, epoch: nat, nodes: set<nat>) returns (stored: Result<bool, Failure>)
      requires Valid()
      modifies this`sessions
      ensures Valid() && sessions == RefsSet(old(sessions), sid, tab, epoch, nodes)
      ensures stored.Ok? <==> Owns(old(sessions), sid, tab)
      ensures stored.Ok? ==> (stored.value <==> TabOf(old(sessions), sid, tab).epoch == epoch)
      ensures stored == Ok(true) ==>
                && Owns(sessions, sid, tab)
                && forall ref :: ref in TabOf(sessions, sid, tab).refs <==> ref.epoch == epoch && ref.node in nodes
    {
      RefsSetMeans(sessions, sid, tab, epoch, nodes);
      if sid !in sessions {
        return Err(SessionNotFound);
      }
      if !Has(sessions[sid].tabs, tab) {
        return Err(TabNotOwned);
      }
      var t := Get(sessions[sid].tabs, tab, NO_TAB);
      if t.epoch != epoch {
        return Ok(false);
      }
      WithTabKeepsUnique(sessions, sid, tab, t.(refs := SnapshotRefs(epoch, nodes)));
      sessions := WithTab(sessions, sid, tab, t.(refs := SnapshotRefs(epoch, nodes)));
      stored := Ok(true);
    }

    method RemoveTab(sid: string, tab: int) returns (failure: Option<Failure>)
      requires Valid()
      modifies this`sessions
      ensures Valid() && sessions == TabRemoved(old(sessions), sid, tab)
      ensures failure.None? <==> sid in old(sessions)
    {
      TabRemovedKeepsUnique(sessions, sid, tab);
      if sid !in sessions {
        return Some(SessionNotFound);
      }
      var session := sessions[sid];
      var rest := Remove(session.tabs, tab);
      var kept := HasCreated(rest);
      var active := session.active;
      if active == Some(tab) {
        active := if rest == [] then None else Some(rest[0].key);
      }
      sessions := sessions[sid := TaskSession(session.serial, rest, active, if kept then session.group else None)];
      failure := None;
    }

    method HasCreated(tabs: seq<Slot<TaskTab>>) returns (found: bool)
      ensures found == AnyCreated(tabs)
    {
      for i := 0 to |tabs|
        invariant forall j :: 0 <= j < i ==> !tabs[j].value.ownership.Created?
      {
        if tabs[i].value.ownership.Created? {
          assert tabs[i] in tabs;
          return true;
        }
      }
      found := false;
    }

    /** Forgets the session and says which of its tabs to close and which only to detach. */
    method RemoveSession(sid: string) returns (cleanup: Result<Cleanup, Failure>)
      requires Valid()
      modifies this`sessions
      ensures Valid() && sessions == old(sessions) - {sid}
      ensures cleanup == if sid in old(sessions) then Ok(CleanupOf(old(sessions)[sid].tabs)) else Err(SessionNotFound)
    {
      if sid !in sessions {
        return Err(SessionNotFound);
      }
      var result := CollectCleanup(sessions[sid].tabs);
      sessions := sessions - {sid};
      cleanup := Ok(result);
    }

    method CollectCleanup(tabs: seq<Slot<TaskTab>>) returns (cleanup: Cleanup)
      ensures cleanup == CleanupOf(tabs)
    {
      hide TabsOwned, OwnedKey;
      var created, shared: seq<int> := [], [];
      assert tabs[0..] == tabs;
      for i := 0 to |tabs|
        invariant created + TabsOwned(tabs[i..], Created) == TabsOwned(tabs, Created)
        invariant shared + TabsOwned(tabs[i..], Shared) == TabsOwned(tabs, Shared)
      {
        CollectNext(tabs, i, Created, created);
        CollectNext(tabs, i, Shared, shared);
        created, shared := created + OwnedKey(tabs[i], Created), shared + OwnedKey(tabs[i], Shared);
      }
      NothingLeft(tabs, Created, created);
      NothingLeft(tabs, Shared, shared);
      cleanup := Cleanup(created, shared);
    }
  }

  class PendingShareRegistry {
    var offers: Offers

    ghost predicate Valid()
      reads this
    {
      OneOfferPerTab(offers)
    }

    constructor ()
      ensures Valid() && offers == map[]
    {
      offers := map[];
    }

    method RevokeTab(tab: int) returns (revoked: bool)
      requires Valid()
      modifies this
      ensures Valid() && offers == Revoked(old(offers), tab) && revoked == HasOffer(old(offers), tab)
    {
      revoked := false;
      var rest := offers.Keys;
      while rest != {}
        invariant rest <= offers.Keys <= old(offers).Keys
        invariant forall share :: share in offers ==> offers[share] == old(offers)[share]
        invariant forall share :: share in old(offers) && share !in offers ==> old(offers)[share] == tab
        invariant forall share :: share in offers && share !in rest ==> offers[share] != tab
        invariant revoked <==> offers != old(offers)
      {
        var share :| share in rest;
        if offers[share] == tab {
          offers := offers - {share};
          revoked := true;
          assert share !in offers && share in old(offers);
        }
        rest := rest - {share};
      }
      assert offers == Revoked(old(offers), tab);
    }

    /** A new offer replaces any earlier one of the tab. */
    method Offer(tab: int, share: string)
      requires Valid()
      modifies this
      ensures Valid() && offers == Offered(old(offers), tab, share)
    {
      OfferedOnce(offers, tab, share);
      var revoked := RevokeTab(tab);
      offers := offers[share := tab];
    }

    method Consume(share: string) returns (tab: Result<int, Failure>)
      requires Valid()
      modifies this
      ensures Valid()
      ensures if share in old(offers) then tab == Ok(old(offers)[share]) && offers == old(offers) - {share}
              else tab == Err(ShareNotFound) && unchanged(this)
    {
      if share !in offers {
        return Err(ShareNotFound);
      }
      tab := Ok(offers[share]);
      offers := offers - {share};
    }

    method ShareIdForTab(tab: int) returns (found: Option<string>)
      ensures match found
              case Some(share) => share in offers && offers[share] == tab
              case None => !HasOffer(offers, tab)
    {
      var rest := offers.Keys;
      while rest != {}
        invariant rest <= offers.Keys
        invariant forall share :: share in offers && share !in rest ==> offers[share] != tab
      {
        var share :| share in rest;
        if offers[share] == tab {
          return Some(share);
        }
        rest := rest - {share};
      }
      found := None;
    }
  }
}
