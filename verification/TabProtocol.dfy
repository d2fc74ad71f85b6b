/**
  Whole runs of the extension's controller (extension/src/browser.ts).

  JavaScript runs one synchronous stretch at a time, so every await is a step boundary: an accepted
  share waits for the debugger to attach, an opened tab for its creation, its group and the
  debugger, a closing tab for its ownership check. Chrome's events and other calls fall in between.
*/
module TabProtocol {
  import opened Prelude
  import opened OrderedMap
  import opened TabRegistries

  datatype AcceptPhase = Attaching | Accepted | Refused

  datatype Accept = Accept(sid: string, tab: int, phase: AcceptPhase)

  /** `serial` names the session object captured before the group call. */
  datatype OpenPhase = Creating | Grouping(tab: int, serial: nat) | Joining(tab: int) | Opened(tab: int) | Failed

  datatype Open = Open(sid: string, phase: OpenPhase)

  datatype Closing = Closing(sid: string, tab: int, ownership: Ownership, done: bool)

  /** History: `made` are the tabs the controller created, `acted` the tabs it acted on through an
      accepted reference, `popups` the tabs opened meanwhile by an acting tab, each with its opener,
      `closed` the tabs it asked Chrome to close; `issued` and `consumed` are share ids. */
  datatype World = World(
    reg: Registry,
    started: nat,
    offers: Offers,
    openers: set<int>,
    accepts: seq<Accept>,
    opens: seq<Open>,
    closings: seq<Closing>,
    made: set<int>,
    acted: set<int>,
    popups: map<int, int>,
    closed: set<int>,
    issued: set<string>,
    consumed: seq<string>)

  const INITIAL := World(map[], 0, map[], {}, [], [], [], {}, {}, map[], {}, {}, [])

  /** `owner` is what the registry's search for the tab returns. */
  datatype Step =
    // calls from the host
    | StartSession(sid: string)
    | CloseSession(sid: string)
    | BeginAccept(sid: string, share: string, owner: Option<string>)
    | FinishAccept(call: nat, attached: bool, owner: Option<string>)
    | BeginOpen(sid: string)
    | TabCreated(call: nat, made: Option<int>)
    | TabGrouped(call: nat, joined: Option<int>)
    | TabJoined(call: nat, attached: bool, owner: Option<string>)
    | BeginClose(sid: string, tab: int)
    | FinishClose(call: nat, confirmed: bool)
    | LoseTab(sid: string, tab: int)
    | SwitchTab(sid: string, tab: int)
    | Snapshot(sid: string, tab: int, epoch: nat, nodes: set<nat>)
    | BeginAction(sid: string, tab: int, ref: Ref)
    | ActionDone(sid: string, tab: int)
    | EndAction(tab: int)
    | Disconnect
    // the user
    | Offer(tab: int, share: string, owner: Option<string>)
    | Revoke(tab: int, owner: Option<string>)
    // Chrome
    | PageChanged(tab: int, owner: Option<string>)
    | Detached(tab: int, owner: Option<string>)
    | TabGone(tab: int, owner: Option<string>)
    | PopupOpened(tab: int, opener: int)
    | GroupMoved(tab: int, owner: Option<string>, group: int)
    | GroupRelabelled(tab: int, owner: Option<string>, group: int)

  ghost predicate Enabled(w: World, step: Step) {
    match step
    case BeginAccept(_, share, owner) => share in w.offers ==> OwnerIs(w.reg, w.offers[share], owner)
    case FinishAccept(a, _, owner) =>
      a < |w.accepts| && w.accepts[a].phase.Attaching? && OwnerIs(w.reg, w.accepts[a].tab, owner)
    case TabCreated(o, _) => o < |w.opens| && w.opens[o].phase.Creating?
    case TabGrouped(o, _) => o < |w.opens| && w.opens[o].phase.Grouping?
    case TabJoined(o, _, owner) =>
      o < |w.opens| && w.opens[o].phase.Joining? && OwnerIs(w.reg, w.opens[o].phase.tab, owner)
    case FinishClose(k, _) => k < |w.closings| && !w.closings[k].done
    case EndAction(tab) => tab in w.openers
    case Offer(tab, share, owner) => share !in w.issued && OwnerIs(w.reg, tab, owner)
    case Revoke(tab, owner) => OwnerIs(w.reg, tab, owner)
    case PageChanged(tab, owner) => OwnerIs(w.reg, tab, owner)
    case Detached(tab, owner) => OwnerIs(w.reg, tab, owner)
    case TabGone(tab, owner) => OwnerIs(w.reg, tab, owner)
    case GroupMoved(tab, owner, _) => OwnerIs(w.reg, tab, owner)
    case GroupRelabelled(tab, owner, _) => OwnerIs(w.reg, tab, owner)
    case _ => true
  }

  function Dropped(w: World, owner: Option<string>, tab: int): World {
    if owner.Some? then w.(reg := TabRemoved(w.reg, owner.value, tab)) else w
  }

  // ----- Sharing -----

  /** The share is consumed before the tab is added, so a tab taken meanwhile costs the share. */
  function ApplyBeginAccept(w: World, sid: string, share: string, owner: Option<string>): World {
    if sid !in w.reg || share !in w.offers then w
    else
      var tab := w.offers[share];
      var taken := w.(offers := w.offers - {share}, consumed := w.consumed + [share]);
      match Added(w.reg, owner, sid, tab, Shared)
      case Err(_) => taken
      case Ok(r) => taken.(reg := r, accepts := w.accepts + [Accept(sid, tab, Attaching)])
  }

  predicate AcceptSucceeds(w: World, a: Accept, attached: bool, owner: Option<string>) {
    attached && owner == Some(a.sid) && a.sid in w.reg && TabOf(w.reg, a.sid, a.tab).ownership.Shared?
  }

  /** The final check; a failure takes the tab out of its own session only. */
  function ApplyFinishAccept(w: World, n: nat, attached: bool, owner: Option<string>): World
    requires n < |w.accepts|
  {
    var a := w.accepts[n];
    if AcceptSucceeds(w, a, attached, owner) then w.(accepts := w.accepts[n := a.(phase := Accepted)])
    else
      w.(accepts := w.accepts[n := a.(phase := Refused)],
         reg := if owner == Some(a.sid) then TabRemoved(w.reg, a.sid, a.tab) else w.reg)
  }

  function ApplyOffer(w: World, tab: int, share: string, owner: Option<string>): World {
    if owner.Some? then w
    else w.(offers := Offered(w.offers, tab, share), issued := w.issued + {share})
  }

  /** revokeSharedTab withdraws the offer and, if the tab is shared, takes it back. */
  function ApplyRevoke(w: World, tab: int, owner: Option<string>): World {
    var v := w.(offers := Revoked(w.offers, tab));
    if owner.Some? && owner.value in w.reg && TabOf(w.reg, owner.value, tab).ownership.Shared?
    then Dropped(v, owner, tab) else v
  }

  // ----- Opening and closing -----

  function WithOpen(w: World, o: nat, phase: OpenPhase): World
    requires o < |w.opens|
  {
    w.(opens := w.opens[o := w.opens[o].(phase := phase)])
  }

  /** A failed open closes the tab it had created. */
  function OpenFails(w: World, o: nat, tab: int): World
    requires o < |w.opens|
  {
    WithOpen(w, o, Failed).(closed := w.closed + {tab})
  }

  function ApplyTabCreated(w: World, o: nat, made: Option<int>): World
    requires o < |w.opens|
  {
    if made.None? then WithOpen(w, o, Failed)
    else
      var v := w.(made := w.made + {made.value});
      if w.opens[o].sid !in w.reg then OpenFails(v, o, made.value)
      else WithOpen(v, o, Grouping(made.value, w.reg[w.opens[o].sid].serial))
  }

  function ApplyTabGrouped(w: World, o: nat, group: Option<int>): World
    requires o < |w.opens| && w.opens[o].phase.Grouping?
  {
    var open := w.opens[o];
    if group.None? then OpenFails(w, o, open.phase.tab)
    else
      var v := WithOpen(w, o, Joining(open.phase.tab));
      if open.sid in w.reg && w.reg[open.sid].serial == open.phase.serial
      then v.(reg := w.reg[open.sid := w.reg[open.sid].(group := group)]) else v
  }

  function ApplyTabJoined(w: World, o: nat, attached: bool, owner: Option<string>): World
    requires o < |w.opens| && w.opens[o].phase.Joining?
  {
    var open := w.opens[o];
    var tab := open.phase.tab;
    if !attached then OpenFails(w, o, tab)
    else match Added(w.reg, owner, open.sid, tab, Created)
         case Err(_) => OpenFails(w, o, tab)
         case Ok(r) => WithOpen(w, o, Opened(tab)).(reg := r)
  }

  function ApplyBeginClose(w: World, sid: string, tab: int): World {
    if !Owns(w.reg, sid, tab) then w
    else w.(closings := w.closings + [Closing(sid, tab, TabOf(w.reg, sid, tab).ownership, false)])
  }

  /** Only a tab whose entry said created is closed; a shared one is detached. */
  function ApplyFinishClose(w: World, k: nat, confirmed: bool): World
    requires k < |w.closings|
  {
    var c := w.closings[k];
    w.(closings := w.closings[k := c.(done := true)],
       reg := TabRemoved(w.reg, c.sid, c.tab),
       closed := if confirmed && c.sid in w.reg && c.ownership.Created? then w.closed + {c.tab} else w.closed)
  }

  function ApplyCloseSession(w: World, sid: string): World {
    if sid !in w.reg then w
    else w.(reg := w.reg - {sid}, closed := w.closed + set tab | tab in CleanupOf(w.reg[sid].tabs).created)
  }

  // ----- Chrome's events -----

  function ApplyPopup(w: World, tab: int, opener: int): World {
    if opener in w.openers then w.(popups := w.popups[tab := opener], closed := w.closed + {tab}) else w
  }

  function ApplyGroupMoved(w: World, tab: int, owner: Option<string>, group: int): World {
    if owner.Some? && owner.value in w.reg && TabOf(w.reg, owner.value, tab).ownership.Created?
       && w.reg[owner.value].group != Some(group)
    then Dropped(w, owner, tab) else w
  }

  function ApplyGroupRelabelled(w: World, tab: int, owner: Option<string>, group: int): World {
    if owner.Some? && owner.value in w.reg && w.reg[owner.value].group == Some(group)
    then Dropped(w, owner, tab) else w
  }

  function ApplyPageChanged(w: World, tab: int, owner: Option<string>): World {
    if owner.Some? then w.(reg := Invalidated(w.reg, owner.value, tab)) else w
  }

  function ApplyStart(w: World, sid: string): World {
    match Started(w.reg, sid, w.started)
    case Err(_) => w
    case Ok(r) => w.(reg := r, started := w.started + 1)
  }

  function ApplySwitch(w: World, sid: string, tab: int): World {
    if sid in w.reg then w.(reg := w.reg[sid := w.reg[sid].(active := Some(tab))]) else w
  }

  function ApplyBeginAction(w: World, sid: string, tab: int, ref: Ref): World {
    if AcceptsRef(w.reg, sid, tab, ref) then w.(openers := w.openers + {tab}, acted := w.acted + {tab}) else w
  }

  ghost function Apply(w: World, step: Step): World
    requires Enabled(w, step)
  {
    match step
    case StartSession(sid) => ApplyStart(w, sid)
    case CloseSession(sid) => ApplyCloseSession(w, sid)
    case BeginAccept(sid, share, owner) => ApplyBeginAccept(w, sid, share, owner)
    case FinishAccept(a, attached, owner) => ApplyFinishAccept(w, a, attached, owner)
    case BeginOpen(sid) => if sid in w.reg then w.(opens := w.opens + [Open(sid, Creating)]) else w
    case TabCreated(o, made) => ApplyTabCreated(w, o, made)
    case TabGrouped(o, group) => ApplyTabGrouped(w, o, group)
    case TabJoined(o, attached, owner) => ApplyTabJoined(w, o, attached, owner)
    case BeginClose(sid, tab) => ApplyBeginClose(w, sid, tab)
    case FinishClose(k, confirmed) => ApplyFinishClose(w, k, confirmed)
    case LoseTab(sid, tab) => w.(reg := TabRemoved(w.reg, sid, tab))
    case SwitchTab(sid, tab) => ApplySwitch(w, sid, tab)
    case Snapshot(sid, tab, epoch, nodes) => w.(reg := RefsSet(w.reg, sid, tab, epoch, nodes))
    case BeginAction(sid, tab, ref) => ApplyBeginAction(w, sid, tab, ref)
    case ActionDone(sid, tab) => w.(reg := Invalidated(w.reg, sid, tab))
    case EndAction(tab) => w.(openers := w.openers - {tab})
    case Disconnect => w.(reg := map[], offers := map[])
    case Offer(tab, share, owner) => ApplyOffer(w, tab, share, owner)
    case Revoke(tab, owner) => ApplyRevoke(w, tab, owner)
    case PageChanged(tab, owner) => ApplyPageChanged(w, tab, owner)
    case Detached(tab, owner) => Dropped(w, owner, tab)
    case TabGone(tab, owner) => Dropped(w.(offers := Revoked(w.offers, tab)), owner, tab)
    case PopupOpened(tab, opener) => ApplyPopup(w, tab, opener)
    case GroupMoved(tab, owner, group) => ApplyGroupMoved(w, tab, owner, group)
    case GroupRelabelled(tab, owner, group) => ApplyGroupRelabelled(w, tab, owner, group)
  }

  ghost predicate IsRun(ws: seq<World>, steps: seq<Step>) {
    && |ws| == |steps| + 1
    && ws[0] == INITIAL
    && forall i :: 0 <= i < |steps| ==> Enabled(ws[i], steps[i]) && ws[i + 1] == Apply(ws[i], steps[i])
  }

  // ----- The invariant -----

  /** References carry their tab's current epoch, and a tab marked created was created here. */
  predicate GoodSlot(slot: Slot<TaskTab>, made: set<int>) {
    && (forall ref :: ref in slot.value.refs ==> ref.epoch == slot.value.epoch)
    && (slot.value.ownership.Created? ==> slot.key in made)
  }

  ghost predicate SlotsGood(reg: Registry, made: set<int>) {
    forall sid, slot :: sid in reg && slot in reg[sid].tabs ==> GoodSlot(slot, made)
  }

  ghost predicate RegistryInv(reg: Registry, made: set<int>) {
    UniqueOwners(reg) && SlotsGood(reg, made)
  }

  predicate Distinct(s: seq<string>) {
    forall i, j :: 0 <= i < j < |s| ==> s[i] != s[j]
  }

  predicate SharesInv(w: World) {
    && OneOfferPerTab(w.offers)
    && (forall share :: share in w.offers ==> share in w.issued && share !in w.consumed)
    && (forall share :: share in w.consumed ==> share in w.issued)
    && Distinct(w.consumed)
  }

  predicate OpenMade(o: Open, made: set<int>) {
    match o.phase
    case Grouping(tab, _) => tab in made
    case Joining(tab) => tab in made
    case _ => true
  }

  predicate ClosedInv(w: World) {
    && (forall o :: 0 <= o < |w.opens| ==> OpenMade(w.opens[o], w.made))
    && (forall k :: 0 <= k < |w.closings| ==> w.closings[k].ownership.Created? ==> w.closings[k].tab in w.made)
    && w.closed <= w.made + w.popups.Keys
    && w.openers <= w.acted
    && (forall tab :: tab in w.popups ==> w.popups[tab] in w.acted)
  }

  ghost predicate Inv(w: World) {
    RegistryInv(w.reg, w.made) && SharesInv(w) && ClosedInv(w)
  }

  // ----- Registry changes keep the registry's invariant -----

  lemma MoreMade(reg: Registry, made: set<int>, more: set<int>)
    requires RegistryInv(reg, made) && made <= more
    ensures RegistryInv(reg, more)
  {
    forall sid, slot | sid in reg && slot in reg[sid].tabs ensures GoodSlot(slot, more) {
      assert GoodSlot(slot, made);
    }
  }

  lemma RemovedKeepsRegistry(reg: Registry, made: set<int>, sid: string, tab: int)
    requires RegistryInv(reg, made)
    ensures RegistryInv(TabRemoved(reg, sid, tab), made)
  {
    TabRemovedKeepsUnique(reg, sid, tab);
    hide UniqueOwners, AnyCreated, GoodSlot;
  }

  lemma UpdatedKeepsRegistry(reg: Registry, made: set<int>, sid: string, tab: int, value: TaskTab)
    requires RegistryInv(reg, made) && Owns(reg, sid, tab)
    requires value.ownership == TabOf(reg, sid, tab).ownership
    requires forall ref :: ref in value.refs ==> ref.epoch == value.epoch
    ensures RegistryInv(WithTab(reg, sid, tab, value), made)
  {
    WithTabKeepsUnique(reg, sid, tab, value);
    hide UniqueOwners;
    HasSlot(reg[sid].tabs, tab, NO_TAB);
    PutSlots(reg[sid].tabs, tab, value);
    assert GoodSlot(Slot(tab, TabOf(reg, sid, tab)), made);
    hide Put, Get, Has;
  }

  lemma AddedKeepsRegistry(reg: Registry, made: set<int>, sid: string, tab: int, ownership: Ownership)
    requires RegistryInv(reg, made) && sid in reg && OwnerIs(reg, tab, None)
    requires ownership.Created? ==> tab in made
    ensures RegistryInv(Added(reg, None, sid, tab, ownership).value, made)
  {
    AddedKeepsUnique(reg, sid, tab, ownership);
    hide UniqueOwners, OwnerIs;
    PutSlots(reg[sid].tabs, tab, TaskTab(0, {}, ownership));
    hide Put, Has;
  }

  lemma InvalidatedKeepsRegistry(reg: Registry, made: set<int>, sid: string, tab: int)
    requires RegistryInv(reg, made)
    ensures RegistryInv(Invalidated(reg, sid, tab), made)
  {
    hide RegistryInv, WithTab, Has, Get;
    if Owns(reg, sid, tab) {
      var t := TabOf(reg, sid, tab);
      UpdatedKeepsRegistry(reg, made, sid, tab, t.(epoch := t.epoch + 1, refs := {}));
    }
  }

  lemma RefsSetKeepsRegistry(reg: Registry, made: set<int>, sid: string, tab: int, epoch: nat, nodes: set<nat>)
    requires RegistryInv(reg, made)
    ensures RegistryInv(RefsSet(reg, sid, tab, epoch, nodes), made)
  {
    hide RegistryInv, WithTab, Has, Get;
    if Owns(reg, sid, tab) && TabOf(reg, sid, tab).epoch == epoch {
      UpdatedKeepsRegistry(reg, made, sid, tab, TabOf(reg, sid, tab).(refs := SnapshotRefs(epoch, nodes)));
    }
  }

  /** Changes of a session's group or active tab, new sessions and closed ones. */
  lemma SessionsKeepRegistry(reg: Registry, next: Registry, made: set<int>)
    requires RegistryInv(reg, made)
    requires forall sid :: sid in next ==> next[sid].tabs == [] || (sid in reg && next[sid].tabs == reg[sid].tabs)
    ensures RegistryInv(next, made)
  {
    hide GoodSlot;
  }

  // ----- The invariant, step by step -----

  lemma InvRegistry(w: World, reg: Registry)
    requires Inv(w) && RegistryInv(reg, w.made)
    ensures Inv(w.(reg := reg))
  {
    hide RegistryInv;
  }

  lemma InvDropped(w: World, owner: Option<string>, tab: int)
    requires Inv(w)
    ensures Inv(Dropped(w, owner, tab))
  {
    if owner.Some? {
      hide RegistryInv, SharesInv, ClosedInv;
      RemovedKeepsRegistry(w.reg, w.made, owner.value, tab);
    }
  }

  lemma InvRevoked(w: World, tab: int)
    requires Inv(w)
    ensures Inv(w.(offers := Revoked(w.offers, tab)))
  {
    hide RegistryInv;
  }

  lemma AddedCases(reg: Registry, owner: Option<string>, sid: string, tab: int, ownership: Ownership)
    requires OwnerIs(reg, tab, owner) && Added(reg, owner, sid, tab, ownership).Ok?
    ensures owner.None? && sid in reg && OwnerIs(reg, tab, None)
  {
  }

  lemma ConsumedDistinct(consumed: seq<string>, share: string)
    requires Distinct(consumed) && share !in consumed
    ensures Distinct(consumed + [share])
  {
  }

  lemma InvBeginAccept(w: World, sid: string, share: string, owner: Option<string>)
    requires Inv(w) && (share in w.offers ==> OwnerIs(w.reg, w.offers[share], owner))
    ensures Inv(ApplyBeginAccept(w, sid, share, owner))
  {
    if sid in w.reg && share in w.offers {
      hide RegistryInv, OwnerIs;
      var tab := w.offers[share];
      ConsumedDistinct(w.consumed, share);
      if Added(w.reg, owner, sid, tab, Shared).Ok? {
        AddedCases(w.reg, owner, sid, tab, Shared);
        AddedKeepsRegistry(w.reg, w.made, sid, tab, Shared);
      }
      hide Added;
    }
  }

  lemma InvFinishAccept(w: World, n: nat, attached: bool, owner: Option<string>)
    requires Inv(w) && n < |w.accepts|
    ensures Inv(ApplyFinishAccept(w, n, attached, owner))
  {
    hide RegistryInv, SharesInv, ClosedInv, TabRemoved, AcceptSucceeds;
    RemovedKeepsRegistry(w.reg, w.made, w.accepts[n].sid, w.accepts[n].tab);
    ParallelInv(w, ApplyFinishAccept(w, n, attached, owner));
  }

  /** Only the registry and the accepts in progress differ. */
  lemma ParallelInv(w: World, v: World)
    requires Inv(w) && RegistryInv(v.reg, v.made)
    requires v == w.(reg := v.reg, accepts := v.accepts)
    ensures Inv(v)
  {
    hide RegistryInv;
  }

  lemma InvOffer(w: World, tab: int, share: string, owner: Option<string>)
    requires Inv(w) && share !in w.issued
    ensures Inv(ApplyOffer(w, tab, share, owner))
  {
    hide RegistryInv;
    OfferedOnce(w.offers, tab, share);
  }

  lemma InvRevoke(w: World, tab: int, owner: Option<string>)
    requires Inv(w)
    ensures Inv(ApplyRevoke(w, tab, owner))
  {
    InvRevoked(w, tab);
    hide Inv;
    InvDropped(w.(offers := Revoked(w.offers, tab)), owner, tab);
  }

  lemma InvTabCreated(w: World, o: nat, made: Option<int>)
    requires Inv(w) && o < |w.opens|
    ensures Inv(ApplyTabCreated(w, o, made))
  {
    hide RegistryInv;
    if made.Some? {
      MoreMade(w.reg, w.made, w.made + {made.value});
    }
  }

  lemma InvTabGrouped(w: World, o: nat, joined: Option<int>)
    requires Inv(w) && o < |w.opens| && w.opens[o].phase.Grouping?
    ensures Inv(ApplyTabGrouped(w, o, joined))
  {
    var v := ApplyTabGrouped(w, o, joined);
    assert OpenMade(w.opens[o], w.made);
    SessionsKeepRegistry(w.reg, v.reg, w.made);
    hide RegistryInv;
  }

  lemma InvTabJoined(w: World, o: nat, attached: bool, owner: Option<string>)
    requires Inv(w) && o < |w.opens| && w.opens[o].phase.Joining? && OwnerIs(w.reg, w.opens[o].phase.tab, owner)
    ensures Inv(ApplyTabJoined(w, o, attached, owner))
  {
    hide RegistryInv, OwnerIs;
    var tab := w.opens[o].phase.tab;
    assert OpenMade(w.opens[o], w.made);
    if attached && Added(w.reg, owner, w.opens[o].sid, tab, Created).Ok? {
      AddedCases(w.reg, owner, w.opens[o].sid, tab, Created);
      AddedKeepsRegistry(w.reg, w.made, w.opens[o].sid, tab, Created);
    }
    hide Added;
  }

  lemma InvBeginClose(w: World, sid: string, tab: int)
    requires Inv(w)
    ensures Inv(ApplyBeginClose(w, sid, tab))
  {
    if Owns(w.reg, sid, tab) {
      HasSlot(w.reg[sid].tabs, tab, NO_TAB);
      assert GoodSlot(Slot(tab, TabOf(w.reg, sid, tab)), w.made);
    }
    hide RegistryInv;
  }

  lemma InvFinishClose(w: World, k: nat, confirmed: bool)
    requires Inv(w) && k < |w.closings|
    ensures Inv(ApplyFinishClose(w, k, confirmed))
  {
    hide RegistryInv, TabRemoved;
    RemovedKeepsRegistry(w.reg, w.made, w.closings[k].sid, w.closings[k].tab);
  }

  lemma InvCloseSession(w: World, sid: string)
    requires Inv(w)
    ensures Inv(ApplyCloseSession(w, sid))
  {
    if sid in w.reg {
      forall tab | tab in CleanupOf(w.reg[sid].tabs).created ensures tab in w.made {
        var slot :| slot in w.reg[sid].tabs && slot == Slot(tab, slot.value) && slot.value.ownership == Created;
        assert GoodSlot(slot, w.made);
      }
      SessionsKeepRegistry(w.reg, w.reg - {sid}, w.made);
    }
    hide RegistryInv, CleanupOf;
  }

  lemma InvPopup(w: World, tab: int, opener: int)
    requires Inv(w)
    ensures Inv(ApplyPopup(w, tab, opener))
  {
    hide RegistryInv;
  }

  lemma InvChrome(w: World, step: Step)
    requires Inv(w) && Enabled(w, step)
    requires step.PageChanged? || step.Detached? || step.TabGone? || step.PopupOpened? || step.GroupMoved?
             || step.GroupRelabelled?
    ensures Inv(Apply(w, step))
  {
    hide RegistryInv, SharesInv, Revoked, TabRemoved, Invalidated, Has, Get, OwnerIs;
    match step {
      case PageChanged(tab, owner) =>
        if owner.Some? {
          InvalidatedKeepsRegistry(w.reg, w.made, owner.value, tab);
          InvRegistry(w, Invalidated(w.reg, owner.value, tab));
        }
      case Detached(tab, owner) => InvDropped(w, owner, tab);
      case TabGone(tab, owner) =>
        InvRevoked(w, tab);
        InvDropped(w.(offers := Revoked(w.offers, tab)), owner, tab);
      case PopupOpened(tab, opener) => InvPopup(w, tab, opener);
      case GroupMoved(tab, owner, _) => InvDropped(w, owner, tab);
      case GroupRelabelled(tab, owner, _) => InvDropped(w, owner, tab);
    }
  }

  lemma InvPage(w: World, step: Step)
    requires Inv(w) && Enabled(w, step)
    requires step.StartSession? || step.LoseTab? || step.SwitchTab? || step.Snapshot? || step.BeginAction?
             || step.ActionDone? || step.EndAction? || step.Disconnect? || step.BeginOpen?
    ensures Inv(Apply(w, step))
  {
    hide RegistryInv, SharesInv, ClosedInv, TabRemoved, Invalidated, RefsSet;
    match step {
      case LoseTab(sid, tab) =>
        RemovedKeepsRegistry(w.reg, w.made, sid, tab);
        InvRegistry(w, TabRemoved(w.reg, sid, tab));
      case Snapshot(sid, tab, epoch, nodes) =>
        RefsSetKeepsRegistry(w.reg, w.made, sid, tab, epoch, nodes);
        InvRegistry(w, RefsSet(w.reg, sid, tab, epoch, nodes));
      case ActionDone(sid, tab) =>
        InvalidatedKeepsRegistry(w.reg, w.made, sid, tab);
        InvRegistry(w, Invalidated(w.reg, sid, tab));
      case _ => InvPlain(w, step);
    }
  }

  /** New sessions, switched tabs and a disconnect. */
  lemma InvSessions(w: World, reg: Registry, started: nat, offers: Offers)
    requires Inv(w) && (offers == w.offers || offers == map[])
    requires forall sid :: sid in reg ==> reg[sid].tabs == [] || (sid in w.reg && reg[sid].tabs == w.reg[sid].tabs)
    ensures Inv(w.(reg := reg, started := started, offers := offers))
  {
    SessionsKeepRegistry(w.reg, reg, w.made);
    hide RegistryInv;
  }

  lemma InvActions(w: World, step: Step)
    requires Inv(w) && Enabled(w, step) && (step.BeginAction? || step.EndAction? || step.BeginOpen?)
    ensures Inv(Apply(w, step))
  {
    hide RegistryInv, OwnerIs, AcceptsRef;
  }

  lemma InvPlain(w: World, step: Step)
    requires Inv(w) && Enabled(w, step)
    requires step.StartSession? || step.SwitchTab? || step.BeginAction? || step.EndAction? || step.Disconnect?
             || step.BeginOpen?
    ensures Inv(Apply(w, step))
  {
    hide Inv, OwnerIs, AcceptsRef;
    if step.BeginAction? || step.EndAction? || step.BeginOpen? {
      InvActions(w, step);
    } else {
      var v := Apply(w, step);
      InvSessions(w, v.reg, v.started, v.offers);
    }
  }

  lemma InvStep(w: World, step: Step)
    requires Inv(w) && Enabled(w, step)
    ensures Inv(Apply(w, step))
  {
    hide Inv, OwnerIs;
    match step {
      case CloseSession(sid) => InvCloseSession(w, sid);
      case BeginAccept(sid, share, owner) => InvBeginAccept(w, sid, share, owner);
      case FinishAccept(a, attached, owner) => InvFinishAccept(w, a, attached, owner);
      case TabCreated(o, made) => InvTabCreated(w, o, made);
      case TabGrouped(o, joined) => InvTabGrouped(w, o, joined);
      case TabJoined(o, attached, owner) => InvTabJoined(w, o, attached, owner);
      case BeginClose(sid, tab) => InvBeginClose(w, sid, tab);
      case FinishClose(k, confirmed) => InvFinishClose(w, k, confirmed);
      case Offer(tab, share, owner) => InvOffer(w, tab, share, owner);
      case Revoke(tab, owner) => InvRevoke(w, tab, owner);
      case PageChanged(_, _) => InvChrome(w, step);
      case Detached(_, _) => InvChrome(w, step);
      case TabGone(_, _) => InvChrome(w, step);
      case PopupOpened(_, _) => InvChrome(w, step);
      case GroupMoved(_, _, _) => InvChrome(w, step);
      case GroupRelabelled(_, _, _) => InvChrome(w, step);
      case _ => InvPage(w, step);
    }
  }

  lemma InvInitial()
    ensures Inv(INITIAL)
  {
  }

  lemma RunStep(ws: seq<World>, steps: seq<Step>, i: nat)
    requires IsRun(ws, steps) && i < |steps|
    ensures i + 1 < |ws| && Enabled(ws[i], steps[i]) && ws[i + 1] == Apply(ws[i], steps[i])
  {
  }

  lemma {:induction false} InvRun(ws: seq<World>, steps: seq<Step>, n: nat)
    requires IsRun(ws, steps) && n < |ws|
    ensures Inv(ws[n])
  {
    hide Inv, Apply, Enabled;
    if n == 0 {
      InvInitial();
    } else {
      InvRun(ws, steps, n - 1);
      InvStep(ws[n - 1], steps[n - 1]);
    }
  }

  // ----- What every run guarantees -----

  /** Each tab is in at most one session. */
  lemma TabsHaveOneOwner(ws: seq<World>, steps: seq<Step>, n: nat, a: string, b: string, tab: int)
    requires IsRun(ws, steps) && n < |ws| && Owns(ws[n].reg, a, tab) && Owns(ws[n].reg, b, tab)
    ensures a == b
  {
    InvRun(ws, steps, n);
  }

  /** A share id is consumed at most once and never while it is open, and a tab has at most one open
      offer. */
  lemma SharesAreUsedOnce(ws: seq<World>, steps: seq<Step>, n: nat)
    requires IsRun(ws, steps) && n < |ws|
    ensures Distinct(ws[n].consumed) && OneOfferPerTab(ws[n].offers)
    ensures forall share :: share in ws[n].offers ==> share !in ws[n].consumed
  {
    InvRun(ws, steps, n);
  }

  /** Only tabs the controller created, or that a tab it was acting on opened, are ever closed. */
  lemma OnlyOwnTabsAreClosed(ws: seq<World>, steps: seq<Step>, n: nat, tab: int)
    requires IsRun(ws, steps) && n < |ws| && tab in ws[n].closed
    ensures tab in ws[n].made || (tab in ws[n].popups && ws[n].popups[tab] in ws[n].acted)
  {
    InvRun(ws, steps, n);
  }

  /** Every reference a tab accepts carries the tab's current epoch. */
  lemma ReferencesAreCurrent(ws: seq<World>, steps: seq<Step>, n: nat, sid: string, tab: int, ref: Ref)
    requires IsRun(ws, steps) && n < |ws| && AcceptsRef(ws[n].reg, sid, tab, ref)
    ensures ref.epoch == TabOf(ws[n].reg, sid, tab).epoch
  {
    InvRun(ws, steps, n);
    HasSlot(ws[n].reg[sid].tabs, tab, NO_TAB);
    assert GoodSlot(Slot(tab, TabOf(ws[n].reg, sid, tab)), ws[n].made);
  }

  /** A tab that is closed or detached leaves its session, and a closed one loses its offer too. */
  lemma DepartedTabsAreForgotten(ws: seq<World>, steps: seq<Step>, i: nat)
    requires IsRun(ws, steps) && i < |steps| && (steps[i].TabGone? || steps[i].Detached?)
    ensures i + 1 < |ws| && OwnerIs(ws[i + 1].reg, steps[i].tab, None)
    ensures steps[i].TabGone? ==> !HasOffer(ws[i + 1].offers, steps[i].tab)
  {
    RunStep(ws, steps, i);
    InvRun(ws, steps, i);
    DroppedIsUnowned(ws[i].reg, steps[i].owner, steps[i].tab);
    hide TabRemoved, Has;
  }

  lemma DroppedIsUnowned(reg: Registry, owner: Option<string>, tab: int)
    requires UniqueOwners(reg) && OwnerIs(reg, tab, owner)
    ensures owner.Some? ==> OwnerIs(TabRemoved(reg, owner.value, tab), tab, None)
  {
    if owner.Some? {
      TabRemovedOwners(reg, owner.value, tab);
      var next := TabRemoved(reg, owner.value, tab);
      hide TabRemoved;
      forall sid | sid in next ensures !Has(next[sid].tabs, tab) {
        if Owns(reg, sid, tab) {
          OwnerIsUnique(reg, tab, owner, sid);
        }
        assert !Owns(next, sid, tab);
      }
    }
  }

  /** A page change, or an action on the page, starts a new epoch and drops every reference. */
  lemma PageChangesDropReferences(ws: seq<World>, steps: seq<Step>, i: nat, sid: string)
    requires IsRun(ws, steps) && i < |steps|
    requires (steps[i].PageChanged? && steps[i].owner == Some(sid)) || (steps[i].ActionDone? && steps[i].sid == sid)
    ensures i + 1 < |ws|
    ensures Owns(ws[i].reg, sid, steps[i].tab) ==>
              && Owns(ws[i + 1].reg, sid, steps[i].tab)
              && TabOf(ws[i + 1].reg, sid, steps[i].tab).epoch > TabOf(ws[i].reg, sid, steps[i].tab).epoch
              && TabOf(ws[i + 1].reg, sid, steps[i].tab).refs == {}
  {
    RunStep(ws, steps, i);
    var tab := steps[i].tab;
    if Owns(ws[i].reg, sid, tab) {
      var t := TabOf(ws[i].reg, sid, tab);
      WithTabOwners(ws[i].reg, sid, tab, t.(epoch := t.epoch + 1, refs := {}));
    }
    hide WithTab, Has, Get;
  }

  // ----- Accept against revoke -----

  /** An accept is answered with success exactly when, at that point, the tab is shared to its session;
      otherwise its session does not keep the tab. */
  lemma AcceptOutcome(ws: seq<World>, steps: seq<Step>, i: nat)
    requires IsRun(ws, steps) && i < |steps| && steps[i].FinishAccept?
    ensures i + 1 < |ws| && steps[i].call < |ws[i].accepts| && steps[i].call < |ws[i + 1].accepts|
    ensures var a := ws[i].accepts[steps[i].call];
            var shared := Owns(ws[i].reg, a.sid, a.tab) && TabOf(ws[i].reg, a.sid, a.tab).ownership.Shared?;
            && (ws[i + 1].accepts[steps[i].call].phase.Accepted? <==> steps[i].attached && shared)
            && (ws[i + 1].accepts[steps[i].call].phase.Accepted? ==> ws[i + 1].reg == ws[i].reg)
            && (!ws[i + 1].accepts[steps[i].call].phase.Accepted? ==> !Owns(ws[i + 1].reg, a.sid, a.tab))
  {
    RunStep(ws, steps, i);
    InvRun(ws, steps, i);
    var w := ws[i];
    var a := w.accepts[steps[i].call];
    TabRemovedOwners(w.reg, a.sid, a.tab);
    if Owns(w.reg, a.sid, a.tab) {
      OwnerIsUnique(w.reg, a.tab, steps[i].owner, a.sid);
    }
    hide TabRemoved, RegistryInv, SharesInv, ClosedInv, Has, Get;
  }

  lemma OwnerIsUnique(reg: Registry, tab: int, owner: Option<string>, sid: string)
    requires UniqueOwners(reg) && OwnerIs(reg, tab, owner) && Owns(reg, sid, tab)
    ensures owner == Some(sid)
  {
  }

  /** Nobody holds the tab as shared and no offer for it is open. */
  ghost predicate Unshared(w: World, tab: int) {
    && !HasOffer(w.offers, tab)
    && forall sid :: Owns(w.reg, sid, tab) ==> TabOf(w.reg, sid, tab).ownership.Created?
  }

  lemma RevokeUnshares(w: World, tab: int, owner: Option<string>)
    requires Inv(w) && OwnerIs(w.reg, tab, owner)
    ensures Unshared(ApplyRevoke(w, tab, owner), tab)
  {
    var v := ApplyRevoke(w, tab, owner);
    if owner.Some? {
      TabRemovedOwners(w.reg, owner.value, tab);
    }
    hide TabRemoved, Has, Get;
    forall sid | Owns(v.reg, sid, tab) ensures TabOf(v.reg, sid, tab).ownership.Created? {
      assert Owns(w.reg, sid, tab);
      OwnerIsUnique(w.reg, tab, owner, sid);
    }
  }

  // ----- How one step changes the registry -----

  datatype Move =
    | Same
    | Removed(sid: string, tab: int)
    | Updated(sid: string, tab: int, value: TaskTab)
    | Gained(sid: string, tab: int, ownership: Ownership)

  /** A tab is updated without changing hands or going back in time; a tab is gained only when nobody
      has it, and as a shared one only against its open offer. */
  ghost predicate LegalMove(w: World, m: Move) {
    match m
    case Updated(sid, tab, value) =>
      && Owns(w.reg, sid, tab)
      && value.ownership == TabOf(w.reg, sid, tab).ownership && TabOf(w.reg, sid, tab).epoch <= value.epoch
    case Gained(sid, tab, ownership) =>
      sid in w.reg && OwnerIs(w.reg, tab, None) && (ownership.Shared? ==> HasOffer(w.offers, tab))
    case _ => true
  }

  predicate Moves(reg: Registry, m: Move, next: Registry) {
    match m
    case Same => forall sid :: sid in next ==> next[sid].tabs == [] || (sid in reg && next[sid].tabs == reg[sid].tabs)
    case Removed(sid, tab) => next == TabRemoved(reg, sid, tab)
    case Updated(sid, tab, value) => sid in reg && next == WithTab(reg, sid, tab, value)
    case Gained(sid, tab, ownership) => Added(reg, None, sid, tab, ownership) == Ok(next)
  }

  lemma CallMove(w: World, step: Step) returns (m: Move)
    requires Enabled(w, step)
    requires step.FinishAccept? || step.FinishClose? || step.LoseTab? || step.Revoke? || step.Detached? || step.TabGone?
             || step.GroupMoved? || step.GroupRelabelled?
    ensures LegalMove(w, m) && Moves(w.reg, m, Apply(w, step).reg)
  {
    hide OwnerIs, TabRemoved, AcceptSucceeds, Has, Get;
    if Apply(w, step).reg == w.reg {
      return Same;
    }
    if step.FinishAccept? {
      m := Removed(w.accepts[step.call].sid, w.accepts[step.call].tab);
    } else if step.FinishClose? {
      m := Removed(w.closings[step.call].sid, w.closings[step.call].tab);
    } else if step.LoseTab? {
      m := Removed(step.sid, step.tab);
    } else {
      m := Removed(step.owner.value, step.tab);
    }
  }

  lemma PageMove(w: World, step: Step) returns (m: Move)
    requires Enabled(w, step) && (step.Snapshot? || step.ActionDone? || step.PageChanged?)
    ensures LegalMove(w, m) && Moves(w.reg, m, Apply(w, step).reg)
  {
    hide OwnerIs, WithTab, Has, Get;
    if Apply(w, step).reg == w.reg {
      return Same;
    }
    match step {
      case Snapshot(sid, tab, epoch, nodes) =>
        m := Updated(sid, tab, TabOf(w.reg, sid, tab).(refs := SnapshotRefs(epoch, nodes)));
      case ActionDone(sid, tab) =>
        var t := TabOf(w.reg, sid, tab);
        m := Updated(sid, tab, t.(epoch := t.epoch + 1, refs := {}));
      case PageChanged(tab, owner) =>
        var t := TabOf(w.reg, owner.value, tab);
        m := Updated(owner.value, tab, t.(epoch := t.epoch + 1, refs := {}));
    }
  }

  lemma GainMove(w: World, step: Step) returns (m: Move)
    requires Enabled(w, step) && (step.BeginAccept? || step.TabJoined?)
    ensures LegalMove(w, m) && Moves(w.reg, m, Apply(w, step).reg)
  {
    hide OwnerIs;
    if Apply(w, step).reg == w.reg {
      return Same;
    }
    match step {
      case BeginAccept(sid, share, owner) =>
        m := Gained(sid, w.offers[share], Shared);
        AddedCases(w.reg, owner, sid, w.offers[share], Shared);
      case TabJoined(o, _, owner) =>
        m := Gained(w.opens[o].sid, w.opens[o].phase.tab, Created);
        AddedCases(w.reg, owner, w.opens[o].sid, w.opens[o].phase.tab, Created);
    }
  }

  lemma SessionMove(w: World, step: Step)
    requires Enabled(w, step)
    requires step.StartSession? || step.CloseSession? || step.TabGrouped? || step.SwitchTab? || step.Disconnect?
    ensures Moves(w.reg, Same, Apply(w, step).reg)
  {
    hide OwnerIs, Has, Get, TabsOwned;
  }

  lemma RegistryStays(w: World, step: Step)
    requires Enabled(w, step)
    requires step.BeginOpen? || step.TabCreated? || step.BeginClose? || step.BeginAction? || step.EndAction?
             || step.PopupOpened? || step.Offer?
    ensures Apply(w, step).reg == w.reg
  {
    hide OwnerIs, AcceptsRef, Owns, Offered;
  }

  lemma PlainMove(w: World, step: Step)
    requires Enabled(w, step)
    requires step.StartSession? || step.CloseSession? || step.BeginOpen? || step.TabCreated? || step.TabGrouped?
             || step.BeginClose? || step.SwitchTab? || step.BeginAction? || step.EndAction? || step.Disconnect?
             || step.PopupOpened? || step.Offer?
    ensures Moves(w.reg, Same, Apply(w, step).reg)
  {
    hide Apply, Enabled;
    if step.StartSession? || step.CloseSession? || step.TabGrouped? || step.SwitchTab? || step.Disconnect? {
      SessionMove(w, step);
    } else {
      RegistryStays(w, step);
    }
  }

  lemma MoveOf(w: World, step: Step) returns (m: Move)
    requires Enabled(w, step)
    ensures LegalMove(w, m) && Moves(w.reg, m, Apply(w, step).reg)
  {
    hide Apply, Enabled, Moves;
    if step.BeginAccept? || step.TabJoined? {
      m := GainMove(w, step);
    } else if step.Snapshot? || step.ActionDone? || step.PageChanged? {
      m := PageMove(w, step);
    } else if step.FinishAccept? || step.FinishClose? || step.LoseTab? || step.Revoke? || step.Detached? || step.TabGone?
              || step.GroupMoved? || step.GroupRelabelled? {
      m := CallMove(w, step);
    } else {
      m := Same;
      PlainMove(w, step);
    }
  }

  /** What a legal move means for one tab of one session. */
  lemma MoveMeans(w: World, m: Move, next: Registry, sid: string, tab: int)
    requires LegalMove(w, m) && Moves(w.reg, m, next) && Owns(next, sid, tab)
    ensures Owns(w.reg, sid, tab) ==>
              TabOf(next, sid, tab).ownership == TabOf(w.reg, sid, tab).ownership
              && TabOf(w.reg, sid, tab).epoch <= TabOf(next, sid, tab).epoch
    ensures !Owns(w.reg, sid, tab) && TabOf(next, sid, tab).ownership.Shared? ==> HasOffer(w.offers, tab)
  {
    match m {
      case Same =>
      case Removed(s, t) =>
        TabRemovedOwners(w.reg, s, t);
        hide TabRemoved, Has, Get;
      case Updated(s, t, value) =>
        WithTabOwners(w.reg, s, t, value);
        hide WithTab, Has, Get;
      case Gained(s, t, ownership) => GetPut(w.reg[s].tabs, t, TaskTab(0, {}, ownership), tab, NO_TAB);
    }
  }

  lemma OffersStep(w: World, step: Step, tab: int)
    requires Enabled(w, step) && !HasOffer(w.offers, tab) && (step.Offer? ==> step.tab != tab)
    ensures !HasOffer(Apply(w, step).offers, tab)
  {
    if step.BeginAccept? || step.Offer? || step.Revoke? || step.TabGone? || step.Disconnect? {
      hide OwnerIs, Has, Get, TabRemoved, Added;
    } else {
      OffersStay(w, step);
      hide Apply;
    }
  }

  lemma UnsharedStays(w: World, step: Step, tab: int)
    requires Unshared(w, tab) && Enabled(w, step) && (step.Offer? ==> step.tab != tab)
    ensures Unshared(Apply(w, step), tab)
  {
    hide Apply, Enabled, HasOffer, Has, Get, LegalMove, Moves;
    var m := MoveOf(w, step);
    var v := Apply(w, step);
    OffersStep(w, step, tab);
    forall sid | Owns(v.reg, sid, tab) ensures TabOf(v.reg, sid, tab).ownership.Created? {
      MoveMeans(w, m, v.reg, sid, tab);
    }
  }

  lemma EpochGrows(w: World, step: Step, sid: string, tab: int)
    requires Enabled(w, step) && Owns(w.reg, sid, tab) && Owns(Apply(w, step).reg, sid, tab)
    ensures TabOf(w.reg, sid, tab).epoch <= TabOf(Apply(w, step).reg, sid, tab).epoch
  {
    hide Apply, Enabled, HasOffer, Has, Get, LegalMove, Moves;
    var m := MoveOf(w, step);
    MoveMeans(w, m, Apply(w, step).reg, sid, tab);
  }

  lemma AcceptsFixed(w: World, step: Step)
    requires Enabled(w, step) && !step.BeginAccept? && !step.FinishAccept?
    ensures Apply(w, step).accepts == w.accepts
  {
    hide OwnerIs, AcceptsRef, Has, Get, TabsOwned, CleanupOf, TabRemoved, Invalidated, RefsSet, Added, Revoked, Offered, Owns,
      TabOf, Started;
  }

  lemma AcceptsPersist(w: World, step: Step, a: nat)
    requires Enabled(w, step) && a < |w.accepts|
    ensures var v := Apply(w, step);
            a < |v.accepts| && v.accepts[a].sid == w.accepts[a].sid && v.accepts[a].tab == w.accepts[a].tab
  {
    if !step.BeginAccept? && !step.FinishAccept? {
      AcceptsFixed(w, step);
      hide Apply;
    } else {
      hide OwnerIs, Has, Get, TabRemoved, Added;
    }
  }

  lemma {:induction false} StaysUnshared(
    ws: seq<World>, steps: seq<Step>, i: nat, j: nat, a: nat, owner: Option<string>)
    requires IsRun(ws, steps) && i < j < |ws| && a < |ws[i].accepts|
    requires steps[i] == Revoke(ws[i].accepts[a].tab, owner)
    requires forall n :: i < n < j && steps[n].Offer? ==> steps[n].tab != ws[i].accepts[a].tab
    ensures a < |ws[j].accepts| && ws[j].accepts[a].sid == ws[i].accepts[a].sid
    ensures ws[j].accepts[a].tab == ws[i].accepts[a].tab
    ensures Unshared(ws[j], ws[i].accepts[a].tab)
  {
    hide Apply, Enabled, Unshared;
    RunStep(ws, steps, j - 1);
    if i + 1 == j {
      InvRun(ws, steps, i);
      RevokeStep(ws[i], steps[i]);
    } else {
      StaysUnshared(ws, steps, i, j - 1, a, owner);
      UnsharedStays(ws[j - 1], steps[j - 1], ws[i].accepts[a].tab);
    }
    AcceptsPersist(ws[j - 1], steps[j - 1], a);
  }

  lemma RevokeStep(w: World, step: Step)
    requires Inv(w) && Enabled(w, step) && step.Revoke?
    ensures Unshared(Apply(w, step), step.tab)
  {
    RevokeUnshares(w, step.tab, step.owner);
    hide Unshared, Inv;
  }

  /** An accept overtaken by a revoke, with no new offer of the tab since, is refused, and leaves the
      tab unowned unless the controller itself opened that very tab. */
  lemma OvertakenAcceptFails(
    ws: seq<World>, steps: seq<Step>, i: nat, j: nat, owner: Option<string>)
    requires IsRun(ws, steps) && i < j < |steps| && steps[j].FinishAccept? && steps[j].call < |ws[i].accepts|
    requires steps[i] == Revoke(ws[i].accepts[steps[j].call].tab, owner)
    requires forall n :: i < n < j && steps[n].Offer? ==> steps[n].tab != ws[i].accepts[steps[j].call].tab
    ensures var a := steps[j].call;
            var tab := ws[i].accepts[a].tab;
            && a < |ws[j + 1].accepts| && ws[j + 1].accepts[a].phase.Refused?
            && !Owns(ws[j + 1].reg, ws[i].accepts[a].sid, tab)
            && (tab !in ws[j + 1].made ==> OwnerIs(ws[j + 1].reg, tab, None))
  {
    var a := steps[j].call;
    var tab := ws[i].accepts[a].tab;
    StaysUnshared(ws, steps, i, j, a, owner);
    AcceptOutcome(ws, steps, j);
    RunStep(ws, steps, j);
    InvRun(ws, steps, j + 1);
    UnsharedStays(ws[j], steps[j], tab);
    hide Apply, Enabled, IsRun;
    FinishedPhase(ws[j], steps[j]);
    assert Unshared(ws[j + 1], tab);
    if tab !in ws[j + 1].made {
      UnsharedIsUnowned(ws[j + 1], tab);
    }
  }

  lemma FinishedPhase(w: World, step: Step)
    requires Enabled(w, step) && step.FinishAccept?
    ensures step.call < |Apply(w, step).accepts| && !Apply(w, step).accepts[step.call].phase.Attaching?
  {
  }

  lemma CreatedIsMade(reg: Registry, made: set<int>, sid: string, tab: int)
    requires RegistryInv(reg, made) && Owns(reg, sid, tab) && TabOf(reg, sid, tab).ownership.Created?
    ensures tab in made
  {
    HasSlot(reg[sid].tabs, tab, NO_TAB);
    assert GoodSlot(Slot(tab, TabOf(reg, sid, tab)), made);
  }

  lemma UnsharedIsUnowned(w: World, tab: int)
    requires Inv(w) && Unshared(w, tab) && tab !in w.made
    ensures OwnerIs(w.reg, tab, None)
  {
    forall sid | sid in w.reg ensures !Has(w.reg[sid].tabs, tab) {
      if Owns(w.reg, sid, tab) {
        CreatedIsMade(w.reg, w.made, sid, tab);
      }
    }
  }

  // ----- Old references stay stale -----

  /** While a tab stays in its session its epoch never goes back, so a reference of an earlier epoch
      is not accepted again. */
  lemma {:induction false} OldReferencesStayStale(
    ws: seq<World>, steps: seq<Step>, i: nat, j: nat, sid: string, tab: int)
    requires IsRun(ws, steps) && i <= j < |ws|
    requires forall n :: i <= n <= j ==> Owns(ws[n].reg, sid, tab)
    ensures Owns(ws[i].reg, sid, tab) && Owns(ws[j].reg, sid, tab)
    ensures TabOf(ws[i].reg, sid, tab).epoch <= TabOf(ws[j].reg, sid, tab).epoch
    ensures forall ref: Ref :: ref.epoch < TabOf(ws[i].reg, sid, tab).epoch ==> !AcceptsRef(ws[j].reg, sid, tab, ref)
  {
    hide Apply, Enabled, Has, Get, GoodSlot;
    assert Owns(ws[j].reg, sid, tab);
    if i < j {
      OldReferencesStayStale(ws, steps, i, j - 1, sid, tab);
      RunStep(ws, steps, j - 1);
      assert Owns(ws[j - 1].reg, sid, tab);
      EpochGrows(ws[j - 1], steps[j - 1], sid, tab);
    }
    forall ref | AcceptsRef(ws[j].reg, sid, tab, ref) ensures ref.epoch == TabOf(ws[j].reg, sid, tab).epoch {
      ReferencesAreCurrent(ws, steps, j, sid, tab, ref);
    }
  }

  // ----- Who holds a tab, which tabs are closed, which offers are open -----

  /** The step gives the tab to the session: an accepted share or a finished open of a tab nobody has. */
  predicate Gains(w: World, step: Step, sid: string, tab: int)
    requires step.TabJoined? ==> step.call < |w.opens| && w.opens[step.call].phase.Joining?
  {
    match step
    case BeginAccept(s, share, owner) => s == sid && sid in w.reg && share in w.offers && w.offers[share] == tab && owner.None?
    case TabJoined(o, attached, owner) =>
      attached && owner.None? && w.opens[o].sid == sid && sid in w.reg && w.opens[o].phase.tab == tab
    case _ => false
  }

  /** The step takes the tab from the session that has it. */
  predicate Loses(w: World, step: Step, sid: string, tab: int)
    requires sid in w.reg
    requires step.FinishAccept? ==> step.call < |w.accepts|
    requires step.FinishClose? ==> step.call < |w.closings|
  {
    var shared := TabOf(w.reg, sid, tab).ownership == Shared;
    match step
    case FinishAccept(n, attached, _) => w.accepts[n].sid == sid && w.accepts[n].tab == tab && !(attached && shared)
    case Revoke(t, _) => t == tab && shared
    case FinishClose(k, _) => w.closings[k].sid == sid && w.closings[k].tab == tab
    case CloseSession(s) => s == sid
    case LoseTab(s, t) => s == sid && t == tab
    case Detached(t, _) => t == tab
    case TabGone(t, _) => t == tab
    case GroupMoved(t, _, group) => t == tab && !shared && w.reg[sid].group != Some(group)
    case GroupRelabelled(t, _, group) => t == tab && w.reg[sid].group == Some(group)
    case Disconnect => true
    case _ => false
  }

  ghost predicate HeldAfter(w: World, step: Step, sid: string, tab: int)
    requires Enabled(w, step)
  {
    Gains(w, step, sid, tab) || (Owns(w.reg, sid, tab) && !Loses(w, step, sid, tab))
  }

  lemma CallHolds(w: World, step: Step, sid: string, tab: int)
    requires Inv(w) && Enabled(w, step)
    requires step.FinishAccept? || step.FinishClose? || step.LoseTab? || step.Revoke?
    ensures Owns(Apply(w, step).reg, sid, tab) <==> HeldAfter(w, step, sid, tab)
  {
    match step {
      case FinishAccept(n, _, owner) =>
        TabRemovedOwners(w.reg, w.accepts[n].sid, w.accepts[n].tab);
        if Owns(w.reg, w.accepts[n].sid, w.accepts[n].tab) {
          OwnerIsUnique(w.reg, w.accepts[n].tab, owner, w.accepts[n].sid);
        }
      case FinishClose(k, _) => TabRemovedOwners(w.reg, w.closings[k].sid, w.closings[k].tab);
      case LoseTab(s, t) => TabRemovedOwners(w.reg, s, t);
      case Revoke(t, owner) =>
        if owner.Some? { TabRemovedOwners(w.reg, owner.value, t); }
        if Owns(w.reg, sid, t) { OwnerIsUnique(w.reg, t, owner, sid); }
    }
    hide TabRemoved, RegistryInv, SharesInv, ClosedInv, Has, Get;
  }

  lemma DepartureHolds(w: World, step: Step, sid: string, tab: int)
    requires Inv(w) && Enabled(w, step) && (step.Detached? || step.TabGone?)
    ensures Owns(Apply(w, step).reg, sid, tab) <==> HeldAfter(w, step, sid, tab)
  {
    if step.owner.Some? { TabRemovedOwners(w.reg, step.owner.value, step.tab); }
    if Owns(w.reg, sid, step.tab) { OwnerIsUnique(w.reg, step.tab, step.owner, sid); }
    hide TabRemoved, RegistryInv, SharesInv, ClosedInv, Has, Get, OwnerIs, Revoked;
  }

  lemma GroupHolds(w: World, step: Step, sid: string, tab: int)
    requires Inv(w) && Enabled(w, step) && (step.GroupMoved? || step.GroupRelabelled?)
    ensures Owns(Apply(w, step).reg, sid, tab) <==> HeldAfter(w, step, sid, tab)
  {
    if step.owner.Some? { TabRemovedOwners(w.reg, step.owner.value, step.tab); }
    if Owns(w.reg, sid, step.tab) { OwnerIsUnique(w.reg, step.tab, step.owner, sid); }
    hide TabRemoved, RegistryInv, SharesInv, ClosedInv, Has, Get, OwnerIs, Revoked;
  }

  lemma InvalidatedOwners(reg: Registry, sid: string, tab: int)
    ensures forall a, t :: Owns(Invalidated(reg, sid, tab), a, t) <==> Owns(reg, a, t)
    ensures forall a, t :: Owns(reg, a, t) ==>
              TabOf(Invalidated(reg, sid, tab), a, t)
              == if a == sid && t == tab then TabOf(reg, a, t).(epoch := TabOf(reg, a, t).epoch + 1, refs := {})
                 else TabOf(reg, a, t)
  {
    if Owns(reg, sid, tab) {
      var t := TabOf(reg, sid, tab);
      WithTabOwners(reg, sid, tab, t.(epoch := t.epoch + 1, refs := {}));
    }
    hide WithTab, Has, Get;
  }

  lemma PageHolds(w: World, step: Step, sid: string, tab: int)
    requires Enabled(w, step) && (step.Snapshot? || step.ActionDone? || step.PageChanged?)
    ensures Owns(Apply(w, step).reg, sid, tab) <==> Owns(w.reg, sid, tab)
  {
    match step {
      case Snapshot(s, t, epoch, nodes) =>
        if Owns(w.reg, s, t) {
          WithTabOwners(w.reg, s, t, TabOf(w.reg, s, t).(refs := SnapshotRefs(epoch, nodes)));
        }
      case ActionDone(s, t) => InvalidatedOwners(w.reg, s, t);
      case PageChanged(t, owner) => if owner.Some? { InvalidatedOwners(w.reg, owner.value, t); }
    }
    hide WithTab, Has, Get, OwnerIs, Invalidated;
  }

  lemma GainHolds(w: World, step: Step, sid: string, tab: int)
    requires Enabled(w, step) && (step.BeginAccept? || step.TabJoined?)
    ensures Owns(Apply(w, step).reg, sid, tab) <==> HeldAfter(w, step, sid, tab)
  {
    match step {
      case BeginAccept(s, share, owner) =>
        if share in w.offers { AddedMeans(w.reg, owner, s, w.offers[share], Shared); }
      case TabJoined(o, _, owner) => AddedMeans(w.reg, owner, w.opens[o].sid, w.opens[o].phase.tab, Created);
    }
    hide OwnerIs, Has, Get;
  }

  lemma SessionHolds(w: World, step: Step, sid: string, tab: int)
    requires Enabled(w, step)
    requires step.StartSession? || step.CloseSession? || step.TabGrouped? || step.SwitchTab? || step.Disconnect?
    ensures Owns(Apply(w, step).reg, sid, tab) <==> HeldAfter(w, step, sid, tab)
  {
    hide OwnerIs, Get, TabsOwned;
  }

  /** A session has a tab after a step exactly if the step gives it that tab, or it had it and the step
      does not take it. */
  lemma TabsChangeHands(ws: seq<World>, steps: seq<Step>, i: nat, sid: string, tab: int)
    requires IsRun(ws, steps) && i < |steps|
    ensures i + 1 < |ws| && Enabled(ws[i], steps[i])
    ensures Owns(ws[i + 1].reg, sid, tab) <==> HeldAfter(ws[i], steps[i], sid, tab)
  {
    hide Apply, Enabled, Inv, HeldAfter, Owns;
    RunStep(ws, steps, i);
    InvRun(ws, steps, i);
    var w, step := ws[i], steps[i];
    if step.FinishAccept? || step.FinishClose? || step.LoseTab? || step.Revoke? {
      CallHolds(w, step, sid, tab);
    } else if step.Detached? || step.TabGone? {
      DepartureHolds(w, step, sid, tab);
    } else if step.GroupMoved? || step.GroupRelabelled? {
      GroupHolds(w, step, sid, tab);
    } else if step.BeginAccept? || step.TabJoined? {
      GainHolds(w, step, sid, tab);
    } else if step.StartSession? || step.CloseSession? || step.TabGrouped? || step.SwitchTab? || step.Disconnect? {
      SessionHolds(w, step, sid, tab);
    } else {
      StaysHeld(w, step, sid, tab);
    }
  }

  lemma StaysHeld(w: World, step: Step, sid: string, tab: int)
    requires Enabled(w, step)
    requires step.Snapshot? || step.ActionDone? || step.PageChanged? || step.BeginOpen? || step.TabCreated?
             || step.BeginClose? || step.BeginAction? || step.EndAction? || step.PopupOpened? || step.Offer?
    ensures Owns(Apply(w, step).reg, sid, tab) <==> HeldAfter(w, step, sid, tab)
  {
    hide Apply, Enabled, Owns;
    if step.Snapshot? || step.ActionDone? || step.PageChanged? {
      PageHolds(w, step, sid, tab);
    } else {
      RegistryStays(w, step);
    }
  }

  /** The step asks Chrome to close the tab: an open that failed after creating it, a confirmed close or
      the end of the session of a created tab, or a popup of a tab being acted on. */
  predicate Closes(w: World, step: Step, tab: int)
    requires step.TabCreated? || step.TabGrouped? || step.TabJoined? ==> step.call < |w.opens|
    requires step.TabGrouped? ==> w.opens[step.call].phase.Grouping?
    requires step.TabJoined? ==> w.opens[step.call].phase.Joining?
    requires step.FinishClose? ==> step.call < |w.closings|
  {
    match step
    case TabCreated(o, made) => made == Some(tab) && w.opens[o].sid !in w.reg
    case TabGrouped(o, joined) => joined.None? && w.opens[o].phase.tab == tab
    case TabJoined(o, attached, owner) =>
      w.opens[o].phase.tab == tab && (!attached || owner.Some? || w.opens[o].sid !in w.reg)
    case FinishClose(k, confirmed) =>
      confirmed && w.closings[k].tab == tab && w.closings[k].sid in w.reg && w.closings[k].ownership == Created
    case CloseSession(sid) =>
      sid in w.reg && exists slot :: slot in w.reg[sid].tabs && slot.key == tab && slot.value.ownership == Created
    case PopupOpened(t, opener) => t == tab && opener in w.openers
    case _ => false
  }

  lemma CleanedUp(tabs: seq<Slot<TaskTab>>, tab: int)
    ensures tab in CleanupOf(tabs).created
            <==> exists slot :: slot in tabs && slot.key == tab && slot.value.ownership == Created
  {
    if slot :| slot in tabs && slot.key == tab && slot.value.ownership == Created {
      assert slot == Slot(tab, slot.value);
    }
  }

  lemma OpensClose(w: World, step: Step, tab: int)
    requires Enabled(w, step) && (step.TabCreated? || step.TabGrouped? || step.TabJoined?)
    ensures tab in Apply(w, step).closed <==> tab in w.closed || Closes(w, step, tab)
  {
    hide OwnerIs, Has, Get;
  }

  lemma OthersClose(w: World, step: Step, tab: int)
    requires Enabled(w, step) && !step.TabCreated? && !step.TabGrouped? && !step.TabJoined?
    ensures tab in Apply(w, step).closed <==> tab in w.closed || Closes(w, step, tab)
  {
    if step.CloseSession? && step.sid in w.reg {
      CleanedUp(w.reg[step.sid].tabs, tab);
    }
    hide OwnerIs, AcceptsRef, Has, Get, TabsOwned, CleanupOf, TabRemoved, Invalidated, RefsSet, Added, Revoked, Offered, Owns,
      TabOf, Started;
  }

  /** Exactly these tabs are closed. */
  lemma TabsAreClosedExactlyWhen(ws: seq<World>, steps: seq<Step>, i: nat, tab: int)
    requires IsRun(ws, steps) && i < |steps|
    ensures i + 1 < |ws| && Enabled(ws[i], steps[i])
    ensures tab in ws[i + 1].closed <==> tab in ws[i].closed || Closes(ws[i], steps[i], tab)
  {
    hide Apply, Closes;
    RunStep(ws, steps, i);
    if steps[i].TabCreated? || steps[i].TabGrouped? || steps[i].TabJoined? {
      OpensClose(ws[i], steps[i], tab);
    } else {
      OthersClose(ws[i], steps[i], tab);
    }
  }

  /** The step withdraws an offer of the tab: it is taken up, replaced or revoked, or its tab or the
      connection is gone. */
  predicate Withdraws(w: World, step: Step, share: string, tab: int) {
    match step
    case BeginAccept(sid, s, _) => s == share && sid in w.reg
    case Offer(t, _, owner) => t == tab && owner.None?
    case Revoke(t, _) => t == tab
    case TabGone(t, _) => t == tab
    case Disconnect => true
    case _ => false
  }

  /** An offer is open after a step exactly if the step makes it, for a tab nobody has, or it was open and
      the step does not withdraw it; a share is consumed exactly by a session accepting an open offer. */
  lemma OffersOpenExactlyWhen(ws: seq<World>, steps: seq<Step>, i: nat, share: string, tab: int)
    requires IsRun(ws, steps) && i < |steps|
    ensures i + 1 < |ws|
    ensures var w, v, step := ws[i], ws[i + 1], steps[i];
            && (share in v.offers && v.offers[share] == tab
                <==> step == Offer(tab, share, None)
                     || (share in w.offers && w.offers[share] == tab && !Withdraws(w, step, share, tab)))
            && v.consumed == w.consumed + (if step.BeginAccept? && step.sid in w.reg && step.share in w.offers
                                           then [step.share] else [])
  {
    RunStep(ws, steps, i);
    InvRun(ws, steps, i);
    hide IsRun;
    OffersAfter(ws[i], steps[i], share, tab);
  }

  lemma OffersAfter(w: World, step: Step, share: string, tab: int)
    requires SharesInv(w) && Enabled(w, step)
    ensures var v := Apply(w, step);
            && (share in v.offers && v.offers[share] == tab
                <==> step == Offer(tab, share, None)
                     || (share in w.offers && w.offers[share] == tab && !Withdraws(w, step, share, tab)))
            && v.consumed == w.consumed + (if step.BeginAccept? && step.sid in w.reg && step.share in w.offers
                                           then [step.share] else [])
  {
    assert w.consumed + [] == w.consumed;
    if step.BeginAccept? || step.Offer? || step.Revoke? || step.TabGone? || step.Disconnect? {
      hide Distinct, OneOfferPerTab, OwnerIs, Has, Get, TabRemoved, Added;
    } else {
      OffersStay(w, step);
      hide Apply;
    }
  }

  lemma OffersStay(w: World, step: Step)
    requires Enabled(w, step)
    requires !(step.BeginAccept? || step.Offer? || step.Revoke? || step.TabGone? || step.Disconnect?)
    ensures Apply(w, step).offers == w.offers && Apply(w, step).consumed == w.consumed
  {
    if IsCall(step) {
      CallsLeaveOffers(w, step);
      hide Apply;
    } else {
      hide OwnerIs, AcceptsRef, Has, Get, TabRemoved, Invalidated, RefsSet, Owns, TabOf, Started;
    }
  }

  lemma CallsLeaveOffers(w: World, step: Step)
    requires Enabled(w, step) && IsCall(step) && !step.BeginAccept? && !step.Offer? && !step.Revoke?
    ensures Apply(w, step).offers == w.offers && Apply(w, step).consumed == w.consumed
  {
    hide OwnerIs, Has, Get, TabsOwned, CleanupOf, TabRemoved, Added, Owns, TabOf;
  }


  // ----- How calls go on -----

  /** The next phase of an open: it fails when Chrome does, when its session is gone, or when the tab was
      taken meanwhile; otherwise the new tab is grouped, joined and then the session's. */
  predicate GoesOnTo(w: World, step: Step, sid: string, next: OpenPhase)
    requires step.TabGrouped? ==> step.call < |w.opens| && w.opens[step.call].phase.Grouping?
    requires step.TabJoined? ==> step.call < |w.opens| && w.opens[step.call].phase.Joining?
  {
    match step
    case TabCreated(_, made) =>
      if made.Some? && sid in w.reg then next == Grouping(made.value, w.reg[sid].serial) else next == Failed
    case TabGrouped(o, joined) => if joined.Some? then next == Joining(w.opens[o].phase.tab) else next == Failed
    case TabJoined(o, attached, owner) =>
      if attached && owner.None? && sid in w.reg then next == Opened(w.opens[o].phase.tab) else next == Failed
    case _ => false
  }

  /** Opens begin for sessions there are, and go on one phase at a time. */
  lemma OpensGoOn(ws: seq<World>, steps: seq<Step>, i: nat)
    requires IsRun(ws, steps) && i < |steps|
    ensures i + 1 < |ws| && Enabled(ws[i], steps[i])
    ensures var w, v, step := ws[i], ws[i + 1], steps[i];
            if step.TabCreated? || step.TabGrouped? || step.TabJoined? then
              && step.call < |w.opens| == |v.opens|
              && v.opens[step.call].sid == w.opens[step.call].sid
              && GoesOnTo(w, step, w.opens[step.call].sid, v.opens[step.call].phase)
              && forall o :: 0 <= o < |w.opens| && o != step.call ==> v.opens[o] == w.opens[o]
            else v.opens == w.opens + (if step.BeginOpen? && step.sid in w.reg then [Open(step.sid, Creating)] else [])
  {
    RunStep(ws, steps, i);
    hide IsRun;
    if steps[i].TabCreated? || steps[i].TabGrouped? || steps[i].TabJoined? {
      OpenGoesOn(ws[i], steps[i]);
    } else {
      OpensStart(ws[i], steps[i]);
    }
  }

  lemma OpenGoesOn(w: World, step: Step)
    requires Enabled(w, step) && (step.TabCreated? || step.TabGrouped? || step.TabJoined?)
    ensures var v := Apply(w, step);
            && step.call < |w.opens| == |v.opens|
            && v.opens[step.call].sid == w.opens[step.call].sid
            && GoesOnTo(w, step, w.opens[step.call].sid, v.opens[step.call].phase)
            && forall o :: 0 <= o < |w.opens| && o != step.call ==> v.opens[o] == w.opens[o]
  {
    hide OwnerIs, Has, Get;
  }

  lemma OpensStart(w: World, step: Step)
    requires Enabled(w, step) && !step.TabCreated? && !step.TabGrouped? && !step.TabJoined?
    ensures Apply(w, step).opens
            == w.opens + (if step.BeginOpen? && step.sid in w.reg then [Open(step.sid, Creating)] else [])
  {
    assert w.opens + [] == w.opens;
    hide OwnerIs, AcceptsRef, Has, Get, TabsOwned, CleanupOf, TabRemoved, Invalidated, RefsSet, Added, Revoked, Offered, Owns,
      TabOf, Started;
  }

  /** Accepts and closes in progress: an accept begins exactly with the tab its session gains, a close with
      a tab its session has, and each is finished by its own last step. */
  lemma CallsBegin(ws: seq<World>, steps: seq<Step>, i: nat)
    requires IsRun(ws, steps) && i < |steps|
    ensures i + 1 < |ws| && Enabled(ws[i], steps[i])
    ensures var w, v, step := ws[i], ws[i + 1], steps[i];
            && (step.BeginAccept? ==>
                  v.accepts == w.accepts + (if step.share in w.offers && Gains(w, step, step.sid, w.offers[step.share])
                                            then [Accept(step.sid, w.offers[step.share], Attaching)] else []))
            && (step.BeginClose? ==>
                  v.closings == w.closings + (if Owns(w.reg, step.sid, step.tab)
                                              then [Closing(step.sid, step.tab, TabOf(w.reg, step.sid, step.tab).ownership,
                                                            false)] else []))
            && (step.FinishClose? ==> v.closings == w.closings[step.call := w.closings[step.call].(done := true)])
            && (!step.BeginClose? && !step.FinishClose? ==> v.closings == w.closings)
  {
    RunStep(ws, steps, i);
    hide IsRun;
    CallBegins(ws[i], steps[i]);
  }

  lemma CallBegins(w: World, step: Step)
    requires Enabled(w, step)
    ensures var v := Apply(w, step);
            && (step.BeginAccept? ==>
                  v.accepts == w.accepts + (if step.share in w.offers && Gains(w, step, step.sid, w.offers[step.share])
                                            then [Accept(step.sid, w.offers[step.share], Attaching)] else []))
            && (step.BeginClose? ==>
                  v.closings == w.closings + (if Owns(w.reg, step.sid, step.tab)
                                              then [Closing(step.sid, step.tab, TabOf(w.reg, step.sid, step.tab).ownership,
                                                            false)] else []))
            && (step.FinishClose? ==> v.closings == w.closings[step.call := w.closings[step.call].(done := true)])
            && (!step.BeginClose? && !step.FinishClose? ==> v.closings == w.closings)
  {
    assert w.accepts + [] == w.accepts && w.closings + [] == w.closings;
    hide OwnerIs, AcceptsRef, TabsOwned, CleanupOf, TabRemoved, Invalidated, RefsSet, Revoked, Offered, Owns, TabOf, Started;
  }

  /** A tab is being acted on, and its popups are caught, from an action with one of its current references
      until that action ends; whatever was acted on had such a reference. */
  lemma ActionsNeedReferences(ws: seq<World>, steps: seq<Step>, i: nat, tab: int)
    requires IsRun(ws, steps) && i < |steps|
    ensures i + 1 < |ws|
    ensures var w, v, step := ws[i], ws[i + 1], steps[i];
            var begins := step.BeginAction? && step.tab == tab && step.sid in w.reg && Has(w.reg[step.sid].tabs, tab)
                          && step.ref in Get(w.reg[step.sid].tabs, tab, NO_TAB).refs;
            && (tab in v.openers <==> begins || (tab in w.openers && step != EndAction(tab)))
            && (tab in v.acted <==> begins || tab in w.acted)
  {
    RunStep(ws, steps, i);
    hide IsRun;
    if steps[i].BeginAction? || steps[i].EndAction? {
      hide OwnerIs, Has, Get;
    } else {
      ActionsStay(ws[i], steps[i]);
      hide Apply;
    }
  }

  /** Calls that go through several steps. */
  predicate IsCall(step: Step) {
    step.BeginAccept? || step.FinishAccept? || step.BeginOpen? || step.TabCreated? || step.TabGrouped? || step.TabJoined?
    || step.BeginClose? || step.FinishClose? || step.CloseSession? || step.Offer? || step.Revoke?
  }

  lemma CallsLeaveActions(w: World, step: Step)
    requires Enabled(w, step) && IsCall(step)
    ensures Apply(w, step).openers == w.openers && Apply(w, step).acted == w.acted
  {
    if step.TabCreated? || step.TabGrouped? || step.TabJoined? {
      OpensLeaveActions(w, step);
      hide Apply;
    } else {
      hide OwnerIs, Has, Get, TabsOwned, CleanupOf, TabRemoved, Added, Revoked, Offered, Owns, TabOf;
    }
  }

  lemma OpensLeaveActions(w: World, step: Step)
    requires Enabled(w, step) && (step.TabCreated? || step.TabGrouped? || step.TabJoined?)
    ensures Apply(w, step).openers == w.openers && Apply(w, step).acted == w.acted
  {
    hide OwnerIs, Added;
  }

  lemma ActionsStay(w: World, step: Step)
    requires Enabled(w, step) && !step.BeginAction? && !step.EndAction?
    ensures Apply(w, step).openers == w.openers && Apply(w, step).acted == w.acted
  {
    if IsCall(step) {
      CallsLeaveActions(w, step);
      hide Apply;
    } else {
      hide OwnerIs, Has, Get, TabRemoved, Invalidated, RefsSet, Revoked, Started, Owns, TabOf;
    }
  }

  /** A snapshot of a tab's current epoch gives it exactly the references it names. */
  lemma SnapshotsGiveReferences(ws: seq<World>, steps: seq<Step>, i: nat)
    requires IsRun(ws, steps) && i < |steps| && steps[i].Snapshot?
    ensures i + 1 < |ws|
    ensures var w, v, step := ws[i], ws[i + 1], steps[i];
            if Owns(w.reg, step.sid, step.tab) && TabOf(w.reg, step.sid, step.tab).epoch == step.epoch then
              forall ref :: AcceptsRef(v.reg, step.sid, step.tab, ref) <==> ref.epoch == step.epoch && ref.node in step.nodes
            else v == w
  {
    RunStep(ws, steps, i);
    var step := steps[i];
    RefsSetMeans(ws[i].reg, step.sid, step.tab, step.epoch, step.nodes);
    hide IsRun, RefsSet, Has, Get;
  }

  /** No two session objects carry the same number, and later ones carry larger ones. */
  predicate SerialsInv(w: World) {
    && (forall sid :: sid in w.reg ==> w.reg[sid].serial < w.started)
    && (forall a, b :: a in w.reg && b in w.reg && w.reg[a].serial == w.reg[b].serial ==> a == b)
  }

  /** Which session objects there are after a step. */
  ghost predicate SessionKept(w: World, step: Step, v: World, sid: string) {
    if step == StartSession(sid) && sid !in w.reg then sid in v.reg && v.reg[sid].serial == w.started
    else
      && (sid in v.reg <==> sid in w.reg && !step.Disconnect? && step != CloseSession(sid))
      && (sid in v.reg ==> v.reg[sid].serial == w.reg[sid].serial)
  }

  lemma RemovalsKeepSessions(w: World, step: Step, sid: string)
    requires Enabled(w, step)
    requires step.FinishAccept? || step.FinishClose? || step.LoseTab? || step.Revoke? || step.Detached? || step.TabGone?
             || step.GroupMoved? || step.GroupRelabelled?
    ensures SessionKept(w, step, Apply(w, step), sid)
  {
    hide OwnerIs, Has, Get, Remove, AnyCreated, Revoked;
  }

  lemma PagesKeepSessions(w: World, step: Step, sid: string)
    requires Enabled(w, step)
    requires step.Snapshot? || step.ActionDone? || step.PageChanged? || step.BeginAccept? || step.TabJoined?
    ensures SessionKept(w, step, Apply(w, step), sid)
  {
    hide OwnerIs, Has, Get, Put;
  }

  lemma SessionStepsKeep(w: World, step: Step, sid: string)
    requires Enabled(w, step)
    requires step.StartSession? || step.CloseSession? || step.TabGrouped? || step.SwitchTab? || step.Disconnect?
    ensures SessionKept(w, step, Apply(w, step), sid)
  {
    hide OwnerIs, Has, Get, TabsOwned;
  }

  lemma SessionsKept(w: World, step: Step, sid: string)
    requires Enabled(w, step)
    ensures SessionKept(w, step, Apply(w, step), sid)
  {
    hide Apply, Enabled;
    if step.FinishAccept? || step.FinishClose? || step.LoseTab? || step.Revoke? || step.Detached? || step.TabGone?
       || step.GroupMoved? || step.GroupRelabelled? {
      RemovalsKeepSessions(w, step, sid);
    } else if step.Snapshot? || step.ActionDone? || step.PageChanged? || step.BeginAccept? || step.TabJoined? {
      PagesKeepSessions(w, step, sid);
    } else if step.StartSession? || step.CloseSession? || step.TabGrouped? || step.SwitchTab? || step.Disconnect? {
      SessionStepsKeep(w, step, sid);
    } else {
      RegistryStays(w, step);
    }
  }

  lemma StartedCounts(w: World, step: Step)
    requires Enabled(w, step)
    ensures Apply(w, step).started == w.started + (if step.StartSession? && step.sid !in w.reg then 1 else 0)
  {
    if !step.StartSession? {
      StartedStays(w, step);
      hide Apply;
    }
  }

  lemma StartedStays(w: World, step: Step)
    requires Enabled(w, step) && !step.StartSession?
    ensures Apply(w, step).started == w.started
  {
    hide OwnerIs, AcceptsRef, Has, Get, TabsOwned, CleanupOf, Revoked, Offered, TabRemoved, Invalidated, RefsSet, Added, Owns,
      TabOf;
  }

  lemma SerialsStep(w: World, step: Step)
    requires SerialsInv(w) && Enabled(w, step)
    ensures SerialsInv(Apply(w, step))
  {
    hide Apply, Enabled;
    StartedCounts(w, step);
    var v := Apply(w, step);
    forall a | a in v.reg ensures v.reg[a].serial < v.started {
      SessionsKept(w, step, a);
    }
    forall a, b | a in v.reg && b in v.reg && v.reg[a].serial == v.reg[b].serial ensures a == b {
      SessionsKept(w, step, a);
      SessionsKept(w, step, b);
    }
  }

  lemma {:induction false} SerialsTellSessionsApart(ws: seq<World>, steps: seq<Step>, n: nat)
    requires IsRun(ws, steps) && n < |ws|
    ensures SerialsInv(ws[n])
  {
    hide Apply, Enabled, SerialsInv;
    if n == 0 {
      NoSerials();
    } else {
      SerialsTellSessionsApart(ws, steps, n - 1);
      RunStep(ws, steps, n - 1);
      SerialsStep(ws[n - 1], steps[n - 1]);
    }
  }

  lemma NoSerials()
    ensures SerialsInv(INITIAL)
  {
  }

  /** Sessions begin empty under a new number; a finished group call sets the group of the very session
      object it was made for, and of no other. */
  lemma SessionsGoOn(ws: seq<World>, steps: seq<Step>, i: nat, sid: string)
    requires IsRun(ws, steps) && i < |steps|
    ensures i + 1 < |ws| && Enabled(ws[i], steps[i])
    ensures var w, v, step := ws[i], ws[i + 1], steps[i];
            && (step.StartSession? && step.sid == sid && sid !in w.reg ==>
                  sid in v.reg && v.reg[sid] == TaskSession(w.started, [], None, None))
            && (step.StartSession? && step.sid == sid && sid in w.reg ==> v == w)
            && (step.SwitchTab? && step.sid == sid && sid in w.reg ==>
                  sid in v.reg && v.reg[sid] == w.reg[sid].(active := Some(step.tab)))
            && (step.TabGrouped? && sid in w.reg ==>
                  && sid in v.reg && step.call < |w.opens| && w.opens[step.call].phase.Grouping?
                  && v.reg[sid]
                     == if step.joined.Some? && w.opens[step.call].sid == sid
                           && w.reg[sid].serial == w.opens[step.call].phase.serial
                        then w.reg[sid].(group := step.joined) else w.reg[sid])
            && (sid in v.reg <==> (step.StartSession? && step.sid == sid)
                                  || (sid in w.reg && !step.Disconnect? && !(step.CloseSession? && step.sid == sid)))
  {
    RunStep(ws, steps, i);
    hide IsRun;
    SessionGoesOn(ws[i], steps[i], sid);
    SessionsKept(ws[i], steps[i], sid);
    hide Apply, Enabled;
  }

  lemma SessionGoesOn(w: World, step: Step, sid: string)
    requires Enabled(w, step)
    ensures var v := Apply(w, step);
            && (step.StartSession? && step.sid == sid && sid !in w.reg ==>
                  sid in v.reg && v.reg[sid] == TaskSession(w.started, [], None, None))
            && (step.StartSession? && step.sid == sid && sid in w.reg ==> v == w)
            && (step.SwitchTab? && step.sid == sid && sid in w.reg ==>
                  sid in v.reg && v.reg[sid] == w.reg[sid].(active := Some(step.tab)))
            && (step.TabGrouped? && sid in w.reg ==>
                  && sid in v.reg && step.call < |w.opens| && w.opens[step.call].phase.Grouping?
                  && v.reg[sid]
                     == if step.joined.Some? && w.opens[step.call].sid == sid
                           && w.reg[sid].serial == w.opens[step.call].phase.serial
                        then w.reg[sid].(group := step.joined) else w.reg[sid])
  {
    hide OwnerIs, AcceptsRef, Has, Get;
  }

  // ----- No call waits for another -----

  /** The registry's search for a tab has a result. */
  lemma SearchEnds(reg: Registry, tab: int) returns (owner: Option<string>)
    ensures OwnerIs(reg, tab, owner)
  {
    if sid :| sid in reg && Has(reg[sid].tabs, tab) {
      return Some(sid);
    } else {
      return None;
    }
  }

  /** The awaits an open has before it at most. */
  function AwaitsLeft(phase: OpenPhase): nat {
    match phase
    case Creating => 3
    case Grouping(_, _) => 2
    case Joining(_) => 1
    case Opened(_) => 0
    case Failed => 0
  }

  ghost predicate NearerOpened(w: World, step: Step, o: nat)
    requires o < |w.opens|
  {
    && Enabled(w, step) && |Apply(w, step).opens| == |w.opens|
    && AwaitsLeft(Apply(w, step).opens[o].phase) < AwaitsLeft(w.opens[o].phase)
  }

  /** Whatever else happens, an accepted share and a close can each go on after their await, however it
      ends, and are then over. */
  lemma AcceptsAndClosesCanEnd(w: World, n: nat, ok: bool)
    ensures n < |w.accepts| && w.accepts[n].phase.Attaching? ==>
              exists owner :: var step := FinishAccept(n, ok, owner);
                Enabled(w, step) && |Apply(w, step).accepts| == |w.accepts|
                && !Apply(w, step).accepts[n].phase.Attaching?
    ensures n < |w.closings| && !w.closings[n].done ==>
              var step := FinishClose(n, ok);
              Enabled(w, step) && |Apply(w, step).closings| == |w.closings| && Apply(w, step).closings[n].done
  {
    hide OwnerIs, Added, TabRemoved, TabOf;
    if n < |w.accepts| && w.accepts[n].phase.Attaching? {
      var owner := SearchEnds(w.reg, w.accepts[n].tab);
      assert Enabled(w, FinishAccept(n, ok, owner));
    }
  }

  /** So can an open that is not over, which is over after at most three awaits. */
  lemma OpensCanEnd(w: World, o: nat, ok: bool)
    requires o < |w.opens|
    ensures AwaitsLeft(w.opens[o].phase) <= 3
    ensures w.opens[o].phase.Creating? ==> forall made :: NearerOpened(w, TabCreated(o, made), o)
    ensures w.opens[o].phase.Grouping? ==> forall joined :: NearerOpened(w, TabGrouped(o, joined), o)
    ensures w.opens[o].phase.Joining? ==> exists owner :: NearerOpened(w, TabJoined(o, ok, owner), o)
  {
    hide OwnerIs, Added;
    if w.opens[o].phase.Joining? {
      var owner := SearchEnds(w.reg, w.opens[o].phase.tab);
      assert NearerOpened(w, TabJoined(o, ok, owner), o);
    }
  }

  /** Calls of the host and new tabs, none of which asks for the owner of a tab. */
  predicate AsksNoOwner(step: Step) {
    step.StartSession? || step.CloseSession? || step.BeginOpen? || step.BeginClose? || step.LoseTab? || step.SwitchTab?
    || step.Snapshot? || step.BeginAction? || step.ActionDone? || step.Disconnect? || step.PopupOpened?
  }

  /** An action that opened its gate for popups can close it, and only such an action; every call of
      the host that asks for no owner is taken up at any time, and so is whatever Chrome or the user does to a tab. */
  lemma CallsAreTakenUp(w: World, tab: int, share: string, group: int)
    requires share !in w.issued
    ensures Enabled(w, EndAction(tab)) <==> tab in w.openers
    ensures forall step :: AsksNoOwner(step) ==> Enabled(w, step)
    ensures exists owner :: Enabled(w, Offer(tab, share, owner)) && Enabled(w, Revoke(tab, owner))
                            && Enabled(w, PageChanged(tab, owner)) && Enabled(w, Detached(tab, owner))
                            && Enabled(w, TabGone(tab, owner)) && Enabled(w, GroupMoved(tab, owner, group))
                            && Enabled(w, GroupRelabelled(tab, owner, group))
  {
    hide OwnerIs;
    var owner := SearchEnds(w.reg, tab);
    assert Enabled(w, Offer(tab, share, owner));
  }

  /** A known share can be accepted for any session, an unknown one is refused. */
  lemma SharesAreTakenUp(w: World, sid: string, share: string)
    ensures exists owner :: Enabled(w, BeginAccept(sid, share, owner))
    ensures share !in w.offers ==> forall owner :: Apply(w, BeginAccept(sid, share, owner)) == w
  {
    hide OwnerIs, Added;
    var owner := SearchEnds(w.reg, if share in w.offers then w.offers[share] else 0);
    assert Enabled(w, BeginAccept(sid, share, owner));
  }
}
