/** The "Manage Access" sheet of `src/components/DeviceSettingsModal.js`: it
    loads a device's members view from the device service, lets the owner
    remove other members, and decides per row what to show. */
module DeviceSettingsModal {
  import opened Common
  import opened DeviceService

  // ---------------------------------------------------------------------
  // What a row shows (`renderItem`)
  // ---------------------------------------------------------------------

  /** `members.find(m => m.uid === viewer)?.role`: the role of the first
      entry with the viewer's uid. Without a signed-in user nothing matches. */
  function FindRole(members: seq<MemberEntry>, viewer: Option<Uid>): (r: Option<Role>)
    ensures r.None? <==> viewer.None? || forall i :: 0 <= i < |members| ==> members[i].uid != viewer.value
    ensures r.Some? ==> exists i :: 0 <= i < |members| && members[i].uid == viewer.value && members[i].role == r.value &&
                          forall j :: 0 <= j < i ==> members[j].uid != viewer.value
  {
    if viewer.None? || members == [] then None
    else if members[0].uid == viewer.value then Some(members[0].role)
    else
      var rest := FindRole(members[1..], viewer);
      assert rest.Some? ==> exists i :: 0 <= i < |members[1..]| && members[1..][i].uid == viewer.value && members[1..][i].role == rest.value &&
                              forall j :: 0 <= j < i ==> members[1..][j].uid != viewer.value;
      rest
  }

  predicate IsMe(item: MemberEntry, viewer: Option<Uid>) {
    viewer == Some(item.uid)
  }

  /** The "Remove" button is shown when the viewer is the owner, and the row
      is neither the owner nor the viewer. */
  predicate ShowsRemove(members: seq<MemberEntry>, viewer: Option<Uid>, item: MemberEntry) {
    FindRole(members, viewer) == Some(OwnerRole) && item.role != OwnerRole && !IsMe(item, viewer)
  }

  /** The role line of a row: "You" for the viewer, else the role's name. */
  function RoleLabel(item: MemberEntry, viewer: Option<Uid>): (r: string)
    ensures IsMe(item, viewer) ==> r == "You"
    ensures !IsMe(item, viewer) ==> r == RoleText(item.role)
  {
    if IsMe(item, viewer) then "You" else RoleText(item.role)
  }

  /** The avatar icon of a row. */
  function Icon(item: MemberEntry): (r: string)
    ensures r == "crown" <==> item.role == OwnerRole
    ensures r in {"crown", "account"}
  {
    if item.role == OwnerRole then "crown" else "account"
  }

  /** In a members view the device service produced, the "Remove" button is
      shown on a row exactly when the service would accept removing that
      member: the two sides agree on who may remove whom. */
  lemma ShowsRemoveIffRemoveSucceeds(s: Store, user: User, deviceId: DeviceId, i: nat)
    requires Members(s, Some(user), deviceId).Ok?
    requires i < |Members(s, Some(user), deviceId).value|
    ensures var es := Members(s, Some(user), deviceId).value;
            ShowsRemove(es, Some(user.uid), es[i]) <==> Remove(s, Some(user), deviceId, es[i].uid).result.Ok?
  {
    var es := Members(s, Some(user), deviceId).value;
    var d := s.devices[deviceId];
    var emails := AcceptedEmails(s.requests, deviceId, s.nextRequestId);
    assert es == MemberEntries(d, user, emails);
    var k :| 0 <= k < |d.members| && d.members[k] == user.uid;
    assert es[k].uid == user.uid;
    var role := FindRole(es, Some(user.uid));
    var j :| 0 <= j < |es| && es[j].uid == user.uid && es[j].role == role.value;
    assert es[j] == MemberEntryFor(d, user, emails, user.uid);
    assert role == Some(OwnerRole) <==> d.ownerUid == Some(user.uid);
    assert es[i] == MemberEntryFor(d, user, emails, es[i].uid);
  }

  // ---------------------------------------------------------------------
  // The list after a removal
  // ---------------------------------------------------------------------

  /** `prev.filter(m => m.uid !== uid)` */
  function WithoutUid(members: seq<MemberEntry>, uid: Uid): (r: seq<MemberEntry>)
    ensures |r| <= |members|
    ensures forall e :: e in r <==> e in members && e.uid != uid
  {
    if members == [] then []
    else if members[0].uid == uid then WithoutUid(members[1..], uid)
    else [members[0]] + WithoutUid(members[1..], uid)
  }

  /** Filtering keeps the order of the entries that stay. */
  lemma {:induction false} WithoutUidAppend(a: seq<MemberEntry>, b: seq<MemberEntry>, uid: Uid)
    ensures WithoutUid(a + b, uid) == WithoutUid(a, uid) + WithoutUid(b, uid)
  {
    if a == [] {
      assert a + b == b;
    } else {
      assert (a + b)[1..] == a[1..] + b;
      WithoutUidAppend(a[1..], b, uid);
    }
  }

  /** The filtered list is the one the service would now report,
      row for row, when the removal succeeded. */
  lemma {:induction false} WithoutUidMatchesService(s: Store, user: User, deviceId: DeviceId, memberUid: Uid)
    requires StoreValid(s)
    requires Remove(s, Some(user), deviceId, memberUid).result.Ok?
    ensures var t := Remove(s, Some(user), deviceId, memberUid).store;
            Members(t, Some(user), deviceId).Ok? &&
            Members(t, Some(user), deviceId).value == WithoutUid(Members(s, Some(user), deviceId).value, memberUid)
  {
    var t := Remove(s, Some(user), deviceId, memberUid).store;
    var d := s.devices[deviceId];
    var d' := t.devices[deviceId];
    var emails := AcceptedEmails(s.requests, deviceId, s.nextRequestId);
    assert DeviceValid(d);
    assert user.uid in d.members;
    assert user.uid in d'.members;
    EntriesWithout(d, user, emails, memberUid);
  }

  /** The entries for a list of uids, as the members view of `d` shows them. */
  function EntriesOf(d: Device, viewer: User, emails: map<Uid, string>, xs: seq<Uid>): (r: seq<MemberEntry>)
    ensures |r| == |xs|
    ensures forall i :: 0 <= i < |xs| ==> r[i] == MemberEntryFor(d, viewer, emails, xs[i])
  {
    if xs == [] then [] else [MemberEntryFor(d, viewer, emails, xs[0])] + EntriesOf(d, viewer, emails, xs[1..])
  }

  lemma {:induction false} EntriesOfRemove(d: Device, viewer: User, emails: map<Uid, string>, xs: seq<Uid>, x: Uid)
    ensures EntriesOf(d, viewer, emails, ArrayRemove(xs, x)) == WithoutUid(EntriesOf(d, viewer, emails, xs), x)
  {
    if xs != [] {
      EntriesOfRemove(d, viewer, emails, xs[1..], x);
      var es := EntriesOf(d, viewer, emails, xs);
      assert es[1..] == EntriesOf(d, viewer, emails, xs[1..]);
      assert es[0].uid == xs[0];
    }
  }

  /** Entries of a device whose members lose `x` are the old entries minus `x`'s. */
  lemma EntriesWithout(d: Device, viewer: User, emails: map<Uid, string>, x: Uid)
    ensures MemberEntries(d.(members := ArrayRemove(d.members, x)), viewer, emails) ==
            WithoutUid(MemberEntries(d, viewer, emails), x)
  {
    var d' := d.(members := ArrayRemove(d.members, x));
    EntriesOfRemove(d, viewer, emails, d.members, x);
    forall u ensures MemberEntryFor(d', viewer, emails, u) == MemberEntryFor(d, viewer, emails, u) {
    }
    assert MemberEntries(d', viewer, emails) == EntriesOf(d, viewer, emails, d'.members);
    assert MemberEntries(d, viewer, emails) == EntriesOf(d, viewer, emails, d.members);
  }

  // ---------------------------------------------------------------------
  // The sheet's state
  // ---------------------------------------------------------------------

  const LOAD_FAILED: Alert := Alert("Error", "Failed to load members.")
  const REMOVED: Alert := Alert("Success", "User removed.")

  class SettingsPanel {
    var members: seq<MemberEntry>
    var loading: bool
    var alert: Option<Alert>

    constructor ()
      ensures members == [] && loading && alert.None?
    {
      members, loading, alert := [], true, None;
    }

    /** The effect run when `visible` or `deviceId` changes: it fetches the
        members view only while the sheet is visible for a device. */
    method Refresh(store: DeviceStore, user: Option<User>, visible: bool, deviceId: DeviceId)
      modifies this
      ensures !(visible && deviceId != "") ==> members == old(members) && loading == old(loading) && alert == old(alert)
      ensures visible && deviceId != "" ==> !loading
      ensures visible && deviceId != "" && Members(store.State(), user, deviceId).Ok? ==>
                members == Members(store.State(), user, deviceId).value && alert == old(alert)
      ensures visible && deviceId != "" && Members(store.State(), user, deviceId).Err? ==>
                members == old(members) && alert == Some(LOAD_FAILED)
    {
      if visible && deviceId != "" {
        loading := true;
        var list := store.GetDeviceMembers(user, deviceId);
        if list.Ok? {
          members := list.value;
        } else {
          alert := Some(LOAD_FAILED);
        }
        loading := false;
      }
    }

    /** Pressing "Remove" in the confirmation of `handleKick` (pressing
        "Cancel" changes nothing). */
    method Kick(store: DeviceStore, user: Option<User>, deviceId: DeviceId, memberUid: Uid)
      requires store.Valid()
      modifies this, store
      ensures store.Valid()
      ensures store.State() == Remove(old(store.State()), user, deviceId, memberUid).store
      ensures loading == old(loading)
      ensures Remove(old(store.State()), user, deviceId, memberUid).result.Ok? ==>
                members == WithoutUid(old(members), memberUid) && alert == Some(REMOVED)
      ensures Remove(old(store.State()), user, deviceId, memberUid).result.Err? ==>
                members == old(members) &&
                alert == Some(Alert("Error", ErrorMessage(Remove(old(store.State()), user, deviceId, memberUid).result.error)))
    {
      var r := store.RemoveMember(user, deviceId, memberUid);
      if r.Ok? {
        members := WithoutUid(members, memberUid);
        alert := Some(REMOVED);
      } else {
        alert := Some(Alert("Error", ErrorMessage(r.error)));
      }
    }
  }

  /** Opening the sheet as the owner and removing a member whose row shows
      "Remove": the removal succeeds and the list on screen is what a fresh
      fetch would return. */
  method OpenAndKick(store: DeviceStore, user: User, deviceId: DeviceId, i: nat)
    returns (panel: SettingsPanel, removed: bool)
    requires store.Valid()
    requires deviceId != ""
    modifies store
    ensures store.Valid()
    ensures removed ==> Members(store.State(), Some(user), deviceId).Ok? &&
                        panel.members == Members(store.State(), Some(user), deviceId).value
    ensures removed ==> panel.alert == Some(REMOVED)
    ensures (old(Members(store.State(), Some(user), deviceId)).Ok? && i < |old(Members(store.State(), Some(user), deviceId)).value|
             && ShowsRemove(old(Members(store.State(), Some(user), deviceId)).value, Some(user.uid),
                            old(Members(store.State(), Some(user), deviceId)).value[i])) ==> removed
  {
    panel := new SettingsPanel();
    panel.Refresh(store, Some(user), true, deviceId);
    removed := false;
    var view := Members(store.State(), Some(user), deviceId);
    if view.Ok? && i < |panel.members| && ShowsRemove(panel.members, Some(user.uid), panel.members[i]) {
      var s0 := store.State();
      var target := panel.members[i].uid;
      ShowsRemoveIffRemoveSucceeds(s0, user, deviceId, i);
      WithoutUidMatchesService(s0, user, deviceId, target);
      panel.Kick(store, Some(user), deviceId, target);
      removed := true;
    }
  }
}
