/** The device ownership and access workflow of `src/services/DeviceService.js`.

    The two Firestore collections are kept as maps: `devices` keyed by the
    normalised device ID, `requests` keyed by an auto-assigned request ID. The
    signed-in user (`auth().currentUser`) and the server timestamp are
    parameters of each operation. Every operation is specified by a function on
    the abstract `Store` value; the class `DeviceStore` performs the same update
    on its fields and is proved against that function. */
module DeviceService {
  import opened Common

  /** Identity-service uids are never empty. */
  type Uid = s: string | s != "" witness "u"
  type DeviceId = string
  type ReqId = nat

  /** The signed-in account; an empty `email` stands for a missing one. */
  datatype User = User(uid: Uid, email: string)

  datatype Status = Pending | Accepted | Rejected

  /** A `devices/{id}` document. A missing or falsy `owner_uid` is `None`, a
      missing `members` array is `[]`; fields the client never writes are in
      `other`. */
  datatype Device = Device(
    ownerUid: Option<Uid>,
    members: seq<Uid>,
    deviceName: Option<string>,
    claimedAt: Option<int>,
    deviceType: Option<string>,
    other: map<string, string>)

  /** A `requests/{id}` document. */
  datatype Request = Request(
    deviceId: DeviceId,
    requesterUid: Uid,
    requesterEmail: string,
    ownerUid: Uid,
    status: Status,
    timestamp: int)

  datatype Store = Store(
    devices: map<DeviceId, Device>,
    requests: map<ReqId, Request>,
    nextRequestId: nat)

  datatype ServiceError =
    | AuthRequired
    | InvalidDeviceId
    | AlreadyOwned(deviceId: DeviceId)
    | DeviceNotFound(message: string)
    | NoOwner
    | AlreadyPending
    | DocumentMissing
    | AccessDenied
    | NotOwner
    | CannotRemoveOwner

  /** The outcome of one operation: what the caller sees and the new store. */
  datatype Step<+T> = Step(result: Result<T, ServiceError>, store: Store)

  datatype Role = OwnerRole | MemberRole

  /** One entry of the members view. */
  datatype MemberEntry = MemberEntry(uid: Uid, email: string, role: Role)

  const DEFAULT_DEVICE_NAME: string := "My Water Sensor"
  const DEVICE_TYPE: string := "arduino_esp32_prototype"
  const UNKNOWN_REQUESTER: string := "Unknown User"

  /** `error.message` of each failure, as the screens display it. */
  function ErrorMessage(e: ServiceError): (m: string)
    ensures m != ""
  {
    match e
    case AuthRequired => "Authentication required."
    case InvalidDeviceId => "Invalid Device ID"
    case AlreadyOwned(_) => "Device already owned"
    case DeviceNotFound(msg) => if msg == "" then "Device not found" else msg
    case NoOwner => "Device has no owner to request access from."
    case AlreadyPending => "Request already pending."
    case DocumentMissing => "firestore/not-found"
    case AccessDenied => "Access denied"
    case NotOwner => "Only the owner can remove members."
    case CannotRemoveOwner => "Cannot remove the owner."
  }

  /** The role's name, which is never the "You" of the viewer's own row. */
  function RoleText(r: Role): (t: string)
    ensures t != "" && t != "You"
    ensures t == "owner" <==> r == OwnerRole
  {
    match r
    case OwnerRole => "owner"
    case MemberRole => "member"
  }

  // ---------------------------------------------------------------------
  // Device-ID normalisation
  // ---------------------------------------------------------------------

  /** The characters of the class `[:\-\s]`. */
  predicate IsSeparator(c: char) {
    c == ':' || c == '-' || IsJsSpace(c)
  }

  /** `rawInput.replaceAll(/[:\-\s]/g, "").toUpperCase()`, in one pass. */
  function NormalizeDeviceId(raw: string): (id: string)
    ensures |id| <= |raw|
    ensures forall i :: 0 <= i < |id| ==> !IsSeparator(id[i]) && !IsLowerAscii(id[i])
  {
    if raw == [] then []
    else if IsSeparator(raw[0]) then NormalizeDeviceId(raw[1..])
    else [UpperChar(raw[0])] + NormalizeDeviceId(raw[1..])
  }

  /** Reference definition of the first half: drop every separator. */
  function StripSeparators(s: string): (r: string)
    ensures forall c :: c in r <==> c in s && !IsSeparator(c)
  {
    if s == [] then []
    else if IsSeparator(s[0]) then StripSeparators(s[1..])
    else [s[0]] + StripSeparators(s[1..])
  }

  /** Stripping keeps the order of what remains: it works piece by piece. */
  lemma {:induction false} StripSeparatorsAppend(a: string, b: string)
    ensures StripSeparators(a + b) == StripSeparators(a) + StripSeparators(b)
  {
    if a != [] {
      StripSeparatorsAppend(a[1..], b);
      assert (a + b)[1..] == a[1..] + b;
    } else {
      assert a + b == b;
    }
  }

  /** Normalisation is exactly "strip the separators, then upper-case". */
  lemma {:induction false} NormalizeIsUpperOfStripped(raw: string)
    ensures NormalizeDeviceId(raw) == Upper(StripSeparators(raw))
  {
    if raw != [] {
      NormalizeIsUpperOfStripped(raw[1..]);
      assert raw == [raw[0]] + raw[1..];
      if !IsSeparator(raw[0]) {
        assert Upper([raw[0]] + StripSeparators(raw[1..]))
            == [UpperChar(raw[0])] + Upper(StripSeparators(raw[1..]));
      }
    }
  }

  /** An ID that is already normal is its own normal form. */
  lemma {:induction false} NormalizeFixesNormal(s: string)
    requires forall i :: 0 <= i < |s| ==> !IsSeparator(s[i]) && !IsLowerAscii(s[i])
    ensures NormalizeDeviceId(s) == s
  {
    if s != [] {
      NormalizeFixesNormal(s[1..]);
      assert s == [s[0]] + s[1..];
    }
  }

  /** Normalising twice equals normalising once. */
  lemma NormalizeIdempotent(raw: string)
    ensures NormalizeDeviceId(NormalizeDeviceId(raw)) == NormalizeDeviceId(raw)
  {
    NormalizeFixesNormal(NormalizeDeviceId(raw));
  }

  /** The normal form is empty exactly when the input is nothing but separators. */
  lemma {:induction false} NormalizeEmptyIff(raw: string)
    ensures NormalizeDeviceId(raw) == [] <==> forall i :: 0 <= i < |raw| ==> IsSeparator(raw[i])
  {
    if raw != [] {
      NormalizeEmptyIff(raw[1..]);
      if forall i :: 0 <= i < |raw[1..]| ==> IsSeparator(raw[1..][i]) {
        assert forall i :: 1 <= i < |raw| ==> IsSeparator(raw[i]) by {
          forall i | 1 <= i < |raw| ensures IsSeparator(raw[i]) {
            assert raw[i] == raw[1..][i - 1];
          }
        }
      } else {
        var k :| 0 <= k < |raw[1..]| && !IsSeparator(raw[1..][k]);
        assert !IsSeparator(raw[k + 1]);
      }
    }
  }

  // ---------------------------------------------------------------------
  // Firestore array transforms
  // ---------------------------------------------------------------------

  predicate NoDuplicates(xs: seq<Uid>) {
    forall i, j :: 0 <= i < j < |xs| ==> xs[i] != xs[j]
  }

  /** `FieldValue.arrayUnion(x)` applied to `xs`: append `x` unless present. */
  function ArrayUnion(xs: seq<Uid>, x: Uid): (r: seq<Uid>)
    ensures forall y :: y in r <==> y in xs || y == x
    ensures |xs| <= |r| <= |xs| + 1 && r[..|xs|] == xs
  {
    if x in xs then xs else xs + [x]
  }

  lemma ArrayUnionNoDuplicates(xs: seq<Uid>, x: Uid)
    requires NoDuplicates(xs)
    ensures NoDuplicates(ArrayUnion(xs, x))
  {
  }

  /** `FieldValue.arrayRemove(x)` applied to `xs`: drop every occurrence. */
  function ArrayRemove(xs: seq<Uid>, x: Uid): (r: seq<Uid>)
    ensures |r| <= |xs|
    ensures forall y :: y in r <==> y in xs && y != x
  {
    if xs == [] then []
    else if xs[0] == x then ArrayRemove(xs[1..], x)
    else [xs[0]] + ArrayRemove(xs[1..], x)
  }

  /** Removal keeps the order of what remains: it distributes over concatenation. */
  lemma {:induction false} ArrayRemoveAppend(a: seq<Uid>, b: seq<Uid>, x: Uid)
    ensures ArrayRemove(a + b, x) == ArrayRemove(a, x) + ArrayRemove(b, x)
  {
    if a != [] {
      ArrayRemoveAppend(a[1..], b, x);
      assert (a + b)[1..] == a[1..] + b;
    } else {
      assert a + b == b;
    }
  }

  /** Removing an absent uid changes nothing. */
  lemma {:induction false} ArrayRemoveAbsent(xs: seq<Uid>, x: Uid)
    requires x !in xs
    ensures ArrayRemove(xs, x) == xs
  {
    if xs != [] {
      ArrayRemoveAbsent(xs[1..], x);
      assert xs == [xs[0]] + xs[1..];
    }
  }

  lemma {:induction false} ArrayRemoveNoDuplicates(xs: seq<Uid>, x: Uid)
    requires NoDuplicates(xs)
    ensures NoDuplicates(ArrayRemove(xs, x))
  {
    if xs != [] {
      assert NoDuplicates(xs[1..]) by {
        forall i, j | 0 <= i < j < |xs[1..]| ensures xs[1..][i] != xs[1..][j] {
          assert xs[1..][i] == xs[i + 1] && xs[1..][j] == xs[j + 1];
        }
      }
      ArrayRemoveNoDuplicates(xs[1..], x);
      if xs[0] != x {
        var rest := ArrayRemove(xs[1..], x);
        assert xs[0] !in xs[1..];
        assert xs[0] !in rest;
        forall i, j | 0 <= i < j < |[xs[0]] + rest| ensures ([xs[0]] + rest)[i] != ([xs[0]] + rest)[j] {
          if i == 0 {
            assert ([xs[0]] + rest)[j] == rest[j - 1];
          } else {
            assert ([xs[0]] + rest)[i] == rest[i - 1] && ([xs[0]] + rest)[j] == rest[j - 1];
          }
        }
      }
    }
  }

  // ---------------------------------------------------------------------
  // Store invariant
  // ---------------------------------------------------------------------

  /** Every device keeps its owner among its members, each member once. */
  predicate DeviceValid(d: Device) {
    NoDuplicates(d.members) && (d.ownerUid.Some? ==> d.ownerUid.value in d.members)
  }

  /** The store invariant; request IDs are issued below `nextRequestId`. */
  predicate StoreValid(s: Store) {
    (forall id :: id in s.devices ==> DeviceValid(s.devices[id])) &&
    (forall id :: id in s.requests ==> id < s.nextRequestId)
  }

  predicate IsPendingFor(r: Request, deviceId: DeviceId, uid: Uid) {
    r.deviceId == deviceId && r.requesterUid == uid && r.status == Pending
  }

  /** The `where(deviceId, requesterUid, status == "pending")` query is non-empty. */
  predicate HasPending(requests: map<ReqId, Request>, deviceId: DeviceId, uid: Uid) {
    exists id :: id in requests && IsPendingFor(requests[id], deviceId, uid)
  }

  /** At most one pending request per (device, requester) pair. */
  predicate PendingUnique(requests: map<ReqId, Request>) {
    forall a, b ::
      (a in requests && b in requests && requests[b].status == Pending &&
       IsPendingFor(requests[a], requests[b].deviceId, requests[b].requesterUid)) ==> a == b
  }

  // ---------------------------------------------------------------------
  // claimDevice
  // ---------------------------------------------------------------------

  function Lookup(devices: map<DeviceId, Device>, id: DeviceId): Option<Device> {
    if id in devices then Some(devices[id]) else None
  }

  /** The ownership check: a truthy `owner_uid` that is not the caller. */
  predicate OwnedByOther(devices: map<DeviceId, Device>, id: DeviceId, uid: Uid) {
    id in devices && devices[id].ownerUid.Some? && devices[id].ownerUid.value != uid
  }

  /** The merge-write `set({owner_uid, members: arrayUnion(uid), device_name,
      claimed_at, type}, {merge: true})` applied to the existing document. */
  function ClaimedDevice(existing: Option<Device>, uid: Uid, nickname: string, now: int): (d: Device)
    ensures d.ownerUid == Some(uid)
    ensures uid in d.members
    ensures d.deviceName == Some(if nickname == "" then DEFAULT_DEVICE_NAME else nickname)
    ensures d.claimedAt == Some(now) && d.deviceType == Some(DEVICE_TYPE)
    ensures existing.None? ==> d.members == [uid] && d.other == map[]
    ensures existing.Some? ==> d.other == existing.value.other
    ensures existing.Some? ==> |existing.value.members| <= |d.members| &&
                               d.members[..|existing.value.members|] == existing.value.members
    ensures existing.Some? ==> forall u :: u in d.members <==> u in existing.value.members || u == uid
  {
    var base := existing.GetOr(Device(None, [], None, None, None, map[]));
    base.(ownerUid := Some(uid),
          members := ArrayUnion(base.members, uid),
          deviceName := Some(OrDefault(nickname, DEFAULT_DEVICE_NAME)),
          claimedAt := Some(now),
          deviceType := Some(DEVICE_TYPE))
  }

  /** `claimDevice(rawInput, nickname)`. */
  function Claim(s: Store, user: Option<User>, raw: string, nickname: string, now: int): (r: Step<bool>)
    ensures r.result.Err? ==> r.store == s
    ensures user.None? ==> r.result == Err(AuthRequired)
    ensures user.Some? && NormalizeDeviceId(raw) == [] ==> r.result == Err(InvalidDeviceId)
    ensures (user.Some? && NormalizeDeviceId(raw) != [] && OwnedByOther(s.devices, NormalizeDeviceId(raw), user.value.uid))
              ==> r.result == Err(AlreadyOwned(NormalizeDeviceId(raw)))
    ensures r.result.Ok? <==>
              (user.Some? && NormalizeDeviceId(raw) != [] && !OwnedByOther(s.devices, NormalizeDeviceId(raw), user.value.uid))
    ensures r.result.Ok? ==> r.result.value && r.store.requests == s.requests && r.store.nextRequestId == s.nextRequestId
    ensures r.result.Ok? ==> r.store.devices == s.devices[NormalizeDeviceId(raw) :=
              ClaimedDevice(Lookup(s.devices, NormalizeDeviceId(raw)), user.value.uid, nickname, now)]
  {
    match user
    case None => Step(Err(AuthRequired), s)
    case Some(u) =>
      var id := NormalizeDeviceId(raw);
      if id == [] then Step(Err(InvalidDeviceId), s)
      else if OwnedByOther(s.devices, id, u.uid) then Step(Err(AlreadyOwned(id)), s)
      else Step(Ok(true), s.(devices := s.devices[id := ClaimedDevice(Lookup(s.devices, id), u.uid, nickname, now)]))
  }

  /** What a successful claim does to the claimed device; everything else is untouched. */
  lemma ClaimEffects(s: Store, user: Option<User>, raw: string, nickname: string, now: int)
    requires StoreValid(s)
    requires Claim(s, user, raw, nickname, now).result.Ok?
    ensures var id := NormalizeDeviceId(raw);
            var t := Claim(s, user, raw, nickname, now).store;
            && id in t.devices
            && t.devices[id].ownerUid == Some(user.value.uid)
            && user.value.uid in t.devices[id].members
            && NoDuplicates(t.devices[id].members)
            && (id in s.devices ==> forall u :: u in s.devices[id].members ==> u in t.devices[id].members)
            && (id in s.devices ==> t.devices[id].other == s.devices[id].other)
            && t.devices[id].deviceName == Some(if nickname == "" then DEFAULT_DEVICE_NAME else nickname)
            && (forall other :: other in s.devices && other != id ==> other in t.devices && t.devices[other] == s.devices[other])
            && t.devices.Keys == s.devices.Keys + {id}
            && t.requests == s.requests
  {
    var id := NormalizeDeviceId(raw);
    if id in s.devices {
      assert DeviceValid(s.devices[id]);
      ArrayUnionNoDuplicates(s.devices[id].members, user.value.uid);
    }
  }

  lemma ClaimPreservesValid(s: Store, user: Option<User>, raw: string, nickname: string, now: int)
    requires StoreValid(s)
    ensures StoreValid(Claim(s, user, raw, nickname, now).store)
  {
    if Claim(s, user, raw, nickname, now).result.Ok? {
      ClaimEffects(s, user, raw, nickname, now);
    }
  }

  // ---------------------------------------------------------------------
  // requestDeviceAccess
  // ---------------------------------------------------------------------

  /** `requestDeviceAccess(deviceId)`; the new request gets ID `nextRequestId`. */
  function RequestAccess(s: Store, user: Option<User>, deviceId: DeviceId, now: int): (r: Step<string>)
    ensures r.result.Err? ==> r.store == s
    ensures user.None? ==> r.result == Err(AuthRequired)
    ensures user.Some? && deviceId !in s.devices ==> r.result == Err(DeviceNotFound("Device not found."))
    ensures user.Some? && deviceId in s.devices && s.devices[deviceId].ownerUid.None? ==> r.result == Err(NoOwner)
    ensures (user.Some? && deviceId in s.devices && s.devices[deviceId].ownerUid.Some? &&
             HasPending(s.requests, deviceId, user.value.uid)) ==> r.result == Err(AlreadyPending)
    ensures r.result.Ok? <==>
              (user.Some? && deviceId in s.devices && s.devices[deviceId].ownerUid.Some? &&
               !HasPending(s.requests, deviceId, user.value.uid))
    ensures r.result.Ok? ==>
              && r.result.value == "Request Sent"
              && r.store.devices == s.devices
              && r.store.nextRequestId == s.nextRequestId + 1
              && r.store.requests == s.requests[s.nextRequestId := Request(deviceId, user.value.uid,
                   OrDefault(user.value.email, UNKNOWN_REQUESTER), s.devices[deviceId].ownerUid.value, Pending, now)]
  {
    match user
    case None => Step(Err(AuthRequired), s)
    case Some(u) =>
      if deviceId !in s.devices then Step(Err(DeviceNotFound("Device not found.")), s)
      else
        var owner := s.devices[deviceId].ownerUid;
        if owner.None? then Step(Err(NoOwner), s)
        else if HasPending(s.requests, deviceId, u.uid) then Step(Err(AlreadyPending), s)
        else
          var req := Request(deviceId, u.uid, OrDefault(u.email, UNKNOWN_REQUESTER), owner.value, Pending, now);
          Step(Ok("Request Sent"), s.(requests := s.requests[s.nextRequestId := req], nextRequestId := s.nextRequestId + 1))
  }

  /** Requesting access adds exactly one pending request, addressed to the owner,
      keeps the invariants and at most one pending request per pair. */
  lemma RequestAccessEffects(s: Store, user: Option<User>, deviceId: DeviceId, now: int)
    requires StoreValid(s) && PendingUnique(s.requests)
    ensures var t := RequestAccess(s, user, deviceId, now).store;
            StoreValid(t) && PendingUnique(t.requests)
    ensures var t := RequestAccess(s, user, deviceId, now).store;
            RequestAccess(s, user, deviceId, now).result.Ok? ==>
              && t.requests.Keys == s.requests.Keys + {s.nextRequestId}
              && s.nextRequestId !in s.requests
              && t.requests[s.nextRequestId].ownerUid == s.devices[deviceId].ownerUid.value
              && HasPending(t.requests, deviceId, user.value.uid)
  {
    var r := RequestAccess(s, user, deviceId, now);
    if r.result.Ok? {
      var t := r.store;
      var n := s.nextRequestId;
      assert n !in s.requests;
      assert IsPendingFor(t.requests[n], deviceId, user.value.uid);
      forall a, b | a in t.requests && b in t.requests &&
          IsPendingFor(t.requests[a], t.requests[b].deviceId, t.requests[b].requesterUid) &&
          t.requests[b].status == Pending
        ensures a == b
      {
        if a != n && b == n {
          assert false;
        } else if a == n && b != n {
          assert false;
        }
      }
    }
  }

  /** A pending request is created only once per (device, requester): asking
      again right after a success fails with "Request already pending." */
  lemma RequestAccessOnce(s: Store, user: Option<User>, deviceId: DeviceId, now: int, later: int)
    requires RequestAccess(s, user, deviceId, now).result.Ok?
    ensures var t := RequestAccess(s, user, deviceId, now).store;
            RequestAccess(t, user, deviceId, later) == Step(Err(AlreadyPending), t)
  {
    var t := RequestAccess(s, user, deviceId, now).store;
    assert IsPendingFor(t.requests[s.nextRequestId], deviceId, user.value.uid);
  }

  // ---------------------------------------------------------------------
  // getIncomingRequests and getMyDevices
  // ---------------------------------------------------------------------

  /** `getIncomingRequests()`: the pending requests addressed to the caller.
      The `orderBy("timestamp", "desc")` order is not modelled. */
  function IncomingRequests(s: Store, user: Option<User>): (r: map<ReqId, Request>)
    ensures user.None? ==> r == map[]
    ensures forall id :: id in r <==>
              (user.Some? && id in s.requests && s.requests[id].ownerUid == user.value.uid && s.requests[id].status == Pending)
    ensures forall id :: id in r ==> r[id] == s.requests[id]
  {
    match user
    case None => map[]
    case Some(u) =>
      map id | id in s.requests && s.requests[id].ownerUid == u.uid && s.requests[id].status == Pending :: s.requests[id]
  }

  /** `getMyDevices()`: the devices whose `members` contain the caller. */
  function MyDevices(s: Store, user: Option<User>): (r: map<DeviceId, Device>)
    ensures user.None? ==> r == map[]
    ensures forall id :: id in r <==> user.Some? && id in s.devices && user.value.uid in s.devices[id].members
    ensures forall id :: id in r ==> r[id] == s.devices[id]
  {
    match user
    case None => map[]
    case Some(u) => map id | id in s.devices && u.uid in s.devices[id].members :: s.devices[id]
  }

  /** Under the invariant, a device the caller owns is always one of "my devices". */
  lemma OwnedDevicesAreMine(s: Store, user: User, id: DeviceId)
    requires StoreValid(s)
    requires id in s.devices && s.devices[id].ownerUid == Some(user.uid)
    ensures id in MyDevices(s, Some(user))
  {
    assert DeviceValid(s.devices[id]);
  }

  // ---------------------------------------------------------------------
  // respondToRequest
  // ---------------------------------------------------------------------

  /** `respondToRequest(requestId, status, deviceId, requesterUid)`. The batch
      updates the request and, on acceptance, the device; `update` of a missing
      document fails the whole batch, which then changes nothing. The caller is
      not checked against the request's owner, and `deviceId`/`requesterUid` are
      used as given. */
  function Respond(s: Store, user: Option<User>, requestId: ReqId, status: Status,
                   deviceId: DeviceId, requesterUid: Uid): (r: Step<()>)
    ensures r.result.Err? ==> r.store == s
    ensures user.None? ==> r.result == Err(AuthRequired)
    ensures r.result.Ok? <==> user.Some? && requestId in s.requests && (status == Accepted ==> deviceId in s.devices)
    ensures r.result.Ok? ==>
              && r.store.nextRequestId == s.nextRequestId
              && r.store.requests == s.requests[requestId := s.requests[requestId].(status := status)]
    ensures r.result.Ok? && status != Accepted ==> r.store.devices == s.devices
    ensures r.result.Ok? && status == Accepted ==>
              r.store.devices == s.devices[deviceId := s.devices[deviceId].(members := ArrayUnion(s.devices[deviceId].members, requesterUid))]
  {
    if user.None? then Step(Err(AuthRequired), s)
    else if requestId !in s.requests then Step(Err(DocumentMissing), s)
    else if status == Accepted && deviceId !in s.devices then Step(Err(DocumentMissing), s)
    else
      var requests := s.requests[requestId := s.requests[requestId].(status := status)];
      var devices := if status == Accepted
        then s.devices[deviceId := s.devices[deviceId].(members := ArrayUnion(s.devices[deviceId].members, requesterUid))]
        else s.devices;
      Step(Ok(()), Store(devices, requests, s.nextRequestId))
  }

  /** Accepting adds the requester to the members once and keeps the owner;
      responding with a non-pending status keeps pending requests unique. */
  lemma RespondEffects(s: Store, user: Option<User>, requestId: ReqId, status: Status,
                       deviceId: DeviceId, requesterUid: Uid)
    requires StoreValid(s)
    ensures var t := Respond(s, user, requestId, status, deviceId, requesterUid).store;
            StoreValid(t)
    ensures var t := Respond(s, user, requestId, status, deviceId, requesterUid).store;
            status == Accepted && Respond(s, user, requestId, status, deviceId, requesterUid).result.Ok? ==>
              requesterUid in t.devices[deviceId].members && NoDuplicates(t.devices[deviceId].members) &&
              t.devices[deviceId].ownerUid == s.devices[deviceId].ownerUid
    ensures var t := Respond(s, user, requestId, status, deviceId, requesterUid).store;
            status != Pending && PendingUnique(s.requests) ==> PendingUnique(t.requests)
  {
    var r := Respond(s, user, requestId, status, deviceId, requesterUid);
    if r.result.Ok? && status == Accepted {
      assert DeviceValid(s.devices[deviceId]);
      ArrayUnionNoDuplicates(s.devices[deviceId].members, requesterUid);
    }
  }

  // ---------------------------------------------------------------------
  // getDeviceMembers
  // ---------------------------------------------------------------------

  predicate IsAcceptedFor(r: Request, deviceId: DeviceId) {
    r.deviceId == deviceId && r.status == Accepted
  }

  /** The `emailMap` filled by the `forEach` over the accepted requests of the
      device, visited in ascending request-ID order: a later one overwrites. */
  function AcceptedEmails(requests: map<ReqId, Request>, deviceId: DeviceId, n: nat): map<Uid, string>
  {
    if n == 0 then map[]
    else
      var m := AcceptedEmails(requests, deviceId, n - 1);
      if n - 1 in requests && IsAcceptedFor(requests[n - 1], deviceId)
      then m[requests[n - 1].requesterUid := requests[n - 1].requesterEmail]
      else m
  }

  /** A uid has an e-mail exactly when some accepted request of the device
      came from it, and that e-mail is the e-mail of such a request. */
  lemma {:induction false} AcceptedEmailsSound(requests: map<ReqId, Request>, deviceId: DeviceId, n: nat, uid: Uid)
    ensures uid in AcceptedEmails(requests, deviceId, n) <==>
              exists id :: 0 <= id < n && id in requests && IsAcceptedFor(requests[id], deviceId) && requests[id].requesterUid == uid
    ensures uid in AcceptedEmails(requests, deviceId, n) ==>
              exists id :: 0 <= id < n && id in requests && IsAcceptedFor(requests[id], deviceId) &&
                requests[id].requesterUid == uid && requests[id].requesterEmail == AcceptedEmails(requests, deviceId, n)[uid]
  {
    if n > 0 {
      AcceptedEmailsSound(requests, deviceId, n - 1, uid);
    }
  }

  /** The entry of one uid in the members view. */
  function MemberEntryFor(d: Device, viewer: User, emails: map<Uid, string>, uid: Uid): (e: MemberEntry)
    ensures e.uid == uid
    ensures e.role == OwnerRole <==> d.ownerUid == Some(uid)
    ensures e.role == OwnerRole ==> e.email == "Owner"
    ensures e.role != OwnerRole && uid == viewer.uid ==> e.email == OrDefault(viewer.email, "Me")
    ensures e.role != OwnerRole && uid != viewer.uid ==>
              e.email == (if uid in emails && emails[uid] != "" then emails[uid] else "Unknown")
  {
    var emailOrUnknown := OrDefault(if uid in emails then emails[uid] else "", "Unknown");
    if d.ownerUid == Some(uid) then MemberEntry(uid, "Owner", OwnerRole)
    else if uid == viewer.uid then MemberEntry(uid, OrDefault(viewer.email, "Me"), MemberRole)
    else MemberEntry(uid, emailOrUnknown, MemberRole)
  }

  /** `deviceData.members.map(...)`: one entry per member, in `members` order. */
  function MemberEntries(d: Device, viewer: User, emails: map<Uid, string>): (r: seq<MemberEntry>)
    ensures |r| == |d.members|
    ensures forall i :: 0 <= i < |r| ==> r[i] == MemberEntryFor(d, viewer, emails, d.members[i])
  {
    seq(|d.members|, i requires 0 <= i < |d.members| => MemberEntryFor(d, viewer, emails, d.members[i]))
  }

  /** `getDeviceMembers(deviceId)`. */
  function Members(s: Store, user: Option<User>, deviceId: DeviceId): (r: Result<seq<MemberEntry>, ServiceError>)
    ensures user.None? ==> r == Err(AuthRequired)
    ensures user.Some? && deviceId !in s.devices ==> r == Err(DeviceNotFound("Device not found"))
    ensures user.Some? && deviceId in s.devices && user.value.uid !in s.devices[deviceId].members ==> r == Err(AccessDenied)
    ensures r.Ok? <==> user.Some? && deviceId in s.devices && user.value.uid in s.devices[deviceId].members
    ensures r.Ok? ==> |r.value| == |s.devices[deviceId].members|
    ensures r.Ok? ==> forall i :: 0 <= i < |r.value| ==> r.value[i].uid == s.devices[deviceId].members[i]
  {
    match user
    case None => Err(AuthRequired)
    case Some(u) =>
      if deviceId !in s.devices then Err(DeviceNotFound("Device not found"))
      else if u.uid !in s.devices[deviceId].members then Err(AccessDenied)
      else Ok(MemberEntries(s.devices[deviceId], u, AcceptedEmails(s.requests, deviceId, s.nextRequestId)))
  }

  /** Roles and e-mails of the members view: the owner is "Owner", the caller
      sees their own e-mail (or "Me"), every other member the e-mail of one of
      their accepted requests for this device, or "Unknown". */
  lemma MembersRoles(s: Store, user: User, deviceId: DeviceId, i: nat)
    requires StoreValid(s)
    requires Members(s, Some(user), deviceId).Ok?
    requires i < |Members(s, Some(user), deviceId).value|
    ensures var e := Members(s, Some(user), deviceId).value[i];
            var d := s.devices[deviceId];
            && (e.role == OwnerRole <==> d.ownerUid == Some(e.uid))
            && (e.role == OwnerRole ==> e.email == "Owner")
            && (e.role == MemberRole && e.uid == user.uid ==> e.email == OrDefault(user.email, "Me"))
            && (e.role == MemberRole && e.uid != user.uid && e.email != "Unknown" ==>
                  exists id :: id in s.requests && IsAcceptedFor(s.requests[id], deviceId) &&
                    s.requests[id].requesterUid == e.uid && s.requests[id].requesterEmail == e.email)
  {
    var e := Members(s, Some(user), deviceId).value[i];
    var emails := AcceptedEmails(s.requests, deviceId, s.nextRequestId);
    if e.role == MemberRole && e.uid != user.uid && e.email != "Unknown" {
      assert e.uid in emails && e.email == emails[e.uid];
      AcceptedEmailsSound(s.requests, deviceId, s.nextRequestId, e.uid);
    }
  }

  /** Under the invariant, an owned device's members view has exactly one owner entry. */
  lemma MembersHaveOneOwner(s: Store, user: User, deviceId: DeviceId)
    requires StoreValid(s)
    requires Members(s, Some(user), deviceId).Ok?
    requires s.devices[deviceId].ownerUid.Some?
    ensures var es := Members(s, Some(user), deviceId).value;
            exists i :: 0 <= i < |es| && es[i].role == OwnerRole
    ensures var es := Members(s, Some(user), deviceId).value;
            forall i, j :: 0 <= i < |es| && 0 <= j < |es| && es[i].role == OwnerRole && es[j].role == OwnerRole ==> i == j
  {
    var d := s.devices[deviceId];
    var es := Members(s, Some(user), deviceId).value;
    assert DeviceValid(d);
    var k :| 0 <= k < |d.members| && d.members[k] == d.ownerUid.value;
    assert es[k].role == OwnerRole;
  }

  // ---------------------------------------------------------------------
  // removeMember
  // ---------------------------------------------------------------------

  /** `removeMember(deviceId, memberUid)`. */
  function Remove(s: Store, user: Option<User>, deviceId: DeviceId, memberUid: Uid): (r: Step<bool>)
    ensures r.result.Err? ==> r.store == s
    ensures user.None? ==> r.result == Err(AuthRequired)
    ensures user.Some? && deviceId !in s.devices ==> r.result == Err(DeviceNotFound("Device not found"))
    ensures user.Some? && deviceId in s.devices && s.devices[deviceId].ownerUid != Some(user.value.uid) ==> r.result == Err(NotOwner)
    ensures (user.Some? && deviceId in s.devices && s.devices[deviceId].ownerUid == Some(user.value.uid) &&
             memberUid == user.value.uid) ==> r.result == Err(CannotRemoveOwner)
    ensures r.result.Ok? <==>
              (user.Some? && deviceId in s.devices && s.devices[deviceId].ownerUid == Some(user.value.uid) &&
               memberUid != user.value.uid)
    ensures r.result.Ok? ==> r.result.value && r.store.requests == s.requests && r.store.nextRequestId == s.nextRequestId
    ensures r.result.Ok? ==> r.store.devices == s.devices[deviceId :=
              s.devices[deviceId].(members := ArrayRemove(s.devices[deviceId].members, memberUid))]
  {
    match user
    case None => Step(Err(AuthRequired), s)
    case Some(u) =>
      if deviceId !in s.devices then Step(Err(DeviceNotFound("Device not found")), s)
      else
        var d := s.devices[deviceId];
        if d.ownerUid != Some(u.uid) then Step(Err(NotOwner), s)
        else if Some(memberUid) == d.ownerUid then Step(Err(CannotRemoveOwner), s)
        else Step(Ok(true), s.(devices := s.devices[deviceId := d.(members := ArrayRemove(d.members, memberUid))]))
  }

  /** Removal drops every occurrence of the member, keeps everyone else (the
      owner in particular) and keeps the invariant. */
  lemma RemoveEffects(s: Store, user: Option<User>, deviceId: DeviceId, memberUid: Uid)
    requires StoreValid(s)
    ensures StoreValid(Remove(s, user, deviceId, memberUid).store)
    ensures var t := Remove(s, user, deviceId, memberUid).store;
            Remove(s, user, deviceId, memberUid).result.Ok? ==>
              && memberUid !in t.devices[deviceId].members
              && t.devices[deviceId].ownerUid == s.devices[deviceId].ownerUid
              && t.devices[deviceId].ownerUid.value in t.devices[deviceId].members
              && (forall u :: u in t.devices[deviceId].members <==> u in s.devices[deviceId].members && u != memberUid)
  {
    var r := Remove(s, user, deviceId, memberUid);
    if r.result.Ok? {
      assert DeviceValid(s.devices[deviceId]);
      ArrayRemoveNoDuplicates(s.devices[deviceId].members, memberUid);
    }
  }

  // ---------------------------------------------------------------------
  // Ownership and the caller of respondToRequest
  // ---------------------------------------------------------------------

  /** Every device of `s` is still in `t`, and a device that had an owner
      keeps that owner. */
  predicate OwnersKept(s: Store, t: Store) {
    forall id :: id in s.devices ==>
      id in t.devices && (s.devices[id].ownerUid.Some? ==> t.devices[id].ownerUid == s.devices[id].ownerUid)
  }

  /** Once a device has an owner it keeps it: a claim by anyone else is
      refused, and a claim by the owner writes the same uid. */
  lemma ClaimKeepsOwner(s: Store, user: Option<User>, raw: string, nickname: string, now: int)
    ensures OwnersKept(s, Claim(s, user, raw, nickname, now).store)
  {
    var r := Claim(s, user, raw, nickname, now);
    if r.result.Ok? {
      var id := NormalizeDeviceId(raw);
      forall d | d in s.devices && s.devices[d].ownerUid.Some?
        ensures d in r.store.devices && r.store.devices[d].ownerUid == s.devices[d].ownerUid
      {
        if d == id {
          assert !OwnedByOther(s.devices, id, user.value.uid);
        }
      }
    }
  }

  /** The other operations never write `owner_uid`. */
  lemma OthersKeepOwner(s: Store, user: Option<User>, deviceId: DeviceId, now: int,
                        requestId: ReqId, status: Status, uid: Uid)
    ensures OwnersKept(s, RequestAccess(s, user, deviceId, now).store)
    ensures OwnersKept(s, Respond(s, user, requestId, status, deviceId, uid).store)
    ensures OwnersKept(s, Remove(s, user, deviceId, uid).store)
  {
  }

  /** `respondToRequest` does not look at who calls it: any signed-in user gets
      the same outcome, so a user other than the request's owner can accept it. */
  lemma RespondIgnoresCaller(s: Store, a: User, b: User, requestId: ReqId, status: Status,
                             deviceId: DeviceId, requesterUid: Uid)
    ensures Respond(s, Some(a), requestId, status, deviceId, requesterUid) ==
            Respond(s, Some(b), requestId, status, deviceId, requesterUid)
  {
  }

  // ---------------------------------------------------------------------
  // The store as an object updated in place
  // ---------------------------------------------------------------------

  class DeviceStore {
    var devices: map<DeviceId, Device>
    var requests: map<ReqId, Request>
    var nextRequestId: nat

    function State(): Store
      reads this
    {
      Store(devices, requests, nextRequestId)
    }

    ghost predicate Valid()
      reads this
    {
      StoreValid(State())
    }

    constructor ()
      ensures Valid() && State() == Store(map[], map[], 0)
    {
      devices, requests, nextRequestId := map[], map[], 0;
    }

    method ClaimDevice(user: Option<User>, rawInput: string, nickname: string, now: int)
      returns (r: Result<bool, ServiceError>)
      requires Valid()
      modifies this
      ensures Valid()
      ensures r == Claim(old(State()), user, rawInput, nickname, now).result
      ensures State() == Claim(old(State()), user, rawInput, nickname, now).store
    {
      ClaimPreservesValid(State(), user, rawInput, nickname, now);
      if user.None? {
        return Err(AuthRequired);
      }
      var uid := user.value.uid;
      var deviceId := NormalizeDeviceId(rawInput);
      if deviceId == [] {
        return Err(InvalidDeviceId);
      }
      if deviceId in devices {
        var owner := devices[deviceId].ownerUid;
        if owner.Some? && owner.value != uid {
          return Err(AlreadyOwned(deviceId));
        }
      }
      devices := devices[deviceId := ClaimedDevice(Lookup(devices, deviceId), uid, nickname, now)];
      r := Ok(true);
    }

    method RequestDeviceAccess(user: Option<User>, deviceId: DeviceId, now: int)
      returns (r: Result<string, ServiceError>)
      requires Valid()
      modifies this
      ensures Valid()
      ensures old(PendingUnique(requests)) ==> PendingUnique(requests)
      ensures r == RequestAccess(old(State()), user, deviceId, now).result
      ensures State() == RequestAccess(old(State()), user, deviceId, now).store
    {
      if PendingUnique(requests) {
        RequestAccessEffects(State(), user, deviceId, now);
      }
      if user.None? {
        return Err(AuthRequired);
      }
      var u := user.value;
      if deviceId !in devices {
        return Err(DeviceNotFound("Device not found."));
      }
      var ownerUid := devices[deviceId].ownerUid;
      if ownerUid.None? {
        return Err(NoOwner);
      }
      if HasPending(requests, deviceId, u.uid) {
        return Err(AlreadyPending);
      }
      var req := Request(deviceId, u.uid, OrDefault(u.email, UNKNOWN_REQUESTER), ownerUid.value, Pending, now);
      requests := requests[nextRequestId := req];
      nextRequestId := nextRequestId + 1;
      r := Ok("Request Sent");
    }

    method RespondToRequest(user: Option<User>, requestId: ReqId, status: Status,
                            deviceId: DeviceId, requesterUid: Uid)
      returns (r: Result<(), ServiceError>)
      requires Valid()
      modifies this
      ensures Valid()
      ensures status != Pending && old(PendingUnique(requests)) ==> PendingUnique(requests)
      ensures r == Respond(old(State()), user, requestId, status, deviceId, requesterUid).result
      ensures State() == Respond(old(State()), user, requestId, status, deviceId, requesterUid).store
    {
      RespondEffects(State(), user, requestId, status, deviceId, requesterUid);
      if user.None? {
        return Err(AuthRequired);
      }
      // batch.commit: both updates or neither
      if requestId !in requests || (status == Accepted && deviceId !in devices) {
        return Err(DocumentMissing);
      }
      requests := requests[requestId := requests[requestId].(status := status)];
      if status == Accepted {
        var d := devices[deviceId];
        devices := devices[deviceId := d.(members := ArrayUnion(d.members, requesterUid))];
      }
      r := Ok(());
    }

    /** Reads the store only; the `emailMap` is filled by a loop over the requests. */
    method GetDeviceMembers(user: Option<User>, deviceId: DeviceId)
      returns (r: Result<seq<MemberEntry>, ServiceError>)
      ensures r == Members(State(), user, deviceId)
    {
      if user.None? {
        return Err(AuthRequired);
      }
      var u := user.value;
      if deviceId !in devices {
        return Err(DeviceNotFound("Device not found"));
      }
      var d := devices[deviceId];
      if u.uid !in d.members {
        return Err(AccessDenied);
      }
      var emailMap: map<Uid, string> := map[];
      var i := 0;
      while i < nextRequestId
        invariant 0 <= i <= nextRequestId
        invariant emailMap == AcceptedEmails(requests, deviceId, i)
      {
        if i in requests && requests[i].deviceId == deviceId && requests[i].status == Accepted {
          emailMap := emailMap[requests[i].requesterUid := requests[i].requesterEmail];
        }
        i := i + 1;
      }
      r := Ok(MemberEntries(d, u, emailMap));
    }

    method RemoveMember(user: Option<User>, deviceId: DeviceId, memberUid: Uid)
      returns (r: Result<bool, ServiceError>)
      requires Valid()
      modifies this
      ensures Valid()
      ensures r == Remove(old(State()), user, deviceId, memberUid).result
      ensures State() == Remove(old(State()), user, deviceId, memberUid).store
    {
      RemoveEffects(State(), user, deviceId, memberUid);
      if user.None? {
        return Err(AuthRequired);
      }
      if deviceId !in devices {
        return Err(DeviceNotFound("Device not found"));
      }
      var d := devices[deviceId];
      if d.ownerUid != Some(user.value.uid) {
        return Err(NotOwner);
      }
      if Some(memberUid) == d.ownerUid {
        return Err(CannotRemoveOwner);
      }
      devices := devices[deviceId := d.(members := ArrayRemove(d.members, memberUid))];
      r := Ok(true);
    }
  }
}
