/** The `useFilteredSensorData` hook of `src/hooks/useFilteredSensorData.js`:
    it keeps one live subscription to a device's readings between two days
    and exposes `data`, `loading` and `error`. Subscriptions are numbered; a
    snapshot or error delivered to a subscription that is no longer live has
    no effect. */
module FilteredSensorData {
  import opened Common
  import opened Readings

  const DEFAULT_LIMIT: nat := 200
  const AUTH_REQUIRED: string := "Authentication required to view sensor data."
  const PERMISSION_DENIED: string := "firestore/permission-denied"

  /** `setHours(0, 0, 0, 0)` on a copy of `d`. */
  function DayStart(d: DateTime): (r: DateTime)
    ensures r.day == d.day && r.ms == 0
    ensures forall t: DateTime :: t.day == d.day ==> NotAfter(r, t)
  {
    DateTime(d.day, 0)
  }

  /** `setHours(23, 59, 59, 999)` on a copy of `d`. */
  function DayEnd(d: DateTime): (r: DateTime)
    ensures r.day == d.day && r.ms == 23 * MS_PER_HOUR + 59 * MS_PER_MINUTE + 59 * 1000 + 999
    ensures forall t: DateTime :: t.day == d.day ==> NotAfter(t, r)
  {
    DateTime(d.day, 86399999)
  }

  /** The subscribed query: readings of `deviceId` with `from <= timestamp <= to`,
      ascending, at most `limit` of them. */
  datatype Query = Query(deviceId: string, from: DateTime, to: DateTime, limit: nat)

  predicate Matches(q: Query, t: DateTime) {
    NotAfter(q.from, t) && NotAfter(t, q.to)
  }

  function RangeQuery(deviceId: string, startDate: DateTime, endDate: DateTime, limit: nat): (q: Query)
    ensures q.deviceId == deviceId && q.limit == limit
    ensures forall t :: Matches(q, t) <==> startDate.day <= t.day <= endDate.day
  {
    Query(deviceId, DayStart(startDate), DayEnd(endDate), limit)
  }

  /** A non-empty range exactly when the start day is not after the end day,
      and the whole of both end days is included. */
  lemma RangeBounds(deviceId: string, startDate: DateTime, endDate: DateTime, limit: nat)
    ensures var q := RangeQuery(deviceId, startDate, endDate, limit);
            NotAfter(q.from, q.to) <==> startDate.day <= endDate.day
    ensures var q := RangeQuery(deviceId, startDate, endDate, limit);
            startDate.day <= endDate.day ==> Matches(q, startDate) && Matches(q, endDate)
  {
  }

  /** The message an error callback shows. */
  function ErrorText(code: string, message: string): (r: string)
    ensures r != ""
    ensures code == PERMISSION_DENIED ==> r == "Access denied. You may not be the owner of this device."
    ensures code != PERMISSION_DENIED && message != "" ==> r == message
    ensures code != PERMISSION_DENIED && message == "" ==> r == "Failed to fetch readings"
  {
    if code == PERMISSION_DENIED then "Access denied. You may not be the owner of this device."
    else OrDefault(message, "Failed to fetch readings")
  }

  /** One snapshot document as a reading; a missing timestamp becomes `now`. */
  function Stamped(doc: Reading, now: DateTime): (r: Reading)
    ensures r.id == doc.id && r.fields == doc.fields
    ensures r.timestamp.Some?
    ensures doc.timestamp.Some? ==> r.timestamp == doc.timestamp
    ensures doc.timestamp.None? ==> r.timestamp == Some(now)
  {
    doc.(timestamp := Some(doc.timestamp.GetOr(now)))
  }

  function StampAll(docs: seq<Reading>, now: DateTime): (r: seq<Reading>)
    ensures |r| == |docs|
    ensures forall i :: 0 <= i < |docs| ==> r[i] == Stamped(docs[i], now)
  {
    seq(|docs|, i requires 0 <= i < |docs| => Stamped(docs[i], now))
  }

  class FilteredReadings {
    var data: seq<Reading>
    var loading: bool
    var error: Option<string>
    /** `unsubscribeRef.current`: the subscription this hook holds, if any. */
    var current: Option<nat>
    /** The subscriptions not yet unsubscribed. */
    var live: set<nat>
    var nextSubscription: nat
    /** The query each subscription was opened with. */
    var queries: map<nat, Query>

    /** At most one live subscription, and it is the one the ref holds (a
        listener that reported an error is no longer live, though the ref
        still holds it). */
    ghost predicate Valid()
      reads this
    {
      && live <= (if current.Some? then {current.value} else {})
      && (forall id :: id in live ==> id < nextSubscription && id in queries)
    }

    constructor ()
      ensures Valid()
      ensures data == [] && loading && error.None? && current.None? && live == {}
    {
      data, loading, error := [], true, None;
      current, live, nextSubscription, queries := None, {}, 0, map[];
    }

    /** The second effect, run with the current arguments and user. */
    method RunEffect(deviceId: string, signedIn: bool, startDate: DateTime, endDate: DateTime, limit: nat)
      requires Valid()
      modifies this
      ensures Valid()
      ensures deviceId == "" ==>
                !loading && data == [] && error == old(error) &&
                current == old(current) && live == old(live) && nextSubscription == old(nextSubscription) &&
                queries == old(queries)
      ensures deviceId != "" && !signedIn ==>
                !loading && data == [] && error == Some(AUTH_REQUIRED) &&
                current == old(current) && live == old(live) && nextSubscription == old(nextSubscription) &&
                queries == old(queries)
      ensures deviceId != "" && signedIn ==>
                loading && error.None? && data == old(data) &&
                current == Some(old(nextSubscription)) && live == {old(nextSubscription)} &&
                nextSubscription == old(nextSubscription) + 1 &&
                queries == old(queries)[old(nextSubscription) := RangeQuery(deviceId, startDate, endDate, limit)]
    {
      if deviceId == "" {
        loading := false;
        data := [];
        return;
      }
      if !signedIn {
        loading := false;
        data := [];
        error := Some(AUTH_REQUIRED);
        return;
      }
      loading := true;
      error := None;
      if current.Some? {
        live := live - {current.value};
      }
      var id := nextSubscription;
      queries := queries[id := RangeQuery(deviceId, startDate, endDate, limit)];
      live := live + {id};
      nextSubscription := nextSubscription + 1;
      current := Some(id);
    }

    /** The cleanup the effect returns after subscribing. */
    method Cleanup()
      requires Valid()
      modifies this
      ensures Valid()
      ensures current.None? && live == {}
      ensures data == old(data) && loading == old(loading) && error == old(error)
      ensures nextSubscription == old(nextSubscription) && queries == old(queries)
    {
      if current.Some? {
        live := live - {current.value};
        current := None;
      }
    }

    /** A snapshot delivered to subscription `sub`. */
    method OnSnapshot(sub: nat, docs: seq<Reading>, now: DateTime)
      requires Valid()
      modifies this
      ensures Valid()
      ensures sub !in old(live) ==> data == old(data) && loading == old(loading)
      ensures sub in old(live) ==> data == StampAll(docs, now) && !loading
      ensures error == old(error) && current == old(current) && live == old(live)
      ensures nextSubscription == old(nextSubscription) && queries == old(queries)
    {
      if sub in live {
        data := StampAll(docs, now);
        loading := false;
      }
    }

    /** An error delivered to subscription `sub`; the listener then stops. */
    method OnError(sub: nat, code: string, message: string)
      requires Valid()
      modifies this
      ensures Valid()
      ensures sub !in old(live) ==> error == old(error) && loading == old(loading)
      ensures sub in old(live) ==> error == Some(ErrorText(code, message)) && !loading
      ensures live == old(live) - {sub}
      ensures data == old(data) && current == old(current)
      ensures nextSubscription == old(nextSubscription) && queries == old(queries)
    {
      if sub in live {
        error := Some(ErrorText(code, message));
        loading := false;
        live := live - {sub};
      }
    }
  }

  /** Changing the date range re-runs the effect after the previous cleanup:
      the old subscription stops delivering, and only the new one, over the
      new days, is live. */
  method ChangeRange(deviceId: string, first: DateTime, second: DateTime, docs: seq<Reading>, now: DateTime)
    returns (hook: FilteredReadings)
    requires deviceId != ""
    ensures hook.Valid()
    ensures |hook.live| == 1 && hook.current.Some?
    ensures forall t :: Matches(hook.queries[hook.current.value], t) <==> t.day == second.day
    ensures hook.data == [] && hook.loading
  {
    hook := new FilteredReadings();
    hook.RunEffect(deviceId, true, first, first, DEFAULT_LIMIT);
    var old_sub := hook.current.value;
    hook.Cleanup();
    hook.RunEffect(deviceId, true, second, second, DEFAULT_LIMIT);
    hook.OnSnapshot(old_sub, docs, now);
  }
}
