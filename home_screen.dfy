/** The dashboard of `screens/HomeScreen.js`: it listens to the newest
    document of the `params` collection and raises a local notification when
    a later snapshot carries a different reading. The `onSnapshot` callbacks
    update `latestData`, the `isFirstLoad` ref and `loading` in place. */
module HomeScreen {
  import opened Common

  /** A field of a `params` document. */
  datatype Value = Num(n: real) | Text(s: string) | Stamp(ms: int)

  /** A `params` document: field name to value; a missing key is `undefined`. */
  type ParamsDoc = map<string, Value>

  /** The fields whose change counts as a new reading. */
  const WATCHED: seq<string> := ["temp", "pH", "ppm", "millisiemenspermeter"]

  function Get(doc: ParamsDoc, key: string): Option<Value> {
    if key in doc then Some(doc[key]) else None
  }

  /** `hasChanged`: one of the four watched fields differs (`!==`). */
  predicate HasChanged(newData: ParamsDoc, latest: ParamsDoc) {
    exists k :: k in WATCHED && Get(newData, k) != Get(latest, k)
  }

  /** The change test looks at the watched fields only: documents that agree
      on them never count as changed, whatever else (say `created_at`) differs,
      and documents that differ on one of them always do. */
  lemma HasChangedOnlyWatched(a: ParamsDoc, b: ParamsDoc)
    ensures HasChanged(a, b) <==>
              Get(a, "temp") != Get(b, "temp") || Get(a, "pH") != Get(b, "pH") ||
              Get(a, "ppm") != Get(b, "ppm") || Get(a, "millisiemenspermeter") != Get(b, "millisiemenspermeter")
  {
    if HasChanged(a, b) {
      var k :| k in WATCHED && Get(a, k) != Get(b, k);
    } else {
      assert WATCHED[0] == "temp" && WATCHED[1] == "pH" && WATCHED[2] == "ppm" && WATCHED[3] == "millisiemenspermeter";
    }
  }

  /** Overwriting a field outside the watched four never notifies. */
  lemma UnwatchedChangeIsSilent(doc: ParamsDoc, key: string, v: Value)
    requires key !in WATCHED
    ensures !HasChanged(doc[key := v], doc)
  {
    forall k | k in WATCHED ensures Get(doc[key := v], k) == Get(doc, k) {
      assert k != key;
    }
  }

  /** The notification decision of the success callback for one snapshot,
      given the ref and the stored reading before it. */
  function ShouldNotify(isFirstLoad: bool, latest: Option<ParamsDoc>, snapshot: seq<ParamsDoc>): (b: bool)
    ensures isFirstLoad || latest.None? || snapshot == [] ==> !b
    ensures !isFirstLoad && latest.Some? && snapshot != [] ==> (b <==> HasChanged(snapshot[0], latest.value))
  {
    snapshot != [] && !isFirstLoad && latest.Some? && HasChanged(snapshot[0], latest.value)
  }

  /** What the screen renders. */
  datatype DashboardView = Spinner | NoData | Cards(data: ParamsDoc)

  class Dashboard {
    var latestData: Option<ParamsDoc>
    var loading: bool
    var isFirstLoad: bool
    /** The documents handed to `showSensorNotification`, oldest first. */
    var notified: seq<ParamsDoc>

    /** The ref is set exactly until the first document has been stored. */
    ghost predicate Valid()
      reads this
    {
      isFirstLoad <==> latestData.None?
    }

    constructor ()
      ensures Valid()
      ensures latestData == None && loading && isFirstLoad && notified == []
    {
      latestData, loading, isFirstLoad, notified := None, true, true, [];
    }

    /** The success callback of `onSnapshot`; `snapshot` holds the documents
        of the `orderBy("created_at", "desc").limit(1)` query. */
    method OnSnapshot(snapshot: seq<ParamsDoc>) returns (notify: bool)
      requires Valid()
      modifies this
      ensures Valid()
      ensures notify == ShouldNotify(old(isFirstLoad), old(latestData), snapshot)
      ensures notified == old(notified) + (if notify then [snapshot[0]] else [])
      ensures snapshot == [] ==> latestData == old(latestData) && isFirstLoad == old(isFirstLoad)
      ensures snapshot != [] ==> latestData == Some(snapshot[0]) && !isFirstLoad
      ensures !loading
    {
      notify := false;
      if snapshot != [] {
        var newData := snapshot[0];
        if !isFirstLoad && latestData.Some? {
          var hasChanged := HasChanged(newData, latestData.value);
          if hasChanged {
            notify := true;
            notified := notified + [newData];
          }
        }
        latestData := Some(newData);
        if isFirstLoad {
          isFirstLoad := false;
        }
      }
      loading := false;
    }

    /** The error callback of `onSnapshot`. */
    method OnError()
      modifies this
      ensures !loading
      ensures latestData == old(latestData) && isFirstLoad == old(isFirstLoad) && notified == old(notified)
    {
      loading := false;
    }

    function View(): (v: DashboardView)
      reads this
      ensures loading ==> v == Spinner
      ensures !loading && latestData.None? ==> v == NoData
      ensures !loading && latestData.Some? ==> v == Cards(latestData.value)
    {
      if loading then Spinner
      else if latestData.None? then NoData
      else Cards(latestData.value)
    }
  }

  /** From a freshly mounted screen, the first non-empty snapshot is stored
      without a notification; a second one notifies exactly when it changes a
      watched field of the first. */
  method FirstLoadIsSilent(first: ParamsDoc, second: ParamsDoc) returns (n1: bool, n2: bool)
    ensures !n1
    ensures n2 <==> HasChanged(second, first)
  {
    var d := new Dashboard();
    n1 := d.OnSnapshot([]);
    assert !n1 && d.isFirstLoad;
    n1 := d.OnSnapshot([first]);
    n2 := d.OnSnapshot([second]);
  }
}
