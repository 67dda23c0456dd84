/**
 * The location delegate of the SOS app: it receives the platform's position
 * callbacks and keeps the latest coordinate it was given (ContentView.swift,
 * class LocationDelegate).
 */
module Location {
  import opened Wrappers

  /** A device coordinate. The view only stores and prints it, so the model keeps it abstract. */
  type Coord(==)

  /** One callback the platform delivers to the delegate. */
  datatype Callback = Updated(locations: seq<Coord>) | Failed

  /** The stored coordinate after one callback: an update keeps the FIRST location of its batch. */
  function Apply(current: Option<Coord>, cb: Callback): (r: Option<Coord>)
    ensures Fixes(cb) ==> r == Some(cb.locations[0])
    ensures !Fixes(cb) ==> r == current
  {
    match cb
    case Updated(locations) => if |locations| > 0 then Some(locations[0]) else current
    case Failed => current
  }

  /** A callback that carries a fix, i.e. one that overwrites the stored coordinate. */
  predicate Fixes(cb: Callback)
  {
    cb.Updated? && cb.locations != []
  }

  /** The stored coordinate after a run of callbacks, applied in delivery order. */
  function Replay(current: Option<Coord>, cbs: seq<Callback>): Option<Coord>
    decreases |cbs|
  {
    if cbs == [] then current else Apply(Replay(current, cbs[..|cbs| - 1]), cbs[|cbs| - 1])
  }

  /** Replaying two runs one after the other is replaying their concatenation. */
  lemma {:induction false} ReplayConcat(current: Option<Coord>, a: seq<Callback>, b: seq<Callback>)
    ensures Replay(current, a + b) == Replay(Replay(current, a), b)
    decreases |b|
  {
    if b == [] {
      assert a + b == a;
    } else {
      ReplayConcat(current, a, b[..|b| - 1]);
      assert (a + b)[..|a + b| - 1] == a + b[..|b| - 1];
    }
  }

  /** Last writer wins: the stored coordinate is the first location of the last callback that carried a fix. */
  lemma {:induction false} LastWriterWins(current: Option<Coord>, cbs: seq<Callback>, k: nat)
    requires k < |cbs| && Fixes(cbs[k])
    requires forall j :: k < j < |cbs| ==> !Fixes(cbs[j])
    ensures Replay(current, cbs) == Some(cbs[k].locations[0])
    decreases |cbs|
  {
    if k < |cbs| - 1 {
      var init := cbs[..|cbs| - 1];
      assert forall j :: k < j < |init| ==> init[j] == cbs[j];
      LastWriterWins(current, init, k);
    }
  }

  /** Without any fix (empty batches and errors only) the stored coordinate never changes. */
  lemma {:induction false} NoFixKeepsCoordinate(current: Option<Coord>, cbs: seq<Callback>)
    requires forall j :: 0 <= j < |cbs| ==> !Fixes(cbs[j])
    ensures Replay(current, cbs) == current
    decreases |cbs|
  {
    if cbs != [] {
      var init := cbs[..|cbs| - 1];
      assert forall j :: 0 <= j < |init| ==> init[j] == cbs[j];
      NoFixKeepsCoordinate(current, init);
    }
  }

  /** Once any fix has arrived, a coordinate is known from then on. */
  lemma {:induction false} FixIsNeverLost(current: Option<Coord>, cbs: seq<Callback>, k: nat)
    requires k < |cbs| && Fixes(cbs[k])
    ensures Replay(current, cbs).Some?
    decreases |cbs|
  {
    if k < |cbs| - 1 {
      if !Fixes(cbs[|cbs| - 1]) {
        FixIsNeverLost(current, cbs[..|cbs| - 1], k);
      }
    }
  }

  /** The location-manager delegate; `currentLocation` is its published coordinate. */
  class LocationDelegate {
    var currentLocation: Option<Coord>

    /** No coordinate is known before the first update. */
    constructor ()
      ensures currentLocation == None
    {
      currentLocation := None;
    }

    /**
     * didUpdateLocations: a non-empty batch overwrites the coordinate with its first
     * element; an empty batch leaves it as it was.
     */
    method DidUpdateLocations(locations: seq<Coord>)
      modifies this
      ensures currentLocation == Apply(old(currentLocation), Updated(locations))
      ensures locations != [] ==> currentLocation == Some(locations[0])
      ensures locations == [] ==> currentLocation == old(currentLocation)
    {
      if |locations| > 0 {
        currentLocation := Some(locations[0]);
      }
    }

    /** didFailWithError: only logs; the stored coordinate stays as it was. */
    method DidFailWithError()
      ensures currentLocation == old(currentLocation)
      ensures currentLocation == Apply(old(currentLocation), Failed)
    {
    }
  }
}
