/**
 * `vsg::ArrayMapping`: an ordered list of classification names, one per
 * array slot, looked up by a linear first-match search.
 */
module ArrayMappings {
  import opened CoreTypes

  /**
   * The first position at or after `start` holding `name`, as `(true, position)`,
   * or `(false, |names|)` when there is none.
   */
  function FirstMatch(names: seq<string>, name: string, start: nat): (bool, nat)
    decreases |names| - start
  {
    if start >= |names| then (false, |names|)
    else if names[start] == name then (true, start)
    else FirstMatch(names, name, start + 1)
  }

  /** A hit is at or after `start`, holds `name`, and no earlier position from `start` does. */
  lemma {:induction false} FirstMatchFound(names: seq<string>, name: string, start: nat)
    requires FirstMatch(names, name, start).0
    ensures start <= FirstMatch(names, name, start).1 < |names|
    ensures names[FirstMatch(names, name, start).1] == name
    ensures forall j :: start <= j < FirstMatch(names, name, start).1 ==> names[j] != name
    decreases |names| - start
  {
    if start < |names| && names[start] != name {
      FirstMatchFound(names, name, start + 1);
    }
  }

  /** A miss reports `|names|`, and then no position from `start` on holds `name`. */
  lemma {:induction false} FirstMatchMissing(names: seq<string>, name: string, start: nat)
    requires !FirstMatch(names, name, start).0
    ensures FirstMatch(names, name, start).1 == |names|
    ensures forall j :: start <= j < |names| ==> names[j] != name
    decreases |names| - start
  {
    if start < |names| {
      FirstMatchMissing(names, name, start + 1);
    }
  }

  /** Conversely, a position holding `name` from `start` on is always found, at or before it. */
  lemma {:induction false} FirstMatchFindsAny(names: seq<string>, name: string, start: nat, j: nat)
    requires start <= j < |names| && names[j] == name
    ensures FirstMatch(names, name, start).0
    ensures FirstMatch(names, name, start).1 <= j
    decreases |names| - start
  {
    if names[start] != name {
      FirstMatchFindsAny(names, name, start + 1, j);
    }
  }

  /**
   * Searching again from just past a hit at `location` gives the next
   * occurrence strictly after it, or reports that there is none.
   */
  lemma NextOccurrence(names: seq<string>, name: string, location: nat)
    requires location < |names| && names[location] == name
    ensures var (found, next) := FirstMatch(names, name, location + 1);
      (found ==> location < next < |names| && names[next] == name &&
                 forall j :: location < j < next ==> names[j] != name) &&
      (!found ==> next == |names| && forall j :: location < j < |names| ==> names[j] != name)
  {
    if FirstMatch(names, name, location + 1).0 {
      FirstMatchFound(names, name, location + 1);
    } else {
      FirstMatchMissing(names, name, location + 1);
    }
  }

  /** The lookups on `["vertex", "normal", "vertex", "texcoord"]`. */
  lemma ExampleLookups()
    ensures FirstMatch(["vertex", "normal", "vertex", "texcoord"], "vertex", 0) == (true, 0)
    ensures FirstMatch(["vertex", "normal", "vertex", "texcoord"], "vertex", 1) == (true, 2)
    ensures FirstMatch(["vertex", "normal", "vertex", "texcoord"], "color", 0) == (false, 4)
  {
  }

  class ArrayMapping {
    const vertex: string := "vertex"
    const color: string := "color"
    /** Spelt "nomal" in the source, and modelled as written. */
    const normal: string := "nomal"
    const texcoord: string := "texcoord"

    /** One classification name per array, in location order; filled in by callers. */
    var classifications: seq<string>

    /** `ArrayMapping()`: no classifications yet. */
    constructor ()
      ensures classifications == []
    {
      classifications := [];
    }

    /**
     * `index(name, start_location)`: the first location at or after
     * `startLocation` whose classification is `name`, or `(false, size)`.
     * The scan counts in uint32, so the list must be shorter than 2^32.
     */
    method Index(name: string, startLocation: uint32) returns (found: bool, location: uint32)
      requires |classifications| < UINT32_BOUND
      ensures (found, location as nat) == FirstMatch(classifications, name, startLocation)
      ensures found ==> startLocation <= location < |classifications| && classifications[location] == name
      ensures found ==> forall j :: startLocation <= j < location ==> classifications[j] != name
      ensures !found ==> location == |classifications|
      ensures !found ==> forall j :: startLocation <= j < |classifications| ==> classifications[j] != name
      ensures startLocation >= |classifications| ==> !found && location == |classifications|
    {
      location := startLocation;
      while location < |classifications|
        invariant startLocation <= location
        invariant FirstMatch(classifications, name, location) == FirstMatch(classifications, name, startLocation)
        decreases |classifications| - location
      {
        if classifications[location] == name {
          found := true;
          FirstMatchFound(classifications, name, startLocation);
          return;
        }
        location := location + 1;
      }
      found, location := false, |classifications|;
      FirstMatchMissing(classifications, name, startLocation);
    }

    /** Looking up `normal` matches "nomal" entries and misses "normal" ones. */
    lemma NormalConstantIsMisspelt()
      ensures FirstMatch(["vertex", "normal"], normal, 0) == (false, 2)
      ensures FirstMatch(["vertex", "nomal"], normal, 0) == (true, 1)
    {
    }
  }
}
