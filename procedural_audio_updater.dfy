/** The zone selector of ProceduralAudioUpdater.cs. The level is split into
    zones by boundary markers placed along the x axis; every frame the
    component finds the zone the character is in and tells Pure Data
    (receiver "level"), but only when the zone differs from the one it
    forwarded last. Only the x coordinates matter, and they are only ever
    compared, so they are modelled as reals. */
module Zones {
  import opened PdMessages

  /** The zone of a character at `x`: one more than the highest index whose
      boundary lies strictly to the right of `x`, or 0 when none does. The
      recursion drops boundaries from the top end, as the frame loop scans
      them from the top index down. */
  function ZoneLevel(bounds: seq<real>, x: real): (r: nat)
    ensures r <= |bounds|
    ensures r > 0 ==> x < bounds[r - 1]
    ensures forall j :: r <= j < |bounds| ==> bounds[j] <= x
    ensures r == 0 <==> forall i :: 0 <= i < |bounds| ==> bounds[i] <= x
    decreases |bounds|
  {
    if |bounds| == 0 then 0
    else if x < bounds[|bounds| - 1] then |bounds|
    else ZoneLevel(bounds[..|bounds| - 1], x)
  }

  /** The three facts ZoneLevel promises pin its result down: no other
      candidate satisfies them. */
  lemma ZoneLevelUnique(bounds: seq<real>, x: real, k: nat)
    requires k <= |bounds|
    requires k > 0 ==> x < bounds[k - 1]
    requires forall j :: k <= j < |bounds| ==> bounds[j] <= x
    ensures k == ZoneLevel(bounds, x)
  {
  }

  /** Moving right never raises the zone, whatever order the boundaries
      are in. */
  lemma ZoneLevelAntitone(bounds: seq<real>, x: real, y: real)
    requires x <= y
    ensures ZoneLevel(bounds, y) <= ZoneLevel(bounds, x)
  {
  }

  /** Boundaries listed from right to left. */
  ghost predicate RightToLeft(bounds: seq<real>) {
    forall i, j :: 0 <= i < j < |bounds| ==> bounds[j] <= bounds[i]
  }

  /** How many boundaries lie strictly to the right of `x`. */
  function CountAhead(bounds: seq<real>, x: real): nat
    decreases |bounds|
  {
    if |bounds| == 0 then 0
    else CountAhead(bounds[..|bounds| - 1], x) + (if x < bounds[|bounds| - 1] then 1 else 0)
  }

  lemma {:induction false} CountAheadAll(bounds: seq<real>, x: real)
    requires forall i :: 0 <= i < |bounds| ==> x < bounds[i]
    ensures CountAhead(bounds, x) == |bounds|
    decreases |bounds|
  {
    if |bounds| > 0 {
      CountAheadAll(bounds[..|bounds| - 1], x);
    }
  }

  /** With the boundaries listed from right to left the scan is a bucket
      lookup: the zone is the number of boundaries still ahead of `x`. */
  lemma {:induction false} ZoneLevelCountsBoundariesAhead(bounds: seq<real>, x: real)
    requires RightToLeft(bounds)
    ensures ZoneLevel(bounds, x) == CountAhead(bounds, x)
    decreases |bounds|
  {
    if |bounds| > 0 {
      var n := |bounds|;
      var front := bounds[..n - 1];
      if x < bounds[n - 1] {
        forall i | 0 <= i < |front|
          ensures x < front[i]
        {
          assert bounds[n - 1] <= bounds[i];
        }
        CountAheadAll(front, x);
      } else {
        ZoneLevelCountsBoundariesAhead(front, x);
      }
    }
  }

  /** What a frame sends when the zone was `curLevel` and now is `newLevel`:
      one "level" message carrying the new zone when they differ, else
      nothing. */
  function LevelSends(curLevel: int, newLevel: nat): (r: seq<Message>)
    ensures |r| <= 1
    ensures r == [] <==> newLevel == curLevel
    ensures forall m :: m in r ==> m == Float("level", newLevel as real)
  {
    if newLevel != curLevel then [Float("level", newLevel as real)] else []
  }

  /** The component: the x positions of the zone boundaries, the zone last
      forwarded and the log of what it sent. */
  class ProceduralAudioUpdater {
    var levels: array<real>
    var curLevel: int
    var sent: seq<Message>

    ghost predicate Valid()
      reads this
    {
      0 <= curLevel <= levels.Length
    }

    constructor (levels: array<real>)
      ensures Valid()
      ensures this.levels == levels && curLevel == 0 && sent == []
    {
      this.levels := levels;
      curLevel := 0;
      sent := [];
    }

    method Start()
      modifies this`curLevel
      ensures Valid()
      ensures curLevel == 0
    {
      curLevel := 0;
    }

    /** One frame with the character at `x`. */
    method Update(x: real)
      requires Valid()
      modifies this`curLevel, this`sent
      ensures Valid()
      ensures curLevel == ZoneLevel(levels[..], x)
      ensures sent == old(sent) + LevelSends(old(curLevel), curLevel)
    {
      var newLevel := 0;
      var index := levels.Length - 1;
      while index >= 0
        invariant -1 <= index < levels.Length
        invariant newLevel == 0
        invariant ZoneLevel(levels[..], x) == ZoneLevel(levels[..index + 1], x)
      {
        if x < levels[index] {
          newLevel := index + 1;
          break;
        }
        assert levels[..index + 1][..index] == levels[..index];
        index := index - 1;
      }
      if newLevel != curLevel {
        curLevel := newLevel;
        sent := sent + [Float("level", curLevel as real)];
      }
    }
  }

  /** Two frames with nothing moved send what one frame sends: the second
      finds the zone already forwarded and stays silent. */
  method RepeatedUpdate(u: ProceduralAudioUpdater, x: real)
    requires u.Valid()
    modifies u`curLevel, u`sent
    ensures u.Valid()
    ensures u.curLevel == ZoneLevel(u.levels[..], x)
    ensures u.sent == old(u.sent) + LevelSends(old(u.curLevel), u.curLevel)
  {
    u.Update(x);
    ghost var afterFirst := u.sent;
    u.Update(x);
    assert u.sent == afterFirst;
  }
}
