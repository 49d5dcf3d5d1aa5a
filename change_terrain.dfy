/** The terrain state machine of ChangeTerrain.cs. A trigger collider carries a
    string tag; entering or leaving it tells Pure Data which terrain the
    character walks on (receiver "terrain") and switches the procedural
    grass layer on or off (receiver "proVolume"). The component remembers one
    piece of state, `previous`: the last ground terrain (dirt, grass or snow)
    entered, so that leaving a wooden overlay can restore it. */
module Terrain {
  import opened PdMessages

  /** The ground terrains `previous` may hold. */
  predicate IsGround(t: string) {
    t == "dirt" || t == "grass" || t == "snow"
  }

  /** The terrains ever forwarded to the "terrain" receiver. */
  predicate IsTerrainKind(t: string) {
    IsGround(t) || t == "wood"
  }

  /** A message the component can send while `previous` is a ground terrain:
      a known terrain to "terrain", or one of the two grass-layer volumes. */
  predicate Emittable(m: Message) {
    match m
    case Symbol(receiver, symbol) => receiver == "terrain" && IsTerrainKind(symbol)
    case Float(receiver, value) => receiver == "proVolume" && (value == 0.0 || value == 0.5)
  }

  /** A trigger event, with the tag of the collider's game object. */
  datatype Event = Enter(tag: string) | Exit(tag: string)

  /** The remembered ground and the messages sent, after an event or a run. */
  datatype Outcome = Outcome(ground: string, sends: seq<Message>)

  /** The remembered ground after entering a collider tagged `tag`: grass and
      snow become the new ground, every other tag (wood included) leaves it. */
  function EnterGround(previous: string, tag: string): (r: string)
    ensures r == tag || r == previous
    ensures tag == "grass" || tag == "snow" ==> r == tag
    ensures r != previous ==> tag == "grass" || tag == "snow"
    ensures r != "wood" || previous == "wood"
    ensures IsGround(previous) ==> IsGround(r)
  {
    if tag == "grass" then "grass"
    else if tag == "snow" then "snow"
    else previous
  }

  /** The messages sent on entering a collider tagged `tag`. */
  function EnterSends(tag: string): (r: seq<Message>)
    ensures r == [] <==> tag != "grass" && tag != "snow" && tag != "wood"
    ensures r != [] ==> r[|r| - 1] == Symbol("terrain", tag)
    ensures |r| == 2 <==> tag == "grass"
    ensures tag == "grass" ==> r[0] == Float("proVolume", 0.5)
    ensures tag == "snow" || tag == "wood" ==> r == [Symbol("terrain", tag)]
    ensures forall m :: m in r ==> Emittable(m)
  {
    if tag == "grass" then [Float("proVolume", 0.5), Symbol("terrain", "grass")]
    else if tag == "snow" then [Symbol("terrain", "snow")]
    else if tag == "wood" then [Symbol("terrain", "wood")]
    else []
  }

  /** The messages sent on leaving a collider tagged `tag` while `previous`
      is the remembered ground. */
  function ExitSends(previous: string, tag: string): (r: seq<Message>)
    ensures r == [] <==> tag == "none"
    ensures |r| <= 2
    ensures tag == "wood" ==> r == [Symbol("terrain", previous)]
    ensures tag != "none" && tag != "wood" ==> r[0] == Symbol("terrain", "dirt")
    ensures |r| == 2 <==> tag == "grass"
    ensures tag == "grass" ==> r[1] == Float("proVolume", 0.0)
    ensures IsGround(previous) ==> forall m :: m in r ==> Emittable(m)
  {
    if tag == "none" then []
    else
      [Symbol("terrain", if tag == "wood" then previous else "dirt")]
      + (if tag == "grass" then [Float("proVolume", 0.0)] else [])
  }

  /** One event handled from remembered ground `previous`. */
  function Step(previous: string, e: Event): (r: Outcome)
    ensures e.Exit? ==> r.ground == previous
    ensures IsGround(previous) ==> IsGround(r.ground)
    ensures IsGround(previous) ==> forall m :: m in r.sends ==> Emittable(m)
  {
    match e
    case Enter(tag) => Outcome(EnterGround(previous, tag), EnterSends(tag))
    case Exit(tag) => Outcome(previous, ExitSends(previous, tag))
  }

  /** A sequence of events handled in order: the final remembered ground and
      everything sent, in sending order. */
  function Run(previous: string, events: seq<Event>): Outcome
    decreases |events|
  {
    if events == [] then Outcome(previous, [])
    else
      var first := Step(previous, events[0]);
      var rest := Run(first.ground, events[1..]);
      Outcome(rest.ground, first.sends + rest.sends)
  }

  /** Invariant: the remembered ground stays dirt, grass or snow, whatever
      events arrive. */
  lemma {:induction false} RunKeepsGround(previous: string, events: seq<Event>)
    requires IsGround(previous)
    ensures IsGround(Run(previous, events).ground)
    decreases |events|
  {
    if events != [] {
      RunKeepsGround(Step(previous, events[0]).ground, events[1..]);
    }
  }

  /** From a ground terrain, every message ever sent is a known terrain or one
      of the two grass-layer volumes. */
  lemma {:induction false} RunSendsOnlyEmittable(previous: string, events: seq<Event>)
    requires IsGround(previous)
    ensures forall m :: m in Run(previous, events).sends ==> Emittable(m)
    decreases |events|
  {
    if events != [] {
      var first := Step(previous, events[0]);
      RunSendsOnlyEmittable(first.ground, events[1..]);
      assert Run(previous, events).sends == first.sends + Run(first.ground, events[1..]).sends;
    }
  }

  /** No exit ever changes the remembered ground. */
  lemma {:induction false} ExitsKeepGround(previous: string, events: seq<Event>)
    requires forall i :: 0 <= i < |events| ==> events[i].Exit?
    ensures Run(previous, events).ground == previous
    decreases |events|
  {
    if events != [] {
      ExitsKeepGround(previous, events[1..]);
    }
  }

  /** Stepping onto a wooden overlay and off it again sends "wood" and then
      the remembered ground, and leaves that ground as it was. */
  lemma WoodOverlayRestoresGround(previous: string)
    ensures Run(previous, [Enter("wood"), Exit("wood")])
         == Outcome(previous, [Symbol("terrain", "wood"), Symbol("terrain", previous)])
  {
  }

  /** Grass, a wooden bridge over it, off the bridge, off the grass. */
  lemma GrassWoodScenario()
    ensures Run("dirt", [Enter("grass"), Enter("wood"), Exit("wood"), Exit("grass")])
         == Outcome("grass", [
              Float("proVolume", 0.5), Symbol("terrain", "grass"),
              Symbol("terrain", "wood"),
              Symbol("terrain", "grass"),
              Symbol("terrain", "dirt"), Float("proVolume", 0.0)])
  {
  }

  /** Leaving grass does not reset the remembered ground: a wooden overlay
      entered and left afterwards restores "grass", not "dirt". */
  lemma GroundOutlivesLeavingGrass()
    ensures Run("dirt", [Enter("grass"), Exit("grass"), Enter("wood"), Exit("wood")]).sends
         == [Float("proVolume", 0.5), Symbol("terrain", "grass"),
             Symbol("terrain", "dirt"), Float("proVolume", 0.0),
             Symbol("terrain", "wood"), Symbol("terrain", "grass")]
  {
  }

  /** The component: the remembered ground and the log of what it sent. */
  class ChangeTerrain {
    var previous: string
    var sent: seq<Message>

    ghost predicate Valid()
      reads this
    {
      IsGround(previous)
    }

    constructor ()
      ensures Valid()
      ensures previous == "dirt" && sent == []
    {
      previous := "dirt";
      sent := [];
    }

    /** Entering a trigger collider tagged `tag`. */
    method OnTriggerEnter(tag: string)
      requires Valid()
      modifies this
      ensures Valid()
      ensures previous == EnterGround(old(previous), tag)
      ensures sent == old(sent) + EnterSends(tag)
    {
      if tag == "grass" {
        previous := "grass";
        sent := sent + [Float("proVolume", 0.5)];
        sent := sent + [Symbol("terrain", "grass")];
      } else if tag == "snow" {
        previous := "snow";
        sent := sent + [Symbol("terrain", "snow")];
      } else if tag == "wood" {
        sent := sent + [Symbol("terrain", "wood")];
      }
    }

    /** Leaving a trigger collider tagged `tag`. */
    method OnTriggerExit(tag: string)
      requires Valid()
      modifies this`sent
      ensures Valid()
      ensures previous == old(previous)
      ensures sent == old(sent) + ExitSends(previous, tag)
    {
      if tag == "none" {
        return;
      }
      if tag == "wood" {
        sent := sent + [Symbol("terrain", previous)];
      } else {
        sent := sent + [Symbol("terrain", "dirt")];
      }
      if tag == "grass" {
        sent := sent + [Float("proVolume", 0.0)];
      }
    }
  }
}
