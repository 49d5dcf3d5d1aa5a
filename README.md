# UnityPureData: terrain and zone messages, in Dafny

The Unity scripts of this repository turn game events into messages for an
embedded Pure Data patch. The binding (LibPD) is modelled as an append-only log
of outbound messages (`PdMessages.Message`). `Float(receiver, value)` stands for
`LibPD.SendFloat`. `Symbol(receiver, symbol)` stands for `LibPD.SendMessage`
with an empty argument list.

Two components are modelled, each as a class with the source's fields and a
`sent` log:

- `Terrain.ChangeTerrain` (ChangeTerrain.cs). The component remembers the last
  ground terrain in `previous`. Entering a trigger tagged grass or snow makes that
  terrain the new ground and forwards it to "terrain". Entering grass also first
  sets "proVolume" to 0.5. Entering wood forwards "wood" and keeps the ground.
  Any other tag does nothing. Leaving a trigger tagged "none" does nothing.
  Leaving wood forwards the remembered ground. Leaving any other tag forwards
  "dirt". Leaving grass then also sets "proVolume" to 0. The pure functions
  `EnterGround`, `EnterSends`, `ExitSends`, `Step` and `Run` specify the
  handlers and sequences of events. The lemmas about them prove the invariant
  that `previous` is always dirt, grass or snow.
  Leaving grass sends "dirt" but does not reset `previous`. So a wooden
  overlay lying over dirt, entered after the character left grass, restores
  "grass" when it is left (`GroundOutlivesLeavingGrass`). The model keeps this
  behaviour as written, because nothing in the source says whether it is
  intended.
- `Zones.ProceduralAudioUpdater` (ProceduralAudioUpdater.cs). Each frame scans
  the boundary x positions `levels` from the top index down. The zone is one
  more than the first index whose boundary lies strictly right of the
  character, or 0 if there is none. The zone is forwarded to "level" only when
  it differs from `curLevel`. `ZoneLevel` specifies the scan. Its contract says
  that the highest qualifying index wins.

The character's x position and the collider's tag are parameters. In the
source they are read from the Unity scene.

## Model

| member | source | states |
|---|---|---|
| `Terrain.ChangeTerrain.constructor` | unityProject/Assets/Scripts/ChangeTerrain.cs:9 | the remembered ground starts as "dirt"; nothing has been sent |
| `Terrain.ChangeTerrain.OnTriggerEnter` | unityProject/Assets/Scripts/ChangeTerrain.cs:15-29 | keeps the invariant that `previous` is a ground terrain; the new `previous` is `EnterGround` of the old one; the log grows by exactly `EnterSends(tag)` |
| `Terrain.ChangeTerrain.OnTriggerExit` | unityProject/Assets/Scripts/ChangeTerrain.cs:38-56 | keeps the invariant that `previous` is a ground terrain; `previous` is never changed; the log grows by exactly `ExitSends(previous, tag)` |
| `Terrain.EnterGround` | unityProject/Assets/Scripts/ChangeTerrain.cs:17-28 | grass and snow become the remembered ground; every other tag, wood included, leaves it unchanged; the result is never "wood" unless it already was; a ground terrain stays a ground terrain |
| `Terrain.EnterSends` | unityProject/Assets/Scripts/ChangeTerrain.cs:17-28 | entering sends nothing exactly when the tag is none of grass, snow, wood; otherwise the last message is `Symbol("terrain", tag)`; snow and wood send only that one message; grass alone sends two messages, `Float("proVolume", 0.5)` first |
| `Terrain.ExitSends` | unityProject/Assets/Scripts/ChangeTerrain.cs:41-55 | leaving sends nothing exactly when the tag is "none"; leaving wood sends only `Symbol("terrain", previous)`; every other tag, unrecognised ones included, sends `Symbol("terrain", "dirt")` first; grass alone adds `Float("proVolume", 0)` second |
| `Terrain.Step` | unityProject/Assets/Scripts/ChangeTerrain.cs:15-56 | an exit never changes the remembered ground; from a ground terrain, one event keeps a ground terrain and sends only known terrains or the two grass-layer volumes |
| `Terrain.RunKeepsGround` | unityProject/Assets/Scripts/ChangeTerrain.cs:9-24 | invariant: starting from dirt, grass or snow, the remembered ground is dirt, grass or snow after any sequence of events |
| `Terrain.RunSendsOnlyEmittable` | unityProject/Assets/Scripts/ChangeTerrain.cs:15-56 | from a ground terrain, every message of any event sequence is a known terrain (dirt, grass, snow, wood) to "terrain" or a volume of 0 or 0.5 to "proVolume" |
| `Terrain.ExitsKeepGround` | unityProject/Assets/Scripts/ChangeTerrain.cs:38-56 | any sequence of exits leaves the remembered ground as it was |
| `Terrain.WoodOverlayRestoresGround` | unityProject/Assets/Scripts/ChangeTerrain.cs:26-45 | entering and leaving wood sends "wood" then the remembered ground, and keeps that ground |
| `Terrain.GrassWoodScenario` | unityProject/Assets/Scripts/ChangeTerrain.cs:15-56 | enter grass, enter wood, exit wood, exit grass from dirt sends proVolume 0.5, grass, wood, grass, dirt, proVolume 0 in that order |
| `Terrain.GroundOutlivesLeavingGrass` | unityProject/Assets/Scripts/ChangeTerrain.cs:38-56 | leaving grass does not reset the remembered ground, so a later wood overlay restores "grass" |
| `Zones.ZoneLevel` | unityProject/Assets/Scripts/ProceduralAudioUpdater.cs:15-21 | the zone lies in 0..number of boundaries; a zone k > 0 has its boundary k-1 strictly right of x, and every boundary at index k or above is at or left of x (the highest qualifying index wins); the zone is 0 exactly when no boundary is right of x |
| `Zones.ZoneLevelUnique` | unityProject/Assets/Scripts/ProceduralAudioUpdater.cs:15-21 | the facts promised by `ZoneLevel` determine the zone: any candidate that meets them equals it |
| `Zones.ZoneLevelAntitone` | unityProject/Assets/Scripts/ProceduralAudioUpdater.cs:16-20 | moving the character right never raises the zone, for boundaries in any order |
| `Zones.ZoneLevelCountsBoundariesAhead` | unityProject/Assets/Scripts/ProceduralAudioUpdater.cs:16-20 | with boundaries listed right to left, the zone is the number of boundaries strictly right of the character |
| `Zones.LevelSends` | unityProject/Assets/Scripts/ProceduralAudioUpdater.cs:23-26 | a frame sends at most one message; it sends one exactly when the new zone differs from the old `curLevel`; that message is `Float("level", newLevel)` |
| `Zones.ProceduralAudioUpdater.constructor` | unityProject/Assets/Scripts/ProceduralAudioUpdater.cs:6-7 | `curLevel` starts at 0, nothing has been sent, the boundaries are the given ones |
| `Zones.ProceduralAudioUpdater.Start` | unityProject/Assets/Scripts/ProceduralAudioUpdater.cs:9-11 | `curLevel` is 0 afterwards |
| `Zones.ProceduralAudioUpdater.Update` | unityProject/Assets/Scripts/ProceduralAudioUpdater.cs:14-27 | keeps `curLevel` within 0..number of boundaries; the scan computes `ZoneLevel` of the boundaries; afterwards `curLevel` equals it, whether or not a message went out; the log grows by exactly `LevelSends(old curLevel, new zone)` |
| `Zones.RepeatedUpdate` | unityProject/Assets/Scripts/ProceduralAudioUpdater.cs:14-27 | idempotence: a second frame with nothing moved sends nothing and keeps `curLevel`, so two frames send what one frame sends |

## Left out

- PDComponent.cs is not part of this model. Its per-frame panning and distance attenuation is floating-point trigonometry. Its change detection reads engine transform flags. Its generic value forwarding is runtime type dispatch into the native binding.
- LibPD delivery and return codes: each send is only an entry appended to the log.
- `Debug.Log` calls (ChangeTerrain.cs lines 16 and 39): logging only.
- Unity plumbing: the collider, game object and transform lookups are parameters, and the engine's trigger and frame scheduling is not modelled.
- Float semantics of positions: the source only compares x positions with `<`, so they are reals here. NaN and null entries of `levels` are not modelled.
- `Float("level", n)` carries the zone as an exact real. The source converts a small int to a 32-bit float, which is exact for any realistic number of zones.
