/** A waypoint of a TSC world map (tsc/src/overworld/world_waypoint.cpp):
    its destination, its access flag with the default it is reset to, its
    two walking directions, and the glimmer counter that tints it. Images,
    arrows and drawing are not modelled. */
module WorldWaypoint {
  import opened Common
  import opened GameTypes
  import opened PropertyHelper
  import opened XmlAttributes

  /** Waypoint_type. The header is not part of this model; `Draw` tests the
      two kinds as 1 and 2. */
  const WaypointNormal: int := 1
  const WaypointWorldLink: int := 2

  /** The keys a destination is read from, in the order they are tried
      (`world` and `level` come from files older than 0.99.6). */
  const DestinationKeys: seq<String> := ["world", "level", "destination"]

  /** A world link names its world, an old level waypoint its level; the
      current key is only read when neither old key is present. */
  lemma DestinationOrder(a: Attributes)
    ensures "world" in a ==> FirstPresent(a, DestinationKeys) == a["world"]
    ensures "world" !in a && "level" in a ==> FirstPresent(a, DestinationKeys) == a["level"]
    ensures "world" !in a && "level" !in a ==> FirstPresent(a, DestinationKeys) == Get(a, "destination")
  {
    var ks := DestinationKeys;
    if "world" in a {
      FirstPresentIsFirst(a, ks, 0);
    } else if "level" in a {
      FirstPresentIsFirst(a, ks, 1);
    } else if "destination" in a {
      FirstPresentIsFirst(a, ks, 2);
    } else {
      FirstPresentNone(a, ks);
    }
  }

  /* ---------------------------------------------------------------------
     The glimmer counter of `Update`
     --------------------------------------------------------------------- */

  /** One frame of the glimmer: the counter moves by three times the speed
      factor in the current direction, which turns down above 120 and up
      below 7. */
  function GlimStep(color: real, rising: bool, speedFactor: real): (real, bool)
  {
    var c := if rising then color + 3.0 * speedFactor else color - 3.0 * speedFactor;
    if c > 120.0 then (c, false)
    else if c < 7.0 then (c, true)
    else (c, rising)
  }

  /** The direction agrees with the side of the band the counter is on: it
      only rises while at most 120 and only falls while at least 7. */
  predicate GlimConsistent(color: real, rising: bool)
  {
    (rising ==> color <= 120.0) && (!rising ==> color >= 7.0)
  }

  /** Whatever the state and the frame time, one step leaves the direction
      consistent with the counter (the hysteresis never points outwards). */
  lemma GlimStepConsistent(color: real, rising: bool, speedFactor: real)
    ensures GlimConsistent(GlimStep(color, rising, speedFactor).0, GlimStep(color, rising, speedFactor).1)
  {
  }

  /** With frame steps of at most `d`, a consistent counter stays inside
      [-d, 120 + d]; so for steps up to 33 (speed factor 11) the tint component
      `100 + glim` the waypoint is drawn with stays a valid byte. */
  lemma GlimStepBounded(color: real, rising: bool, speedFactor: real, d: real)
    requires GlimConsistent(color, rising)
    requires 0.0 <= 3.0 * speedFactor <= d
    requires -d <= color <= 120.0 + d
    ensures -d <= GlimStep(color, rising, speedFactor).0 <= 120.0 + d
    ensures d <= 33.0 ==> 0.0 <= 100.0 + GlimStep(color, rising, speedFactor).0 < 256.0
  {
  }

  class Waypoint {
    /** `m_waypoint_type` */
    var waypointType: int
    /** `m_destination`: a level or a world name */
    var destination: String
    /** `m_access` and `m_access_default` */
    var access: bool
    var accessDefault: bool
    /** `m_direction_forward`, `m_direction_backward` */
    var directionForward: Direction
    var directionBackward: Direction
    /** The sprite's start and current position. */
    var startPosX: real
    var startPosY: real
    var posX: real
    var posY: real
    /** `m_glim_color` and `m_glim_mod` (rising) */
    var glimColor: real
    var glimMod: bool
    /** `m_auto_destroy` of the sprite */
    var autoDestroy: bool

    /** `cWaypoint(sprite_manager)` with `Init`: a normal waypoint without
        destination, access or directions; `glimStart` is the random start
        of the glimmer, drawn from [0, 100]. */
    constructor (glimStart: real)
      requires 0.0 <= glimStart <= 100.0
      ensures waypointType == WaypointNormal && destination == []
      ensures !access && !accessDefault
      ensures directionForward == DirUndefined && directionBackward == DirUndefined
      ensures startPosX == posX == 0.0 && startPosY == posY == 0.0
      ensures glimColor == glimStart && glimMod && !autoDestroy
      ensures GlimConsistent(glimColor, glimMod)
    {
      waypointType := WaypointNormal;
      destination := [];
      access, accessDefault := false, false;
      directionForward, directionBackward := DirUndefined, DirUndefined;
      startPosX, startPosY, posX, posY := 0.0, 0.0, 0.0, 0.0;
      glimColor, glimMod := glimStart, true;
      autoDestroy := false;
    }

    /** `cWaypoint(attributes, sprite_manager)`: position `posx`/`posy`
        (default 0), type (default normal), the destination by
        `DestinationKeys`, backward direction (default "left"), forward
        direction (default "right") and access, which also becomes the
        default (default true). */
    constructor FromAttributes(a: Attributes, glimStart: real)
      requires 0.0 <= glimStart <= 100.0
      ensures startPosX == posX == FetchInt(a, "posx", 0) as real
      ensures startPosY == posY == FetchInt(a, "posy", 0) as real
      ensures waypointType == FetchInt(a, "type", WaypointNormal)
      ensures destination == FirstPresent(a, DestinationKeys)
      ensures directionBackward == DirectionId(FetchString(a, "direction_backward", "left"))
      ensures directionForward == DirectionId(FetchString(a, "direction_forward", "right"))
      ensures access == accessDefault == FetchBool(a, "access", true)
      ensures glimColor == glimStart && glimMod && !autoDestroy
    {
      var x := FetchInt(a, "posx", 0) as real;
      var y := FetchInt(a, "posy", 0) as real;
      startPosX, startPosY, posX, posY := x, y, x, y;
      waypointType := FetchInt(a, "type", WaypointNormal);
      destination := FirstPresent(a, DestinationKeys);
      directionBackward := DirectionId(FetchString(a, "direction_backward", "left"));
      directionForward := DirectionId(FetchString(a, "direction_forward", "right"));
      var acc := FetchBool(a, "access", true);
      access, accessDefault := acc, acc;
      glimColor, glimMod := glimStart, true;
      autoDestroy := false;
    }

    /** `Set_Access(enabled, new_start_access)`: the default follows only
        when asked to. */
    method SetAccess(enabled: bool, newStartAccess: bool)
      modifies this`access, this`accessDefault
      ensures access == enabled
      ensures accessDefault == if newStartAccess then enabled else old(accessDefault)
    {
      access := enabled;
      if newStartAccess {
        accessDefault := access;
      }
    }

    /** `Set_Destination` */
    method SetDestination(name: String)
      modifies this`destination
      ensures destination == name
    {
      destination := name;
    }

    /** `Copy`: a new waypoint at this one's start position with the same
        type, destination and directions, whose access and default are this
        one's default. */
    method Copy(glimStart: real) returns (w: Waypoint)
      requires 0.0 <= glimStart <= 100.0
      ensures fresh(w)
      ensures w.startPosX == w.posX == startPosX && w.startPosY == w.posY == startPosY
      ensures w.waypointType == waypointType && w.destination == destination
      ensures w.directionForward == directionForward && w.directionBackward == directionBackward
      ensures w.access == w.accessDefault == accessDefault
    {
      w := new Waypoint(glimStart);
      w.startPosX, w.startPosY, w.posX, w.posY := startPosX, startPosY, startPosX, startPosY;
      w.waypointType := waypointType;
      w.SetDestination(destination);
      w.directionForward := directionForward;
      w.directionBackward := directionBackward;
      w.SetAccess(accessDefault, true);
    }

    /** `Update`: a destroyed waypoint stays as it is; otherwise the
        glimmer takes one step. */
    method Update(speedFactor: real)
      modifies this`glimColor, this`glimMod
      ensures autoDestroy ==> glimColor == old(glimColor) && glimMod == old(glimMod)
      ensures !autoDestroy ==> (glimColor, glimMod) == GlimStep(old(glimColor), old(glimMod), speedFactor)
    {
      if autoDestroy {
        return;
      }
      if glimMod {
        glimColor := glimColor + speedFactor * 3.0;
      } else {
        glimColor := glimColor - speedFactor * 3.0;
      }
      if glimColor > 120.0 {
        glimMod := false;
      } else if glimColor < 7.0 {
        glimMod := true;
      }
    }
  }

  /** An attribute map without the optional keys gives the documented
      defaults: facing back "left", forward "right", with access. */
  lemma AttributeDefaults(a: Attributes)
    ensures "direction_backward" !in a ==> DirectionId(FetchString(a, "direction_backward", "left")) == DirLeft
    ensures "direction_forward" !in a ==> DirectionId(FetchString(a, "direction_forward", "right")) == DirRight
    ensures "access" !in a ==> FetchBool(a, "access", true)
    ensures "type" !in a ==> FetchInt(a, "type", WaypointNormal) == WaypointNormal
  {
    DirectionNameRoundTrip(DirLeft);
    DirectionNameRoundTrip(DirRight);
  }
}
