/** The older waypoint of SMC world maps
    (smc/src/overworld/world_waypoint.cpp): destination, access with its
    default, position and glimmer, without walking directions. Images and
    drawing are not modelled. */
module SmcWorldWaypoint {
  import opened Common
  import opened XmlAttributes
  import WorldWaypoint

  class Waypoint {
    /** `m_waypoint_type` */
    var waypointType: int
    /** `m_destination` */
    var destination: String
    /** `m_access` and `m_access_default` */
    var access: bool
    var accessDefault: bool
    /** The sprite's start and current position. */
    var startPosX: real
    var startPosY: real
    var posX: real
    var posY: real
    /** `m_glim_color` and `m_glim_mod` (rising) */
    var glimColor: real
    var glimMod: bool
    /** `m_auto_destroy` of the sprite */
    var autoDestroy: bool

    /** `cWaypoint(sprite_manager)` with `Init`; `glimStart` is the random
        start of the glimmer, drawn from [0, 100]. */
    constructor (glimStart: real)
      requires 0.0 <= glimStart <= 100.0
      ensures waypointType == WorldWaypoint.WaypointNormal && destination == []
      ensures !access && !accessDefault
      ensures startPosX == posX == 0.0 && startPosY == posY == 0.0
      ensures glimColor == glimStart && glimMod && !autoDestroy
    {
      waypointType := WorldWaypoint.WaypointNormal;
      destination := [];
      access, accessDefault := false, false;
      startPosX, startPosY, posX, posY := 0.0, 0.0, 0.0, 0.0;
      glimColor, glimMod := glimStart, true;
      autoDestroy := false;
    }

    /** `cWaypoint(attributes, sprite_manager)`: position from `x`/`y`
        (default 0), type (default normal), the destination by
        `world`, `level`, `destination`, and access, which also becomes the
        default (default true). */
    constructor FromAttributes(a: Attributes, glimStart: real)
      requires 0.0 <= glimStart <= 100.0
      ensures startPosX == posX == FetchInt(a, "x", 0) as real
      ensures startPosY == posY == FetchInt(a, "y", 0) as real
      ensures waypointType == FetchInt(a, "type", WorldWaypoint.WaypointNormal)
      ensures destination == FirstPresent(a, WorldWaypoint.DestinationKeys)
      ensures access == accessDefault == FetchBool(a, "access", true)
      ensures glimColor == glimStart && glimMod && !autoDestroy
    {
      var x := FetchInt(a, "x", 0) as real;
      var y := FetchInt(a, "y", 0) as real;
      startPosX, startPosY, posX, posY := x, y, x, y;
      waypointType := FetchInt(a, "type", WorldWaypoint.WaypointNormal);
      destination := FirstPresent(a, WorldWaypoint.DestinationKeys);
      var acc := FetchBool(a, "access", true);
      access, accessDefault := acc, acc;
      glimColor, glimMod := glimStart, true;
      autoDestroy := false;
    }

    /** `Set_Access(enabled, new_start_access)` */
    method SetAccess(enabled: bool, newStartAccess: bool)
      modifies this`access, this`accessDefault
      ensures access == enabled
      ensures accessDefault == if newStartAccess then enabled else old(accessDefault)
    {
      access := enabled;
      if newStartAccess {
        accessDefault := access;
      }
    }

    /** `Copy`: a new waypoint at this one's start position with the same
        type and destination, whose access and default are this one's
        default. */
    method Copy(glimStart: real) returns (w: Waypoint)
      requires 0.0 <= glimStart <= 100.0
      ensures fresh(w)
      ensures w.startPosX == w.posX == startPosX && w.startPosY == w.posY == startPosY
      ensures w.waypointType == waypointType && w.destination == destination
      ensures w.access == w.accessDefault == accessDefault
    {
      w := new Waypoint(glimStart);
      w.startPosX, w.startPosY, w.posX, w.posY := startPosX, startPosY, startPosX, startPosY;
      w.waypointType := waypointType;
      w.destination := destination;
      w.SetAccess(accessDefault, true);
    }

    /** `Update`: the same glimmer as the TSC waypoint. */
    method Update(speedFactor: real)
      modifies this`glimColor, this`glimMod
      ensures autoDestroy ==> glimColor == old(glimColor) && glimMod == old(glimMod)
      ensures !autoDestroy ==> (glimColor, glimMod) == WorldWaypoint.GlimStep(old(glimColor), old(glimMod), speedFactor)
    {
      if autoDestroy {
        return;
      }
      if glimMod {
        glimColor := glimColor + speedFactor * 3.0;
      } else {
        glimColor := glimColor - speedFactor * 3.0;
      }
      if glimColor > 120.0 {
        glimMod := false;
      } else if glimColor < 7.0 {
        glimMod := true;
      }
    }
  }
}
