/**
 * The part of `enchant.gl.Sprite3D` the plugin touches: the node's own
 * properties (x, y, z, scaleX, velocityY, ... as JavaScript values), its
 * rotation as the quaternion `getQuat` reports, and the two frame-stamped
 * caches that `getWorldCoord` and `getScreenCoord` keep on the node.
 *
 * A cache is a record `{frame, coord}`. `getWorldCoord` always fills `coord`;
 * `getScreenCoord` leaves it empty when there is no current 3D scene. JavaScript
 * tells `null` (returned directly) from `undefined` (read back from a cache
 * without `coord`); both are `None` here.
 *
 * The world position itself is the translation column of the node's model
 * matrix composed with its parents' (`baseMatrix`, through the host matrix
 * library) and the screen position is the host's `toScreenCoord`; both are
 * parameters.
 */
module Sprite {
  import opened Base

  datatype WorldCache = WorldCache(frame: int, coord: Vec3)

  datatype ScreenCache = ScreenCache(frame: int, coord: Option<Vec2>)

  /** What a function-valued tween parameter sees as `this`: the node's properties and rotation. */
  datatype NodeState = NodeState(fields: map<string, Value>, quat: Quat)

  // ---------------------------------------------------------------------------
  // The caches as functions of the previous cache

  /** `getWorldCoord` on a node whose cache was `cache`, in frame `frame`, when `baseMatrix` gives `world`. */
  function WorldLookup(cache: Option<WorldCache>, frame: int, world: Vec3): WorldCache {
    if cache.Some? && cache.value.frame == frame then cache.value else WorldCache(frame, world)
  }

  /** Both caches, as `getScreenCoord` leaves them. */
  datatype Caches = Caches(world: Option<WorldCache>, screen: Option<ScreenCache>)

  /**
   * `getScreenCoord`: a hit returns the stored coord; a miss restamps the
   * screen cache, and then either stops (no scene) or asks `getWorldCoord` and
   * projects its answer.
   */
  function ScreenLookup(c: Caches, frame: int, hasScene: bool, world: Vec3, project: Vec3 -> Vec2): Caches {
    if c.screen.Some? && c.screen.value.frame == frame then c
    else if !hasScene then c.(screen := Some(ScreenCache(frame, None)))
    else
      var w := WorldLookup(c.world, frame, world);
      Caches(Some(w), Some(ScreenCache(frame, Some(project(w.coord)))))
  }

  /** The world cache is stamped with the current frame after every call. */
  lemma WorldLookupStamped(cache: Option<WorldCache>, frame: int, world: Vec3)
    ensures WorldLookup(cache, frame, world).frame == frame
  {
  }

  /**
   * A second `getWorldCoord` in the same frame answers what the first one
   * stored, whatever the matrices say by then, and leaves the cache as it was.
   */
  lemma WorldLookupRepeat(cache: Option<WorldCache>, frame: int, world: Vec3, later: Vec3)
    ensures WorldLookup(Some(WorldLookup(cache, frame, world)), frame, later) == WorldLookup(cache, frame, world)
  {
  }

  /** The first call in a frame recomputes: it answers the current world position. */
  lemma WorldLookupFresh(cache: Option<WorldCache>, frame: int, world: Vec3)
    requires cache.None? || cache.value.frame != frame
    ensures WorldLookup(cache, frame, world) == WorldCache(frame, world)
  {
  }

  /** After `getScreenCoord` the screen cache is stamped with the current frame. */
  lemma ScreenLookupStamped(c: Caches, frame: int, hasScene: bool, world: Vec3, project: Vec3 -> Vec2)
    ensures ScreenLookup(c, frame, hasScene, world, project).screen.Some?
    ensures ScreenLookup(c, frame, hasScene, world, project).screen.value.frame == frame
  {
  }

  /** A second `getScreenCoord` in the same frame changes nothing and answers the same. */
  lemma ScreenLookupRepeat(c: Caches, frame: int, hasScene: bool, world: Vec3, project: Vec3 -> Vec2,
                           hasScene': bool, world': Vec3, project': Vec3 -> Vec2)
    ensures var once := ScreenLookup(c, frame, hasScene, world, project);
            ScreenLookup(once, frame, hasScene', world', project') == once
  {
  }

  /**
   * With no current scene, a first call in the frame answers null and has
   * already stamped the screen cache, with no coord; the world cache is not
   * consulted.
   */
  lemma ScreenLookupNoScene(c: Caches, frame: int, world: Vec3, project: Vec3 -> Vec2)
    requires c.screen.None? || c.screen.value.frame != frame
    ensures ScreenLookup(c, frame, false, world, project) == c.(screen := Some(ScreenCache(frame, None)))
  {
  }

  /**
   * With a scene, a first call in the frame answers the projection of the
   * world coordinate that the world cache holds for this frame afterwards.
   */
  lemma ScreenLookupProjectsWorld(c: Caches, frame: int, world: Vec3, project: Vec3 -> Vec2)
    requires c.screen.None? || c.screen.value.frame != frame
    ensures var r := ScreenLookup(c, frame, true, world, project);
            r.world.Some? && r.world.value.frame == frame &&
            r.screen.value.coord == Some(project(r.world.value.coord))
  {
  }

  class Sprite3D {
    var fields: map<string, Value>
    var quat: Quat
    var globalCoordCache: Option<WorldCache>
    var screenCoordCache: Option<ScreenCache>

    /** A node with the given properties and rotation and no cached coordinates. */
    constructor (fields: map<string, Value>, quat: Quat)
      ensures this.fields == fields && this.quat == quat
      ensures globalCoordCache.None? && screenCoordCache.None?
    {
      this.fields := fields;
      this.quat := quat;
      globalCoordCache := None;
      screenCoordCache := None;
    }

    function State(): NodeState
      reads this
    {
      NodeState(fields, quat)
    }

    /** `getWorldCoord()` in frame `frame`; `world` is what `baseMatrix` would compute now. */
    method GetWorldCoord(frame: int, world: Vec3) returns (coord: Vec3)
      modifies this`globalCoordCache
      ensures globalCoordCache == Some(WorldLookup(old(globalCoordCache), frame, world))
      ensures coord == globalCoordCache.value.coord
    {
      if globalCoordCache.Some? && globalCoordCache.value.frame == frame {
        return globalCoordCache.value.coord;
      }
      globalCoordCache := Some(WorldCache(frame, world));
      coord := world;
    }

    /**
     * `getScreenCoord()` in frame `frame`; `hasScene` says whether
     * `game.currentScene3D` is set and `project` is `toScreenCoord`.
     */
    method GetScreenCoord(frame: int, hasScene: bool, world: Vec3, project: Vec3 -> Vec2) returns (coord: Option<Vec2>)
      modifies this`globalCoordCache, this`screenCoordCache
      ensures Caches(globalCoordCache, screenCoordCache)
              == ScreenLookup(Caches(old(globalCoordCache), old(screenCoordCache)), frame, hasScene, world, project)
      ensures coord == screenCoordCache.value.coord
    {
      if screenCoordCache.Some? && screenCoordCache.value.frame == frame {
        return screenCoordCache.value.coord;
      }
      screenCoordCache := Some(ScreenCache(frame, None));
      if !hasScene {
        return None;
      }
      var g := GetWorldCoord(frame, world);
      screenCoordCache := Some(ScreenCache(frame, Some(project(g))));
      coord := Some(project(g));
    }
  }
}
