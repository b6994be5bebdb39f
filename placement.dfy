/**
 * The `ARModel` placement state machine (src/components/ARExperience.tsx).
 *
 * An `ARModel` holds a `placed` flag, a position and a uniform scale.  While
 * unplaced, every hit-test result moves the model to the hit's translation;
 * one select gesture toggles `placed`.  Coordinates are modelled as reals.
 */
module Placement {
  import opened Wrappers

  datatype Vec3 = Vec3(x: real, y: real, z: real)

  const Origin: Vec3 := Vec3(0.0, 0.0, 0.0)

  /** A three.js `Matrix4`: sixteen entries in column-major order. */
  type Matrix4 = m: seq<real> | |m| == 16 witness seq(16, _ => 0.0)

  /**
   * The position `Matrix4.decompose` writes: the translation column,
   * entries 12, 13 and 14.  The rotation and scale it also computes are
   * discarded by the hit callback, so they are not modelled.
   */
  function Translation(m: Matrix4): Vec3 {
    Vec3(m[12], m[13], m[14])
  }

  /** The state an `ARModel` keeps: `placed`, `modelPosition`, `modelScale`. */
  datatype Pose = Pose(placed: bool, pos: Vec3, scale: real)

  /**
   * One hit-test callback.  `attached` says whether the group ref is set;
   * the position is written only when it is and the model is unplaced.
   */
  function HitStep(s: Pose, m: Matrix4, attached: bool): (r: Pose)
    ensures r.placed == s.placed && r.scale == s.scale
    ensures r.pos == if !s.placed && attached then Translation(m) else s.pos
  {
    if !s.placed && attached then s.(pos := Translation(m)) else s
  }

  /** One select gesture (`handleSelect`). */
  function SelectStep(s: Pose): (r: Pose)
    ensures r.placed != s.placed
    ensures r.pos == s.pos && r.scale == s.scale
  {
    s.(placed := !s.placed)
  }

  /**
   * Only the translation column of a hit matters: two hit matrices that
   * differ in rotation or scale but share entries 12 to 14 have the same effect.
   */
  lemma HitIgnoresRotationAndScale(s: Pose, m: Matrix4, n: Matrix4, attached: bool)
    requires m[12..15] == n[12..15]
    ensures HitStep(s, m, attached) == HitStep(s, n, attached)
  {
  }

  /** The `scale` triple the group is rendered with: the model's scale on every axis. */
  function GroupScale(s: Pose): Vec3 {
    Vec3(s.scale, s.scale, s.scale)
  }

  /** An event delivered to an `ARModel`. */
  datatype Event = Hit(m: Matrix4, attached: bool) | Select

  function Step(s: Pose, e: Event): Pose {
    match e
    case Hit(m, a) => HitStep(s, m, a)
    case Select => SelectStep(s)
  }

  /** The state after a sequence of events, oldest first. */
  function Replay(s: Pose, evs: seq<Event>): Pose
    decreases |evs|
  {
    if evs == [] then s else Replay(Step(s, evs[0]), evs[1..])
  }

  function SelectCount(evs: seq<Event>): nat {
    if evs == [] then 0 else (if evs[0].Select? then 1 else 0) + SelectCount(evs[1..])
  }

  /** The translation of the last hit that found the ref attached, if any. */
  function LastAttachedHit(evs: seq<Event>): Option<Vec3>
    decreases |evs|
  {
    if evs == [] then None
    else
      var rest := LastAttachedHit(evs[1..]);
      if rest.Some? then rest
      else if evs[0].Hit? && evs[0].attached then Some(Translation(evs[0].m))
      else None
  }

  /** The scale is never written after construction, whatever happens. */
  lemma {:induction false} ReplayKeepsScale(s: Pose, evs: seq<Event>)
    ensures Replay(s, evs).scale == s.scale
    decreases |evs|
  {
    if evs != [] {
      ReplayKeepsScale(Step(s, evs[0]), evs[1..]);
    }
  }

  /**
   * `placed` is a toggle, not a latch: after any events it equals the
   * starting mode flipped once per select gesture.
   */
  lemma {:induction false} ReplayPlacedParity(s: Pose, evs: seq<Event>)
    ensures Replay(s, evs).placed == (s.placed != (SelectCount(evs) % 2 == 1))
    decreases |evs|
  {
    if evs != [] {
      ReplayPlacedParity(Step(s, evs[0]), evs[1..]);
    }
  }

  /**
   * The rendered scale is, after any events, the uniform triple of the
   * scale the model was mounted with.
   */
  lemma {:induction false} RenderedScaleIsMountScale(s: Pose, evs: seq<Event>)
    ensures GroupScale(Replay(s, evs)) == Vec3(s.scale, s.scale, s.scale)
  {
    ReplayKeepsScale(s, evs);
  }

  /** Two selects undo each other; one select is not idempotent. */
  lemma SelectIsInvolution(s: Pose)
    ensures SelectStep(SelectStep(s)) == s
    ensures SelectStep(SelectStep(s)) != SelectStep(s)
  {
  }

  /** While placed, hits (attached or not) leave the whole state unchanged. */
  lemma {:induction false} PlacedIgnoresHits(s: Pose, evs: seq<Event>)
    requires s.placed
    requires SelectCount(evs) == 0
    ensures Replay(s, evs) == s
    decreases |evs|
  {
    if evs != [] {
      PlacedIgnoresHits(Step(s, evs[0]), evs[1..]);
    }
  }

  /**
   * While unplaced, the position after a run of hits is the translation of
   * the last hit that reached the attached group, and is kept unchanged
   * when no hit did.
   */
  lemma {:induction false} TrackingFollowsLastHit(s: Pose, evs: seq<Event>)
    requires !s.placed
    requires SelectCount(evs) == 0
    ensures !Replay(s, evs).placed
    ensures Replay(s, evs).pos == LastAttachedHit(evs).GetOr(s.pos)
    decreases |evs|
  {
    if evs != [] {
      var s' := Step(s, evs[0]);
      TrackingFollowsLastHit(s', evs[1..]);
    }
  }

  /**
   * The `ARModel` component instance: `placed`, `modelPosition` and
   * `modelScale` are its React state, updated in place by the hit callback
   * and `handleSelect`.
   */
  class ARModel {
    var url: string
    var placed: bool
    var pos: Vec3
    var scale: real

    function State(): Pose
      reads this
    {
      Pose(placed, pos, scale)
    }

    /** Mounting with the props `position = [0, 0, 0]` and `scale = 1` as defaults. */
    constructor (url: string, position: Vec3 := Origin, scale: real := 1.0)
      ensures this.url == url
      ensures !placed && pos == position && this.scale == scale
    {
      this.url := url;
      placed := false;
      pos := position;
      this.scale := scale;
    }

    /** The `useHitTest` callback for one frame's hit matrix. */
    method OnHit(m: Matrix4, attached: bool)
      modifies this
      ensures State() == HitStep(old(State()), m, attached)
      ensures !old(placed) && attached ==> pos == Translation(m)
      ensures old(placed) || !attached ==> pos == old(pos)
      ensures placed == old(placed) && scale == old(scale) && url == old(url)
    {
      if !placed {
        if attached {
          pos := Translation(m);
        }
      }
    }

    /**
     * A new `url` prop: React keeps the same unkeyed component, so its
     * state survives and the new model appears where the old one was,
     * placed if the old one was placed.
     */
    method ChangeUrl(u: string)
      modifies this
      ensures url == u
      ensures State() == old(State())
    {
      url := u;
    }

    /** `handleSelect`: flips `placed`, nothing else. */
    method Select()
      modifies this
      ensures State() == SelectStep(old(State()))
      ensures placed == !old(placed)
      ensures pos == old(pos) && scale == old(scale) && url == old(url)
    {
      if !placed {
        placed := true;
      } else {
        placed := false;
      }
    }
  }

  /** A fresh model starts unplaced at the origin with scale 1. */
  method MountDefault(url: string) returns (model: ARModel)
    ensures fresh(model)
    ensures model.State() == Pose(false, Origin, 1.0)
  {
    model := new ARModel(url);
  }
}
