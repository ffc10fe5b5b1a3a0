/** The "render and skip" operator: it samples the f-curves of every animated
    object over the frame range of the scene named "Scene", calls a frame still when no animated
    object changes from the previous frame, renders every other frame (and
    always the first) and copies the previous frame's image for still ones.
    Rendering, frame_path and the cp subprocess are host work; the model
    records the render and copy actions the operator issues, in order. */
module RenderSkip {
  import opened Common

  /** An object of the scene. sample(fr) is the list of its f-curve values
      evaluated at frame fr; objects without an action are not animated. */
  datatype SceneObject = SceneObject(name: string, animated: bool, sample: int -> seq<real>)

  datatype Engine = OpenGL | CurrentEngine

  function EngineOf(engine: string): Engine
  {
    if engine == "opengl" then OpenGL else CurrentEngine
  }

  datatype Action =
    | Render(frame: int, outPath: string, engine: Engine)
    | Copy(source: string, target: string)

  /** set(range(start, end)) */
  function RangeSet(start: int, end: int): (r: set<int>)
    ensures forall fr :: fr in r <==> start <= fr < end
    decreases end - start
  {
    if end <= start then {} else RangeSet(start, end - 1) + {end - 1}
  }

  /** The samples of o at fr differ from those at the frame before. */
  predicate ChangesAt(o: SceneObject, fr: int)
  {
    o.sample(fr) != o.sample(fr - 1)
  }

  /** The frames, after the first sampled one, at which o's samples differ
      from the previous frame's. */
  function AnimatedFrames(o: SceneObject, start: int, end: int): set<int>
  {
    if !o.animated then {} else set fr | start < fr <= end && ChangesAt(o, fr)
  }

  /** still_frames after subtracting the animated frames of each object. */
  function StillFrames(objs: seq<SceneObject>, start: int, end: int): set<int>
    decreases |objs|
  {
    if objs == [] then RangeSet(start, end)
    else StillFrames(objs[..|objs| - 1], start, end) - AnimatedFrames(objs[|objs| - 1], start, end)
  }

  /** A frame of the render range is still exactly when it is the first one or
      no animated object's samples change into it. */
  predicate UnchangedAt(objs: seq<SceneObject>, start: int, fr: int)
  {
    forall k :: 0 <= k < |objs| && objs[k].animated ==>
      fr == start || !ChangesAt(objs[k], fr)
  }

  lemma {:induction false} StillFramesMember(objs: seq<SceneObject>, start: int, end: int, fr: int)
    ensures fr in StillFrames(objs, start, end) <==> start <= fr < end && UnchangedAt(objs, start, fr)
    decreases |objs|
  {
    if objs != [] {
      var init := objs[..|objs| - 1];
      StillFramesMember(init, start, end, fr);
      assert forall k :: 0 <= k < |init| ==> init[k] == objs[k];
      if start <= fr < end && !UnchangedAt(objs, start, fr) {
        var k :| 0 <= k < |objs| && objs[k].animated && fr != start && ChangesAt(objs[k], fr);
        if k < |init| {
          assert !UnchangedAt(init, start, fr);
        } else {
          assert fr in AnimatedFrames(objs[|objs| - 1], start, end);
        }
      }
    }
  }

  /** The loop over all_obj_fcurves that builds still_frames. */
  method ComputeStillFrames(objs: seq<SceneObject>, start: int, end: int) returns (still: set<int>)
    ensures still == StillFrames(objs, start, end)
  {
    still := RangeSet(start, end);
    var i := 0;
    while i < |objs|
      invariant 0 <= i <= |objs|
      invariant still == StillFrames(objs[..i], start, end)
    {
      var o := objs[i];
      assert objs[..i + 1][..i] == objs[..i];
      if o.animated {
        var animated: seq<int> := [];
        var fr := start;
        while fr <= end
          invariant start <= fr <= if end < start then start else end + 1
          invariant forall f :: f in animated <==> start < f < fr && ChangesAt(o, f)
        {
          if fr != start && o.sample(fr) != o.sample(fr - 1) {
            animated := animated + [fr];
          }
          fr := fr + 1;
        }
        var animatedSet := set f | f in animated;
        assert animatedSet == AnimatedFrames(o, start, end);
        still := still - animatedSet;
      } else {
        assert AnimatedFrames(o, start, end) == {};
      }
      i := i + 1;
    }
    assert objs[..i] == objs;
  }

  /** The frame is rendered (not copied): it is not still, or it is the first
      frame of the range. */
  predicate Rendered(still: set<int>, start: int, fr: int)
  {
    fr !in still || fr == start
  }

  /** The frame rendered last before fr: the frame scene.frame_current holds
      when fr is reached. */
  function LastRendered(still: set<int>, start: int, fr: int): (r: int)
    requires start < fr
    ensures start <= r < fr && Rendered(still, start, r)
    decreases fr - start
  {
    if Rendered(still, start, fr - 1) then fr - 1 else LastRendered(still, start, fr - 1)
  }

  /** '/'.join(p.split('/')[:-1]) + '/' : the directory part of p with its
      slash. Without a '/' in p the directory part is empty. */
  function DirWithSlash(p: string): (d: string)
    ensures EndsWith(d, "/")
    ensures '/' !in p ==> d == "/"
    ensures '/' in p ==> |d| <= |p| && d == p[..|d|] && '/' !in p[|d|..]
  {
    if RFind(p, '/') < 0 then "/" else p[..RFind(p, '/') + 1]
  }

  /** What the operator does at frame fr. framePath(path, f) is Blender's
      scene.render.frame_path for output path `path` at frame f. */
  function ActionAt(still: set<int>, start: int, fr: int, base: string, engine: string,
                    framePath: (string, int) -> string): Action
    requires start <= fr
  {
    if Rendered(still, start, fr) then Render(fr, base + Pad4(fr), EngineOf(engine))
    else
      var r := LastRendered(still, start, fr);
      CopyPrevious(DirWithSlash(framePath(base + Pad4(r), r)), fr)
  }

  /** cp dir/%04d.png (fr-1) to dir/%04d.png (fr). */
  function CopyPrevious(dir: string, fr: int): Action
  {
    Copy(dir + Pad4(fr - 1) + ".png", dir + Pad4(fr) + ".png")
  }

  /** The actions for the first n frames of the range, given the still set. */
  function PlanWith(still: set<int>, start: int, n: nat, base: string, engine: string,
                    framePath: (string, int) -> string): (p: seq<Action>)
    ensures |p| == n
  {
    seq(n, k requires 0 <= k < n => ActionAt(still, start, start + k, base, engine, framePath))
  }

  lemma PlanWithSnoc(still: set<int>, start: int, n: nat, base: string, engine: string,
                     framePath: (string, int) -> string)
    ensures PlanWith(still, start, n + 1, base, engine, framePath) ==
      PlanWith(still, start, n, base, engine, framePath) + [ActionAt(still, start, start + n, base, engine, framePath)]
  {
    var a := PlanWith(still, start, n + 1, base, engine, framePath);
    var p := PlanWith(still, start, n, base, engine, framePath);
    var b := p + [ActionAt(still, start, start + n, base, engine, framePath)];
    forall k | 0 <= k < n + 1
      ensures a[k] == b[k]
    {
      if k < n {
        assert b[k] == p[k];
      }
    }
  }

  /** The actions of the whole run, one per frame of range(start, end). */
  function Plan(objs: seq<SceneObject>, start: int, end: int, base: string, engine: string,
                framePath: (string, int) -> string): seq<Action>
  {
    PlanWith(StillFrames(objs, start, end), start, if end < start then 0 else end - start, base, engine, framePath)
  }

  /** The parts of the scene the operator changes. */
  class Scene {
    var filepath: string       // scene.render.filepath
    var frameCurrent: int      // scene.frame_current

    constructor(filepath: string, frameCurrent: int)
      ensures this.filepath == filepath && this.frameCurrent == frameCurrent
    {
      this.filepath := filepath;
      this.frameCurrent := frameCurrent;
    }
  }

  /** KTXRENDERSKIP_OT_Render.execute: the actions issued in order; the output
      path is restored afterwards and the current frame is left at the last
      rendered frame. */
  method Execute(scene: Scene, objs: seq<SceneObject>, start: int, end: int, engine: string,
                 framePath: (string, int) -> string) returns (actions: seq<Action>)
    modifies scene
    ensures actions == Plan(objs, start, end, old(scene.filepath), engine, framePath)
    ensures scene.filepath == old(scene.filepath)
    ensures scene.frameCurrent ==
      if end <= start then old(scene.frameCurrent)
      else LastRendered(StillFrames(objs, start, end), start, end)
  {
    var still := ComputeStillFrames(objs, start, end);
    var filepath := scene.filepath;
    var n := if end < start then 0 else end - start;
    actions := [];
    for k := 0 to n
      invariant actions == PlanWith(still, start, k, filepath, engine, framePath)
      invariant k == 0 ==> scene.frameCurrent == old(scene.frameCurrent) && scene.filepath == filepath
      invariant k > 0 ==> scene.frameCurrent == LastRendered(still, start, start + k)
      invariant k > 0 ==> scene.filepath == filepath + Pad4(scene.frameCurrent)
    {
      PlanWithSnoc(still, start, k, filepath, engine, framePath);
      ghost var next := PlanWith(still, start, k + 1, filepath, engine, framePath);
      var action := FrameStep(scene, still, start, start + k, filepath, engine, framePath);
      actions := actions + [action];
      assert actions == next;
    }
    scene.filepath := filepath;
  }

  /** One pass of the frame loop: render frame fr into the numbered output
      path, or copy the previous image in the directory of the last render. */
  method FrameStep(scene: Scene, still: set<int>, start: int, fr: int, filepath: string, engine: string,
                   framePath: (string, int) -> string) returns (action: Action)
    requires start <= fr
    requires fr > start ==> scene.frameCurrent == LastRendered(still, start, fr)
    requires fr > start ==> scene.filepath == filepath + Pad4(scene.frameCurrent)
    modifies scene
    ensures action == ActionAt(still, start, fr, filepath, engine, framePath)
    ensures scene.frameCurrent == LastRendered(still, start, fr + 1)
    ensures scene.filepath == filepath + Pad4(scene.frameCurrent)
  {
    if fr !in still || fr == start {
      RenderStep(still, start, fr, filepath, engine, framePath);
      scene.frameCurrent := fr;
      scene.filepath := filepath + Pad4(fr);
      action := Render(fr, scene.filepath, EngineOf(engine));
    } else {
      CopyStep(still, start, fr, filepath, engine, framePath);
      var absFilepath := framePath(scene.filepath, scene.frameCurrent);
      var absPath := DirWithSlash(absFilepath);
      action := CopyPrevious(absPath, fr);
    }
  }

  lemma RenderStep(still: set<int>, start: int, fr: int, base: string, engine: string,
                   framePath: (string, int) -> string)
    requires start <= fr && Rendered(still, start, fr)
    ensures ActionAt(still, start, fr, base, engine, framePath) == Render(fr, base + Pad4(fr), EngineOf(engine))
    ensures LastRendered(still, start, fr + 1) == fr
  {
  }

  lemma CopyStep(still: set<int>, start: int, fr: int, base: string, engine: string,
                 framePath: (string, int) -> string)
    requires start <= fr && !Rendered(still, start, fr)
    ensures start < fr
    ensures var r := LastRendered(still, start, fr);
      ActionAt(still, start, fr, base, engine, framePath) == CopyPrevious(DirWithSlash(framePath(base + Pad4(r), r)), fr)
    ensures LastRendered(still, start, fr + 1) == LastRendered(still, start, fr)
  {
  }

  // ---------------------------------------------------------------------
  // Properties of the plan

  /** One action per frame of range(start, end), the first always a render. */
  lemma PlanShape(objs: seq<SceneObject>, start: int, end: int, base: string, engine: string,
                  framePath: (string, int) -> string)
    ensures var p := Plan(objs, start, end, base, engine, framePath);
      && |p| == (if end < start then 0 else end - start)
      && (start < end ==> p[0] == Render(start, base + Pad4(start), EngineOf(engine)))
  {
    if start < end {
      var still := StillFrames(objs, start, end);
      assert Plan(objs, start, end, base, engine, framePath)[0] == ActionAt(still, start, start, base, engine, framePath);
    }
  }

  /** A frame is copied exactly when it is a still frame other than the first,
      that is when no animated object's samples change into it. */
  lemma CopiedIffUnchanged(objs: seq<SceneObject>, start: int, end: int, base: string, engine: string,
                           framePath: (string, int) -> string, k: nat)
    requires k < end - start
    ensures Plan(objs, start, end, base, engine, framePath)[k].Copy? <==>
      k > 0 && UnchangedAt(objs, start, start + k)
  {
    var still := StillFrames(objs, start, end);
    StillFramesMember(objs, start, end, start + k);
    assert Plan(objs, start, end, base, engine, framePath)[k] == ActionAt(still, start, start + k, base, engine, framePath);
  }

  /** Every copied frame shows what the last rendered frame shows: each
      animated object's samples are the same at both frames. */
  lemma {:induction false} CopySourceIdentical(objs: seq<SceneObject>, start: int, end: int, fr: int, o: nat)
    requires start < fr < end
    requires !Rendered(StillFrames(objs, start, end), start, fr)
    requires o < |objs| && objs[o].animated
    ensures var r := LastRendered(StillFrames(objs, start, end), start, fr);
      objs[o].sample(fr) == objs[o].sample(r)
    decreases fr - start
  {
    var still := StillFrames(objs, start, end);
    StillFramesMember(objs, start, end, fr);
    assert !ChangesAt(objs[o], fr);
    if !Rendered(still, start, fr - 1) {
      CopySourceIdentical(objs, start, end, fr - 1, o);
    }
  }

  /** A copy reads image fr-1 and writes image fr, both in the directory of
      the frame path of the last render action issued before it; every action
      in between is a copy. */
  lemma CopyUsesLastRenderDirectory(still: set<int>, start: int, fr: int, base: string, engine: string,
                                    framePath: (string, int) -> string)
    requires start <= fr
    requires ActionAt(still, start, fr, base, engine, framePath).Copy?
    ensures start < fr
    ensures var r := LastRendered(still, start, fr);
      var rendered := ActionAt(still, start, r, base, engine, framePath);
      && rendered.Render?
      && (forall m :: r < m < fr ==> ActionAt(still, start, m, base, engine, framePath).Copy?)
      && ActionAt(still, start, fr, base, engine, framePath) ==
           CopyPrevious(DirWithSlash(framePath(rendered.outPath, rendered.frame)), fr)
  {
    LastRenderedIsLast(still, start, fr);
  }

  /** No frame strictly between LastRendered(fr) and fr is rendered. */
  lemma {:induction false} LastRenderedIsLast(still: set<int>, start: int, fr: int)
    requires start < fr
    ensures forall m :: LastRendered(still, start, fr) < m < fr ==> !Rendered(still, start, m)
    decreases fr - start
  {
    if !Rendered(still, start, fr - 1) {
      LastRenderedIsLast(still, start, fr - 1);
    }
  }
}
