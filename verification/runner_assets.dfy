/**
  The procedural sprites of the runner game (features/Experiments/components/RunnerAssets.ts):
  eight canvases, each painted by a fixed script against its own 2D context. Most commented
  sections of a script are one method here, whose contract gives the drawing state it leaves
  behind and the paint operations it appends to the log; a few short runs of assignments and
  `fillRect` calls (the torii shadow and nuki, the lantern below its roof, the cloud setup) stay
  inline in the script's method. The contracts of the assembled scripts
  say which drawing state each shape is actually painted with: state set for one shape persists
  until a later assignment overwrites it.
*/
module RunnerAssets {
  import opened Canvas2D

  // ---------------------------------------------------------------------------
  // Canvases and the asset record
  // ---------------------------------------------------------------------------

  /** `createCanvas(width, height)`: a new canvas with exactly those dimensions. */
  method CreateCanvas(width: nat, height: nat) returns (canvas: Canvas)
    ensures fresh(canvas) && fresh(canvas.ctx)
    ensures canvas.width == width && canvas.height == height
    ensures canvas.ctx.IsInitial()
  {
    canvas := new Canvas();
    canvas.width := width;
    canvas.height := height;
  }

  /** `GameAssets`: one canvas per key, and exactly these eight keys. */
  datatype GameAssets = GameAssets(
    kitsune: Canvas, torii: Canvas, tengu: Canvas, lantern: Canvas,
    fuji: Canvas, daruma: Canvas, cloud: Canvas, mountains: Canvas)

  function Canvases(a: GameAssets): seq<Canvas>
  {
    [a.kitsune, a.torii, a.tengu, a.lantern, a.fuji, a.daruma, a.cloud, a.mountains]
  }

  /**
    No two assets share a context; since a canvas has one context, no two share a canvas either,
    so style set by one script cannot reach another.
  */
  predicate NothingShared(a: GameAssets)
  {
    var cs := Canvases(a);
    forall i, j :: 0 <= i < j < |cs| ==> cs[i].ctx != cs[j].ctx
  }

  /** Contexts each new relative to the ones made before them are pairwise distinct. */
  lemma ContextsDistinct(a: GameAssets)
    requires a.torii.ctx !in {a.kitsune.ctx}
    requires a.tengu.ctx !in {a.kitsune.ctx, a.torii.ctx}
    requires a.lantern.ctx !in {a.kitsune.ctx, a.torii.ctx, a.tengu.ctx}
    requires a.fuji.ctx !in {a.kitsune.ctx, a.torii.ctx, a.tengu.ctx, a.lantern.ctx}
    requires a.daruma.ctx !in {a.kitsune.ctx, a.torii.ctx, a.tengu.ctx, a.lantern.ctx, a.fuji.ctx}
    requires a.cloud.ctx !in {a.kitsune.ctx, a.torii.ctx, a.tengu.ctx, a.lantern.ctx, a.fuji.ctx, a.daruma.ctx}
    requires a.mountains.ctx !in {a.kitsune.ctx, a.torii.ctx, a.tengu.ctx, a.lantern.ctx, a.fuji.ctx, a.daruma.ctx, a.cloud.ctx}
    ensures NothingShared(a)
  {
  }

  /** The dimensions a canvas was created with. */
  predicate HasDimensions(c: Canvas, width: nat, height: nat)
    reads c
  {
    c.width == width && c.height == height
  }

  /** A shadow with no offset. */
  function Glow(color: string, blur: real): Shadow
  {
    Shadow(color, blur, 0.0, 0.0)
  }

  /** The initial shadow: transparent and unblurred. */
  const NoShadow := Glow(NoShadowColor, 0.0)

  /** The state `s` after assigning `shadowColor` and `shadowBlur`. */
  function WithGlow(s: DrawState, color: string, blur: real): DrawState
  {
    s.(shadow := s.shadow.(color := color, blur := blur))
  }

  /** The state `s` after assigning `shadowBlur` alone. */
  function WithBlur(s: DrawState, blur: real): DrawState
  {
    s.(shadow := s.shadow.(blur := blur))
  }

  // ---------------------------------------------------------------------------
  // 1. Kitsune (lines 20-73)
  // ---------------------------------------------------------------------------

  const KitsuneBodyPath := [PathCmd.MoveTo(15.0, 40.0), PathCmd.BezierCurveTo(15.0, 20.0, 30.0, 10.0, 45.0, 25.0),
                            PathCmd.BezierCurveTo(55.0, 35.0, 55.0, 50.0, 40.0, 50.0), PathCmd.QuadraticCurveTo(30.0, 55.0, 15.0, 40.0)]
  const KitsuneHeadPath := [PathCmd.Ellipse(45.0, 25.0, 12.0, 10.0, -0.2, 0.0, FullTurn)]
  const KitsuneEarPath := [PathCmd.MoveTo(40.0, 15.0), PathCmd.LineTo(45.0, 5.0), PathCmd.LineTo(50.0, 18.0)]
  const KitsuneMarkingPath := [PathCmd.MoveTo(45.0, 18.0), PathCmd.LineTo(48.0, 22.0), PathCmd.LineTo(42.0, 22.0)]
  const KitsuneEyePath := [PathCmd.Arc(48.0, 24.0, 1.5, 0.0, FullTurn)]

  /** The path of tail `i` (line 71). */
  function TailPath(i: int): seq<PathCmd>
  {
    [PathCmd.MoveTo(15.0, 35.0),
     PathCmd.BezierCurveTo((5 - i * 5) as real, (35 - i * 5) as real, (0 - i * 5) as real, (15 + i * 5) as real, 15.0, 25.0)]
  }

  /** Body: a white glow of blur 10 and a white fill, then the body outline. */
  method KitsuneBody(k: Context2D)
    modifies k
    ensures k.State() == WithGlow(old(k.State()), "#fff", 10.0).(fillStyle := Solid("#ffffff"))
    ensures k.path == KitsuneBodyPath
    ensures k.log == old(k.log) + [Paint(FillPath(KitsuneBodyPath), k.State())]
  {
    k.shadowColor := "#fff";
    k.shadowBlur := 10.0;
    k.fillStyle := Solid("#ffffff");
    k.BeginPath();
    k.MoveTo(15.0, 40.0);
    k.BezierCurveTo(15.0, 20.0, 30.0, 10.0, 45.0, 25.0);
    k.BezierCurveTo(55.0, 35.0, 55.0, 50.0, 40.0, 50.0);
    k.QuadraticCurveTo(30.0, 55.0, 15.0, 40.0);
    k.Fill();
  }

  /** Head: an ellipse painted with whatever state is in force. */
  method KitsuneHead(k: Context2D)
    modifies k
    ensures k.State() == old(k.State())
    ensures k.path == KitsuneHeadPath
    ensures k.log == old(k.log) + [Paint(FillPath(KitsuneHeadPath), k.State())]
  {
    k.BeginPath();
    k.Ellipse(45.0, 25.0, 12.0, 10.0, -0.2, 0.0, MathPI * 2.0);
    k.Fill();
  }

  /** Ears: only the fill style changes. */
  method KitsuneEars(k: Context2D)
    modifies k
    ensures k.State() == old(k.State()).(fillStyle := Solid("#fff"))
    ensures k.path == KitsuneEarPath
    ensures k.log == old(k.log) + [Paint(FillPath(KitsuneEarPath), k.State())]
  {
    k.fillStyle := Solid("#fff");
    k.BeginPath();
    k.MoveTo(40.0, 15.0);
    k.LineTo(45.0, 5.0);
    k.LineTo(50.0, 18.0);
    k.Fill();
  }

  /** Red markings: the blur drops to 0, the shadow colour is left as it was. */
  method KitsuneMarkings(k: Context2D)
    modifies k
    ensures k.State() == WithBlur(old(k.State()), 0.0).(fillStyle := Solid("#ff0000"))
    ensures k.path == KitsuneMarkingPath
    ensures k.log == old(k.log) + [Paint(FillPath(KitsuneMarkingPath), k.State())]
  {
    k.fillStyle := Solid("#ff0000");
    k.shadowBlur := 0.0;
    k.BeginPath();
    k.MoveTo(45.0, 18.0);
    k.LineTo(48.0, 22.0);
    k.LineTo(42.0, 22.0);
    k.Fill();
  }

  /** Eye: a small black disc. */
  method KitsuneEye(k: Context2D)
    modifies k
    ensures k.State() == old(k.State()).(fillStyle := Solid("#000"))
    ensures k.path == KitsuneEyePath
    ensures k.log == old(k.log) + [Paint(FillPath(KitsuneEyePath), k.State())]
  {
    k.fillStyle := Solid("#000");
    k.BeginPath();
    k.Arc(48.0, 24.0, 1.5, 0.0, MathPI * 2.0);
    k.Fill();
  }

  /** Tails: a blue glow of blur 15, then three tails, each a fresh path. */
  method KitsuneTails(k: Context2D)
    modifies k
    ensures k.State() == WithGlow(old(k.State()), "#aaddff", 15.0).(fillStyle := Solid("#fff"))
    ensures |k.log| == |old(k.log)| + 3 && k.log[..|old(k.log)|] == old(k.log)
    ensures forall i :: 0 <= i < 3 ==> k.log[|old(k.log)| + i] == Paint(FillPath(TailPath(i)), k.State())
    ensures k.path == TailPath(2)
  {
    k.fillStyle := Solid("#fff");
    k.shadowBlur := 15.0;
    k.shadowColor := "#aaddff";
    var i := 0;
    while i < 3
      invariant 0 <= i <= 3
      invariant k.State() == WithGlow(old(k.State()), "#aaddff", 15.0).(fillStyle := Solid("#fff"))
      invariant |k.log| == |old(k.log)| + i && k.log[..|old(k.log)|] == old(k.log)
      invariant forall j :: 0 <= j < i ==> k.log[|old(k.log)| + j] == Paint(FillPath(TailPath(j)), k.State())
      invariant i > 0 ==> k.path == TailPath(i - 1)
    {
      k.BeginPath();
      k.MoveTo(15.0, 35.0);
      k.BezierCurveTo((5 - i * 5) as real, (35 - i * 5) as real, (0 - i * 5) as real, (15 + i * 5) as real, 15.0, 25.0);
      assert k.path == TailPath(i);
      k.Fill();
      i := i + 1;
    }
  }

  const KitsuneGlow := Glow("#fff", 10.0)
  const TailState := DrawState(Solid("#fff"), Black, 1.0, Glow("#aaddff", 15.0))

  /**
    The kitsune log: body, head and ears all carry the white glow of blur 10 set before the body;
    the markings and the eye have blur 0 but keep the colour '#fff'; the three tails carry the
    blue glow of blur 15.
  */
  predicate KitsunePainted(log: seq<Paint>)
  {
    log == [
      Paint(FillPath(KitsuneBodyPath), DrawState(Solid("#ffffff"), Black, 1.0, KitsuneGlow)),
      Paint(FillPath(KitsuneHeadPath), DrawState(Solid("#ffffff"), Black, 1.0, KitsuneGlow)),
      Paint(FillPath(KitsuneEarPath), DrawState(Solid("#fff"), Black, 1.0, KitsuneGlow)),
      Paint(FillPath(KitsuneMarkingPath), DrawState(Solid("#ff0000"), Black, 1.0, Glow("#fff", 0.0))),
      Paint(FillPath(KitsuneEyePath), DrawState(Solid("#000"), Black, 1.0, Glow("#fff", 0.0))),
      Paint(FillPath(TailPath(0)), TailState),
      Paint(FillPath(TailPath(1)), TailState),
      Paint(FillPath(TailPath(2)), TailState)
    ]
  }

  /** The kitsune canvas, 60 by 60. */
  method MakeKitsune(ghost earlier: set<Context2D>) returns (kitsune: Canvas)
    ensures kitsune.ctx !in earlier
    ensures fresh(kitsune) && fresh(kitsune.ctx)
    ensures HasDimensions(kitsune, 60, 60)
    ensures KitsunePainted(kitsune.ctx.log)
  {
    kitsune := CreateCanvas(60, 60);
    var k := kitsune.ctx;
    KitsuneBody(k);
    KitsuneHead(k);
    KitsuneEars(k);
    KitsuneMarkings(k);
    KitsuneEye(k);
    ghost var before := k.log;
    KitsuneTails(k);
    assert k.log[..5] == before;
  }

  // ---------------------------------------------------------------------------
  // 2. Torii (lines 75-129)
  // ---------------------------------------------------------------------------

  const Vermilion := "#e62e00"
  const ToriiBlack := "#1a1a1a"
  const ToriiShadow := Shadow("rgba(0,0,0,0.3)", 4.0, 0.0, 2.0)

  function ToriiState(fill: string): DrawState
  {
    DrawState(Solid(fill), Black, 1.0, ToriiShadow)
  }

  /** The tapered post outline of `drawPost(x)`. */
  function PostPath(x: real): seq<PathCmd>
  {
    [PathCmd.MoveTo(x, 120.0), PathCmd.LineTo(x + 2.0, 20.0), PathCmd.LineTo(x + 12.0, 20.0), PathCmd.LineTo(x + 14.0, 120.0)]
  }

  const ShimakiPath := [PathCmd.MoveTo(10.0, 25.0), PathCmd.LineTo(90.0, 25.0), PathCmd.LineTo(90.0, 15.0), PathCmd.LineTo(10.0, 15.0)]
  const KasagiPath := [PathCmd.MoveTo(0.0, 15.0), PathCmd.QuadraticCurveTo(50.0, 5.0, 100.0, 15.0),
                       PathCmd.LineTo(102.0, 5.0), PathCmd.QuadraticCurveTo(50.0, -5.0, -2.0, 5.0)]

  /**
    `drawPost(x)`: fills the post with the fill style in force, paints the base black, and then
    sets the fill style to vermilion whatever it was before.
  */
  method DrawPost(t: Context2D, x: real)
    modifies t
    ensures t.path == PostPath(x)
    ensures t.log == old(t.log) + [
      Paint(FillPath(PostPath(x)), old(t.State())),
      Paint(PaintOp.FillRect(x - 2.0, 110.0, 18.0, 10.0), old(t.State()).(fillStyle := Solid(ToriiBlack)))]
    ensures t.State() == old(t.State()).(fillStyle := Solid(Vermilion))
  {
    t.BeginPath();
    t.MoveTo(x, 120.0);
    t.LineTo(x + 2.0, 20.0);
    t.LineTo(x + 12.0, 20.0);
    t.LineTo(x + 14.0, 120.0);
    t.Fill();
    t.fillStyle := Solid(ToriiBlack);
    t.FillRect(x - 2.0, 110.0, 18.0, 10.0);
    t.fillStyle := Solid(Vermilion);
  }

  /** Posts: vermilion is set once, then `drawPost(20)` and `drawPost(66)`. */
  method ToriiPosts(t: Context2D)
    modifies t
    ensures t.State() == old(t.State()).(fillStyle := Solid(Vermilion))
    ensures t.path == PostPath(66.0)
    ensures t.log == old(t.log) + [
      Paint(FillPath(PostPath(20.0)), t.State()),
      Paint(PaintOp.FillRect(18.0, 110.0, 18.0, 10.0), t.State().(fillStyle := Solid(ToriiBlack))),
      Paint(FillPath(PostPath(66.0)), t.State()),
      Paint(PaintOp.FillRect(64.0, 110.0, 18.0, 10.0), t.State().(fillStyle := Solid(ToriiBlack)))]
  {
    t.fillStyle := Solid(Vermilion);
    DrawPost(t, 20.0);
    DrawPost(t, 66.0);
  }

  /** Shimaki: painted with whatever state is in force. */
  method ToriiShimaki(t: Context2D)
    modifies t
    ensures t.State() == old(t.State())
    ensures t.path == ShimakiPath
    ensures t.log == old(t.log) + [Paint(FillPath(ShimakiPath), t.State())]
  {
    t.BeginPath();
    t.MoveTo(10.0, 25.0);
    t.LineTo(90.0, 25.0);
    t.LineTo(90.0, 15.0);
    t.LineTo(10.0, 15.0);
    t.Fill();
  }

  /** Kasagi: the curved top lintel, in black. */
  method ToriiKasagi(t: Context2D)
    modifies t
    ensures t.State() == old(t.State()).(fillStyle := Solid(ToriiBlack))
    ensures t.path == KasagiPath
    ensures t.log == old(t.log) + [Paint(FillPath(KasagiPath), t.State())]
  {
    t.fillStyle := Solid(ToriiBlack);
    t.BeginPath();
    t.MoveTo(0.0, 15.0);
    t.QuadraticCurveTo(50.0, 5.0, 100.0, 15.0);
    t.LineTo(102.0, 5.0);
    t.QuadraticCurveTo(50.0, -5.0, -2.0, 5.0);
    t.Fill();
  }

  /** Gaku: the black plaque with a gold hint inside it; the path is not touched. */
  method ToriiGaku(t: Context2D)
    modifies t
    ensures t.State() == old(t.State()).(fillStyle := Solid("#bf9000"))
    ensures t.path == old(t.path)
    ensures t.log == old(t.log) + [
      Paint(PaintOp.FillRect(45.0, 20.0, 10.0, 15.0), t.State().(fillStyle := Solid(ToriiBlack))),
      Paint(PaintOp.FillRect(47.0, 23.0, 6.0, 9.0), t.State())]
  {
    t.fillStyle := Solid(ToriiBlack);
    t.FillRect(45.0, 20.0, 10.0, 15.0);
    t.fillStyle := Solid("#bf9000");
    t.FillRect(47.0, 23.0, 6.0, 9.0);
  }

  /**
    The torii log: the shadow set first is never reset, so every paint carries it; the nuki,
    painted right after the second post, is vermilion because `drawPost` left that fill style.
  */
  predicate ToriiPainted(log: seq<Paint>)
  {
    log == [
      Paint(FillPath(PostPath(20.0)), ToriiState(Vermilion)),
      Paint(PaintOp.FillRect(18.0, 110.0, 18.0, 10.0), ToriiState(ToriiBlack)),
      Paint(FillPath(PostPath(66.0)), ToriiState(Vermilion)),
      Paint(PaintOp.FillRect(64.0, 110.0, 18.0, 10.0), ToriiState(ToriiBlack)),
      Paint(PaintOp.FillRect(15.0, 45.0, 70.0, 8.0), ToriiState(Vermilion)),
      Paint(FillPath(ShimakiPath), ToriiState(Vermilion)),
      Paint(FillPath(KasagiPath), ToriiState(ToriiBlack)),
      Paint(PaintOp.FillRect(45.0, 20.0, 10.0, 15.0), ToriiState(ToriiBlack)),
      Paint(PaintOp.FillRect(47.0, 23.0, 6.0, 9.0), ToriiState("#bf9000"))
    ]
  }

  /** The torii canvas, 100 by 120. */
  method MakeTorii(ghost earlier: set<Context2D>) returns (torii: Canvas)
    ensures torii.ctx !in earlier
    ensures fresh(torii) && fresh(torii.ctx)
    ensures HasDimensions(torii, 100, 120)
    ensures ToriiPainted(torii.ctx.log)
  {
    torii := CreateCanvas(100, 120);
    var t := torii.ctx;
    // Shadow
    t.shadowColor := "rgba(0,0,0,0.3)";
    t.shadowBlur := 4.0;
    t.shadowOffsetY := 2.0;
    ToriiPosts(t);
    // Nuki: painted with the vermilion `drawPost` left behind
    t.FillRect(15.0, 45.0, 70.0, 8.0);
    ToriiShimaki(t);
    ToriiKasagi(t);
    ToriiGaku(t);
  }

  // ---------------------------------------------------------------------------
  // 3. Tengu (lines 131-171)
  // ---------------------------------------------------------------------------

  const TenguFacePath := [PathCmd.Arc(30.0, 30.0, 20.0, 0.0, FullTurn)]
  const TenguNosePath := [PathCmd.MoveTo(35.0, 30.0), PathCmd.LineTo(55.0, 35.0), PathCmd.LineTo(35.0, 40.0)]

  /** Both eyebrow segments: the second `moveTo` opens a second subpath of the same path. */
  const EyebrowPath := [PathCmd.MoveTo(20.0, 25.0), PathCmd.LineTo(30.0, 28.0),
                        PathCmd.MoveTo(40.0, 25.0), PathCmd.LineTo(30.0, 28.0)]

  function EyePair(radius: real): seq<PathCmd>
  {
    [PathCmd.Arc(22.0, 30.0, radius, 0.0, FullTurn), PathCmd.Arc(38.0, 30.0, radius, 0.0, FullTurn)]
  }

  /** Face: a red disc under a dark glow of blur 5. */
  method TenguFace(g: Context2D)
    modifies g
    ensures g.State() == WithGlow(old(g.State()), "rgba(0,0,0,0.5)", 5.0).(fillStyle := Solid("#cc0000"))
    ensures g.path == TenguFacePath
    ensures g.log == old(g.log) + [Paint(FillPath(TenguFacePath), g.State())]
  {
    g.shadowColor := "rgba(0,0,0,0.5)";
    g.shadowBlur := 5.0;
    g.fillStyle := Solid("#cc0000");
    g.BeginPath();
    g.Arc(30.0, 30.0, 20.0, 0.0, MathPI * 2.0);
    g.Fill();
  }

  /** Nose: a lighter red triangle. */
  method TenguNose(g: Context2D)
    modifies g
    ensures g.State() == old(g.State()).(fillStyle := Solid("#ff4d4d"))
    ensures g.path == TenguNosePath
    ensures g.log == old(g.log) + [Paint(FillPath(TenguNosePath), g.State())]
  {
    g.fillStyle := Solid("#ff4d4d");
    g.BeginPath();
    g.MoveTo(35.0, 30.0);
    g.LineTo(55.0, 35.0);
    g.LineTo(35.0, 40.0);
    g.Fill();
  }

  /** Eyebrows: one stroke, black and 3 wide, over both segments. */
  method TenguEyebrows(g: Context2D)
    modifies g
    ensures g.State() == old(g.State()).(strokeStyle := Solid("#000"), lineWidth := 3.0)
    ensures g.path == EyebrowPath
    ensures g.log == old(g.log) + [Paint(StrokePath(EyebrowPath), g.State())]
  {
    g.strokeStyle := Solid("#000");
    g.lineWidth := 3.0;
    g.BeginPath();
    g.MoveTo(20.0, 25.0);
    g.LineTo(30.0, 28.0);
    g.MoveTo(40.0, 25.0);
    g.LineTo(30.0, 28.0);
    g.Stroke();
  }

  /** Eye whites: one fill covers both discs. */
  method TenguEyes(g: Context2D)
    modifies g
    ensures g.State() == old(g.State()).(fillStyle := Solid("#fff"))
    ensures g.path == EyePair(4.0)
    ensures g.log == old(g.log) + [Paint(FillPath(EyePair(4.0)), g.State())]
  {
    g.fillStyle := Solid("#fff");
    g.BeginPath();
    g.Arc(22.0, 30.0, 4.0, 0.0, MathPI * 2.0);
    g.Arc(38.0, 30.0, 4.0, 0.0, MathPI * 2.0);
    g.Fill();
  }

  /** Pupils: a fresh path of two small black discs. */
  method TenguPupils(g: Context2D)
    modifies g
    ensures g.State() == old(g.State()).(fillStyle := Solid("#000"))
    ensures g.path == EyePair(1.0)
    ensures g.log == old(g.log) + [Paint(FillPath(EyePair(1.0)), g.State())]
  {
    g.fillStyle := Solid("#000");
    g.BeginPath();
    g.Arc(22.0, 30.0, 1.0, 0.0, MathPI * 2.0);
    g.Arc(38.0, 30.0, 1.0, 0.0, MathPI * 2.0);
    g.Fill();
  }

  function TenguState(fill: string, stroke: Style, lineWidth: real): DrawState
  {
    DrawState(Solid(fill), stroke, lineWidth, Glow("rgba(0,0,0,0.5)", 5.0))
  }

  /** The tengu log: the face shadow is never reset, so every shape carries it. */
  predicate TenguPainted(log: seq<Paint>)
  {
    log == [
      Paint(FillPath(TenguFacePath), TenguState("#cc0000", Black, 1.0)),
      Paint(FillPath(TenguNosePath), TenguState("#ff4d4d", Black, 1.0)),
      Paint(StrokePath(EyebrowPath), TenguState("#ff4d4d", Solid("#000"), 3.0)),
      Paint(FillPath(EyePair(4.0)), TenguState("#fff", Solid("#000"), 3.0)),
      Paint(FillPath(EyePair(1.0)), TenguState("#000", Solid("#000"), 3.0))
    ]
  }

  /** The tengu canvas, 60 by 60. */
  method MakeTengu(ghost earlier: set<Context2D>) returns (tengu: Canvas)
    ensures tengu.ctx !in earlier
    ensures fresh(tengu) && fresh(tengu.ctx)
    ensures HasDimensions(tengu, 60, 60)
    ensures TenguPainted(tengu.ctx.log)
  {
    tengu := CreateCanvas(60, 60);
    var g := tengu.ctx;
    TenguFace(g);
    TenguNose(g);
    TenguEyebrows(g);
    TenguEyes(g);
    TenguPupils(g);
  }

  // ---------------------------------------------------------------------------
  // 4. Lantern (lines 173-196)
  // ---------------------------------------------------------------------------

  const LanternRoofPath := [PathCmd.MoveTo(0.0, 15.0), PathCmd.LineTo(20.0, 0.0), PathCmd.LineTo(40.0, 15.0)]

  /** Roof: the blur drops to 0 before the roof is painted. */
  method LanternRoof(l: Context2D)
    modifies l
    ensures l.State() == WithBlur(old(l.State()), 0.0).(fillStyle := Solid("#555"))
    ensures l.path == LanternRoofPath
    ensures l.log == old(l.log) + [Paint(FillPath(LanternRoofPath), l.State())]
  {
    l.shadowBlur := 0.0;
    l.fillStyle := Solid("#555");
    l.BeginPath();
    l.MoveTo(0.0, 15.0);
    l.LineTo(20.0, 0.0);
    l.LineTo(40.0, 15.0);
    l.Fill();
  }

  function LanternState(fill: string, shadow: Shadow): DrawState
  {
    DrawState(Solid(fill), Black, 1.0, shadow)
  }

  /** The lantern log: only the window glows; the roof keeps the amber colour but has blur 0. */
  predicate LanternPainted(log: seq<Paint>)
  {
    log == [
      Paint(PaintOp.FillRect(10.0, 50.0, 20.0, 10.0), LanternState("#777", NoShadow)),
      Paint(PaintOp.FillRect(15.0, 30.0, 10.0, 20.0), LanternState("#777", NoShadow)),
      Paint(PaintOp.FillRect(5.0, 15.0, 30.0, 15.0), LanternState("#999", NoShadow)),
      Paint(PaintOp.FillRect(12.0, 18.0, 16.0, 9.0), LanternState("#ffaa00", Glow("#ffaa00", 10.0))),
      Paint(FillPath(LanternRoofPath), LanternState("#555", Glow("#ffaa00", 0.0)))
    ]
  }

  /** The lantern canvas, 40 by 60. */
  method MakeLantern(ghost earlier: set<Context2D>) returns (lantern: Canvas)
    ensures lantern.ctx !in earlier
    ensures fresh(lantern) && fresh(lantern.ctx)
    ensures HasDimensions(lantern, 40, 60)
    ensures LanternPainted(lantern.ctx.log)
  {
    lantern := CreateCanvas(40, 60);
    var l := lantern.ctx;
    l.fillStyle := Solid("#777");
    // Base
    l.FillRect(10.0, 50.0, 20.0, 10.0);
    // Post
    l.FillRect(15.0, 30.0, 10.0, 20.0);
    // Light box
    l.fillStyle := Solid("#999");
    l.FillRect(5.0, 15.0, 30.0, 15.0);
    // Window
    l.fillStyle := Solid("#ffaa00");
    l.shadowColor := "#ffaa00";
    l.shadowBlur := 10.0;
    l.FillRect(12.0, 18.0, 16.0, 9.0);
    LanternRoof(l);
  }

  // ---------------------------------------------------------------------------
  // 5. Mount Fuji (lines 198-227)
  // ---------------------------------------------------------------------------

  const FujiStops := [ColorStop(0.0, "#fff"), ColorStop(0.3, "#3b82f6"), ColorStop(1.0, "#1e3a8a")]
  const FujiBodyPath := [PathCmd.MoveTo(200.0, 300.0), PathCmd.QuadraticCurveTo(400.0, 50.0, 600.0, 300.0)]
  const SnowCapPath := [PathCmd.MoveTo(330.0, 120.0), PathCmd.LineTo(350.0, 80.0), PathCmd.LineTo(400.0, 90.0),
                        PathCmd.LineTo(450.0, 80.0), PathCmd.LineTo(470.0, 120.0), PathCmd.LineTo(430.0, 140.0),
                        PathCmd.LineTo(400.0, 130.0), PathCmd.LineTo(370.0, 140.0)]

  /** Gradient stops with offsets in [0, 1], strictly increasing. */
  predicate StopsIncreasing(stops: seq<ColorStop>)
  {
    && (forall i :: 0 <= i < |stops| ==> 0.0 <= stops[i].offset <= 1.0)
    && (forall i, j :: 0 <= i < j < |stops| ==> stops[i].offset < stops[j].offset)
  }

  /** Mountain body: all three stops are accepted, and the slope is filled with the gradient. */
  method FujiBody(f: Context2D)
    modifies f
    ensures f.State() == old(f.State()).(fillStyle := Linear(0.0, 0.0, 0.0, 300.0, FujiStops))
    ensures StopsIncreasing(FujiStops)
    ensures f.path == FujiBodyPath
    ensures f.log == old(f.log) + [Paint(FillPath(FujiBodyPath), f.State())]
  {
    var gradient := new LinearGradient(0.0, 0.0, 0.0, 300.0);
    var ok0 := gradient.AddColorStop(0.0, "#fff");
    var ok1 := gradient.AddColorStop(0.3, "#3b82f6");
    var ok2 := gradient.AddColorStop(1.0, "#1e3a8a");
    assert ok0 && ok1 && ok2;
    f.fillStyle := gradient.AsStyle();
    f.BeginPath();
    f.MoveTo(200.0, 300.0);
    f.QuadraticCurveTo(400.0, 50.0, 600.0, 300.0);
    f.Fill();
  }

  /** Snow cap: a jagged outline in solid white. */
  method FujiSnowCap(f: Context2D)
    modifies f
    ensures f.State() == old(f.State()).(fillStyle := Solid("#fff"))
    ensures f.path == SnowCapPath
    ensures f.log == old(f.log) + [Paint(FillPath(SnowCapPath), f.State())]
  {
    f.fillStyle := Solid("#fff");
    f.BeginPath();
    f.MoveTo(330.0, 120.0);
    f.LineTo(350.0, 80.0);
    f.LineTo(400.0, 90.0);
    f.LineTo(450.0, 80.0);
    f.LineTo(470.0, 120.0);
    f.LineTo(430.0, 140.0);
    f.LineTo(400.0, 130.0);
    f.LineTo(370.0, 140.0);
    f.Fill();
  }

  /** The mountain body is filled with the vertical gradient; the snow cap in solid white. */
  predicate FujiPainted(log: seq<Paint>)
  {
    log == [
      Paint(FillPath(FujiBodyPath), DrawState(Linear(0.0, 0.0, 0.0, 300.0, FujiStops), Black, 1.0, NoShadow)),
      Paint(FillPath(SnowCapPath), DrawState(Solid("#fff"), Black, 1.0, NoShadow))
    ]
  }

  /** The Fuji canvas, 800 by 300. */
  method MakeFuji(ghost earlier: set<Context2D>) returns (fuji: Canvas)
    ensures fuji.ctx !in earlier
    ensures fresh(fuji) && fresh(fuji.ctx)
    ensures HasDimensions(fuji, 800, 300)
    ensures FujiPainted(fuji.ctx.log)
  {
    fuji := CreateCanvas(800, 300);
    var f := fuji.ctx;
    FujiBody(f);
    FujiSnowCap(f);
  }

  // ---------------------------------------------------------------------------
  // 6. Daruma (lines 229-269)
  // ---------------------------------------------------------------------------

  const DarumaBodyPath := [PathCmd.Arc(20.0, 22.0, 18.0, 0.0, FullTurn)]
  const DarumaFacePath := [PathCmd.Ellipse(20.0, 20.0, 12.0, 10.0, 0.0, 0.0, FullTurn)]
  const DarumaEyesPath := [PathCmd.Arc(16.0, 18.0, 2.0, 0.0, FullTurn), PathCmd.Arc(24.0, 18.0, 2.0, 0.0, FullTurn)]
  const BeardPath := [PathCmd.MoveTo(12.0, 22.0), PathCmd.QuadraticCurveTo(20.0, 28.0, 28.0, 22.0)]
  const GoldPath := [PathCmd.Arc(20.0, 22.0, 14.0, 0.0, FullTurn)]

  /** Body: a red disc under a shadow of blur 4. */
  method DarumaBody(d: Context2D)
    modifies d
    ensures d.State() == WithGlow(old(d.State()), "rgba(0,0,0,0.3)", 4.0).(fillStyle := Solid("#cc0000"))
    ensures d.path == DarumaBodyPath
    ensures d.log == old(d.log) + [Paint(FillPath(DarumaBodyPath), d.State())]
  {
    d.shadowColor := "rgba(0,0,0,0.3)";
    d.shadowBlur := 4.0;
    d.fillStyle := Solid("#cc0000");
    d.BeginPath();
    d.Arc(20.0, 22.0, 18.0, 0.0, MathPI * 2.0);
    d.Fill();
  }

  /** Face area: the blur drops to 0 for this and every later shape. */
  method DarumaFace(d: Context2D)
    modifies d
    ensures d.State() == WithBlur(old(d.State()), 0.0).(fillStyle := Solid("#fff"))
    ensures d.path == DarumaFacePath
    ensures d.log == old(d.log) + [Paint(FillPath(DarumaFacePath), d.State())]
  {
    d.shadowBlur := 0.0;
    d.fillStyle := Solid("#fff");
    d.BeginPath();
    d.Ellipse(20.0, 20.0, 12.0, 10.0, 0.0, 0.0, MathPI * 2.0);
    d.Fill();
  }

  /** Eyes: one fill covers both. */
  method DarumaEyes(d: Context2D)
    modifies d
    ensures d.State() == old(d.State()).(fillStyle := Solid("#000"))
    ensures d.path == DarumaEyesPath
    ensures d.log == old(d.log) + [Paint(FillPath(DarumaEyesPath), d.State())]
  {
    d.fillStyle := Solid("#000");
    d.BeginPath();
    d.Arc(16.0, 18.0, 2.0, 0.0, MathPI * 2.0);
    d.Arc(24.0, 18.0, 2.0, 0.0, MathPI * 2.0);
    d.Fill();
  }

  /** Beard: a black stroke of width 1. */
  method DarumaBeard(d: Context2D)
    modifies d
    ensures d.State() == old(d.State()).(strokeStyle := Solid("#000"), lineWidth := 1.0)
    ensures d.path == BeardPath
    ensures d.log == old(d.log) + [Paint(StrokePath(BeardPath), d.State())]
  {
    d.strokeStyle := Solid("#000");
    d.lineWidth := 1.0;
    d.BeginPath();
    d.MoveTo(12.0, 22.0);
    d.QuadraticCurveTo(20.0, 28.0, 28.0, 22.0);
    d.Stroke();
  }

  /** Gold markings: a gold stroke of width 2. */
  method DarumaGold(d: Context2D)
    modifies d
    ensures d.State() == old(d.State()).(strokeStyle := Solid("#ffd700"), lineWidth := 2.0)
    ensures d.path == GoldPath
    ensures d.log == old(d.log) + [Paint(StrokePath(GoldPath), d.State())]
  {
    d.strokeStyle := Solid("#ffd700");
    d.lineWidth := 2.0;
    d.BeginPath();
    d.Arc(20.0, 22.0, 14.0, 0.0, MathPI * 2.0);
    d.Stroke();
  }

  function DarumaState(fill: string, stroke: Style, lineWidth: real, blur: real): DrawState
  {
    DrawState(Solid(fill), stroke, lineWidth, Glow("rgba(0,0,0,0.3)", blur))
  }

  /** The daruma log: only the body has blur 4; the face and everything after it have blur 0. */
  predicate DarumaPainted(log: seq<Paint>)
  {
    log == [
      Paint(FillPath(DarumaBodyPath), DarumaState("#cc0000", Black, 1.0, 4.0)),
      Paint(FillPath(DarumaFacePath), DarumaState("#fff", Black, 1.0, 0.0)),
      Paint(FillPath(DarumaEyesPath), DarumaState("#000", Black, 1.0, 0.0)),
      Paint(StrokePath(BeardPath), DarumaState("#000", Solid("#000"), 1.0, 0.0)),
      Paint(StrokePath(GoldPath), DarumaState("#000", Solid("#ffd700"), 2.0, 0.0))
    ]
  }

  /** The daruma canvas, 40 by 40. */
  method MakeDaruma(ghost earlier: set<Context2D>) returns (daruma: Canvas)
    ensures daruma.ctx !in earlier
    ensures fresh(daruma) && fresh(daruma.ctx)
    ensures HasDimensions(daruma, 40, 40)
    ensures DarumaPainted(daruma.ctx.log)
  {
    daruma := CreateCanvas(40, 40);
    var d := daruma.ctx;
    DarumaBody(d);
    DarumaFace(d);
    DarumaEyes(d);
    DarumaBeard(d);
    DarumaGold(d);
  }

  // ---------------------------------------------------------------------------
  // 7. Cloud (lines 271-288)
  // ---------------------------------------------------------------------------

  const CloudState := DrawState(Solid("#ffffff"), Black, 1.0, Glow("rgba(255,255,255,0.8)", 10.0))

  function PuffPath(x: real, y: real, r: real): seq<PathCmd>
  {
    [PathCmd.Arc(x, y, r, 0.0, FullTurn)]
  }

  /** `drawPuff(x, y, r)`: one filled circle, painted with whatever state is in force. */
  method DrawPuff(c: Context2D, x: real, y: real, r: real)
    requires r >= 0.0
    modifies c`path, c`log
    ensures c.path == PuffPath(x, y, r)
    ensures c.log == old(c.log) + [Paint(FillPath(PuffPath(x, y, r)), c.State())]
  {
    c.BeginPath();
    c.Arc(x, y, r, 0.0, MathPI * 2.0);
    c.Fill();
  }

  /** The cloud log: the glow is never reset, so all four puffs carry blur 10. */
  predicate CloudPainted(log: seq<Paint>)
  {
    log == [
      Paint(FillPath(PuffPath(30.0, 30.0, 20.0)), CloudState),
      Paint(FillPath(PuffPath(60.0, 25.0, 25.0)), CloudState),
      Paint(FillPath(PuffPath(90.0, 30.0, 20.0)), CloudState),
      Paint(FillPath(PuffPath(60.0, 40.0, 15.0)), CloudState)
    ]
  }

  /** The cloud canvas, 120 by 60. */
  method MakeCloud(ghost earlier: set<Context2D>) returns (cloud: Canvas)
    ensures cloud.ctx !in earlier
    ensures fresh(cloud) && fresh(cloud.ctx)
    ensures HasDimensions(cloud, 120, 60)
    ensures CloudPainted(cloud.ctx.log)
  {
    cloud := CreateCanvas(120, 60);
    var c := cloud.ctx;
    c.fillStyle := Solid("#ffffff");
    c.shadowColor := "rgba(255,255,255,0.8)";
    c.shadowBlur := 10.0;
    DrawPuff(c, 30.0, 30.0, 20.0);
    DrawPuff(c, 60.0, 25.0, 25.0);
    DrawPuff(c, 90.0, 30.0, 20.0);
    DrawPuff(c, 60.0, 40.0, 15.0);
  }

  // ---------------------------------------------------------------------------
  // 8. Mountains (lines 290-323)
  // ---------------------------------------------------------------------------

  /** The two ridge layers: the far one sampled every 50 px, the near one every 80 px. */
  datatype RidgeLayer = Far | Near

  const RidgeWidth := 1600

  function Step(layer: RidgeLayer): nat
  {
    match layer
    case Far => 50
    case Near => 80
  }

  function Abs(r: real): real { if r < 0.0 then -r else r }

  /** The angle of sample x (lines 304 and 318): x as a fraction of the width, times a full turn, in exact arithmetic. */
  function Angle(x: int): real
  {
    (x as real / 1600.0) * MathPI * 2.0
  }

  /** The height the ridge rises above its base line at `angle`; `sin`, `cos` stand for `Math.sin`, `Math.cos`. */
  function Rise(layer: RidgeLayer, sin: real -> real, cos: real -> real, angle: real): real
  {
    match layer
    case Far => sin(angle * 3.0) * 30.0 + cos(angle * 5.0) * 20.0
    case Near => Abs(sin(angle * 5.0)) * 50.0
  }

  /** The base line of each layer: 60 px above the bottom for the far one, 40 px for the near one. */
  function Base(layer: RidgeLayer): real
  {
    match layer
    case Far => 200.0 - 60.0
    case Near => 200.0 - 40.0
  }

  /**
    The y coordinate of the ridge at sample x (lines 304-307 and 318-320): the layer's base line
    minus its rise at the sample's angle. The near layer rises by an absolute value, so its ridge
    never drops below its base line, whatever `sin` returns.
  */
  function RidgeY(layer: RidgeLayer, sin: real -> real, cos: real -> real, x: int): (y: real)
    ensures layer == Near ==> y <= Base(Near)
  {
    Base(layer) - Rise(layer, sin, cos, Angle(x))
  }

  /** The x coordinate of sample `i`: `i` steps from the left edge. */
  function SampleX(layer: RidgeLayer, i: nat): nat
  {
    match layer
    case Far => 50 * i
    case Near => 80 * i
  }

  /** The x values of the first `count` samples, in the order the sampling loop visits them. */
  function Grid(layer: RidgeLayer, count: nat): (xs: seq<int>)
    ensures |xs| == count
    ensures forall i :: 0 <= i < count ==> xs[i] == SampleX(layer, i)
  {
    if count == 0 then [] else Grid(layer, count - 1) + [SampleX(layer, count - 1)]
  }

  /** The number of samples the loops of lines 300 and 316 take: every step from 0 up to and including 1600. */
  function SampleCount(layer: RidgeLayer): nat
  {
    RidgeWidth / Step(layer) + 1
  }

  /**
    The open ridge outline after the first `k` samples: the start point and one `lineTo` per
    sample, sample `i` at x = i * step.
  */
  function RidgeOpen(layer: RidgeLayer, sin: real -> real, cos: real -> real, k: nat): (p: seq<PathCmd>)
    ensures |p| == k + 1
  {
    if k == 0 then [PathCmd.MoveTo(0.0, 200.0)]
    else
      var x := SampleX(layer, k - 1);
      RidgeOpen(layer, sin, cos, k - 1) + [PathCmd.LineTo(x as real, RidgeY(layer, sin, cos, x))]
  }

  /** One more sample extends the open outline by one `lineTo`. */
  lemma RidgeOpenSnoc(layer: RidgeLayer, sin: real -> real, cos: real -> real, k: nat)
    ensures RidgeOpen(layer, sin, cos, k + 1) ==
      RidgeOpen(layer, sin, cos, k) + [PathCmd.LineTo(SampleX(layer, k) as real, RidgeY(layer, sin, cos, SampleX(layer, k)))]
  {
  }

  /** The entries of the open outline, one by one. */
  lemma {:induction false} RidgeOpenEntries(layer: RidgeLayer, sin: real -> real, cos: real -> real, k: nat)
    ensures RidgeOpen(layer, sin, cos, k)[0] == PathCmd.MoveTo(0.0, 200.0)
    ensures forall i :: 1 <= i <= k ==>
      RidgeOpen(layer, sin, cos, k)[i] == PathCmd.LineTo(SampleX(layer, i - 1) as real, RidgeY(layer, sin, cos, SampleX(layer, i - 1)))
  {
    if k > 0 {
      RidgeOpenEntries(layer, sin, cos, k - 1);
    }
  }

  /** The whole ridge path: from (0,200) along the samples and back down to (1600,200). */
  function RidgePath(layer: RidgeLayer, sin: real -> real, cos: real -> real): seq<PathCmd>
  {
    RidgeOpen(layer, sin, cos, SampleCount(layer)) + [PathCmd.LineTo(1600.0, 200.0)]
  }

  /**
    The sampling loop visits exactly the multiples of the step in [0, 1600]: 33 points for the
    far layer and 21 for the near one, the last of each exactly at 1600.
  */
  lemma SamplingGrid(layer: RidgeLayer)
    ensures SampleCount(layer) == if layer == Far then 33 else 21
    ensures Grid(layer, SampleCount(layer))[SampleCount(layer) - 1] == RidgeWidth
    ensures forall x :: x in Grid(layer, SampleCount(layer)) <==> 0 <= x <= RidgeWidth && x % Step(layer) == 0
  {
    var step, n := Step(layer), SampleCount(layer);
    var xs := Grid(layer, n);
    forall i | 0 <= i < n ensures xs[i] == i * step {
      if layer == Far { assert xs[i] == 50 * i; } else { assert xs[i] == 80 * i; }
    }
    forall x | 0 <= x <= RidgeWidth && x % step == 0 ensures x in xs {
      var i := x / step;
      assert x == i * step;
      assert i < n;
      assert xs[i] == x;
    }
    forall x | x in xs ensures 0 <= x <= RidgeWidth && x % step == 0 {
      var i :| 0 <= i < n && xs[i] == x;
      assert x == i * step;
      if layer == Far {
        assert x % 50 == 0;
      } else {
        assert x % 80 == 0;
      }
    }
  }

  /**
    Each ridge polygon is closed on the baseline: it starts at (0,200), ends at (1600,200), and
    between them is one `lineTo` per sample, at x = 0, step, 2 step, ...
  */
  lemma RidgeClosedOnBaseline(layer: RidgeLayer, sin: real -> real, cos: real -> real)
    ensures |RidgePath(layer, sin, cos)| == SampleCount(layer) + 2
    ensures RidgePath(layer, sin, cos)[0] == PathCmd.MoveTo(0.0, 200.0)
    ensures RidgePath(layer, sin, cos)[SampleCount(layer) + 1] == PathCmd.LineTo(1600.0, 200.0)
    ensures forall i :: 1 <= i <= SampleCount(layer) ==>
      RidgePath(layer, sin, cos)[i] == PathCmd.LineTo(SampleX(layer, i - 1) as real, RidgeY(layer, sin, cos, SampleX(layer, i - 1)))
  {
    RidgeOpenEntries(layer, sin, cos, SampleCount(layer));
  }

  const FarState := DrawState(Solid("#cbd5e1"), Black, 1.0, NoShadow)
  const NearState := DrawState(Solid("#94a3b8"), Black, 1.0, NoShadow)

  /** The outline of layer 1: from (0,200), one `lineTo` per sample every 50 px from 0 to 1600. */
  method FarOutline(m: Context2D, sin: real -> real, cos: real -> real)
    modifies m`path
    ensures m.path == RidgePath(Far, sin, cos)
  {
    m.BeginPath();
    m.MoveTo(0.0, 200.0);
    var x := 0;
    ghost var k := 0;
    while x <= 1600
      invariant 0 <= k <= 33 && x == 50 * k
      invariant m.path == RidgeOpen(Far, sin, cos, k)
    {
      // the angle, the rise and the y coordinate of this sample, as RidgeY computes them
      var y := RidgeY(Far, sin, cos, x);
      assert SampleX(Far, k) == x;
      RidgeOpenSnoc(Far, sin, cos, k);
      m.LineTo(x as real, y);
      x, k := x + 50, k + 1;
    }
    assert k == 33 == SampleCount(Far);
    m.LineTo(1600.0, 200.0);
  }

  /** Layer 1: the far ridge in light slate, closed back down to the baseline. */
  method FarRidge(m: Context2D, sin: real -> real, cos: real -> real)
    modifies m
    ensures m.State() == old(m.State()).(fillStyle := Solid("#cbd5e1"))
    ensures m.path == RidgePath(Far, sin, cos)
    ensures m.log == old(m.log) + [Paint(FillPath(RidgePath(Far, sin, cos)), m.State())]
  {
    m.fillStyle := Solid("#cbd5e1");
    ghost var state := m.State();
    FarOutline(m, sin, cos);
    assert m.fillStyle == state.fillStyle && m.strokeStyle == state.strokeStyle && m.lineWidth == state.lineWidth;
    assert m.shadowColor == state.shadow.color && m.shadowBlur == state.shadow.blur;
    assert m.shadowOffsetX == state.shadow.offsetX && m.shadowOffsetY == state.shadow.offsetY;
    m.Fill();
  }

  /** The outline of layer 2: from (0,200), one `lineTo` per sample every 80 px from 0 to 1600. */
  method NearOutline(m: Context2D, sin: real -> real, cos: real -> real)
    modifies m`path
    ensures m.path == RidgePath(Near, sin, cos)
  {
    m.BeginPath();
    m.MoveTo(0.0, 200.0);
    var x := 0;
    ghost var k := 0;
    while x <= 1600
      invariant 0 <= k <= 21 && x == 80 * k
      invariant m.path == RidgeOpen(Near, sin, cos, k)
    {
      // the angle, the rise and the y coordinate of this sample, as RidgeY computes them
      var y := RidgeY(Near, sin, cos, x);
      assert SampleX(Near, k) == x;
      RidgeOpenSnoc(Near, sin, cos, k);
      m.LineTo(x as real, y);
      x, k := x + 80, k + 1;
    }
    assert k == 21 == SampleCount(Near);
    m.LineTo(1600.0, 200.0);
  }

  /** Layer 2: the near ridge in darker slate, closed back down to the baseline. */
  method NearRidge(m: Context2D, sin: real -> real, cos: real -> real)
    modifies m
    ensures m.State() == old(m.State()).(fillStyle := Solid("#94a3b8"))
    ensures m.path == RidgePath(Near, sin, cos)
    ensures m.log == old(m.log) + [Paint(FillPath(RidgePath(Near, sin, cos)), m.State())]
  {
    m.fillStyle := Solid("#94a3b8");
    ghost var state := m.State();
    NearOutline(m, sin, cos);
    assert m.fillStyle == state.fillStyle && m.strokeStyle == state.strokeStyle && m.lineWidth == state.lineWidth;
    assert m.shadowColor == state.shadow.color && m.shadowBlur == state.shadow.blur;
    assert m.shadowOffsetX == state.shadow.offsetX && m.shadowOffsetY == state.shadow.offsetY;
    m.Fill();
  }

  /** The mountain log: the far ridge in light slate, then the near ridge in darker slate. */
  predicate MountainsPainted(log: seq<Paint>, sin: real -> real, cos: real -> real)
  {
    && |log| == 2
    && log[0] == Paint(FillPath(RidgePath(Far, sin, cos)), FarState)
    && log[1] == Paint(FillPath(RidgePath(Near, sin, cos)), NearState)
  }

  /** The mountains canvas, 1600 by 200. */
  method MakeMountains(sin: real -> real, cos: real -> real, ghost earlier: set<Context2D>) returns (mountains: Canvas)
    ensures mountains.ctx !in earlier
    ensures fresh(mountains) && fresh(mountains.ctx)
    ensures HasDimensions(mountains, 1600, 200)
    ensures MountainsPainted(mountains.ctx.log, sin, cos)
  {
    mountains := CreateCanvas(1600, 200);
    var m := mountains.ctx;
    FarRidge(m, sin, cos);
    assert m.State() == FarState && m.log == [Paint(FillPath(RidgePath(Far, sin, cos)), FarState)];
    NearRidge(m, sin, cos);
    assert m.State() == NearState;
  }

  // ---------------------------------------------------------------------------
  // The entry point (lines 19-326)
  // ---------------------------------------------------------------------------

  /**
    `generateAssets()`: eight fresh canvases of the declared sizes, none sharing a canvas or a
    context with another, each painted by its own script. The cloud canvas is 120 by 60.
  */
  method GenerateAssets(sin: real -> real, cos: real -> real) returns (assets: GameAssets)
    ensures fresh(assets.kitsune) && fresh(assets.torii) && fresh(assets.tengu) && fresh(assets.lantern)
    ensures fresh(assets.fuji) && fresh(assets.daruma) && fresh(assets.cloud) && fresh(assets.mountains)
    ensures NothingShared(assets)
    ensures HasDimensions(assets.kitsune, 60, 60) && HasDimensions(assets.torii, 100, 120)
    ensures HasDimensions(assets.tengu, 60, 60) && HasDimensions(assets.lantern, 40, 60)
    ensures HasDimensions(assets.fuji, 800, 300) && HasDimensions(assets.daruma, 40, 40)
    ensures HasDimensions(assets.cloud, 120, 60) && HasDimensions(assets.mountains, 1600, 200)
    ensures KitsunePainted(assets.kitsune.ctx.log)
    ensures ToriiPainted(assets.torii.ctx.log)
    ensures TenguPainted(assets.tengu.ctx.log)
    ensures LanternPainted(assets.lantern.ctx.log)
    ensures FujiPainted(assets.fuji.ctx.log)
    ensures DarumaPainted(assets.daruma.ctx.log)
    ensures CloudPainted(assets.cloud.ctx.log)
    ensures MountainsPainted(assets.mountains.ctx.log, sin, cos)
  {
    var kitsune := MakeKitsune({});
    var torii := MakeTorii({kitsune.ctx});
    var tengu := MakeTengu({kitsune.ctx, torii.ctx});
    var lantern := MakeLantern({kitsune.ctx, torii.ctx, tengu.ctx});
    var fuji := MakeFuji({kitsune.ctx, torii.ctx, tengu.ctx, lantern.ctx});
    var daruma := MakeDaruma({kitsune.ctx, torii.ctx, tengu.ctx, lantern.ctx, fuji.ctx});
    var cloud := MakeCloud({kitsune.ctx, torii.ctx, tengu.ctx, lantern.ctx, fuji.ctx, daruma.ctx});
    var mountains := MakeMountains(sin, cos, {kitsune.ctx, torii.ctx, tengu.ctx, lantern.ctx, fuji.ctx, daruma.ctx, cloud.ctx});
    assets := GameAssets(kitsune, torii, tengu, lantern, fuji, daruma, cloud, mountains);
    ContextsDistinct(assets);
  }
}
