/** Frame control of src/main.cpp: the key-to-setting state machine of
    input(), the colour scaling of light_apply_intensity(), the face loop
    of update() that culls, emits and sorts triangles, and the render-mode
    dispatch of render().  The floating-point pipeline of a face (world
    matrix, normal, culling dot product, lighting factor, projection and
    viewport mapping, average depth) is a parameter `geom`; what update()
    does with its results is modelled. */
module Frame {
  import opened Ints
  import opened Vector
  import opened Display
  import Triangle
  import Mesh

  // ---------------------------------------------------------------------
  // Render modes

  /** The enumerators of `RenderMode`, as bit masks. */
  const FILL: bv32 := 0x1
  const FILL_WIREFRAME: bv32 := 0x2
  const WIREFRAME: bv32 := 0x4
  const WIREFRAME_REDDOT: bv32 := 0x8
  const TEXTURED: bv32 := 0x10
  const TEXTURED_WIREFRAME: bv32 := 0x20

  const MODES: set<bv32> := {FILL, FILL_WIREFRAME, WIREFRAME, WIREFRAME_REDDOT, TEXTURED, TEXTURED_WIREFRAME}

  /** Every render mode is a single bit, and no two share one. */
  lemma ModesAreBits()
    ensures forall m :: m in MODES ==> m != 0 && m & (m - 1) == 0
    ensures forall m, n :: m in MODES && n in MODES && m != n ==> m & n == 0
  {
  }

  /** The four tests of render(), each a mask against the mode. */
  predicate DrawsDots(mode: bv32) { mode & WIREFRAME_REDDOT != 0 }
  predicate DrawsFill(mode: bv32) { mode & (FILL_WIREFRAME | FILL) != 0 }
  predicate DrawsTexture(mode: bv32) { mode & (TEXTURED | TEXTURED_WIREFRAME) != 0 }
  predicate DrawsOutline(mode: bv32)
  {
    mode & (FILL_WIREFRAME | WIREFRAME | WIREFRAME_REDDOT | TEXTURED_WIREFRAME) != 0
  }

  /** For each render mode: dots only in WIREFRAME_REDDOT, fill only in
      FILL and FILL_WIREFRAME, texture only in TEXTURED and
      TEXTURED_WIREFRAME, and the outline in every mode but FILL and
      TEXTURED. */
  lemma Dispatch(mode: bv32)
    requires mode in MODES
    ensures DrawsDots(mode) <==> mode == WIREFRAME_REDDOT
    ensures DrawsFill(mode) <==> mode == FILL || mode == FILL_WIREFRAME
    ensures DrawsTexture(mode) <==> mode == TEXTURED || mode == TEXTURED_WIREFRAME
    ensures DrawsOutline(mode) <==> mode != FILL && mode != TEXTURED
  {
  }

  // ---------------------------------------------------------------------
  // Settings and input()

  const FILL_COLOR: Color := 0xffdddddd
  const DOT_COLOR: Color := 0xffff0000
  const BLACK: Color := 0xff000000
  const GREEN: Color := 0xff00ff00
  const BACKGROUND: Color := 0xff222222
  const GRID_SPACING: nat := 40

  /** The globals input() changes. */
  datatype Settings = Settings(renderMode: bv32, wireframeColor: Color, cullMode: bool,
                               useColor: bool, isRunning: bool)

  /** The keys input() reacts to, and any other key. */
  datatype Key = Escape | Key1 | Key2 | Key3 | Key4 | Key5 | Key6 | KeyC | KeyD | KeyV | KeyF | OtherKey(code: int)

  /** The event SDL_PollEvent delivered: a quit request, a key press, or
      anything else. */
  datatype Event = Quit | KeyDown(key: Key) | OtherEvent

  /** The switch of input(). */
  function Respond(s: Settings, e: Event): (r: Settings)
  {
    match e
    case Quit => s.(isRunning := false)
    case OtherEvent => s
    case KeyDown(k) =>
      match k
      case Escape => s.(isRunning := false)
      case Key1 => s.(renderMode := WIREFRAME_REDDOT, wireframeColor := GREEN)
      case Key2 => s.(renderMode := WIREFRAME, wireframeColor := GREEN)
      case Key3 => s.(renderMode := FILL)
      case Key4 => s.(renderMode := FILL_WIREFRAME, wireframeColor := BLACK)
      case Key5 => s.(renderMode := TEXTURED)
      case Key6 => s.(renderMode := TEXTURED_WIREFRAME, wireframeColor := BLACK)
      case KeyC => s.(cullMode := true)
      case KeyD => s.(cullMode := false)
      case KeyV => s.(useColor := true)
      case KeyF => s.(useColor := false)
      case OtherKey(_) => s
  }

  /** The settings main() starts from: textured wireframe in black, culling
      and colour on; `is_running` is what window creation returned. */
  function Initial(running: bool): Settings
  {
    Settings(TEXTURED_WIREFRAME, BLACK, true, true, running)
  }

  /** The settings stay within the declared modes and the two wireframe
      colours. */
  predicate SettingsOk(s: Settings)
  {
    s.renderMode in MODES && (s.wireframeColor == BLACK || s.wireframeColor == GREEN)
  }

  /** Every event keeps the settings within the declared modes and colours,
      and no event sets `is_running` again once it is cleared. */
  lemma RespondKeepsOk(s: Settings, e: Event)
    requires SettingsOk(s)
    ensures SettingsOk(Respond(s, e))
    ensures Respond(s, e).isRunning ==> s.isRunning
  {
    match e {
      case Quit =>
      case OtherEvent =>
      case KeyDown(k) =>
        match k {
          case Escape =>
          case Key1 =>
          case Key2 =>
          case Key3 =>
          case Key4 =>
          case Key5 =>
          case Key6 =>
          case KeyC =>
          case KeyD =>
          case KeyV =>
          case KeyF =>
          case OtherKey(_) =>
        }
    }
  }

  lemma InitialOk(running: bool)
    ensures SettingsOk(Initial(running)) && Initial(running).isRunning == running
  {
  }

  /** The wireframe keys: 1 and 2 switch to a green outline, 4 and 6 to a
      black one, 3 and 5 keep the outline colour; each sets its own mode
      and leaves culling, colour use and running alone. */
  lemma ModeKeys(s: Settings)
    ensures Respond(s, KeyDown(Key1)).renderMode == WIREFRAME_REDDOT && Respond(s, KeyDown(Key1)).wireframeColor == GREEN
    ensures Respond(s, KeyDown(Key2)).renderMode == WIREFRAME && Respond(s, KeyDown(Key2)).wireframeColor == GREEN
    ensures Respond(s, KeyDown(Key3)).renderMode == FILL && Respond(s, KeyDown(Key3)).wireframeColor == s.wireframeColor
    ensures Respond(s, KeyDown(Key4)).renderMode == FILL_WIREFRAME && Respond(s, KeyDown(Key4)).wireframeColor == BLACK
    ensures Respond(s, KeyDown(Key5)).renderMode == TEXTURED && Respond(s, KeyDown(Key5)).wireframeColor == s.wireframeColor
    ensures Respond(s, KeyDown(Key6)).renderMode == TEXTURED_WIREFRAME && Respond(s, KeyDown(Key6)).wireframeColor == BLACK
    ensures forall k :: k in {Key1, Key2, Key3, Key4, Key5, Key6} ==>
      var r := Respond(s, KeyDown(k));
      r.cullMode == s.cullMode && r.useColor == s.useColor && r.isRunning == s.isRunning
  {
  }

  /** C and D set culling on and off, V and F colour use, Escape and quit
      clear `is_running`; each changes only its own setting, and any other
      event changes nothing. */
  lemma ToggleKeys(s: Settings, code: int)
    ensures Respond(s, KeyDown(KeyC)) == s.(cullMode := true)
    ensures Respond(s, KeyDown(KeyD)) == s.(cullMode := false)
    ensures Respond(s, KeyDown(KeyV)) == s.(useColor := true)
    ensures Respond(s, KeyDown(KeyF)) == s.(useColor := false)
    ensures Respond(s, KeyDown(Escape)) == Respond(s, Quit) == s.(isRunning := false)
    ensures Respond(s, KeyDown(OtherKey(code))) == Respond(s, OtherEvent) == s
  {
  }

  /** Every event sets its settings to fixed values, so delivering the same
      event twice has the effect of delivering it once. */
  lemma RespondIdempotent(s: Settings, e: Event)
    ensures Respond(Respond(s, e), e) == Respond(s, e)
  {
    match e {
      case Quit =>
      case OtherEvent =>
      case KeyDown(k) =>
        match k {
          case Escape =>
          case Key1 =>
          case Key2 =>
          case Key3 =>
          case Key4 =>
          case Key5 =>
          case Key6 =>
          case KeyC =>
          case KeyD =>
          case KeyV =>
          case KeyF =>
          case OtherKey(_) =>
        }
    }
  }

  // ---------------------------------------------------------------------
  // light_apply_intensity

  const ALPHA: bv32 := 0xff000000
  const RED: bv32 := 0x00ff0000
  const GREEN_BITS: bv32 := 0x0000ff00
  const BLUE: bv32 := 0x000000ff

  /** The factor clamped into [0, 1]. */
  function Clamp01(f: real): (r: real)
    ensures 0.0 <= r <= 1.0
    ensures f < 0.0 ==> r == 0.0
    ensures f > 1.0 ==> r == 1.0
    ensures 0.0 <= f <= 1.0 ==> r == f
  {
    if f < 0.0 then 0.0 else if f > 1.0 then 1.0 else f
  }

  /** The product of a channel value and a factor in [0, 1], truncated:
      never negative and never above the channel value. */
  function ScaledFloor(c: nat, f: real): (n: nat)
    requires 0.0 <= f <= 1.0
    ensures n <= c
    ensures f == 0.0 ==> n == 0
    ensures f == 1.0 ==> n == c
  {
    assert c as real * f <= c as real * 1.0;
    (c as real * f).Floor
  }

  /** A masked channel times the factor, converted back to `u32` by
      truncation. */
  function ScaleChannel(c: bv32, f: real): bv32
    requires 0.0 <= f <= 1.0
  {
    ScaledFloor(c as int, f) as bv32
  }

  /** light_apply_intensity: alpha kept, each colour channel scaled and
      masked back to its own byte. */
  function LightApplyIntensity(color: Color, factor: real): Color
  {
    var f := Clamp01(factor);
    (color & ALPHA)
      | (ScaleChannel(color & RED, f) & RED)
      | (ScaleChannel(color & GREEN_BITS, f) & GREEN_BITS)
      | (ScaleChannel(color & BLUE, f) & BLUE)
  }

  /** The result keeps the alpha byte, and each colour byte is the scaled
      channel of the input masked to that byte. */
  lemma LightChannels(color: Color, factor: real)
    ensures var r, f := LightApplyIntensity(color, factor), Clamp01(factor);
      && r & ALPHA == color & ALPHA
      && r & RED == ScaleChannel(color & RED, f) & RED
      && r & GREEN_BITS == ScaleChannel(color & GREEN_BITS, f) & GREEN_BITS
      && r & BLUE == ScaleChannel(color & BLUE, f) & BLUE
  {
    var f := Clamp01(factor);
    var sr, sg, sb := ScaleChannel(color & RED, f), ScaleChannel(color & GREEN_BITS, f), ScaleChannel(color & BLUE, f);
    OrMasks(color & ALPHA, sr, sg, sb);
  }

  lemma OrMasks(a: bv32, x: bv32, y: bv32, z: bv32)
    requires a & ALPHA == a
    ensures var r := a | (x & RED) | (y & GREEN_BITS) | (z & BLUE);
      r & ALPHA == a && r & RED == x & RED && r & GREEN_BITS == y & GREEN_BITS && r & BLUE == z & BLUE
  {
  }

  /** Each byte of the result depends on the same byte of the input only:
      two colours that agree on a byte give results that agree on it. */
  lemma LightBytesIndependent(c1: Color, c2: Color, factor: real)
    ensures c1 & ALPHA == c2 & ALPHA ==> LightApplyIntensity(c1, factor) & ALPHA == LightApplyIntensity(c2, factor) & ALPHA
    ensures c1 & RED == c2 & RED ==> LightApplyIntensity(c1, factor) & RED == LightApplyIntensity(c2, factor) & RED
    ensures c1 & GREEN_BITS == c2 & GREEN_BITS ==>
      LightApplyIntensity(c1, factor) & GREEN_BITS == LightApplyIntensity(c2, factor) & GREEN_BITS
    ensures c1 & BLUE == c2 & BLUE ==> LightApplyIntensity(c1, factor) & BLUE == LightApplyIntensity(c2, factor) & BLUE
  {
    LightChannels(c1, factor);
    LightChannels(c2, factor);
  }

  /** A factor of zero or less leaves only the alpha byte. */
  lemma LightDark(color: Color, factor: real)
    requires factor <= 0.0
    ensures LightApplyIntensity(color, factor) == color & ALPHA
  {
    var f := Clamp01(factor);
    assert f == 0.0;
    assert ScaleChannel(color & RED, f) == 0;
    assert ScaleChannel(color & GREEN_BITS, f) == 0;
    assert ScaleChannel(color & BLUE, f) == 0;
    ZeroChannels(color & ALPHA);
  }

  /** A factor of one or more returns the colour unchanged. */
  lemma LightFull(color: Color, factor: real)
    requires factor >= 1.0
    ensures LightApplyIntensity(color, factor) == color
  {
    var f := Clamp01(factor);
    assert f == 1.0;
    ScaleByOne(color & RED);
    ScaleByOne(color & GREEN_BITS);
    ScaleByOne(color & BLUE);
    WholeChannels(color);
  }

  lemma ScaleByOne(c: bv32)
    ensures ScaleChannel(c, 1.0) == c
  {
  }

  lemma ZeroChannels(a: bv32)
    ensures a | (0 & RED) | (0 & GREEN_BITS) | (0 & BLUE) == a
  {
  }

  lemma WholeChannels(c: bv32)
    ensures (c & ALPHA) | ((c & RED) & RED) | ((c & GREEN_BITS) & GREEN_BITS) | ((c & BLUE) & BLUE) == c
  {
  }

  // ---------------------------------------------------------------------
  // Triangles to render

  /** Three values, one per vertex. */
  datatype Corners<T> = Corners(a: T, b: T, c: T)

  /** The `triangle` update() emits: projected points, texture
      coordinates, the lit colour and the average depth. */
  datatype Tri = Tri(points: Corners<Vec4>, uv: Corners<Vec2>, color: Color, avgDepth: real)

  /** What the floating-point pipeline computes for one face: the
      alignment of its normal with the ray to the camera, the lighting
      factor `-dot(normal, light)`, the projected points, the texture
      coordinates and the average depth. */
  datatype FaceGeom = FaceGeom(alignment: real, factor: real, points: Corners<Vec4>, uv: Corners<Vec2>, avgDepth: real)

  /** Face k reads the index buffer at 3k, 3k + 1, 3k + 2. */
  function FaceAt(geom: (Mesh.MeshData, nat) -> FaceGeom, m: Mesh.MeshData, k: nat): FaceGeom
  {
    geom(m, 3 * k)
  }

  /** A face is kept when culling is off, or when its alignment is not
      negative. */
  predicate Kept(cull: bool, g: FaceGeom)
  {
    !cull || !(g.alignment < 0.0)
  }

  /** The triangle pushed for a kept face: its corners, texture
      coordinates and depth, and the fill colour lit by its factor. */
  function TriOf(g: FaceGeom): (t: Tri)
    ensures t.points == g.points && t.uv == g.uv && t.avgDepth == g.avgDepth
    ensures t.color & ALPHA == FILL_COLOR & ALPHA
  {
    LightChannels(FILL_COLOR, g.factor);
    Tri(g.points, g.uv, LightApplyIntensity(FILL_COLOR, g.factor), g.avgDepth)
  }

  /** The triangles of a run of kept faces, in order. */
  function Tris(gs: seq<FaceGeom>): (ts: seq<Tri>)
    ensures |ts| == |gs|
  {
    seq(|gs|, i requires 0 <= i < |gs| => TriOf(gs[i]))
  }

  lemma TrisAppend(a: seq<FaceGeom>, b: seq<FaceGeom>)
    ensures Tris(a + b) == Tris(a) + Tris(b)
  {
    forall i | 0 <= i < |a| + |b|
      ensures Tris(a + b)[i] == (Tris(a) + Tris(b))[i]
    {
      if i < |a| {
        assert (a + b)[i] == a[i];
      } else {
        assert (a + b)[i] == b[i - |a|];
      }
    }
  }

  /** The faces the face loop keeps, from face k on, for an index buffer
      of n entries. */
  function KeptFaces(cull: bool, geom: (Mesh.MeshData, nat) -> FaceGeom, m: Mesh.MeshData, k: nat, n: nat): seq<FaceGeom>
    decreases n - 3 * k
  {
    if 3 * k + 2 < n then
      (if Kept(cull, FaceAt(geom, m, k)) then [FaceAt(geom, m, k)] else [])
        + KeptFaces(cull, geom, m, k + 1, n)
    else []
  }

  /** One turn of the face loop on the triangles pushed so far: face k
      adds its triangle when kept, and the faces after it follow. */
  lemma PushStep(cull: bool, geom: (Mesh.MeshData, nat) -> FaceGeom, m: Mesh.MeshData, k: nat, n: nat, pushed: seq<Tri>)
    requires 3 * k + 2 < n
    ensures var g := geom(m, 3 * k);
      pushed + Tris(KeptFaces(cull, geom, m, k, n))
        == (if !cull || !(g.alignment < 0.0) then pushed + Tris([g]) else pushed) + Tris(KeptFaces(cull, geom, m, k + 1, n))
  {
    var g := FaceAt(geom, m, k);
    var rest := KeptFaces(cull, geom, m, k + 1, n);
    KeptStep(cull, geom, m, k, n);
    if Kept(cull, g) {
      TrisAppend([g], rest);
      assert pushed + Tris([g]) + Tris(rest) == pushed + (Tris([g]) + Tris(rest));
    }
  }

  /** With culling off every face is kept, in order: one per face from k
      to q - 1, where q = n / 3 is the number of faces. */
  lemma {:induction false} KeptAllFrom(geom: (Mesh.MeshData, nat) -> FaceGeom, m: Mesh.MeshData, k: nat, n: nat, q: nat)
    requires 3 * q <= n < 3 * q + 3 && k <= q
    ensures |KeptFaces(false, geom, m, k, n)| == q - k
    ensures forall j :: k <= j < q ==> KeptFaces(false, geom, m, k, n)[j - k] == FaceAt(geom, m, j)
    decreases q - k
  {
    if k < q {
      KeptAllFrom(geom, m, k + 1, n, q);
      KeptStep(false, geom, m, k, n);
      var rest := KeptFaces(false, geom, m, k + 1, n);
      var e := [FaceAt(geom, m, k)] + rest;
      forall j | k < j < q
        ensures e[j - k] == FaceAt(geom, m, j)
      {
        assert e[j - k] == rest[j - (k + 1)];
      }
    }
  }

  /** With culling off the face loop keeps n / 3 faces, the j-th being
      face j. */
  lemma KeptAll(geom: (Mesh.MeshData, nat) -> FaceGeom, m: Mesh.MeshData, n: nat)
    ensures |KeptFaces(false, geom, m, 0, n)| == n / 3
    ensures forall j :: 0 <= j < n / 3 ==> KeptFaces(false, geom, m, 0, n)[j] == FaceAt(geom, m, j)
  {
    KeptAllFrom(geom, m, 0, n, n / 3);
  }

  /** One turn of the face loop: face k, then the faces after it. */
  lemma KeptStep(cull: bool, geom: (Mesh.MeshData, nat) -> FaceGeom, m: Mesh.MeshData, k: nat, n: nat)
    requires 3 * k + 2 < n
    ensures KeptFaces(cull, geom, m, k, n)
         == (if Kept(cull, FaceAt(geom, m, k)) then [FaceAt(geom, m, k)] else []) + KeptFaces(cull, geom, m, k + 1, n)
  {
  }

  /** Every kept face is a face of the buffer that passes the culling
      test. */
  lemma {:induction false} KeptSound(cull: bool, geom: (Mesh.MeshData, nat) -> FaceGeom, m: Mesh.MeshData, k: nat, n: nat, g: FaceGeom)
    requires g in KeptFaces(cull, geom, m, k, n)
    ensures exists j :: k <= j && 3 * j + 2 < n && Kept(cull, FaceAt(geom, m, j)) && g == FaceAt(geom, m, j)
    decreases n - 3 * k
  {
    var f := FaceAt(geom, m, k);
    var head := if Kept(cull, f) then [f] else [];
    assert KeptFaces(cull, geom, m, k, n) == head + KeptFaces(cull, geom, m, k + 1, n);
    if g !in head {
      KeptSound(cull, geom, m, k + 1, n, g);
    }
  }

  /** Every face of the buffer that passes the culling test is kept: with
      culling on, only the faces of negative alignment are dropped. */
  lemma {:induction false} KeptComplete(cull: bool, geom: (Mesh.MeshData, nat) -> FaceGeom, m: Mesh.MeshData, k: nat, n: nat, j: nat)
    requires k <= j && 3 * j + 2 < n && Kept(cull, FaceAt(geom, m, j))
    ensures FaceAt(geom, m, j) in KeptFaces(cull, geom, m, k, n)
    decreases n - 3 * k
  {
    var f := FaceAt(geom, m, k);
    var head := if Kept(cull, f) then [f] else [];
    assert KeptFaces(cull, geom, m, k, n) == head + KeptFaces(cull, geom, m, k + 1, n);
    if k < j {
      KeptComplete(cull, geom, m, k + 1, n, j);
    }
  }

  /** The guard of the face loop as written: `i < vertices - 2` on
      `size_t`, so the subtraction wraps when the buffer has fewer than two
      entries. */
  function FaceLoopBound(n: nat): (r: nat)
    ensures r < SIZE_LIMIT
  {
    SizeT(n - 2)
  }

  /** An index buffer of zero or one entries makes the bound wrap to
      2^64 - 2 or 2^64 - 1, so the loop enters with i = 0 and reads
      entries 0, 1 and 2 that do not exist. */
  lemma FaceLoopWraps(n: nat)
    requires n < 2
    ensures FaceLoopBound(n) == SIZE_LIMIT - 2 + n
    ensures 0 < FaceLoopBound(n) && n < 3
  {
  }

  /** From two entries on, the written guard is the intended one: i is
      visited exactly when its face i, i + 1, i + 2 lies in the buffer. */
  lemma FaceLoopGuard(n: nat, i: nat)
    requires 2 <= n < SIZE_LIMIT
    ensures i < FaceLoopBound(n) <==> i + 2 < n
  {
  }

  // ---------------------------------------------------------------------
  // Sorting by depth

  /** Back to front: the average depth never increases along the list. */
  predicate NonIncreasing(ts: seq<Tri>)
  {
    forall i, j :: 0 <= i < j < |ts| ==> ts[i].avgDepth >= ts[j].avgDepth
  }

  /** The sorted list with t placed before the first shallower triangle. */
  function Insert(t: Tri, ts: seq<Tri>): seq<Tri>
  {
    if ts == [] || t.avgDepth >= ts[0].avgDepth then [t] + ts else [ts[0]] + Insert(t, ts[1..])
  }

  /** One ordering std::sort may produce with the comparator
      `a.avg_depth > b.avg_depth`. */
  function SortByDepth(ts: seq<Tri>): seq<Tri>
  {
    if ts == [] then [] else Insert(ts[0], SortByDepth(ts[1..]))
  }

  /** Inserting keeps every element and adds t. */
  lemma {:induction false} InsertPerm(t: Tri, ts: seq<Tri>)
    ensures multiset(Insert(t, ts)) == multiset(ts) + multiset{t}
  {
    if ts != [] && t.avgDepth < ts[0].avgDepth {
      InsertPerm(t, ts[1..]);
      assert ts == [ts[0]] + ts[1..];
    }
  }

  /** Inserting an element no deeper than d into a list no deeper than d
      gives a list no deeper than d. */
  lemma {:induction false} InsertBounded(t: Tri, ts: seq<Tri>, d: real)
    requires t.avgDepth <= d && forall i :: 0 <= i < |ts| ==> ts[i].avgDepth <= d
    ensures forall i :: 0 <= i < |Insert(t, ts)| ==> Insert(t, ts)[i].avgDepth <= d
  {
    if ts != [] && t.avgDepth < ts[0].avgDepth {
      InsertBounded(t, ts[1..], d);
    }
  }

  lemma {:induction false} InsertSorted(t: Tri, ts: seq<Tri>)
    requires NonIncreasing(ts)
    ensures NonIncreasing(Insert(t, ts))
  {
    if ts != [] && t.avgDepth < ts[0].avgDepth {
      var rest := ts[1..];
      InsertSorted(t, rest);
      InsertBounded(t, rest, ts[0].avgDepth);
      var tail := Insert(t, rest);
      assert Insert(t, ts) == [ts[0]] + tail;
    }
  }

  /** The sorted list is a permutation of the input in non-increasing
      average depth. */
  lemma {:induction false} SortByDepthSorts(ts: seq<Tri>)
    ensures NonIncreasing(SortByDepth(ts))
    ensures multiset(SortByDepth(ts)) == multiset(ts)
  {
    if ts != [] {
      SortByDepthSorts(ts[1..]);
      InsertSorted(ts[0], SortByDepth(ts[1..]));
      InsertPerm(ts[0], SortByDepth(ts[1..]));
      assert ts == [ts[0]] + ts[1..];
    }
  }

  // ---------------------------------------------------------------------
  // Render calls

  /** A drawing call render() issues for a triangle. Coordinates are the
      truncating `float` to `int` conversions of the call's arguments. */
  datatype DrawCall =
    | Rect(x: int, y: int, w: nat, h: nat, color: Color)
    | FilledTriangle(p0: Point, p1: Point, p2: Point, color: Color)
    | TexturedTriangle(points: Corners<Vec4>, uv: Corners<Vec2>)
    | Outline(p0: Point, p1: Point, p2: Point, color: Color)

  function ScreenPoint(v: Vec4): Point
  {
    Point(Triangle.Trunc(v.x), Triangle.Trunc(v.y))
  }

  /** The red dots of WIREFRAME_REDDOT: a 4x4 rectangle at each vertex. */
  function DotCalls(mode: bv32, t: Tri): seq<DrawCall>
  {
    var p := t.points;
    if DrawsDots(mode) then [Rect(ScreenPoint(p.a).x, ScreenPoint(p.a).y, 4, 4, DOT_COLOR),
                             Rect(ScreenPoint(p.b).x, ScreenPoint(p.b).y, 4, 4, DOT_COLOR),
                             Rect(ScreenPoint(p.c).x, ScreenPoint(p.c).y, 4, 4, DOT_COLOR)] else []
  }

  function FillCalls(mode: bv32, t: Tri): seq<DrawCall>
  {
    var p := t.points;
    if DrawsFill(mode) then [FilledTriangle(ScreenPoint(p.a), ScreenPoint(p.b), ScreenPoint(p.c), t.color)] else []
  }

  function TextureCalls(mode: bv32, t: Tri): seq<DrawCall>
  {
    if DrawsTexture(mode) then [TexturedTriangle(t.points, t.uv)] else []
  }

  function WireCalls(mode: bv32, t: Tri, wire: Color): seq<DrawCall>
  {
    var p := t.points;
    if DrawsOutline(mode) then [Outline(ScreenPoint(p.a), ScreenPoint(p.b), ScreenPoint(p.c), wire)] else []
  }

  /** The calls for one triangle, in the order render() tests the mode:
      dots, fill, texture, outline. */
  function TriangleCalls(mode: bv32, t: Tri, wire: Color): seq<DrawCall>
  {
    DotCalls(mode, t) + FillCalls(mode, t) + TextureCalls(mode, t) + WireCalls(mode, t, wire)
  }

  /** The calls for a list of triangles, in list order. */
  function RenderCalls(mode: bv32, ts: seq<Tri>, wire: Color): seq<DrawCall>
  {
    if ts == [] then [] else RenderCalls(mode, ts[..|ts| - 1], wire) + TriangleCalls(mode, ts[|ts| - 1], wire)
  }

  /** The calls of one more triangle come after those of the ones before. */
  lemma RenderCallsSnoc(mode: bv32, ts: seq<Tri>, i: nat, wire: Color)
    requires i < |ts|
    ensures RenderCalls(mode, ts[..i + 1], wire) == RenderCalls(mode, ts[..i], wire) + TriangleCalls(mode, ts[i], wire)
  {
    assert ts[..i + 1][..i] == ts[..i];
  }

  /** In every declared mode a triangle gets one to three kinds of call,
      and where the outline is drawn it is drawn last, over the fill or the
      texture. */
  lemma {:induction false} OutlineOnTop(mode: bv32, t: Tri, wire: Color)
    requires mode in MODES
    ensures var cs := TriangleCalls(mode, t, wire);
      && 1 <= |cs| <= 4
      && (DrawsOutline(mode) <==> cs[|cs| - 1].Outline?)
      && (cs[|cs| - 1].Outline? ==> cs[|cs| - 1].color == wire)
  {
    Dispatch(mode);
  }

  /** The cells of draw_grid lie in the visible area, which the clear
      overwrites: the grid never outlives the frame it is drawn in. */
  lemma {:induction false} ClearAfterGrid(buf: seq<Color>, width: nat, height: nat, gx: nat, gy: nat, c: Color)
    requires width > 0 && gx > 0 && gy > 0 && width * height <= |buf|
    ensures Fill(Grid(buf, width * height, width, gx, gy), width * height, c) == Fill(buf, width * height, c)
  {
    var g := Grid(buf, width * height, width, gx, gy);
    forall k | 0 <= k < |buf|
      ensures Fill(g, width * height, c)[k] == Fill(buf, width * height, c)[k]
    {
      FillAt(g, width, height, c, k);
      FillAt(buf, width, height, c, k);
      if k >= width * height {
        GridBeyond(buf, width, gx, gy, width * height, k);
      }
    }
  }

  // ---------------------------------------------------------------------
  // Executing the calls

  /** The texture coordinates draw_textured_triangle computes for a pixel
      from the three corners sorted by y (barycentric interpolation of u
      and v, scaled to the texture, made absolute and truncated). */
  type TexCoord = (Triangle.Corner, Triangle.Corner, Triangle.Corner, Point) -> (nat, nat)

  /** A vertex as draw_textured_triangle receives it: the screen position
      truncated to `i32`, with the vertex's texture coordinates. */
  function CallCorner(p: Vec4, uv: Vec2): Triangle.Corner
  {
    Triangle.Corner(Triangle.Trunc(p.x), Triangle.Trunc(p.y), uv.x, uv.y)
  }

  /** A call the drawing functions can carry out: a fill or a texture needs
      a triangle that is not flat, since the scanline slopes divide by its
      height, and a texture needs the 64x64 texels draw_texel reads. */
  predicate Drawable(c: DrawCall, texture: seq<Color>)
  {
    match c
    case FilledTriangle(p0, p1, p2, _) => !Triangle.Flat(p0, p1, p2)
    case TexturedTriangle(ps, _) =>
      && |texture| >= Triangle.TEXTURE_WIDTH * Triangle.TEXTURE_HEIGHT
      && !Triangle.Flat(ScreenPoint(ps.a), ScreenPoint(ps.b), ScreenPoint(ps.c))
    case _ => true
  }

  /** What a call does to the buffer: the pixels it visits, in order, and
      the brush that colours them. */
  datatype Job = Job(pts: seq<Point>, brush: Triangle.Brush)

  /** The job of draw_rect, draw_filled_triangle, draw_textured_triangle or
      draw_triangle for the call: every call but the textured one paints in
      a solid colour. */
  function JobOf(c: DrawCall, texture: seq<Color>, texCoord: TexCoord): (j: Job)
    requires Drawable(c, texture)
    ensures Triangle.BrushOk(j.brush)
    ensures !c.TexturedTriangle? <==> j.brush.Solid?
  {
    match c
    case Rect(x, y, w, h, color) => Job(RectPoints(x, y, w, h), Triangle.Solid(color))
    case FilledTriangle(p0, p1, p2, color) => Job(Triangle.FilledPoints(p0, p1, p2), Triangle.Solid(color))
    case TexturedTriangle(ps, uv) =>
      var c0, c1, c2 := CallCorner(ps.a, uv.a), CallCorner(ps.b, uv.b), CallCorner(ps.c, uv.c);
      Job(Triangle.TexturedPoints(c0, c1, c2), Triangle.TextureBrush(texCoord, c0, c1, c2, texture))
    case Outline(p0, p1, p2, color) => Job(Triangle.Outline(p0, p1, p2), Triangle.Solid(color))
  }

  /** A call render() may issue: it can be carried out, and draw_pixel
      admits every pixel it writes. */
  predicate CallOk(c: DrawCall, width: nat, height: nat, texture: seq<Color>, texCoord: TexCoord)
  {
    Drawable(c, texture) && Triangle.StrokeAdmitted(JobOf(c, texture, texCoord).pts, JobOf(c, texture, texCoord).brush, width, height)
  }

  predicate CallsOk(cs: seq<DrawCall>, width: nat, height: nat, texture: seq<Color>, texCoord: TexCoord)
  {
    forall c :: c in cs ==> CallOk(c, width, height, texture, texCoord)
  }

  predicate Brushed(js: seq<Job>)
  {
    forall i :: 0 <= i < |js| ==> Triangle.BrushOk(js[i].brush)
  }

  /** The jobs of a list of calls, in order. */
  function Jobs(cs: seq<DrawCall>, texture: seq<Color>, texCoord: TexCoord): (js: seq<Job>)
    requires forall c :: c in cs ==> Drawable(c, texture)
    ensures |js| == |cs| && Brushed(js)
  {
    seq(|cs|, i requires 0 <= i < |cs| => JobOf(cs[i], texture, texCoord))
  }

  /** The buffer after the jobs, in order. */
  function Strokes(buf: seq<Color>, js: seq<Job>, width: nat): (r: seq<Color>)
    requires Brushed(js)
    ensures |r| == |buf|
    decreases |js|
  {
    if js == [] then buf
    else Strokes(Triangle.Stroke(buf, js[0].pts, js[0].brush, width), js[1..], width)
  }

  /** Carrying out two lists of jobs one after the other is carrying out
      their concatenation. */
  lemma {:induction false} StrokesConcat(buf: seq<Color>, a: seq<Job>, b: seq<Job>, width: nat)
    requires Brushed(a) && Brushed(b)
    ensures Brushed(a + b)
    ensures Strokes(buf, a + b, width) == Strokes(Strokes(buf, a, width), b, width)
    decreases |a|
  {
    if a == [] {
      assert a + b == b;
    } else {
      assert (a + b)[0] == a[0] && (a + b)[1..] == a[1..] + b;
      StrokesConcat(Triangle.Stroke(buf, a[0].pts, a[0].brush, width), a[1..], b, width);
    }
  }

  /** A list of calls may be issued exactly when both of its parts may. */
  lemma CallsOkConcat(a: seq<DrawCall>, b: seq<DrawCall>, width: nat, height: nat, texture: seq<Color>, texCoord: TexCoord)
    ensures CallsOk(a + b, width, height, texture, texCoord)
        <==> CallsOk(a, width, height, texture, texCoord) && CallsOk(b, width, height, texture, texCoord)
  {
  }

  /** The jobs of a concatenation are the concatenation of the jobs. */
  lemma JobsConcat(a: seq<DrawCall>, b: seq<DrawCall>, texture: seq<Color>, texCoord: TexCoord)
    requires forall c :: c in a + b ==> Drawable(c, texture)
    ensures Jobs(a + b, texture, texCoord) == Jobs(a, texture, texCoord) + Jobs(b, texture, texCoord)
  {
  }

  /** Issuing two lists of calls one after the other is issuing their
      concatenation. */
  lemma IssueConcat(buf: seq<Color>, a: seq<DrawCall>, b: seq<DrawCall>, width: nat, height: nat,
                    texture: seq<Color>, texCoord: TexCoord)
    requires CallsOk(a, width, height, texture, texCoord) && CallsOk(b, width, height, texture, texCoord)
    ensures CallsOk(a + b, width, height, texture, texCoord)
    ensures Strokes(buf, Jobs(a + b, texture, texCoord), width)
         == Strokes(Strokes(buf, Jobs(a, texture, texCoord), width), Jobs(b, texture, texCoord), width)
  {
    CallsOkConcat(a, b, width, height, texture, texCoord);
    JobsConcat(a, b, texture, texCoord);
    StrokesConcat(buf, Jobs(a, texture, texCoord), Jobs(b, texture, texCoord), width);
  }

  /** The clear leaves every visible cell in its colour. */
  lemma FillVisible(buf: seq<Color>, width: nat, height: nat, c: Color)
    requires width * height <= |buf|
    ensures forall k :: 0 <= k < width * height ==> Fill(buf, width * height, c)[k] == c
  {
  }

  /** Carrying out a single job is one stroke. */
  lemma StrokesOne(buf: seq<Color>, j: Job, width: nat)
    requires Triangle.BrushOk(j.brush)
    ensures Strokes(buf, [j], width) == Triangle.Stroke(buf, j.pts, j.brush, width)
  {
    assert [j][1..] == [];
  }

  /** draw_triangle with admitted vertices is a call render() may issue,
      and its job is the outline in a solid colour. */
  lemma OutlineCallOk(p0: Point, p1: Point, p2: Point, wire: Color, width: nat, height: nat,
                      texture: seq<Color>, texCoord: TexCoord)
    requires Admits(p0.x, p0.y, width, height) && Admits(p1.x, p1.y, width, height) && Admits(p2.x, p2.y, width, height)
    ensures CallOk(Outline(p0, p1, p2, wire), width, height, texture, texCoord)
    ensures JobOf(Outline(p0, p1, p2, wire), texture, texCoord) == Job(Triangle.Outline(p0, p1, p2), Triangle.Solid(wire))
  {
    var a, b, c := LinePoints(p0.x, p0.y, p1.x, p1.y), LinePoints(p1.x, p1.y, p2.x, p2.y), LinePoints(p2.x, p2.y, p0.x, p0.y);
    LineAdmitted(p0.x, p0.y, p1.x, p1.y, width, height);
    LineAdmitted(p1.x, p1.y, p2.x, p2.y, width, height);
    LineAdmitted(p2.x, p2.y, p0.x, p0.y, width, height);
    AdmittedConcat(a, b, width, height);
    AdmittedConcat(a + b, c, width, height);
  }

  /** The clear at the end of render() resets only the visible area: an
      outline from a vertex on row `height`, which draw_pixel's assertion
      admits, leaves the cell `width * height` in the wireframe colour
      (the frame buffer holds four times the visible area). */
  lemma ClearKeepsRowBelow(buf: seq<Color>, width: nat, height: nat, p1: Point, p2: Point, wire: Color,
                           texture: seq<Color>, texCoord: TexCoord)
    requires 0 <= width * height < |buf|
    requires Admits(p1.x, p1.y, width, height) && Admits(p2.x, p2.y, width, height)
    ensures CallsOk([Outline(Point(0, height), p1, p2, wire)], width, height, texture, texCoord)
    ensures Jobs([Outline(Point(0, height), p1, p2, wire)], texture, texCoord)
         == [Job(Triangle.Outline(Point(0, height), p1, p2), Triangle.Solid(wire))]
    ensures Fill(Strokes(buf, Jobs([Outline(Point(0, height), p1, p2, wire)], texture, texCoord), width),
                 width * height, BACKGROUND)[width * height] == wire
  {
    var p0 := Point(0, height);
    var pts := Triangle.Outline(p0, p1, p2);
    var j := Job(pts, Triangle.Solid(wire));
    OutlineCallOk(p0, p1, p2, wire, width, height, texture, texCoord);
    RowBelowPainted(buf, width, height, p1, p2, wire);
    Triangle.StrokeSolid(buf, pts, wire, width);
    StrokesOne(buf, j, width);
    FillAt(Strokes(buf, [j], width), width, height, BACKGROUND, width * height);
  }

  /** The first pixel of the outline is its first vertex, here the cell
      just past the visible area. */
  lemma RowBelowPainted(buf: seq<Color>, width: nat, height: nat, p1: Point, p2: Point, wire: Color)
    requires width * height < |buf|
    ensures Paint(buf, Triangle.Outline(Point(0, height), p1, p2), wire, width)[width * height] == wire
  {
    var pts := Triangle.Outline(Point(0, height), p1, p2);
    var n := width * height;
    assert Cell(0, height, width) == n by {
      assert height * width == n;
    }
    LineEndpoints(0, height, p1.x, p1.y);
    assert pts[0] == Point(0, height);
    PaintAt(buf, pts, wire, width, n);
  }

  /** With a solid brush, a stroke is admitted exactly when every pixel is. */
  lemma SolidAdmitted(pts: seq<Point>, c: Color, width: nat, height: nat)
    ensures Triangle.StrokeAdmitted(pts, Triangle.Solid(c), width, height) <==> AllAdmitted(pts, width, height)
  {
  }

  /** What an admitted draw_rect call provides: its pixels pass the
      assertion, and its job is the rectangle in a solid colour. */
  lemma RectCall(x: int, y: int, w: nat, h: nat, color: Color, width: nat, height: nat, texture: seq<Color>, texCoord: TexCoord)
    requires CallOk(Rect(x, y, w, h, color), width, height, texture, texCoord)
    ensures AllAdmitted(RectPoints(x, y, w, h), width, height)
    ensures JobOf(Rect(x, y, w, h, color), texture, texCoord) == Job(RectPoints(x, y, w, h), Triangle.Solid(color))
  {
    SolidAdmitted(RectPoints(x, y, w, h), color, width, height);
  }

  /** The same for a draw_filled_triangle call. */
  lemma FillCall(p0: Point, p1: Point, p2: Point, color: Color, width: nat, height: nat, texture: seq<Color>, texCoord: TexCoord)
    requires CallOk(FilledTriangle(p0, p1, p2, color), width, height, texture, texCoord)
    ensures !Triangle.Flat(p0, p1, p2) && AllAdmitted(Triangle.FilledPoints(p0, p1, p2), width, height)
    ensures JobOf(FilledTriangle(p0, p1, p2, color), texture, texCoord) == Job(Triangle.FilledPoints(p0, p1, p2), Triangle.Solid(color))
  {
    SolidAdmitted(Triangle.FilledPoints(p0, p1, p2), color, width, height);
  }

  /** The same for a draw_triangle call: its vertices pass the assertion. */
  lemma OutlineCall(p0: Point, p1: Point, p2: Point, color: Color, width: nat, height: nat, texture: seq<Color>, texCoord: TexCoord)
    requires CallOk(Outline(p0, p1, p2, color), width, height, texture, texCoord)
    ensures Admits(p0.x, p0.y, width, height) && Admits(p1.x, p1.y, width, height) && Admits(p2.x, p2.y, width, height)
    ensures JobOf(Outline(p0, p1, p2, color), texture, texCoord) == Job(Triangle.Outline(p0, p1, p2), Triangle.Solid(color))
  {
    SolidAdmitted(Triangle.Outline(p0, p1, p2), color, width, height);
    OutlineVertices(p0, p1, p2, width, height);
  }

  /** The same for a draw_textured_triangle call. */
  lemma TextureCall(ps: Corners<Vec4>, uv: Corners<Vec2>, width: nat, height: nat, texture: seq<Color>, texCoord: TexCoord)
    requires CallOk(TexturedTriangle(ps, uv), width, height, texture, texCoord)
    ensures var c0, c1, c2 := CallCorner(ps.a, uv.a), CallCorner(ps.b, uv.b), CallCorner(ps.c, uv.c);
      && |texture| >= Triangle.TEXTURE_WIDTH * Triangle.TEXTURE_HEIGHT
      && !Triangle.Flat(Point(c0.x, c0.y), Point(c1.x, c1.y), Point(c2.x, c2.y))
      && Triangle.StrokeAdmitted(Triangle.TexturedPoints(c0, c1, c2), Triangle.TextureBrush(texCoord, c0, c1, c2, texture), width, height)
      && JobOf(TexturedTriangle(ps, uv), texture, texCoord)
         == Job(Triangle.TexturedPoints(c0, c1, c2), Triangle.TextureBrush(texCoord, c0, c1, c2, texture))
  {
  }

  /** The outline passes through its three vertices, so an admitted outline
      has admitted vertices, as draw_triangle requires. */
  lemma OutlineVertices(p0: Point, p1: Point, p2: Point, width: nat, height: nat)
    requires AllAdmitted(Triangle.Outline(p0, p1, p2), width, height)
    ensures Admits(p0.x, p0.y, width, height) && Admits(p1.x, p1.y, width, height) && Admits(p2.x, p2.y, width, height)
  {
    var a, b, c := LinePoints(p0.x, p0.y, p1.x, p1.y), LinePoints(p1.x, p1.y, p2.x, p2.y), LinePoints(p2.x, p2.y, p0.x, p0.y);
    LineEndpoints(p0.x, p0.y, p1.x, p1.y);
    LineEndpoints(p1.x, p1.y, p2.x, p2.y);
    LineEndpoints(p2.x, p2.y, p0.x, p0.y);
    var pts := a + b + c;
    assert pts[0] == p0 && pts[|a|] == p1 && pts[|a| + |b|] == p2;
  }

  // ---------------------------------------------------------------------
  // The application state

  /** The globals of main.cpp that input(), update() and render() change. */
  class App {
    var renderMode: bv32
    var wireframeColor: Color
    var cullMode: bool
    var useColor: bool
    var isRunning: bool
    var mesh: Mesh.MeshData
    var trianglesToRender: seq<Tri>

    function Current(): Settings
      reads this
    {
      Settings(renderMode, wireframeColor, cullMode, useColor, isRunning)
    }

    /** The globals' initial values; `is_running` is what window creation
        returned, and the mesh is the one setup() loaded. */
    constructor (running: bool, m: Mesh.MeshData)
      ensures Current() == Initial(running) && mesh == m && trianglesToRender == []
    {
      renderMode, wireframeColor, cullMode, useColor, isRunning := TEXTURED_WIREFRAME, BLACK, true, true, running;
      mesh := m;
      trianglesToRender := [];
    }

    /** input(): react to the polled event. */
    method Input(e: Event)
      modifies this
      ensures Current() == Respond(old(Current()), e)
      ensures mesh == old(mesh) && trianglesToRender == old(trianglesToRender)
    {
      match e {
        case Quit =>
          isRunning := false;
        case OtherEvent =>
        case KeyDown(k) =>
          match k {
            case Escape =>
              isRunning := false;
            case Key1 =>
              renderMode := WIREFRAME_REDDOT;
              wireframeColor := GREEN;
            case Key2 =>
              renderMode := WIREFRAME;
              wireframeColor := GREEN;
            case Key3 =>
              renderMode := FILL;
            case Key4 =>
              renderMode := FILL_WIREFRAME;
              wireframeColor := BLACK;
            case Key5 =>
              renderMode := TEXTURED;
            case Key6 =>
              renderMode := TEXTURED_WIREFRAME;
              wireframeColor := BLACK;
            case KeyC =>
              cullMode := true;
            case KeyD =>
              cullMode := false;
            case KeyV =>
              useColor := true;
            case KeyF =>
              useColor := false;
            case OtherKey(_) =>
          }
      }
    }

    /** update(): turn the mesh, then walk the faces of an index buffer of
        n entries, pushing the kept ones, and sort the whole list back to
        front.  The loop guard is `i + 2 < n`, the intended reading of
        `i < vertices - 2` (see FaceLoopWraps). */
    method Update(geom: (Mesh.MeshData, nat) -> FaceGeom, n: nat)
      modifies this
      ensures mesh == Turned(old(mesh))
      ensures Current() == old(Current())
      ensures NonIncreasing(trianglesToRender)
      ensures multiset(trianglesToRender) == multiset(old(trianglesToRender) + Tris(KeptFaces(cullMode, geom, mesh, 0, n)))
    {
      mesh := Turned(mesh);
      PushFaces(geom, n);
      SortByDepthSorts(trianglesToRender);
      trianglesToRender := SortByDepth(trianglesToRender);
    }

    /** The face loop of update(): push the triangle of every kept face. */
    method PushFaces(geom: (Mesh.MeshData, nat) -> FaceGeom, n: nat)
      modifies this
      ensures trianglesToRender == old(trianglesToRender) + Tris(KeptFaces(cullMode, geom, mesh, 0, n))
      ensures mesh == old(mesh) && Current() == old(Current())
    {
      var i := 0;
      ghost var k := 0;
      while i + 2 < n
        invariant i == 3 * k && mesh == old(mesh) && Current() == old(Current())
        invariant trianglesToRender + Tris(KeptFaces(cullMode, geom, mesh, k, n))
               == old(trianglesToRender) + Tris(KeptFaces(cullMode, geom, mesh, 0, n))
        decreases n - i
      {
        var g := geom(mesh, i);
        PushStep(cullMode, geom, mesh, k, n, trianglesToRender);
        if !cullMode || !(g.alignment < 0.0) {
          trianglesToRender := trianglesToRender + Tris([g]);
        }
        i, k := i + 3, k + 1;
      }
    }

    /** render(): draw the grid, issue the calls of the first
        `u32(triangles_to_render.size())` triangles, empty the list and
        clear the visible area for the next frame. */
    /** The first test of render()'s loop body: with WIREFRAME_REDDOT, a
        4x4 rectangle in DOT_COLOR at each vertex. */
    method RenderDots(fb: FrameBuffer, t: Tri, texture: seq<Color>, texCoord: TexCoord)
      requires fb.Valid() && CallsOk(DotCalls(renderMode, t), fb.width, fb.height, texture, texCoord)
      modifies fb.data
      ensures fb.data[..] == Strokes(old(fb.data[..]), Jobs(DotCalls(renderMode, t), texture, texCoord), fb.width)
    {
      ghost var cs := DotCalls(renderMode, t);
      if DrawsDots(renderMode) {
        var p := t.points;
        var a, b, c := ScreenPoint(p.a), ScreenPoint(p.b), ScreenPoint(p.c);
        assert cs[0] in cs && cs[1] in cs && cs[2] in cs;
        RectCall(a.x, a.y, 4, 4, DOT_COLOR, fb.width, fb.height, texture, texCoord);
        RectCall(b.x, b.y, 4, 4, DOT_COLOR, fb.width, fb.height, texture, texCoord);
        RectCall(c.x, c.y, 4, 4, DOT_COLOR, fb.width, fb.height, texture, texCoord);
        ghost var b0 := fb.data[..];
        fb.DrawRect(a.x, a.y, 4, 4, DOT_COLOR);
        ghost var b1 := fb.data[..];
        fb.DrawRect(b.x, b.y, 4, 4, DOT_COLOR);
        ghost var b2 := fb.data[..];
        fb.DrawRect(c.x, c.y, 4, 4, DOT_COLOR);
        Triangle.StrokeSolid(b0, RectPoints(a.x, a.y, 4, 4), DOT_COLOR, fb.width);
        Triangle.StrokeSolid(b1, RectPoints(b.x, b.y, 4, 4), DOT_COLOR, fb.width);
        Triangle.StrokeSolid(b2, RectPoints(c.x, c.y, 4, 4), DOT_COLOR, fb.width);
        ghost var js := Jobs(cs, texture, texCoord);
        assert js[1..][1..] == [js[2]] && js[1..][0] == js[1];
        StrokesOne(b2, js[2], fb.width);
      } else {
        assert Jobs(cs, texture, texCoord) == [];
      }
    }

    /** The second test: with FILL or FILL_WIREFRAME, the triangle filled in
        its lit colour. */
    method RenderFill(fb: FrameBuffer, t: Tri, texture: seq<Color>, texCoord: TexCoord)
      requires fb.Valid() && CallsOk(FillCalls(renderMode, t), fb.width, fb.height, texture, texCoord)
      modifies fb.data
      ensures fb.data[..] == Strokes(old(fb.data[..]), Jobs(FillCalls(renderMode, t), texture, texCoord), fb.width)
    {
      ghost var cs := FillCalls(renderMode, t);
      if DrawsFill(renderMode) {
        var p := t.points;
        var a, b, c := ScreenPoint(p.a), ScreenPoint(p.b), ScreenPoint(p.c);
        assert cs[0] in cs;
        FillCall(a, b, c, t.color, fb.width, fb.height, texture, texCoord);
        ghost var b0 := fb.data[..];
        Triangle.DrawFilledTriangle(fb, a.x, a.y, b.x, b.y, c.x, c.y, t.color);
        Triangle.StrokeSolid(b0, Triangle.FilledPoints(a, b, c), t.color, fb.width);
        StrokesOne(b0, Jobs(cs, texture, texCoord)[0], fb.width);
      } else {
        assert Jobs(cs, texture, texCoord) == [];
      }
    }

    /** The third test: with TEXTURED or TEXTURED_WIREFRAME, the triangle
        textured from mesh_texture. */
    method RenderTexture(fb: FrameBuffer, t: Tri, texture: seq<Color>, texCoord: TexCoord)
      requires fb.Valid() && CallsOk(TextureCalls(renderMode, t), fb.width, fb.height, texture, texCoord)
      modifies fb.data
      ensures fb.data[..] == Strokes(old(fb.data[..]), Jobs(TextureCalls(renderMode, t), texture, texCoord), fb.width)
    {
      ghost var cs := TextureCalls(renderMode, t);
      if DrawsTexture(renderMode) {
        var p := t.points;
        assert cs[0] in cs;
        TextureCall(p, t.uv, fb.width, fb.height, texture, texCoord);
        ghost var b0 := fb.data[..];
        Triangle.DrawTexturedTriangle(fb, CallCorner(p.a, t.uv.a), CallCorner(p.b, t.uv.b), CallCorner(p.c, t.uv.c), texture, texCoord);
        StrokesOne(b0, Jobs(cs, texture, texCoord)[0], fb.width);
      } else {
        assert Jobs(cs, texture, texCoord) == [];
      }
    }

    /** The last test: in the wireframe modes, the outline in the
        wireframe colour, drawn over whatever came before. */
    method RenderWire(fb: FrameBuffer, t: Tri, texture: seq<Color>, texCoord: TexCoord)
      requires fb.Valid() && CallsOk(WireCalls(renderMode, t, wireframeColor), fb.width, fb.height, texture, texCoord)
      modifies fb.data
      ensures fb.data[..] == Strokes(old(fb.data[..]), Jobs(WireCalls(renderMode, t, wireframeColor), texture, texCoord), fb.width)
    {
      ghost var cs := WireCalls(renderMode, t, wireframeColor);
      if DrawsOutline(renderMode) {
        var p := t.points;
        var a, b, c := ScreenPoint(p.a), ScreenPoint(p.b), ScreenPoint(p.c);
        assert cs[0] in cs;
        OutlineCall(a, b, c, wireframeColor, fb.width, fb.height, texture, texCoord);
        ghost var b0 := fb.data[..];
        Triangle.DrawTriangle(fb, a.x, a.y, b.x, b.y, c.x, c.y, wireframeColor);
        Triangle.StrokeSolid(b0, Triangle.Outline(a, b, c), wireframeColor, fb.width);
        StrokesOne(b0, Jobs(cs, texture, texCoord)[0], fb.width);
      } else {
        assert Jobs(cs, texture, texCoord) == [];
      }
    }

    /** One iteration of render()'s loop: the four tests in order, each
        call carried out as it is issued. */
    method RenderTriangle(fb: FrameBuffer, t: Tri, texture: seq<Color>, texCoord: TexCoord)
      requires fb.Valid() && CallsOk(TriangleCalls(renderMode, t, wireframeColor), fb.width, fb.height, texture, texCoord)
      modifies fb.data
      ensures fb.data[..] == Strokes(old(fb.data[..]), Jobs(TriangleCalls(renderMode, t, wireframeColor), texture, texCoord), fb.width)
    {
      ghost var d, f, x, o := DotCalls(renderMode, t), FillCalls(renderMode, t), TextureCalls(renderMode, t),
                              WireCalls(renderMode, t, wireframeColor);
      CallsOkConcat(d + f + x, o, fb.width, fb.height, texture, texCoord);
      CallsOkConcat(d + f, x, fb.width, fb.height, texture, texCoord);
      CallsOkConcat(d, f, fb.width, fb.height, texture, texCoord);
      ghost var start := fb.data[..];
      RenderDots(fb, t, texture, texCoord);
      RenderFill(fb, t, texture, texCoord);
      IssueConcat(start, d, f, fb.width, fb.height, texture, texCoord);
      RenderTexture(fb, t, texture, texCoord);
      IssueConcat(start, d + f, x, fb.width, fb.height, texture, texCoord);
      RenderWire(fb, t, texture, texCoord);
      IssueConcat(start, d + f + x, o, fb.width, fb.height, texture, texCoord);
    }

    /** render(): the grid, then the calls of the first `u32(size)`
        triangles in order, then the clear of the visible area.  The
        `texture` is mesh_texture, and `texCoord` the interpolation of
        draw_textured_triangle. */
    method Render(fb: FrameBuffer, texture: seq<Color>, texCoord: TexCoord) returns (calls: seq<DrawCall>)
      requires fb.Valid()
      requires forall i :: 0 <= i < U32(|trianglesToRender|) ==>
        CallsOk(TriangleCalls(renderMode, trianglesToRender[i], wireframeColor), fb.width, fb.height, texture, texCoord)
      modifies this, fb.data
      ensures calls == RenderCalls(renderMode, old(trianglesToRender)[..U32(|old(trianglesToRender)|)], wireframeColor)
      ensures trianglesToRender == [] && Current() == old(Current()) && mesh == old(mesh)
      ensures CallsOk(calls, fb.width, fb.height, texture, texCoord)
      ensures fb.data[..] == Fill(Strokes(Grid(old(fb.data[..]), fb.width * fb.height, fb.width, GRID_SPACING, GRID_SPACING),
                                          Jobs(calls, texture, texCoord), fb.width),
                                  fb.width * fb.height, BACKGROUND)
      ensures forall k :: 0 <= k < fb.width * fb.height ==> fb.data[k] == BACKGROUND
    {
      fb.DrawGrid(GRID_SPACING, GRID_SPACING);
      ghost var grid := fb.data[..];
      var ts := trianglesToRender;
      var count := U32(|ts|);
      calls := [];
      var i := 0;
      while i < count
        invariant i <= count && calls == RenderCalls(renderMode, ts[..i], wireframeColor)
        invariant CallsOk(calls, fb.width, fb.height, texture, texCoord)
        invariant fb.data[..] == Strokes(grid, Jobs(calls, texture, texCoord), fb.width)
        modifies fb.data
      {
        RenderCallsSnoc(renderMode, ts, i, wireframeColor);
        var tc := TriangleCalls(renderMode, ts[i], wireframeColor);
        RenderTriangle(fb, ts[i], texture, texCoord);
        IssueConcat(grid, calls, tc, fb.width, fb.height, texture, texCoord);
        calls := calls + tc;
        i := i + 1;
      }
      trianglesToRender := [];
      ghost var drawn := fb.data[..];
      fb.ClearFrameBuffer(BACKGROUND);
      FillVisible(drawn, fb.width, fb.height, BACKGROUND);
    }
  }

  /** update()'s change to the mesh: z translation 5, each rotation angle
      advanced by 0.01 radians. */
  function Turned(m: Mesh.MeshData): (r: Mesh.MeshData)
    ensures r.vertices == m.vertices && r.faces == m.faces && r.colors == m.colors && r.scale == m.scale
    ensures r.translate.x == m.translate.x && r.translate.y == m.translate.y
  {
    m.(translate := m.translate.(z := 5.0),
       rotation := Vec3(m.rotation.x + 0.01, m.rotation.y + 0.01, m.rotation.z + 0.01))
  }
}
