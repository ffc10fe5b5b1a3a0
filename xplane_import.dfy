/** The X-Plane OBJ8 importer: a keyword-driven pass over the lines of the
    file that collects vertices, normals, texture coordinates and a flat index
    buffer, keeps a stack of ANIM translations, and records one triangle list
    per TRIS command; afterwards each list is cut into triangles and becomes a
    mesh named OBJ0, OBJ1, ...  Creating the Blender meshes and materials is
    host work and not part of the model; the importer's output is the data it
    would hand over. */
module XPlaneImport {
  import opened Common

  // ---------------------------------------------------------------------
  // Tokenising a line: Python's str.split() with no argument

  /** str.isspace() of one character: the ASCII controls \t \n \v \f \r,
      the separators \x1c-\x1f, the space, and the Unicode white space
      (NEL, no-break space, Ogham space mark, the spaces U+2000-U+200A, the
      line and paragraph separators, the narrow no-break space, the medium
      mathematical space and the ideographic space). */
  predicate IsSpace(c: char)
  {
    || ('\t' <= c <= '\r')
    || ('\U{001C}' <= c <= ' ')
    || c == '\U{0085}' || c == '\U{00A0}' || c == '\U{1680}'
    || ('\U{2000}' <= c <= '\U{200A}')
    || c == '\U{2028}' || c == '\U{2029}' || c == '\U{202F}' || c == '\U{205F}' || c == '\U{3000}'
  }

  predicate IsToken(t: string)
  {
    |t| > 0 && forall i :: 0 <= i < |t| ==> !IsSpace(t[i])
  }

  /** The longest prefix of s without white space. */
  function Word(s: string): (w: string)
    ensures |w| <= |s| && w == s[..|w|]
    ensures forall i :: 0 <= i < |w| ==> !IsSpace(w[i])
    ensures |w| < |s| ==> IsSpace(s[|w|])
  {
    if s == [] || IsSpace(s[0]) then [] else [s[0]] + Word(s[1..])
  }

  function Tokens(s: string): (ts: seq<string>)
    ensures forall k :: 0 <= k < |ts| ==> IsToken(ts[k])
    decreases |s|
  {
    if s == [] then []
    else if IsSpace(s[0]) then Tokens(s[1..])
    else
      var w := Word(s);
      [w] + Tokens(s[|w|..])
  }

  /** Lines written as tokens separated by single spaces split back into the
      same tokens. */
  function JoinTokens(ts: seq<string>): string
  {
    if ts == [] then [] else if |ts| == 1 then ts[0] else ts[0] + " " + JoinTokens(ts[1..])
  }

  lemma {:induction false} WordOfToken(t: string, rest: string)
    requires IsToken(t)
    requires rest == [] || IsSpace(rest[0])
    ensures Word(t + rest) == t
    decreases |t|
  {
    if |t| == 1 {
      assert (t + rest)[1..] == rest;
    } else {
      assert (t + rest)[1..] == t[1..] + rest;
      WordOfToken(t[1..], rest);
      assert [t[0]] + t[1..] == t;
    }
  }

  lemma {:induction false} TokensOfJoin(ts: seq<string>)
    requires forall k :: 0 <= k < |ts| ==> IsToken(ts[k])
    ensures Tokens(JoinTokens(ts)) == ts
    decreases |ts|
  {
    if ts == [] {
    } else if |ts| == 1 {
      WordOfToken(ts[0], []);
      assert ts[0] + [] == ts[0];
      assert ts[0][|ts[0]|..] == [];
    } else {
      var t, rest := ts[0], " " + JoinTokens(ts[1..]);
      assert JoinTokens(ts) == t + rest;
      WordOfToken(t, rest);
      assert (t + rest)[|t|..] == rest;
      assert rest[1..] == JoinTokens(ts[1..]);
      TokensOfJoin(ts[1..]);
      assert Tokens(rest) == Tokens(JoinTokens(ts[1..]));
      assert [ts[0]] + ts[1..] == ts;
    }
  }

  // ---------------------------------------------------------------------
  // Path handling of the texture commands (Python's posixpath: '/' is the
  // only separator; Windows' ntpath with backslashes and drive letters is not modelled)

  function RStrip(s: string, c: char): (r: string)
    ensures |r| <= |s| && r == s[..|r|]
    ensures r == [] || r[|r| - 1] != c
  {
    if s != [] && s[|s| - 1] == c then RStrip(s[..|s| - 1], c) else s
  }

  /** os.path.dirname: everything before the last '/', with trailing slashes
      removed unless the head consists of slashes only. */
  function Dirname(p: string): string
  {
    var head := p[..RFind(p, '/') + 1];
    if head != [] && head != Repeat('/', |head|) then RStrip(head, '/') else head
  }

  /** Index where os.path.splitext cuts the file name: the last '.' after the
      last '/', unless every character of the base name before it is a '.'. */
  function ExtStart(p: string): (k: int)
    ensures k == |p| || (0 <= k < |p| && p[k] == '.')
  {
    var sep := RFind(p, '/');
    var dot := RFind(p, '.');
    if dot > sep && exists j :: sep + 1 <= j < dot && p[j] != '.' then dot else |p|
  }

  /** os.path.splitext(p)[0] and [1]. */
  function Stem(p: string): string { p[..ExtStart(p)] }
  function Ext(p: string): string { p[ExtStart(p)..] }

  lemma SplitExtRoundTrip(p: string)
    ensures Stem(p) + Ext(p) == p
    ensures Ext(p) == [] || (Ext(p)[0] == '.' && '/' !in Ext(p))
  {
    var k := ExtStart(p);
    assert p[..k] + p[k..] == p;
    if k < |p| {
      var sep := RFind(p, '/');
      assert forall j :: k < j < |p| ==> p[j] != '/';
      assert forall j :: 0 <= j < |p[k..]| ==> p[k..][j] == p[k + j];
    }
  }

  datatype TextureKind = Diffuse | NormalMap | Emissive

  datatype Texture = Texture(kind: TextureKind, path: string)

  /** The path a TEXTURE, TEXTURE_NORMAL or TEXTURE_LIT line loads: the name
      next to the .obj file, or the same stem with ".dds" when that file does
      not exist. */
  function TexturePath(objPath: string, name: string, fileExists: string -> bool): string
  {
    var primary := Dirname(objPath) + "/" + name;
    if fileExists(primary) then primary else Dirname(objPath) + "/" + Stem(name) + ".dds"
  }

  lemma TexturePathShape(objPath: string, name: string, fileExists: string -> bool)
    ensures var r := TexturePath(objPath, name, fileExists);
      && StartsWith(r, Dirname(objPath) + "/")
      && (fileExists(Dirname(objPath) + "/" + name) ==> r == Dirname(objPath) + "/" + name)
      && (!fileExists(Dirname(objPath) + "/" + name) ==>
            EndsWith(r, ".dds") && r[..|r| - 4] == Dirname(objPath) + "/" + Stem(name))
  {
    var d := Dirname(objPath) + "/";
    var r := TexturePath(objPath, name, fileExists);
    if fileExists(d + name) {
      assert r == d + name;
      assert r[..|d|] == d;
    } else {
      assert r == d + Stem(name) + ".dds";
      assert r[..|d|] == d;
      assert r[|r| - 4..] == ".dds";
      assert r[..|r| - 4] == d + Stem(name);
    }
  }

  // ---------------------------------------------------------------------
  // Parser state

  datatype UV = UV(u: real, v: real)

  /** The index list of one TRIS command and the origin its mesh is placed at. */
  datatype TrisObject = TrisObject(origin: Vec3, indices: seq<int>)

  datatype ParserState = ParserState(
    verts: seq<Vec3>,
    normals: seq<Vec3>,
    uvs: seq<UV>,
    faces: seq<int>,          // the flat index buffer filled by IDX / IDX10
    nesting: int,             // anim_nesting
    aTrans: seq<Vec3>,        // a_trans, top of stack last
    originTemp: Vec3,
    transAvailable: bool,
    objects: seq<TrisObject>,
    textures: seq<Texture>)

  const Initial := ParserState([], [], [], [], 0, [Origin], Origin, false, [], [])

  /** The stack holds one translation per open ANIM block plus the bottom one. */
  ghost predicate StackAligned(st: ParserState)
  {
    |st.aTrans| == st.nesting + 1
  }

  ghost predicate ListsAligned(st: ParserState)
  {
    |st.verts| == |st.normals| == |st.uvs|
  }

  /** What the importer cannot decide itself: the .obj path, file existence,
      whether Blender can load an image file, the origin passed to run, and
      Python's float()/int() on a token (None where Python raises
      ValueError). */
  datatype Context = Context(
    objPath: string,
    fileExists: string -> bool,
    imageLoads: string -> bool,
    origo: Vec3,
    toFloat: string -> Option<real>,
    toInt: string -> Option<int>)

  function Field(line: seq<string>, k: nat): Result<string>
  {
    if k < |line| then Ok(line[k]) else Err(IndexError)
  }

  function FloatAt(line: seq<string>, k: nat, ctx: Context): Result<real>
  {
    var t :- Field(line, k);
    match ctx.toFloat(t)
    case Some(x) => Ok(x)
    case None => Err(ValueError)
  }

  function IntAt(line: seq<string>, k: nat, ctx: Context): Result<int>
  {
    var t :- Field(line, k);
    match ctx.toInt(t)
    case Some(n) => Ok(n)
    case None => Err(ValueError)
  }

  /** map(int, tokens), consumed in order. */
  function Ints(tokens: seq<string>, ctx: Context): (r: Result<seq<int>>)
    ensures r.Ok? ==> |r.value| == |tokens|
    ensures r.Ok? ==> forall k :: 0 <= k < |tokens| ==> ctx.toInt(tokens[k]) == Some(r.value[k])
  {
    if tokens == [] then Ok([])
    else
      match ctx.toInt(tokens[0])
      case None => Err(ValueError)
      case Some(n) =>
        var rest :- Ints(tokens[1..], ctx);
        Ok([n] + rest)
  }

  /** A vertex line VT x y z nx ny nz u v, read in the order the script reads
      its fields; Blender's Z-up frame swaps y and z and negates the new y. */
  datatype VTRecord = VTRecord(pos: Vec3, normal: Vec3, uv: UV)

  function ReadVT(line: seq<string>, ctx: Context): Result<VTRecord>
  {
    var vx :- FloatAt(line, 1, ctx);
    var vz3 :- FloatAt(line, 3, ctx);
    var vy2 :- FloatAt(line, 2, ctx);
    var nx :- FloatAt(line, 4, ctx);
    var nz6 :- FloatAt(line, 6, ctx);
    var ny5 :- FloatAt(line, 5, ctx);
    var u :- FloatAt(line, 7, ctx);
    var v :- FloatAt(line, 8, ctx);
    Ok(VTRecord(Vec3(vx, vz3 * -1.0, vy2), Vec3(nx, nz6 * -1.0, ny5), UV(u, v)))
  }

  function ReadTrans(line: seq<string>, ctx: Context): Result<Vec3>
  {
    var tx :- FloatAt(line, 1, ctx);
    var tz3 :- FloatAt(line, 3, ctx);
    var ty2 :- FloatAt(line, 2, ctx);
    Ok(Vec3(tx, tz3 * -1.0, ty2))
  }

  function TextureKindOf(kw: string): Option<TextureKind>
  {
    if kw == "TEXTURE" then Some(Diffuse)
    else if kw == "TEXTURE_NORMAL" then Some(NormalMap)
    else if kw == "TEXTURE_LIT" then Some(Emissive)
    else None
  }

  predicate Handled(kw: string)
  {
    TextureKindOf(kw).Some? || kw in {"VT", "IDX", "IDX10", "ANIM_begin", "ANIM_trans", "ANIM_end", "TRIS"}
  }

  /** The effect of one tokenised line on the parser state. */
  function StepLine(st: ParserState, line: seq<string>, ctx: Context): Result<ParserState>
  {
    if |line| == 0 then Ok(st)
    else
      var kw := line[0];
      if TextureKindOf(kw).Some? then
        var name :- Field(line, 1);
        var path := TexturePath(ctx.objPath, name, ctx.fileExists);
        if !ctx.imageLoads(path) then Err(RuntimeError)
        else Ok(st.(textures := st.textures + [Texture(TextureKindOf(kw).value, path)]))
      else if kw == "VT" then
        var r :- ReadVT(line, ctx);
        Ok(st.(verts := st.verts + [r.pos], normals := st.normals + [r.normal], uvs := st.uvs + [r.uv]))
      else if kw == "IDX10" || kw == "IDX" then
        var idx :- Ints(line[1..], ctx);
        Ok(st.(faces := st.faces + idx))
      else if kw == "ANIM_begin" then
        Ok(st.(nesting := st.nesting + 1, aTrans := st.aTrans + [Origin]))
      else if kw == "ANIM_trans" then
        var t :- ReadTrans(line, ctx);
        if !PyIndexOk(st.nesting, |st.aTrans|) then Err(IndexError)
        else
          Ok(st.(aTrans := st.aTrans[PyIndex(st.nesting, |st.aTrans|) := t],
                 originTemp := st.originTemp.Add(t),
                 transAvailable := true))
      else if kw == "ANIM_end" then
        if |st.aTrans| == 0 then Err(IndexError)
        else
          var n := st.nesting - 1;
          Ok(st.(nesting := n,
                 originTemp := st.originTemp.Sub(st.aTrans[|st.aTrans| - 1]),
                 aTrans := st.aTrans[..|st.aTrans| - 1],
                 transAvailable := if n == 0 then false else st.transAvailable))
      else if kw == "TRIS" then
        var off :- IntAt(line, 1, ctx);
        var cnt :- IntAt(line, 2, ctx);
        var origin := if st.transAvailable then st.originTemp else ctx.origo;
        Ok(st.(objects := st.objects + [TrisObject(origin, PySlice(st.faces, off, off + cnt))]))
      else Ok(st)
  }

  /** The line loop: stops at the first line that raises. */
  function RunLines(st: ParserState, lines: seq<seq<string>>, ctx: Context): Result<ParserState>
    decreases |lines|
  {
    if lines == [] then Ok(st)
    else
      var next :- StepLine(st, lines[0], ctx);
      RunLines(next, lines[1..], ctx)
  }

  /** zip(*[iter(obj)]*3): consecutive triples, a trailing 1 or 2 dropped. */
  function Triples(s: seq<int>): seq<(int, int, int)>
    decreases |s|
  {
    if |s| < 3 then [] else [(s[0], s[1], s[2])] + Triples(s[3..])
  }

  datatype MeshData = MeshData(name: string, origin: Vec3, tris: seq<(int, int, int)>)

  datatype Imported = Imported(
    verts: seq<Vec3>, normals: seq<Vec3>, uvs: seq<UV>,
    textures: seq<Texture>, meshes: seq<MeshData>)

  function MeshName(k: nat): string { "OBJ" + NatToString(k) }

  function MeshesOf(objects: seq<TrisObject>): seq<MeshData>
  {
    seq(|objects|, k requires 0 <= k < |objects| =>
      MeshData(MeshName(k), objects[k].origin, Triples(objects[k].indices)))
  }

  function TokenLines(text: seq<string>): seq<seq<string>>
  {
    seq(|text|, k requires 0 <= k < |text| => Tokens(text[k]))
  }

  /** The whole import of the file's lines. */
  function Import(text: seq<string>, ctx: Context): Result<Imported>
  {
    var st :- RunLines(Initial, TokenLines(text), ctx);
    Ok(Imported(st.verts, st.normals, st.uvs, st.textures, MeshesOf(st.objects)))
  }

  /** One step of the line loop: a line that raises ends the run with its
      error, any other line hands its state to the rest. */
  lemma RunLinesStep(st: ParserState, lines: seq<seq<string>>, i: nat, ctx: Context)
    requires i < |lines|
    ensures StepLine(st, lines[i], ctx).Err? ==>
      RunLines(st, lines[i..], ctx) == Err(StepLine(st, lines[i], ctx).error)
    ensures StepLine(st, lines[i], ctx).Ok? ==>
      RunLines(st, lines[i..], ctx) == RunLines(StepLine(st, lines[i], ctx).value, lines[i + 1..], ctx)
  {
    assert lines[i..][0] == lines[i] && lines[i..][1..] == lines[i + 1..];
  }

  // ---------------------------------------------------------------------
  // The importer as the script runs it

  /** XPlaneImport.run: one pass over the lines updating the local lists and
      the ANIM stack (held together in one parser state), then one mesh per
      recorded TRIS list. */
  method Run(text: seq<string>, ctx: Context) returns (r: Result<Imported>)
    ensures r == Import(text, ctx)
  {
    var st := Initial;
    ghost var lines := TokenLines(text);
    var i := 0;
    while i < |text|
      invariant 0 <= i <= |text|
      invariant RunLines(Initial, lines, ctx) == RunLines(st, lines[i..], ctx)
    {
      var line := Tokens(text[i]);
      assert line == lines[i];
      RunLinesStep(st, lines, i, ctx);
      var next := ReadLine(st, line, ctx);
      if next.Err? {
        return Err(next.error);
      }
      st := next.value;
      i := i + 1;
    }
    assert lines[i..] == [];

    var objects := st.objects;
    var meshes: seq<MeshData> := [];
    var counter := 0;
    while counter < |objects|
      invariant 0 <= counter <= |objects|
      invariant meshes == MeshesOf(objects[..counter])
    {
      meshes := meshes + [MeshData(MeshName(counter), objects[counter].origin, Triples(objects[counter].indices))];
      counter := counter + 1;
    }
    assert objects[..counter] == objects;
    r := Ok(Imported(st.verts, st.normals, st.uvs, st.textures, meshes));
  }

  /** The body of run's line loop: the keyword picks which lists grow and
      how the ANIM stack moves; a missing or unreadable field raises. */
  method ReadLine(st: ParserState, line: seq<string>, ctx: Context) returns (r: Result<ParserState>)
    ensures r == StepLine(st, line, ctx)
  {
    if |line| == 0 {
      return Ok(st);
    }
    var verts, normals, uv, faces := st.verts, st.normals, st.uvs, st.faces;
    var animNesting, aTrans, originTemp := st.nesting, st.aTrans, st.originTemp;
    var transAvailable, objects, textures := st.transAvailable, st.objects, st.textures;
    var kw := line[0];
    if TextureKindOf(kw).Some? {
      if |line| < 2 {
        return Err(IndexError);
      }
      var texfullname := TexturePath(ctx.objPath, line[1], ctx.fileExists);
      if !ctx.imageLoads(texfullname) {
        return Err(RuntimeError);
      }
      textures := textures + [Texture(TextureKindOf(kw).value, texfullname)];
    } else if kw == "VT" {
      var rec := ReadVT(line, ctx);
      if rec.Err? {
        return Err(rec.error);
      }
      verts := verts + [rec.value.pos];
      normals := normals + [rec.value.normal];
      uv := uv + [rec.value.uv];
    } else if kw == "IDX10" || kw == "IDX" {
      var idx := Ints(line[1..], ctx);
      if idx.Err? {
        return Err(idx.error);
      }
      faces := faces + idx.value;
    } else if kw == "ANIM_begin" {
      animNesting := animNesting + 1;
      aTrans := aTrans + [Origin];
    } else if kw == "ANIM_trans" {
      var t := ReadTrans(line, ctx);
      if t.Err? {
        return Err(t.error);
      }
      if !PyIndexOk(animNesting, |aTrans|) {
        return Err(IndexError);
      }
      aTrans := aTrans[PyIndex(animNesting, |aTrans|) := t.value];
      originTemp := originTemp.Add(t.value);
      transAvailable := true;
    } else if kw == "ANIM_end" {
      animNesting := animNesting - 1;
      if |aTrans| == 0 {
        return Err(IndexError);
      }
      originTemp := originTemp.Sub(aTrans[|aTrans| - 1]);
      aTrans := aTrans[..|aTrans| - 1];
      if animNesting == 0 {
        transAvailable := false;
      }
    } else if kw == "TRIS" {
      var objOrigin := ctx.origo;
      var off := IntAt(line, 1, ctx);
      if off.Err? {
        return Err(off.error);
      }
      var cnt := IntAt(line, 2, ctx);
      if cnt.Err? {
        return Err(cnt.error);
      }
      var objLst := PySlice(faces, off.value, off.value + cnt.value);
      if transAvailable {
        objOrigin := originTemp;
      }
      objects := objects + [TrisObject(objOrigin, objLst)];
    }
    r := Ok(ParserState(verts, normals, uv, faces, animNesting, aTrans, originTemp,
                        transAvailable, objects, textures));
  }

  // ---------------------------------------------------------------------
  // Properties of one line

  lemma UnhandledLineChangesNothing(st: ParserState, line: seq<string>, ctx: Context)
    requires |line| == 0 || !Handled(line[0])
    ensures StepLine(st, line, ctx) == Ok(st)
  {
  }

  /** A TEXTURE, TEXTURE_NORMAL or TEXTURE_LIT line records the texture at
      the path TexturePath picks when Blender can load that file, raises
      RuntimeError when it cannot, and IndexError without a file name. */
  lemma TextureLoadsOrFails(st: ParserState, line: seq<string>, ctx: Context)
    requires |line| >= 1 && TextureKindOf(line[0]).Some?
    ensures |line| == 1 ==> StepLine(st, line, ctx) == Err(IndexError)
    ensures |line| >= 2 ==>
      var path := TexturePath(ctx.objPath, line[1], ctx.fileExists);
      && (ctx.imageLoads(path) <==> StepLine(st, line, ctx).Ok?)
      && (ctx.imageLoads(path) ==>
            StepLine(st, line, ctx) == Ok(st.(textures := st.textures + [Texture(TextureKindOf(line[0]).value, path)])))
      && (!ctx.imageLoads(path) ==> StepLine(st, line, ctx) == Err(RuntimeError))
  {
  }

  lemma VTAppendsVertex(st: ParserState, line: seq<string>, ctx: Context, x: real, y: real, z: real,
                        nx: real, ny: real, nz: real, u: real, v: real)
    requires |line| >= 9 && line[0] == "VT"
    requires ctx.toFloat(line[1]) == Some(x) && ctx.toFloat(line[2]) == Some(y) && ctx.toFloat(line[3]) == Some(z)
    requires ctx.toFloat(line[4]) == Some(nx) && ctx.toFloat(line[5]) == Some(ny) && ctx.toFloat(line[6]) == Some(nz)
    requires ctx.toFloat(line[7]) == Some(u) && ctx.toFloat(line[8]) == Some(v)
    ensures StepLine(st, line, ctx) ==
      Ok(st.(verts := st.verts + [Vec3(x, -z, y)],
             normals := st.normals + [Vec3(nx, -nz, ny)],
             uvs := st.uvs + [UV(u, v)]))
  {
  }

  /** A VT line with fewer than nine tokens fails. */
  lemma ShortVTFails(st: ParserState, line: seq<string>, ctx: Context)
    requires 1 <= |line| < 9 && line[0] == "VT"
    ensures StepLine(st, line, ctx).Err?
  {
  }

  lemma IdxAppendsIndices(st: ParserState, line: seq<string>, ctx: Context)
    requires |line| >= 1 && (line[0] == "IDX" || line[0] == "IDX10")
    ensures var r := StepLine(st, line, ctx);
      r.Ok? <==> (forall k :: 1 <= k < |line| ==> ctx.toInt(line[k]).Some?)
    ensures var r := StepLine(st, line, ctx);
      r.Ok? ==> (r.value == st.(faces := st.faces + r.value.faces[|st.faces|..])
             && |r.value.faces| == |st.faces| + |line| - 1
             && r.value.faces[..|st.faces|] == st.faces
             && forall k :: 1 <= k < |line| ==> ctx.toInt(line[k]) == Some(r.value.faces[|st.faces| + k - 1]))
  {
    IntsOk(line[1..], ctx);
    var r := StepLine(st, line, ctx);
    if r.Ok? {
      var idx := Ints(line[1..], ctx).value;
      assert r.value.faces == st.faces + idx;
      assert r.value.faces[|st.faces|..] == idx;
      forall k | 1 <= k < |line|
        ensures ctx.toInt(line[k]) == Some(r.value.faces[|st.faces| + k - 1])
      {
        assert line[1..][k - 1] == line[k];
      }
    }
  }

  lemma {:induction false} IntsOk(tokens: seq<string>, ctx: Context)
    ensures Ints(tokens, ctx).Ok? <==> forall k :: 0 <= k < |tokens| ==> ctx.toInt(tokens[k]).Some?
    decreases |tokens|
  {
    if tokens != [] {
      IntsOk(tokens[1..], ctx);
      assert forall k :: 1 <= k < |tokens| ==> tokens[1..][k - 1] == tokens[k];
    }
  }

  lemma AnimBeginPushes(st: ParserState, line: seq<string>, ctx: Context)
    requires |line| >= 1 && line[0] == "ANIM_begin"
    ensures StepLine(st, line, ctx) == Ok(st.(nesting := st.nesting + 1, aTrans := st.aTrans + [Origin]))
  {
  }

  lemma AnimEndPops(st: ParserState, line: seq<string>, ctx: Context)
    requires |line| >= 1 && line[0] == "ANIM_end"
    ensures |st.aTrans| == 0 <==> StepLine(st, line, ctx) == Err(IndexError)
    ensures |st.aTrans| > 0 ==>
      var top := st.aTrans[|st.aTrans| - 1];
      StepLine(st, line, ctx) ==
        Ok(st.(nesting := st.nesting - 1,
               aTrans := st.aTrans[..|st.aTrans| - 1],
               originTemp := Vec3(st.originTemp.x - top.x, st.originTemp.y - top.y, st.originTemp.z - top.z),
               transAvailable := st.nesting != 1 && st.transAvailable))
  {
  }

  lemma AnimTransSetsTop(st: ParserState, line: seq<string>, ctx: Context, t1: real, t2: real, t3: real)
    requires StackAligned(st) && st.nesting >= 0
    requires |line| >= 4 && line[0] == "ANIM_trans"
    requires ctx.toFloat(line[1]) == Some(t1) && ctx.toFloat(line[2]) == Some(t2) && ctx.toFloat(line[3]) == Some(t3)
    ensures StepLine(st, line, ctx) ==
      Ok(st.(aTrans := st.aTrans[..|st.aTrans| - 1] + [Vec3(t1, -t3, t2)],
             originTemp := Vec3(st.originTemp.x + t1, st.originTemp.y - t3, st.originTemp.z + t2),
             transAvailable := true))
  {
    var t := Vec3(t1, -t3, t2);
    assert st.aTrans[st.nesting := t] == st.aTrans[..|st.aTrans| - 1] + [t];
  }

  /** With the stack emptied by an unmatched ANIM_end, ANIM_trans fails. */
  lemma AnimTransOnEmptyStackFails(st: ParserState, line: seq<string>, ctx: Context)
    requires StackAligned(st) && st.nesting < 0
    requires |line| >= 4 && line[0] == "ANIM_trans"
    requires forall k :: 1 <= k <= 3 ==> ctx.toFloat(line[k]).Some?
    ensures StepLine(st, line, ctx) == Err(IndexError)
  {
  }

  lemma StepKeepsInvariants(st: ParserState, line: seq<string>, ctx: Context)
    requires StackAligned(st) && ListsAligned(st)
    requires StepLine(st, line, ctx).Ok?
    ensures StackAligned(StepLine(st, line, ctx).value)
    ensures ListsAligned(StepLine(st, line, ctx).value)
  {
  }

  lemma {:induction false} RunKeepsInvariants(st: ParserState, lines: seq<seq<string>>, ctx: Context)
    requires StackAligned(st) && ListsAligned(st)
    requires RunLines(st, lines, ctx).Ok?
    ensures StackAligned(RunLines(st, lines, ctx).value)
    ensures ListsAligned(RunLines(st, lines, ctx).value)
    decreases |lines|
  {
    if lines != [] {
      StepKeepsInvariants(st, lines[0], ctx);
      RunKeepsInvariants(StepLine(st, lines[0], ctx).value, lines[1..], ctx);
    }
  }

  /** Every import that succeeds yields as many normals and uvs as vertices. */
  lemma ImportedListsAligned(text: seq<string>, ctx: Context)
    requires Import(text, ctx).Ok?
    ensures |Import(text, ctx).value.verts| == |Import(text, ctx).value.normals| == |Import(text, ctx).value.uvs|
  {
    RunKeepsInvariants(Initial, TokenLines(text), ctx);
  }

  /** ANIM_begin, one ANIM_trans, ANIM_end: origin, stack and depth come back. */
  lemma BalancedAnimRestores(st: ParserState, ctx: Context, b: seq<string>, t: seq<string>, e: seq<string>)
    requires StackAligned(st) && st.nesting >= 0
    requires |b| >= 1 && b[0] == "ANIM_begin"
    requires |e| >= 1 && e[0] == "ANIM_end"
    requires |t| >= 4 && t[0] == "ANIM_trans" && forall k :: 1 <= k <= 3 ==> ctx.toFloat(t[k]).Some?
    ensures var r := RunLines(st, [b, t, e], ctx);
      && r.Ok?
      && r.value.aTrans == st.aTrans
      && r.value.nesting == st.nesting
      && r.value.originTemp == st.originTemp
      && r.value.transAvailable == (st.nesting != 0)
  {
    var s1 := StepLine(st, b, ctx).value;
    assert s1 == st.(nesting := st.nesting + 1, aTrans := st.aTrans + [Origin]);
    AnimTransSetsTop(s1, t, ctx, ctx.toFloat(t[1]).value, ctx.toFloat(t[2]).value, ctx.toFloat(t[3]).value);
    var s2 := StepLine(s1, t, ctx).value;
    assert s2.aTrans[..|s2.aTrans| - 1] == st.aTrans;
    var s3 := StepLine(s2, e, ctx).value;
    RunLinesStep(st, [b, t, e], 0, ctx);
    RunLinesStep(s1, [b, t, e], 1, ctx);
    RunLinesStep(s2, [b, t, e], 2, ctx);
    assert [b, t, e][3..] == [];
  }

  /** TRIS off cnt records the Python slice faces[off:off+cnt] -- each bound
      counted from the end when negative and clamped to the list -- placed at
      the running ANIM origin when a translation is active, else at the
      import origin. */
  lemma TrisRecordsSlice(st: ParserState, line: seq<string>, ctx: Context, off: int, cnt: int)
    requires |line| >= 3 && line[0] == "TRIS"
    requires ctx.toInt(line[1]) == Some(off) && ctx.toInt(line[2]) == Some(cnt)
    ensures var n := |st.faces|;
      var lo := if off < 0 then (if off + n < 0 then 0 else off + n) else (if off < n then off else n);
      var end := off + cnt;
      var hi := if end < 0 then (if end + n < 0 then 0 else end + n) else (if end < n then end else n);
      StepLine(st, line, ctx) ==
        Ok(st.(objects := st.objects +
          [TrisObject(if st.transAvailable then st.originTemp else ctx.origo,
                      if lo < hi then st.faces[lo..hi] else [])]))
  {
    var n := |st.faces|;
    assert PySlice(st.faces, off, off + cnt) ==
      (if SliceBound(off, n) < SliceBound(off + cnt, n) then st.faces[SliceBound(off, n)..SliceBound(off + cnt, n)] else []);
  }

  /** The cases of TRIS's slice: non-negative bounds are clamped to the
      list; a window of negative bounds counts from the end; "TRIS -c c"
      ends at index 0 and records nothing; a count of zero or less records
      nothing unless it carries the end below 0. */
  lemma TrisSliceCases(faces: seq<int>, off: int, cnt: int)
    ensures 0 <= off && 0 <= cnt ==>
      var lo := if off < |faces| then off else |faces|;
      var hi := if off + cnt < |faces| then off + cnt else |faces|;
      PySlice(faces, off, off + cnt) == faces[lo..hi]
    ensures -|faces| <= off && 0 <= cnt && off + cnt < 0 ==>
      PySlice(faces, off, off + cnt) == faces[|faces| + off..|faces| + off + cnt]
    ensures off < 0 && off + cnt == 0 ==> PySlice(faces, off, off + cnt) == []
    ensures 0 <= off + cnt && cnt <= 0 ==> PySlice(faces, off, off + cnt) == []
  {
  }

  lemma {:induction false} TriplesSpec(s: seq<int>)
    ensures |Triples(s)| == |s| / 3
    ensures forall k :: 0 <= k < |s| / 3 ==> Triples(s)[k] == (s[3 * k], s[3 * k + 1], s[3 * k + 2])
    decreases |s|
  {
    if |s| >= 3 {
      TriplesSpec(s[3..]);
      forall k | 1 <= k < |s| / 3
        ensures Triples(s)[k] == (s[3 * k], s[3 * k + 1], s[3 * k + 2])
      {
        assert Triples(s)[k] == Triples(s[3..])[k - 1];
        assert s[3..][3 * (k - 1)] == s[3 * k];
      }
    }
  }

  /** Meshes are created in TRIS order and named OBJ0, OBJ1, ... */
  lemma MeshesInTrisOrder(objects: seq<TrisObject>, k: nat)
    requires k < |objects|
    ensures |MeshesOf(objects)| == |objects|
    ensures MeshesOf(objects)[k].name == "OBJ" + NatToString(k)
    ensures MeshesOf(objects)[k].origin == objects[k].origin
    ensures |MeshesOf(objects)[k].tris| == |objects[k].indices| / 3
  {
    TriplesSpec(objects[k].indices);
  }
}
