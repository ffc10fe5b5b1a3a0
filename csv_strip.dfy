/** What the KML and GEO CSV importers share: the scene's file list and its
    refresh, the row loop that turns every data row into a ground vertex
    and an elevated vertex, the quad strip over those vertex pairs, and the
    Select operator that builds one mesh per enabled file. */
module CsvStrip {
  import opened Common

  // ---------------------------------------------------------------------
  // The file list

  /** One entry of the scene's file collection; new entries are disabled. */
  datatype FileItem = FileItem(name: string, enabled: bool)

  /** The scene's CollectionProperty of files. */
  class FileList {
    var items: seq<FileItem>

    constructor()
      ensures items == []
    {
      items := [];
    }
  }

  /** The directory entries with the wanted extension, in listing order. */
  function Matching(entries: seq<string>, suffix: string): seq<FileItem>
  {
    if entries == [] then []
    else
      var init := Matching(entries[..|entries| - 1], suffix);
      var e := entries[|entries| - 1];
      if EndsWith(e, suffix) then init + [FileItem(e, false)] else init
  }

  /** The list holds exactly the matching entries, in order, all disabled. */
  lemma {:induction false} MatchingSpec(entries: seq<string>, suffix: string)
    ensures forall k :: 0 <= k < |Matching(entries, suffix)| ==> !Matching(entries, suffix)[k].enabled
    ensures forall e :: FileItem(e, false) in Matching(entries, suffix) <==> e in entries && EndsWith(e, suffix)
    ensures |Matching(entries, suffix)| <= |entries|
  {
    if entries != [] {
      var init := entries[..|entries| - 1];
      MatchingSpec(init, suffix);
      assert entries == init + [entries[|entries| - 1]];
    }
  }

  /** Matching is a filter that keeps listing order: the matches of a
      joined listing are the matches of each part, in turn. */
  lemma {:induction false} MatchingAppend(a: seq<string>, b: seq<string>, suffix: string)
    ensures Matching(a + b, suffix) == Matching(a, suffix) + Matching(b, suffix)
  {
    if b == [] {
      assert a + b == a;
    } else {
      var init, e := b[..|b| - 1], b[|b| - 1];
      var tail := if EndsWith(e, suffix) then [FileItem(e, false)] else [];
      assert Matching(b, suffix) == Matching(init, suffix) + tail;
      assert Matching(a + b, suffix) == Matching(a + init, suffix) + tail by {
        assert (a + b)[..|a + b| - 1] == a + init;
        assert (a + b)[|a + b| - 1] == e;
      }
      MatchingAppend(a, init, suffix);
    }
  }

  /** A single entry is listed iff it has the suffix. */
  lemma MatchingSingle(e: string, suffix: string)
    ensures Matching([e], suffix) == if EndsWith(e, suffix) then [FileItem(e, false)] else []
  {
    assert [e][..0] == [];
  }

  /** The refresh handler: clear the list, then add every entry of the
      directory listing (None: listing failed, caught) ending in suffix. */
  method Refresh(list: FileList, listing: Option<seq<string>>, suffix: string)
    modifies list
    ensures list.items == if listing.None? then [] else Matching(listing.value, suffix)
  {
    list.items := [];
    if listing.None? {
      return;
    }
    var entries := listing.value;
    for k := 0 to |entries|
      invariant list.items == Matching(entries[..k], suffix)
    {
      assert entries[..k + 1][..k] == entries[..k];
      if EndsWith(entries[k], suffix) {
        list.items := list.items + [FileItem(entries[k], false)];
      }
    }
    assert entries[..|entries|] == entries;
  }

  // ---------------------------------------------------------------------
  // Rows to vertex pairs

  /** A vertex as to_xyz(radians(lat), radians(lon), radius) would place it;
      the trigonometry is not modelled. */
  datatype GeoVertex = GeoVertex(lat: real, lon: real, radius: real)

  /** What one data row yields: position, ground radius, elevated radius. */
  datatype Sample = Sample(lat: real, lon: real, ground: real, alt: real)

  /** Two vertices per sample: ground first, then elevated. */
  function PairVerts(samples: seq<Sample>): seq<GeoVertex>
  {
    if samples == [] then []
    else
      var s := samples[|samples| - 1];
      PairVerts(samples[..|samples| - 1]) + [GeoVertex(s.lat, s.lon, s.ground), GeoVertex(s.lat, s.lon, s.alt)]
  }

  lemma {:induction false} PairVertsShape(samples: seq<Sample>)
    ensures |PairVerts(samples)| == 2 * |samples|
    ensures forall j :: 0 <= j < |samples| ==>
      && PairVerts(samples)[2 * j] == GeoVertex(samples[j].lat, samples[j].lon, samples[j].ground)
      && PairVerts(samples)[2 * j + 1] == GeoVertex(samples[j].lat, samples[j].lon, samples[j].alt)
  {
    if samples != [] {
      PairVertsShape(samples[..|samples| - 1]);
    }
  }

  /** A csv.DictReader field: column k of the row, None past its end. */
  function Column(cols: seq<string>, k: nat): Option<string>
  {
    if k < |cols| then Some(cols[k]) else None
  }

  /** float(v): TypeError for None, ValueError for text that is not a
      number (toFloat gives None). */
  function Number(v: Option<string>, toFloat: string -> Option<real>): Result<real>
  {
    match v
    case None => Err(TypeError)
    case Some(t) => if toFloat(t).None? then Err(ValueError) else Ok(toFloat(t).value)
  }

  /** The samples of the data rows: csv.DictReader skips empty rows, the
      loop skips the first row it is given, and a row that does not parse
      stops the import. */
  function Samples(rows: seq<seq<string>>, parse: seq<string> -> Result<Sample>): Result<seq<Sample>>
  {
    SamplesFrom(rows, true, parse)
  }

  function SamplesFrom(rows: seq<seq<string>>, first: bool, parse: seq<string> -> Result<Sample>): Result<seq<Sample>>
  {
    if rows == [] then Ok([])
    else if rows[0] == [] then SamplesFrom(rows[1..], first, parse)
    else if first then SamplesFrom(rows[1..], false, parse)
    else
      var s :- parse(rows[0]);
      var rest :- SamplesFrom(rows[1..], false, parse);
      Ok([s] + rest)
  }

  /** The `for row in csv_reader` loop with its `first` flag. */
  method ReadRows(rows: seq<seq<string>>, parse: seq<string> -> Result<Sample>) returns (r: Result<seq<GeoVertex>>)
    ensures r.Ok? <==> Samples(rows, parse).Ok?
    ensures r.Ok? ==> r.value == PairVerts(Samples(rows, parse).value)
    ensures r.Err? ==> r.error == Samples(rows, parse).error
  {
    var verts := [];
    ghost var done := [];
    var first := true;
    assert rows[0..] == rows;
    assert Samples(rows, parse) == Prefixed(done, SamplesFrom(rows, first, parse)) by {
      var r := SamplesFrom(rows, first, parse);
      if r.Ok? {
        assert [] + r.value == r.value;
      }
    }
    for k := 0 to |rows|
      invariant verts == PairVerts(done)
      invariant Samples(rows, parse) == Prefixed(done, SamplesFrom(rows[k..], first, parse))
    {
      var row := rows[k];
      assert rows[k..][0] == row && rows[k..][1..] == rows[k + 1..];
      if row == [] {
        continue;
      }
      if first {
        first := false;
      } else {
        var s := parse(row);
        if s.Err? {
          return Err(s.error);
        }
        var sample := s.value;
        PrefixedCons(done, sample, SamplesFrom(rows[k + 1..], false, parse));
        verts := verts + [GeoVertex(sample.lat, sample.lon, sample.ground)];
        verts := verts + [GeoVertex(sample.lat, sample.lon, sample.alt)];
        assert (done + [sample])[..|done|] == done;
        done := done + [sample];
      }
    }
    assert rows[|rows|..] == [];
    assert done + [] == done;
    r := Ok(verts);
  }

  /** Samples already read in front of what the rest of the rows yield. */
  function Prefixed(done: seq<Sample>, r: Result<seq<Sample>>): Result<seq<Sample>>
  {
    match r
    case Ok(rest) => Ok(done + rest)
    case Err(e) => Err(e)
  }

  lemma PrefixedCons(done: seq<Sample>, s: Sample, r: Result<seq<Sample>>)
    ensures Prefixed(done, if r.Ok? then Ok([s] + r.value) else Err(r.error)) == Prefixed(done + [s], r)
  {
    if r.Ok? {
      assert done + ([s] + r.value) == done + [s] + r.value;
    }
  }

  // ---------------------------------------------------------------------
  // The quad strip

  /** The quad of loop step i: [i-3, i-2, i, i-1]. */
  function Quad(i: int): seq<int>
  {
    [i - 3, i - 2, i, i - 1]
  }

  /** The first k quads, for i = 3, 5, 7, ... */
  function StripQuads(k: nat): seq<seq<int>>
  {
    if k == 0 then [] else StripQuads(k - 1) + [Quad(2 * k + 1)]
  }

  /** How many values range(3, n - 1, 2) yields. */
  function QuadCount(n: int): nat
  {
    if n - 1 > 3 then (n - 3) / 2 else 0
  }

  /** `for i in range(3, len(bm.verts) - 1, 2)`. */
  method StripFaces(n: int) returns (faces: seq<seq<int>>)
    ensures faces == StripQuads(QuadCount(n))
  {
    faces := [];
    var i := 3;
    while i < n - 1
      invariant i % 2 == 1 && i >= 3
      invariant (i - 3) / 2 <= QuadCount(n)
      invariant faces == StripQuads((i - 3) / 2)
    {
      faces := faces + [[i - 3, i - 2, i, i - 1]];
      i := i + 2;
    }
  }

  /** With k vertex pairs: max(0, k - 2) quads, quad j joining pair j to pair
      j + 1, every index below 2k, and the last pair in no quad. */
  lemma {:induction false} StripShape(k: nat)
    ensures |StripQuads(QuadCount(2 * k))| == if k >= 2 then k - 2 else 0
    ensures forall j :: 0 <= j < |StripQuads(QuadCount(2 * k))| ==>
      StripQuads(QuadCount(2 * k))[j] == [2 * j, 2 * j + 1, 2 * j + 3, 2 * j + 2]
    ensures forall j, m :: 0 <= j < |StripQuads(QuadCount(2 * k))| && 0 <= m < 4 ==>
      0 <= StripQuads(QuadCount(2 * k))[j][m] < 2 * k - 2
  {
    StripQuadsShape(QuadCount(2 * k));
  }

  lemma {:induction false} StripQuadsShape(q: nat)
    ensures |StripQuads(q)| == q
    ensures forall j :: 0 <= j < q ==> StripQuads(q)[j] == [2 * j, 2 * j + 1, 2 * j + 3, 2 * j + 2]
  {
    if q > 0 {
      StripQuadsShape(q - 1);
    }
  }

  // ---------------------------------------------------------------------
  // The Select operator

  /** The mesh a file yields: the vertex pairs and the strip over them. */
  datatype GeoMesh = GeoMesh(verts: seq<GeoVertex>, faces: seq<seq<int>>)

  /** A created object: its name (the file name) and mesh. */
  datatype NamedMesh = NamedMesh(name: string, mesh: GeoMesh)

  function FileMesh(rows: seq<seq<string>>, parse: seq<string> -> Result<Sample>): Result<GeoMesh>
  {
    var samples :- Samples(rows, parse);
    var verts := PairVerts(samples);
    Ok(GeoMesh(verts, StripQuads(QuadCount(|verts|))))
  }

  /** The meshes of the enabled items, in list order. The path opened is the
      directory string and the file name concatenated as they are; read
      gives a file's CSV rows, None when it cannot be opened. */
  function SelectSpec(items: seq<FileItem>, dir: string, read: string -> Option<seq<seq<string>>>,
                      parse: seq<string> -> Result<Sample>): Result<seq<NamedMesh>>
  {
    if items == [] then Ok([])
    else
      var init :- SelectSpec(items[..|items| - 1], dir, read, parse);
      var item := items[|items| - 1];
      if !item.enabled then Ok(init)
      else if read(dir + item.name).None? then Err(OSError)
      else
        var m :- FileMesh(read(dir + item.name).value, parse);
        Ok(init + [NamedMesh(item.name, m)])
  }

  /** The names of the enabled items, in list order. */
  function EnabledNames(items: seq<FileItem>): seq<string>
  {
    if items == [] then []
    else
      var init := EnabledNames(items[..|items| - 1]);
      if items[|items| - 1].enabled then init + [items[|items| - 1].name] else init
  }

  function MeshNames(ms: seq<NamedMesh>): seq<string>
  {
    if ms == [] then [] else MeshNames(ms[..|ms| - 1]) + [ms[|ms| - 1].name]
  }

  /** A successful Select makes one object per enabled file, named after
      it, in list order; disabled files are never read. */
  lemma {:induction false} SelectNames(items: seq<FileItem>, dir: string, read: string -> Option<seq<seq<string>>>,
                                       parse: seq<string> -> Result<Sample>)
    requires SelectSpec(items, dir, read, parse).Ok?
    ensures MeshNames(SelectSpec(items, dir, read, parse).value) == EnabledNames(items)
  {
    if items != [] {
      var init := items[..|items| - 1];
      SelectNames(init, dir, read, parse);
      var ms := SelectSpec(init, dir, read, parse).value;
      var item := items[|items| - 1];
      if item.enabled {
        var m := FileMesh(read(dir + item.name).value, parse).value;
        assert (ms + [NamedMesh(item.name, m)])[..|ms|] == ms;
      }
    }
  }

  /** One file: the row loop, then the face loop. */
  method ImportFile(rows: seq<seq<string>>, parse: seq<string> -> Result<Sample>) returns (r: Result<GeoMesh>)
    ensures r == FileMesh(rows, parse)
  {
    var verts := ReadRows(rows, parse);
    if verts.Err? {
      return Err(verts.error);
    }
    var faces := StripFaces(|verts.value|);
    r := Ok(GeoMesh(verts.value, faces));
  }

  /** The Select operator's loop over the file list. */
  method Select(list: FileList, dir: string, read: string -> Option<seq<seq<string>>>,
                parse: seq<string> -> Result<Sample>) returns (r: Result<seq<NamedMesh>>)
    ensures r == SelectSpec(list.items, dir, read, parse)
  {
    var items := list.items;
    var meshes := [];
    for k := 0 to |items|
      invariant SelectSpec(items[..k], dir, read, parse) == Ok(meshes)
    {
      assert items[..k + 1][..k] == items[..k];
      var item := items[k];
      if item.enabled {
        var rows := read(dir + item.name);
        if rows.None? {
          SelectStops(items, k + 1, dir, read, parse);
          return Err(OSError);
        }
        var m := ImportFile(rows.value, parse);
        if m.Err? {
          SelectStops(items, k + 1, dir, read, parse);
          return Err(m.error);
        }
        meshes := meshes + [NamedMesh(item.name, m.value)];
      }
    }
    assert items[..|items|] == items;
    r := Ok(meshes);
  }

  /** Once a prefix fails, the whole list fails the same way. */
  lemma {:induction false} SelectStops(items: seq<FileItem>, k: nat, dir: string, read: string -> Option<seq<seq<string>>>,
                                       parse: seq<string> -> Result<Sample>)
    requires k <= |items|
    requires SelectSpec(items[..k], dir, read, parse).Err?
    ensures SelectSpec(items, dir, read, parse) == SelectSpec(items[..k], dir, read, parse)
    decreases |items| - k
  {
    if k < |items| {
      assert items[..k + 1][..k] == items[..k];
      SelectStops(items, k + 1, dir, read, parse);
    } else {
      assert items[..k] == items;
    }
  }

  /** Every face of an imported mesh indexes existing vertices, and the
      mesh has two vertices per data row. */
  lemma FileMeshValid(rows: seq<seq<string>>, parse: seq<string> -> Result<Sample>)
    requires FileMesh(rows, parse).Ok?
    ensures var m := FileMesh(rows, parse).value;
      && |m.verts| == 2 * |Samples(rows, parse).value|
      && forall j :: 0 <= j < |m.faces| ==> |m.faces[j]| == 4 && forall c :: 0 <= c < 4 ==> 0 <= m.faces[j][c] < |m.verts|
  {
    var samples := Samples(rows, parse).value;
    PairVertsShape(samples);
    StripShape(|samples|);
  }
}
