/** The GEO-track CSV importer: the Position column "lat,lon" and the
    Altitude column become a ground vertex at radius 10 and a vertex at
    radius altitude / 500000 + 10, joined into a quad strip. */
module GeoToXyz {
  import opened Common
  import opened CsvStrip

  /** The extension the refresh keeps. */
  const Suffix := ".csv"

  /** ktxgeotoxyz_init. */
  method Refresh(list: FileList, listing: Option<seq<string>>)
    modifies list
    ensures list.items == if listing.None? then [] else Matching(listing.value, Suffix)
  {
    CsvStrip.Refresh(list, listing, Suffix);
  }

  /** The fixed ground radius. */
  const Ground: real := 10.0

  /** altitude / 500000 + 10, nudged to 10.00001 when it equals 10. */
  function GeoAltitude(a: real): real
  {
    var alt := a / 500000.0 + Ground;
    if alt == Ground then 10.00001 else alt
  }

  /** The elevated vertex never coincides with the ground vertex. */
  lemma GeoAltitudeAboveGround(a: real)
    ensures GeoAltitude(a) != Ground
    ensures a == 0.0 ==> GeoAltitude(a) == 10.00001
    ensures a != 0.0 ==> GeoAltitude(a) == a / 500000.0 + Ground
  {
  }

  /** One row; the field names are Timestamp, UTC, Callsign, Position,
      Altitude, Speed, Direction in column order. A missing Position is None
      (AttributeError on split), a Position without a comma has no second
      field (IndexError). */
  function GeoSample(cols: seq<string>, toFloat: string -> Option<real>): Result<Sample>
  {
    var position := Column(cols, 3);
    if position.None? then Err(AttributeError)
    else
      var posdata := Split(position.value, ',');
      var lat :- Number(Some(posdata[0]), toFloat);
      if |posdata| < 2 then Err(IndexError)
      else
        var lon :- Number(Some(posdata[1]), toFloat);
        var a :- Number(Column(cols, 4), toFloat);
        Ok(Sample(lat, lon, Ground, GeoAltitude(a)))
  }

  function GeoParse(toFloat: string -> Option<real>): seq<string> -> Result<Sample>
  {
    cols => GeoSample(cols, toFloat)
  }

  /** "la,lo" in the Position column reads latitude from la and longitude
      from lo; a Position without a comma fails once la has been read. */
  lemma GeoPosition(cols: seq<string>, la: string, lo: string, toFloat: string -> Option<real>)
    requires |cols| >= 5 && cols[3] == la + [','] + lo && ',' !in la && ',' !in lo
    requires toFloat(la).Some? && toFloat(lo).Some? && toFloat(cols[4]).Some?
    ensures GeoSample(cols, toFloat) == Ok(Sample(toFloat(la).value, toFloat(lo).value, Ground, GeoAltitude(toFloat(cols[4]).value)))
  {
    SplitAppend(la, ',', lo);
    SplitNoSep(lo, ',');
  }

  lemma GeoPositionWithoutComma(cols: seq<string>, toFloat: string -> Option<real>)
    requires |cols| >= 4 && ',' !in cols[3] && toFloat(cols[3]).Some?
    ensures GeoSample(cols, toFloat) == Err(IndexError)
  {
    SplitNoSep(cols[3], ',');
  }

  /** KTXGEOTOXYZ_OT_Select.execute. */
  method Select(list: FileList, dir: string, read: string -> Option<seq<seq<string>>>,
                toFloat: string -> Option<real>) returns (r: Result<seq<NamedMesh>>)
    ensures r == SelectSpec(list.items, dir, read, GeoParse(toFloat))
  {
    r := CsvStrip.Select(list, dir, read, GeoParse(toFloat));
  }
}
