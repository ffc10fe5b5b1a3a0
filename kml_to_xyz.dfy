/** The KML-track CSV importer: rows of longitude, latitude and altitude
    become a ground vertex on the earth sphere and a vertex raised by the
    scaled altitude, joined into a quad strip. */
module KmlToXyz {
  import opened Common
  import opened CsvStrip

  /** The extension the refresh keeps. */
  const Suffix := ".kml"

  /** ktxkmltoxyz_init. */
  method Refresh(list: FileList, listing: Option<seq<string>>)
    modifies list
    ensures list.items == if listing.None? then [] else Matching(listing.value, Suffix)
  {
    CsvStrip.Refresh(list, listing, Suffix);
  }

  /** The elevated radius: altitude / height_scale + earth_size, nudged by
      0.00001 when it would coincide with the ground. */
  function Altitude(a: real, heightScale: real, earth: real): Result<real>
  {
    if heightScale == 0.0 then Err(ZeroDivisionError)
    else
      var alt := a / heightScale + earth;
      Ok(if alt == earth then earth + 0.00001 else alt)
  }

  /** The elevated vertex never coincides with the ground vertex: it is
      a / h + e for a non-zero altitude and e + 0.00001 for a zero one. */
  lemma AltitudeAboveGround(a: real, heightScale: real, earth: real)
    requires heightScale != 0.0
    ensures Altitude(a, heightScale, earth).Ok?
    ensures Altitude(a, heightScale, earth).value != earth
    ensures a == 0.0 ==> Altitude(a, heightScale, earth).value == earth + 0.00001
    ensures a != 0.0 ==> Altitude(a, heightScale, earth).value == a / heightScale + earth
  {
    if a != 0.0 {
      assert a / heightScale != 0.0;
    }
  }

  /** One row; the field names are Longitude, Latitude, Altitude in column
      order, read as Latitude, Longitude, Altitude. */
  function KmlSample(cols: seq<string>, heightScale: real, earth: real, toFloat: string -> Option<real>): Result<Sample>
  {
    var lat :- Number(Column(cols, 1), toFloat);
    var lon :- Number(Column(cols, 0), toFloat);
    var a :- Number(Column(cols, 2), toFloat);
    var alt :- Altitude(a, heightScale, earth);
    Ok(Sample(lat, lon, earth, alt))
  }

  function KmlParse(heightScale: real, earth: real, toFloat: string -> Option<real>): seq<string> -> Result<Sample>
  {
    cols => KmlSample(cols, heightScale, earth, toFloat)
  }

  /** A full row of numbers gives latitude from the second column,
      longitude from the first, ground radius earth_size; a short row raises
      TypeError. */
  lemma KmlColumns(lo: string, la: string, al: string, heightScale: real, earth: real, toFloat: string -> Option<real>)
    requires toFloat(lo).Some? && toFloat(la).Some? && toFloat(al).Some? && heightScale != 0.0
    ensures var r := KmlSample([lo, la, al], heightScale, earth, toFloat);
      && r.Ok?
      && r.value.lat == toFloat(la).value && r.value.lon == toFloat(lo).value
      && r.value.ground == earth && r.value.alt != earth
    ensures KmlSample([lo, la], heightScale, earth, toFloat) == Err(TypeError)
  {
    AltitudeAboveGround(toFloat(al).value, heightScale, earth);
  }

  /** KTXKMLTOXYZ_OT_Select.execute. */
  method Select(list: FileList, dir: string, read: string -> Option<seq<seq<string>>>,
                heightScale: real, earth: real, toFloat: string -> Option<real>) returns (r: Result<seq<NamedMesh>>)
    ensures r == SelectSpec(list.items, dir, read, KmlParse(heightScale, earth, toFloat))
  {
    r := CsvStrip.Select(list, dir, read, KmlParse(heightScale, earth, toFloat));
  }
}
