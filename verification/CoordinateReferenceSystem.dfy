/**
 * The level's coordinate reference system (UCoordinateReferenceSystem): EPSG
 * validation, the UTM zone rule, the cropped-extents string, the conversion of a
 * projected point into engine units, and the OGR error table.
 */
module CoordinateReferenceSystem {
  import opened Common
  import opened LandscapingStructs

  /** Bounds of the accepted EPSG range (exclusive). */
  const MinEpsg: int := 1000
  const MaxEpsg: int := 32768

  predicate IsEpsgIDValid(epsg: int)
  {
    if epsg == 0 then false
    else MinEpsg < epsg < MaxEpsg
  }

  lemma EpsgValidRange(epsg: int)
    ensures IsEpsgIDValid(epsg) <==> 1000 < epsg < 32768
  {
  }

  // ---------------------------------------------------------------- UTM zones

  /** UTM zone number: floor((Lon + 180) / 6) with C++'s remainder by 60, plus one. */
  function UtmZone(lon: real): int
  {
    TruncRem(((lon + 180.0) / 6.0).Floor, 60) + 1
  }

  /**
   * EPSG code of the WGS 84 / UTM zone: "326" (north, Lat >= 0) or "327" (south),
   * then the zone with a leading "0" below ten, read back as an integer. A negative
   * zone (longitudes below -180) stops that integer parse at the minus sign.
   */
  function GetUTMAuthorityID(lon: real, lat: real): int
  {
    var utm := UtmZone(lon);
    var prefix := if lat >= 0.0 then 326 else 327;
    if utm >= 0 then prefix * 100 + utm else prefix * 10
  }

  /** For longitudes in [-180, 180] the zone lies in 1..60. */
  lemma UtmZoneInRange(lon: real)
    requires -180.0 <= lon <= 180.0
    ensures 1 <= UtmZone(lon) <= 60
  {
    var f := ((lon + 180.0) / 6.0).Floor;
    assert 0 <= f <= 60;
  }

  /** Zone z (for lon below 180) is the 6-degree band [-180 + 6(z-1), -180 + 6z). */
  lemma UtmZoneIsBand(lon: real)
    requires -180.0 <= lon < 180.0
    ensures var z := UtmZone(lon);
      -180.0 + 6.0 * (z - 1) as real <= lon < -180.0 + 6.0 * z as real
  {
    var f := ((lon + 180.0) / 6.0).Floor;
    assert 0 <= f < 60;
    assert TruncRem(f, 60) == f;
  }

  /** The code is 32600 + zone in the north and 32700 + zone in the south. */
  lemma UtmAuthorityID(lon: real, lat: real)
    requires -180.0 <= lon <= 180.0
    ensures GetUTMAuthorityID(lon, lat) ==
      (if lat >= 0.0 then 32600 else 32700) + UtmZone(lon)
  {
    UtmZoneInRange(lon);
  }

  /** Every code the UTM rule produces passes the EPSG validation, for any input. */
  lemma UtmAuthorityIDIsValid(lon: real, lat: real)
    ensures IsEpsgIDValid(GetUTMAuthorityID(lon, lat))
  {
    var f := ((lon + 180.0) / 6.0).Floor;
    assert -59 <= TruncRem(f, 60) <= 59;
  }

  // -------------------------------------------------- the "b,l,t,r" bbox string

  /** Splits at every comma; the pieces joined with commas give the input back. */
  function Split(s: string): (r: seq<string>)
    ensures |r| >= 1
    ensures forall i :: 0 <= i < |r| ==> ',' !in r[i]
  {
    if |s| == 0 then [""]
    else
      var rest := Split(s[1..]);
      if s[0] == ',' then [""] + rest else [[s[0]] + rest[0]] + rest[1..]
  }

  function Join(parts: seq<string>): string
    requires |parts| >= 1
  {
    if |parts| == 1 then parts[0] else parts[0] + "," + Join(parts[1..])
  }

  lemma {:induction false} SplitJoin(s: string)
    ensures Join(Split(s)) == s
  {
    if |s| > 0 {
      SplitJoin(s[1..]);
      var rest := Split(s[1..]);
      if s[0] == ',' {
        assert Split(s) == [""] + rest;
        assert Join(Split(s)) == "" + "," + Join(rest);
        assert s == [s[0]] + s[1..];
      } else {
        var r := Split(s);
        assert r == [[s[0]] + rest[0]] + rest[1..];
        if |rest| == 1 {
          assert Join(r) == [s[0]] + rest[0];
        } else {
          assert r[1..] == rest[1..];
          assert Join(r) == [s[0]] + rest[0] + "," + Join(rest[1..]);
        }
        assert s == [s[0]] + s[1..];
      }
    }
  }

  /** ParseIntoArray with empty pieces culled. */
  function SplitCullEmpty(s: string): (r: seq<string>)
    ensures forall i :: 0 <= i < |r| ==> r[i] != "" && ',' !in r[i]
  {
    CullEmpty(Split(s))
  }

  function CullEmpty(parts: seq<string>): (r: seq<string>)
    requires forall i :: 0 <= i < |parts| ==> ',' !in parts[i]
    ensures |r| <= |parts|
    ensures forall i :: 0 <= i < |r| ==> r[i] != "" && ',' !in r[i]
    ensures forall t :: t in r <==> t in parts && t != ""
  {
    if parts == [] then []
    else if parts[0] == "" then CullEmpty(parts[1..])
    else [parts[0]] + CullEmpty(parts[1..])
  }

  predicate IsDigit(c: char) { '0' <= c <= '9' }

  predicate AllDigits(s: string)
  {
    forall i :: 0 <= i < |s| ==> IsDigit(s[i])
  }

  /** `0|[1-9][0-9]*` */
  predicate IsUnsignedInt(s: string)
  {
    s == "0" || (|s| > 0 && '1' <= s[0] <= '9' && AllDigits(s[1..]))
  }

  function DotIndex(s: string): (k: nat)
    ensures k <= |s|
    ensures k < |s| ==> s[k] == '.'
    ensures '.' !in s[..k]
  {
    if |s| == 0 then 0
    else if s[0] == '.' then 0
    else
      var k := DotIndex(s[1..]);
      assert s[..k + 1] == [s[0]] + s[1..][..k];
      k + 1
  }

  function Unsigned(t: string): string
  {
    if |t| > 0 && t[0] == '-' then t[1..] else t
  }

  /** A whole-token match of `-?(0|[1-9][0-9]*)(\.[0-9]+)?`. */
  predicate IsNumberToken(t: string)
  {
    var u := Unsigned(t);
    var k := DotIndex(u);
    IsUnsignedInt(u[..k]) && (k == |u| || (k + 1 < |u| && AllDigits(u[k + 1..])))
  }

  function DigitValue(c: char): nat
    requires IsDigit(c)
  {
    c as int - '0' as int
  }

  function IntValue(s: string): nat
    requires AllDigits(s)
  {
    if |s| == 0 then 0 else IntValue(s[..|s| - 1]) * 10 + DigitValue(s[|s| - 1])
  }

  /** Value of the digits after the decimal point. */
  function FracValue(s: string): (v: real)
    requires AllDigits(s)
    ensures 0.0 <= v <= 1.0
  {
    if |s| == 0 then 0.0 else (DigitValue(s[0]) as real + FracValue(s[1..])) / 10.0
  }

  /** The exact decimal value `stod` reads from a matching token. */
  function TokenValue(t: string): real
    requires IsNumberToken(t)
  {
    var u := Unsigned(t);
    var k := DotIndex(u);
    var mag := IntValue(u[..k]) as real + (if k == |u| then 0.0 else FracValue(u[k + 1..]));
    if |t| > 0 && t[0] == '-' then -mag else mag
  }

  /** The four values of an accepted bbox string, or None when it is rejected. */
  function ParseBBox(bbox: string): (r: Option<Extents>)
    ensures r.Some? <==>
      |SplitCullEmpty(bbox)| == 4 && forall i :: 0 <= i < 4 ==> IsNumberToken(SplitCullEmpty(bbox)[i])
  {
    var parts := SplitCullEmpty(bbox);
    if |parts| == 4 && forall i :: 0 <= i < 4 ==> IsNumberToken(parts[i]) then
      Some(Extents(TokenValue(parts[0]), TokenValue(parts[1]), TokenValue(parts[2]), TokenValue(parts[3])))
    else None
  }

  lemma {:induction false} SplitNoComma(a: string)
    requires ',' !in a
    ensures Split(a) == [a]
  {
    if |a| > 0 {
      SplitNoComma(a[1..]);
      assert [a[0]] + a[1..] == a;
    }
  }

  /** A comma-free first piece is split off unchanged. */
  lemma {:induction false} SplitAppend(a: string, b: string)
    requires ',' !in a
    ensures Split(a + "," + b) == [a] + Split(b)
  {
    var s := a + "," + b;
    if |a| == 0 {
      assert s[0] == ',' && s[1..] == b;
    } else {
      assert s[0] == a[0] != ',';
      assert s[1..] == a[1..] + "," + b;
      SplitAppend(a[1..], b);
      var rest := Split(s[1..]);
      assert rest == [a[1..]] + Split(b);
      assert Split(s) == [[a[0]] + rest[0]] + rest[1..];
      assert [a[0]] + a[1..] == a;
    }
  }

  lemma {:induction false} DotIndexOfDigits(s: string)
    requires AllDigits(s)
    ensures DotIndex(s) == |s|
  {
    if |s| > 0 {
      DotIndexOfDigits(s[1..]);
    }
  }

  /** A plain integer token reads as its integer value. */
  lemma IntegerToken(t: string)
    requires IsUnsignedInt(t)
    ensures IsNumberToken(t) && TokenValue(t) == IntValue(t) as real
  {
    assert AllDigits(t);
    DotIndexOfDigits(t);
    assert t[..|t|] == t;
  }

  /** Decimal tokens are read exactly, sign and fraction included. */
  lemma TokenValueExamples()
    ensures IsNumberToken("47.25") && TokenValue("47.25") == 47.25
    ensures IsNumberToken("-13") && TokenValue("-13") == -13.0
  {
    assert DotIndex("47.25") == 2 && "47.25"[..2] == "47" && "47.25"[3..] == "25";
    assert IntValue("47") == 47;
    assert FracValue("25") == 0.25 by {
      assert "25"[1..] == "5";
      assert FracValue("5") == 0.5 by { assert "5"[1..] == ""; }
    }
    assert Unsigned("-13") == "13";
    IntegerToken("13");
    assert IntValue("13") == 13;
  }

  lemma SplitExample(s: string)
    requires s == "47.25,-13,48,0"
    ensures SplitCullEmpty(s) == ["47.25", "-13", "48", "0"]
  {
    var a, b, c, d := "47.25", "-13", "48", "0";
    SplitNoComma(d);
    SplitAppend(c, d);
    SplitAppend(b, c + "," + d);
    SplitAppend(a, b + "," + (c + "," + d));
    assert Split(a + "," + (b + "," + (c + "," + d))) == [a, b, c, d];
    assert s == a + "," + (b + "," + (c + "," + d));
    var parts := [a, b, c, d];
    assert Split(s) == parts;
    assert parts[1..] == [b, c, d] && parts[1..][1..] == [c, d] && parts[1..][1..][1..] == [d];
    assert CullEmpty([d]) == [d];
    assert CullEmpty([c, d]) == [c, d];
    assert CullEmpty([b, c, d]) == [b, c, d];
  }

  /** A bounding box of four numbers is accepted in the order bottom, left, top, right. */
  lemma ParseBBoxAccepts(s: string)
    requires s == "47.25,-13,48,0"
    ensures ParseBBox(s) == Some(Extents(47.25, -13.0, 48.0, 0.0))
  {
    SplitExample(s);
    TokenValueExamples();
    IntegerTokenExamples();
    ParseBBoxOfFour(s, "47.25", "-13", "48", "0");
  }

  /** A string that splits into four number tokens parses to their values, in order. */
  lemma ParseBBoxOfFour(s: string, a: string, b: string, c: string, d: string)
    requires SplitCullEmpty(s) == [a, b, c, d]
    requires IsNumberToken(a) && IsNumberToken(b) && IsNumberToken(c) && IsNumberToken(d)
    ensures ParseBBox(s) == Some(Extents(TokenValue(a), TokenValue(b), TokenValue(c), TokenValue(d)))
  {
    var parts := SplitCullEmpty(s);
    assert parts[0] == a && parts[1] == b && parts[2] == c && parts[3] == d;
  }

  lemma IntegerTokenExamples()
    ensures IsNumberToken("48") && TokenValue("48") == 48.0
    ensures IsNumberToken("0") && TokenValue("0") == 0.0
  {
    IntegerToken("48");
    assert IntValue("48") == 48;
    IntegerToken("0");
  }

  /** Three values are rejected. */
  lemma ParseBBoxRejectsThree(s: string)
    requires s == "1,2,3"
    ensures ParseBBox(s) == None
  {
    SplitNoComma("3");
    SplitAppend("2", "3");
    SplitAppend("1", "2,3");
    assert s == "1" + "," + "2,3";
    assert "2,3" == "2" + "," + "3";
    var parts := ["1", "2", "3"];
    assert Split(s) == parts;
    assert parts[1..] == ["2", "3"] && parts[1..][1..] == ["3"];
    assert CullEmpty(["3"]) == ["3"];
    assert CullEmpty(["2", "3"]) == ["2", "3"];
    assert SplitCullEmpty(s) == parts;
  }

  /** A number with a leading zero is rejected. */
  lemma ParseBBoxRejectsLeadingZero(s: string)
    requires s == "01,2,3,4"
    ensures ParseBBox(s) == None
  {
    SplitAppend("01", "2,3,4");
    assert s == "01" + "," + "2,3,4";
    assert Split(s)[0] == "01";
    assert SplitCullEmpty(s)[0] == "01";
    assert DotIndex("01") == 2 && "01"[..2] == "01";
    assert !IsNumberToken("01");
  }

  // ----------------------------------------------------------- extents helpers

  /** Extents from two corners; the empty box when either corner is (0,0). */
  function GetValidExtents(leftBottom: Vec2, rightTop: Vec2): (e: Extents)
    ensures e.IsEmpty() <==> leftBottom.IsZero() || rightTop.IsZero()
    ensures !e.IsEmpty() ==>
      e.left == leftBottom.x && e.bottom == leftBottom.y && e.right == rightTop.x && e.top == rightTop.y
  {
    if leftBottom.IsZero() || rightTop.IsZero() then EmptyExtents
    else Extents(leftBottom.y, leftBottom.x, rightTop.y, rightTop.x)
  }

  // ----------------------------------------------------------- OGR error names

  /** The OGRErr codes of GDAL's ogr_core.h that have a name. */
  const OgrErrorNames: map<int, string> := map[
    0 := "Success",
    1 := "Not enough data to deserialize",
    2 := "Not enough memory",
    3 := "Unsupported geometry type",
    4 := "Unsupported operation",
    5 := "Corrupt data",
    6 := "Failure",
    7 := "Unsupported SRS",
    8 := "Invalid handle",
    9 := "Non existing feature"]

  function GetOGRErrStr(err: int): (s: string)
    ensures s == "Unknown Error" <==> !(0 <= err <= 9)
    ensures 0 <= err <= 9 ==> s == OgrErrorNames[err]
  {
    if err in OgrErrorNames then OgrErrorNames[err] else "Unknown Error"
  }

  // ---------------------------------------------------------- the CRS object

  class CoordinateReferenceSystem {
    var authorityId: int
    var wkt: string
    var origin: Vec3
    var croppedExtents: Extents
    var landscapeScaleFactor: real
    var vectorScale: Vec3
    var xyOffset: Vec3
    var usePreciseScale: bool

    constructor ()
      ensures authorityId == 0 && wkt == "" && origin == Zero3 && croppedExtents == EmptyExtents
      ensures landscapeScaleFactor == 1.0 && vectorScale == Vec3(100.0, 100.0, 100.0)
      ensures xyOffset == Zero3 && usePreciseScale
    {
      authorityId := 0;
      wkt := "";
      origin := Zero3;
      croppedExtents := EmptyExtents;
      landscapeScaleFactor := 1.0;
      vectorScale := Vec3(100.0, 100.0, 100.0);
      xyOffset := Zero3;
      usePreciseScale := true;
    }

    predicate IsOriginValid()
      reads this
    {
      !origin.IsZero()
    }

    method SetOrigin(inOrigin: Vec3)
      modifies this
      ensures origin == inOrigin
      ensures authorityId == old(authorityId) && wkt == old(wkt) && croppedExtents == old(croppedExtents)
      ensures xyOffset == old(xyOffset) && vectorScale == old(vectorScale)
      ensures landscapeScaleFactor == old(landscapeScaleFactor) && usePreciseScale == old(usePreciseScale)
    {
      origin := inOrigin;
    }

    method SetXYOffset(inOffset: Vec3)
      modifies this
      ensures xyOffset == inOffset
      ensures authorityId == old(authorityId) && wkt == old(wkt) && croppedExtents == old(croppedExtents)
      ensures origin == old(origin) && vectorScale == old(vectorScale)
      ensures landscapeScaleFactor == old(landscapeScaleFactor) && usePreciseScale == old(usePreciseScale)
    {
      xyOffset := inOffset;
    }

    /**
     * Sets the level's EPSG code and WKT. The GDAL lookups are parameters:
     * `epsgWkt` is the WKT exported for `epsg` (None when the import, the export or
     * its validation fails) and `inWktValid` is whether `inWkt` parses as projected.
     */
    method SetAuthorityID(epsg: int, inWkt: string, epsgWkt: Option<string>, inWktValid: bool)
      modifies this
      ensures !IsEpsgIDValid(epsg) && inWkt == "" ==> authorityId == old(authorityId) && wkt == old(wkt)
      ensures IsEpsgIDValid(epsg) && inWkt == "" ==>
        authorityId == epsg && wkt == (if epsgWkt.Some? then epsgWkt.value else old(wkt))
      ensures inWkt != "" ==>
        if inWktValid then authorityId == epsg && wkt == inWkt
        else authorityId == old(authorityId) && wkt == old(wkt)
      ensures origin == old(origin) && croppedExtents == old(croppedExtents) && xyOffset == old(xyOffset)
      ensures vectorScale == old(vectorScale) && landscapeScaleFactor == old(landscapeScaleFactor)
      ensures usePreciseScale == old(usePreciseScale)
    {
      var isEpsgValid := IsEpsgIDValid(epsg);
      if !isEpsgValid && inWkt == "" {
        return;
      }
      if inWkt == "" && isEpsgValid {
        authorityId := epsg;
        if epsgWkt.Some? {
          wkt := epsgWkt.value;
        }
      } else if inWktValid {
        wkt := inWkt;
        authorityId := epsg;
      }
    }

    /**
     * FetchAuthorityIDFromSettings: unless the origin is set and the code is
     * already valid, takes the plugin settings' projection through SetAuthorityID.
     * `customProjection` is that projection when the settings' mode is a custom
     * CRS (None otherwise); `projectionWkt` is GDAL's WKT export for it.
     */
    method FetchAuthorityIDFromSettings(customProjection: Option<int>, projectionWkt: Option<string>)
      modifies this
      ensures (old(IsOriginValid()) && IsEpsgIDValid(old(authorityId))) || customProjection.None? || !IsEpsgIDValid(customProjection.value)
              ==> authorityId == old(authorityId) && wkt == old(wkt)
      ensures !(old(IsOriginValid()) && IsEpsgIDValid(old(authorityId))) && customProjection.Some? && IsEpsgIDValid(customProjection.value)
              ==> authorityId == customProjection.value && wkt == (if projectionWkt.Some? then projectionWkt.value else old(wkt))
      ensures origin == old(origin) && croppedExtents == old(croppedExtents) && xyOffset == old(xyOffset)
      ensures vectorScale == old(vectorScale) && landscapeScaleFactor == old(landscapeScaleFactor)
      ensures usePreciseScale == old(usePreciseScale)
    {
      if IsOriginValid() && IsEpsgIDValid(authorityId) {
        return;
      }
      if customProjection.Some? {
        SetAuthorityID(customProjection.value, "", projectionWkt, false);
      }
    }

    /** GetAuthorityID: the EPSG code once FetchAuthorityIDFromSettings has run. */
    method GetAuthorityID(customProjection: Option<int>, projectionWkt: Option<string>) returns (id: int)
      modifies this
      ensures id == authorityId
      ensures (old(IsOriginValid()) && IsEpsgIDValid(old(authorityId))) || customProjection.None? || !IsEpsgIDValid(customProjection.value)
              ==> id == old(authorityId) && wkt == old(wkt)
      ensures !(old(IsOriginValid()) && IsEpsgIDValid(old(authorityId))) && customProjection.Some? && IsEpsgIDValid(customProjection.value)
              ==> id == customProjection.value && wkt == (if projectionWkt.Some? then projectionWkt.value else old(wkt))
      ensures origin == old(origin) && croppedExtents == old(croppedExtents) && xyOffset == old(xyOffset)
      ensures vectorScale == old(vectorScale) && landscapeScaleFactor == old(landscapeScaleFactor)
      ensures usePreciseScale == old(usePreciseScale)
    {
      FetchAuthorityIDFromSettings(customProjection, projectionWkt);
      id := authorityId;
    }

    /** Parses "bottom,left,top,right"; on rejection nothing changes. */
    method SetCroppedExtentsFromString(bbox: string) returns (ok: bool)
      modifies this
      ensures ok <==> ParseBBox(bbox).Some?
      ensures ok ==> croppedExtents == ParseBBox(bbox).value
      ensures !ok ==> croppedExtents == old(croppedExtents)
      ensures authorityId == old(authorityId) && wkt == old(wkt) && origin == old(origin)
      ensures xyOffset == old(xyOffset) && vectorScale == old(vectorScale)
      ensures landscapeScaleFactor == old(landscapeScaleFactor) && usePreciseScale == old(usePreciseScale)
    {
      var parts := SplitCullEmpty(bbox);
      ok := |parts| == 4;
      var i := 0;
      while i < |parts|
        invariant 0 <= i <= |parts|
        invariant ok <==> |parts| == 4 && forall j :: 0 <= j < i ==> IsNumberToken(parts[j])
      {
        ok := ok && IsNumberToken(parts[i]);
        i := i + 1;
      }
      if ok {
        croppedExtents := Extents(TokenValue(parts[0]), TokenValue(parts[1]), TokenValue(parts[2]), TokenValue(parts[3]));
      }
    }

    /**
     * Converts a point of the level CRS into engine units: relative to the origin,
     * scaled by |VectorScale * LandscapeScaleFactor|, Y flipped, shifted by XYOffset;
     * the Z component is left at zero.
     */
    function ConvertCRSPointToUnreal(p: Vec3): (q: Vec3)
      reads this
      ensures q.z == 0.0
    {
      var sx := Abs(Mul(vectorScale.x, landscapeScaleFactor));
      var sy := Abs(Mul(vectorScale.y, landscapeScaleFactor));
      Vec3(Mul(p.x - origin.x, sx) + xyOffset.x, Mul(p.y - origin.y, sy) * -1.0 + xyOffset.y, 0.0)
    }
  }

  /** The origin lands on (XYOffset.X, XYOffset.Y, 0). */
  lemma OriginMapsToOffset(crs: CoordinateReferenceSystem)
    ensures crs.ConvertCRSPointToUnreal(crs.origin) == Vec3(crs.xyOffset.x, crs.xyOffset.y, 0.0)
  {
  }

  /** Engine X grows with CRS X (east). */
  lemma ConvertKeepsXOrder(crs: CoordinateReferenceSystem, p: Vec3, q: Vec3)
    requires Mul(crs.vectorScale.x, crs.landscapeScaleFactor) != 0.0
    requires p.x < q.x
    ensures crs.ConvertCRSPointToUnreal(p).x < crs.ConvertCRSPointToUnreal(q).x
  {
    ScaledMonotone(p.x, q.x, crs.origin.x, Abs(Mul(crs.vectorScale.x, crs.landscapeScaleFactor)));
  }

  /** Engine Y falls as CRS Y (north) grows: the Y direction is negated. */
  lemma ConvertFlipsY(crs: CoordinateReferenceSystem, p: Vec3, q: Vec3)
    requires Mul(crs.vectorScale.y, crs.landscapeScaleFactor) != 0.0
    requires p.y < q.y
    ensures crs.ConvertCRSPointToUnreal(p).y > crs.ConvertCRSPointToUnreal(q).y
  {
    ScaledMonotone(p.y, q.y, crs.origin.y, Abs(Mul(crs.vectorScale.y, crs.landscapeScaleFactor)));
  }

  lemma ScaledMonotone(a: real, b: real, o: real, s: real)
    requires a < b && s > 0.0
    ensures Mul(a - o, s) < Mul(b - o, s)
  {
    assert (b - o) * s - (a - o) * s == (b - a) * s;
    PositiveProduct(b - a, s);
  }

  lemma PositiveProduct(a: real, b: real)
    requires a > 0.0 && b > 0.0
    ensures a * b > 0.0
  {
  }
}
