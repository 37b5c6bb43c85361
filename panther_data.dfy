/**
 * The telemetry table: rows as read from the CSV, the per-row coordinate
 * enrichment done by `get_panther_data`, and the subject filter that
 * `download_kml` applies to the enriched table.
 */
module PantherData {
  import opened Wrappers

  /** One CSV row, keeping the columns the tour uses. */
  datatype Record = Record(
    catNumber: string,
    easting: real,
    northing: real,
    flightDate: string,
    time: string,
    agency: string)

  /** A row after the Latitude and Longitude columns have been added. */
  datatype Fix = Fix(
    catNumber: string,
    easting: real,
    northing: real,
    flightDate: string,
    time: string,
    agency: string,
    latitude: real,
    longitude: real)

  datatype LatLon = LatLon(latitude: real, longitude: real)

  /**
   * `utm.to_latlon(easting, northing, zone_number, zone_letter)`: the
   * inverse projection, or None where the library raises its range error.
   */
  type Converter = (real, real, int, char) -> Option<LatLon>

  datatype LoadError = CoordinateOutOfRange

  /** The survey grid every row is taken to lie in: UTM zone 17, band R. */
  const UtmZone: int := 17
  const UtmBand: char := 'R'

  function Convert(r: Record, toLatLon: Converter): Option<LatLon> {
    toLatLon(r.easting, r.northing, UtmZone, UtmBand)
  }

  function WithCoordinates(r: Record, c: LatLon): Fix {
    Fix(r.catNumber, r.easting, r.northing, r.flightDate, r.time, r.agency,
        c.latitude, c.longitude)
  }

  predicate AllConvertible(rows: seq<Record>, toLatLon: Converter) {
    forall i :: 0 <= i < |rows| ==> Convert(rows[i], toLatLon).Some?
  }

  /**
   * The enriched table, defined row by row from the front: the first row
   * the converter rejects aborts the whole load.
   */
  function EnrichedTable(rows: seq<Record>, toLatLon: Converter): Result<seq<Fix>, LoadError>
    decreases |rows|
  {
    if rows == [] then Ok([])
    else match Convert(rows[0], toLatLon)
      case None => Err(CoordinateOutOfRange)
      case Some(c) =>
        match EnrichedTable(rows[1..], toLatLon)
        case Err(e) => Err(e)
        case Ok(rest) => Ok([WithCoordinates(rows[0], c)] + rest)
  }

  /**
   * Loading succeeds exactly when every row converts; then the table keeps
   * its length and row i carries the conversion of row i's easting and
   * northing, every other column copied.
   */
  lemma {:induction false} EnrichedTableSpec(rows: seq<Record>, toLatLon: Converter)
    ensures EnrichedTable(rows, toLatLon).Ok? <==> AllConvertible(rows, toLatLon)
    ensures !AllConvertible(rows, toLatLon) ==> EnrichedTable(rows, toLatLon) == Err(CoordinateOutOfRange)
    ensures EnrichedTable(rows, toLatLon).Ok? ==>
      var t := EnrichedTable(rows, toLatLon).value;
      |t| == |rows| &&
      forall i :: 0 <= i < |rows| ==> t[i] == WithCoordinates(rows[i], Convert(rows[i], toLatLon).value)
    decreases |rows|
  {
    if rows != [] {
      EnrichedTableSpec(rows[1..], toLatLon);
      if Convert(rows[0], toLatLon).Some? && AllConvertible(rows[1..], toLatLon) {
        assert AllConvertible(rows, toLatLon) by {
          forall i | 0 <= i < |rows| ensures Convert(rows[i], toLatLon).Some? {
            if i > 0 { assert rows[i] == rows[1..][i - 1]; }
          }
        }
      }
      if AllConvertible(rows, toLatLon) {
        assert AllConvertible(rows[1..], toLatLon) by {
          forall i | 0 <= i < |rows| - 1 ensures Convert(rows[1..][i], toLatLon).Some? {
            assert rows[1..][i] == rows[i + 1];
          }
        }
      }
    }
  }

  /**
   * `get_panther_data` after the CSV has been read: convert every row's
   * easting and northing into the `latitudes` and `longitudes` lists, then
   * store them as the two new columns.
   */
  method GetPantherData(rows: seq<Record>, toLatLon: Converter) returns (df: Result<seq<Fix>, LoadError>)
    ensures df == EnrichedTable(rows, toLatLon)
  {
    EnrichedTableSpec(rows, toLatLon);
    var latitudes: seq<real> := [];
    var longitudes: seq<real> := [];
    var i := 0;
    while i < |rows|
      invariant 0 <= i <= |rows|
      invariant |latitudes| == i && |longitudes| == i
      invariant forall j :: 0 <= j < i ==>
        Convert(rows[j], toLatLon) == Some(LatLon(latitudes[j], longitudes[j]))
    {
      var c := toLatLon(rows[i].easting, rows[i].northing, UtmZone, UtmBand);
      if c.None? {
        assert !AllConvertible(rows, toLatLon) by { assert Convert(rows[i], toLatLon).None?; }
        return Err(CoordinateOutOfRange);
      }
      latitudes := latitudes + [c.value.latitude];
      longitudes := longitudes + [c.value.longitude];
      i := i + 1;
    }
    df := Ok(seq(|rows|, j requires 0 <= j < |rows| =>
      WithCoordinates(rows[j], LatLon(latitudes[j], longitudes[j]))));
    assert AllConvertible(rows, toLatLon);
    assert df.value == EnrichedTable(rows, toLatLon).value;
  }

  /** `df[df['CATNUMBER'] == panther_id]`: the rows of one subject, in table order. */
  function SelectSubject(df: seq<Fix>, pantherId: string): (r: seq<Fix>)
    ensures |r| <= |df|
    ensures forall x :: x in r <==> x in df && x.catNumber == pantherId
    decreases |df|
  {
    if df == [] then []
    else if df[0].catNumber == pantherId then [df[0]] + SelectSubject(df[1..], pantherId)
    else SelectSubject(df[1..], pantherId)
  }

  /** Filtering a table split in two filters each part in place: order is kept. */
  lemma {:induction false} SelectSubjectConcat(a: seq<Fix>, b: seq<Fix>, pantherId: string)
    ensures SelectSubject(a + b, pantherId) == SelectSubject(a, pantherId) + SelectSubject(b, pantherId)
    decreases |a|
  {
    if a != [] {
      assert (a + b)[1..] == a[1..] + b;
      SelectSubjectConcat(a[1..], b, pantherId);
    } else {
      assert a + b == b;
    }
  }

  /** Every matching row is kept as often as it occurs; no other row is. */
  lemma {:induction false} SelectSubjectMultiset(df: seq<Fix>, pantherId: string, x: Fix)
    ensures multiset(SelectSubject(df, pantherId))[x] ==
      if x.catNumber == pantherId then multiset(df)[x] else 0
    decreases |df|
  {
    if df != [] {
      SelectSubjectMultiset(df[1..], pantherId, x);
      assert df == [df[0]] + df[1..];
    }
  }

  /** A table of one subject's rows is its own selection. */
  lemma {:induction false} SelectSubjectAllMatch(df: seq<Fix>, pantherId: string)
    requires forall i :: 0 <= i < |df| ==> df[i].catNumber == pantherId
    ensures SelectSubject(df, pantherId) == df
    decreases |df|
  {
    if df != [] {
      SelectSubjectAllMatch(df[1..], pantherId);
    }
  }
}
