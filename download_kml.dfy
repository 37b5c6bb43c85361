/**
 * The `/download_kml/<panther_id>` handler without its web and file
 * plumbing: load and enrich the table, select one subject's fixes, build
 * the tour document, and name the file it is saved under.
 */
module DownloadKml {
  import opened Wrappers
  import opened Decimal
  import opened PantherData
  import opened KmlDocument
  import opened Tour

  datatype DownloadError =
    | LoadFailed(cause: LoadError)  // loading the table raised
    | EmptySelection                // `filtered_df.iloc[-1]` on a subject with no rows

  /** The finished document and the name it is saved and sent under. */
  datatype KmlFile = KmlFile(document: Kml, fileName: string)

  const FileNamePrefix: string := "panther_"
  const FileNameSuffix: string := "_telemetry_tour.kml"

  /** `f"panther_{panther_id}_telemetry_tour.kml"`. */
  function KmlFileName(pantherId: string): (name: string)
    ensures |name| == |FileNamePrefix| + |pantherId| + |FileNameSuffix|
    ensures name[..|FileNamePrefix|] == "panther_"
    ensures name[|name| - |FileNameSuffix|..] == "_telemetry_tour.kml"
    ensures name[|FileNamePrefix|..|name| - |FileNameSuffix|] == pantherId
  {
    FileNamePrefix + pantherId + FileNameSuffix
  }

  /** Different subjects never share a file name. */
  lemma KmlFileNameInjective(a: string, b: string)
    requires a != b
    ensures KmlFileName(a) != KmlFileName(b)
  {
    var na, nb := KmlFileName(a), KmlFileName(b);
    if |a| == |b| {
      assert na[|FileNamePrefix|..|na| - |FileNameSuffix|] != nb[|FileNamePrefix|..|nb| - |FileNameSuffix|];
    }
  }

  /**
   * The tour-building part of `download_kml`: a fresh document, a named
   * tour, then per consecutive pair of fixes two fly-to entries and a
   * placemark for the current fix, and after the loop the placemark of the last fix. On an
   * empty track the loop does nothing and reading the last fix fails.
   * `bearing` stands for the degree-normalised `atan2`.
   */
  method BuildTour(filteredDf: seq<Fix>, bearing: Bearing) returns (r: Result<Kml, DownloadError>)
    ensures r.Err? <==> |filteredDf| == 0
    ensures r.Err? ==> r.error == EmptySelection
    ensures r.Ok? ==>
      r.value.tourName == TourName &&
      r.value.playlist == TourPlaylist(filteredDf, bearing) &&
      r.value.placemarks == TourPlacemarks(filteredDf)
  {
    var kml := new Kml();

    var altitude := Altitude;
    var tilt := Tilt;
    var flytoDuration := FlytoDuration;

    kml.NewGxTour(TourName);
    var pointCounter := 1;

    var i := 0;
    while i < |filteredDf| - 1
      invariant 0 <= i <= SegmentCount(filteredDf)
      invariant pointCounter == i + 1
      invariant kml.tourName == TourName
      invariant kml.playlist == Playlist(filteredDf, i, bearing)
      invariant kml.placemarks == Placemarks(filteredDf, i)
    {
      var rowCurrent := filteredDf[i];
      var rowNext := filteredDf[i + 1];

      var deltaLongitude := rowNext.longitude - rowCurrent.longitude;
      var deltaLatitude := rowNext.latitude - rowCurrent.latitude;
      var heading := bearing(deltaLongitude, deltaLatitude);

      ghost var playlistBefore := kml.playlist;
      var orientationCamera := Camera(rowCurrent.longitude, rowCurrent.latitude, altitude, AltitudeMode, tilt, heading);
      var orientFlyto := kml.NewGxFlyTo(HoldDuration);
      kml.SetCamera(orientFlyto, orientationCamera);

      var moveCamera := Camera(rowNext.longitude, rowNext.latitude, altitude, AltitudeMode, tilt, heading);
      var moveFlyto := kml.NewGxFlyTo(flytoDuration);
      kml.SetCamera(moveFlyto, moveCamera);
      assert kml.playlist == playlistBefore + Segment(rowCurrent, rowNext, bearing);

      kml.NewPoint(NatToString(pointCounter), [(rowCurrent.longitude, rowCurrent.latitude)], Description(rowCurrent));
      pointCounter := pointCounter + 1;
      i := i + 1;
    }

    if |filteredDf| == 0 {
      return Err(EmptySelection);
    }
    assert i == SegmentCount(filteredDf) == |filteredDf| - 1;
    var lastRow := filteredDf[|filteredDf| - 1];
    kml.NewPoint(NatToString(pointCounter), [(lastRow.longitude, lastRow.latitude)], Description(lastRow));
    r := Ok(kml);
  }

  /**
   * The handler for `pantherId`: load and enrich the rows, keep the
   * subject's fixes, build the tour and name the file. `toLatLon` stands for
   * `utm.to_latlon`.
   */
  method DownloadKml(rows: seq<Record>, pantherId: string, toLatLon: Converter, bearing: Bearing)
    returns (r: Result<KmlFile, DownloadError>)
    ensures EnrichedTable(rows, toLatLon).Err? ==> r == Err(LoadFailed(EnrichedTable(rows, toLatLon).error))
    ensures EnrichedTable(rows, toLatLon).Ok? ==>
      var track := SelectSubject(EnrichedTable(rows, toLatLon).value, pantherId);
      (|track| == 0 <==> r == Err(EmptySelection)) &&
      (|track| >= 1 <==> r.Ok?)
    ensures r.Ok? ==>
      EnrichedTable(rows, toLatLon).Ok? &&
      var track := SelectSubject(EnrichedTable(rows, toLatLon).value, pantherId);
      r.value.fileName == KmlFileName(pantherId) &&
      r.value.document.tourName == TourName &&
      r.value.document.playlist == TourPlaylist(track, bearing) &&
      r.value.document.placemarks == TourPlacemarks(track)
  {
    var df := GetPantherData(rows, toLatLon);
    if df.Err? {
      return Err(LoadFailed(df.error));
    }
    var filteredDf := SelectSubject(df.value, pantherId);
    var kml := BuildTour(filteredDf, bearing);
    if kml.Err? {
      return Err(kml.error);
    }
    var kmlFilePath := KmlFileName(pantherId);
    r := Ok(KmlFile(kml.value, kmlFilePath));
  }
}
