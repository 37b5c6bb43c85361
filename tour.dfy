/**
 * What `download_kml` appends to the document for a track of fixes, as
 * functions of the track: per consecutive pair an orientation hold at the
 * current fix and a move to the next one, both under one heading, and one
 * placemark per fix named by a running counter.
 */
module Tour {
  import opened Wrappers
  import opened Decimal
  import opened PantherData
  import opened KmlDocument

  /**
   * `math.degrees(math.atan2(delta_longitude, delta_latitude)) % 360`,
   * applied to the longitude and latitude differences, in that order.
   */
  type Bearing = (real, real) -> real

  const TourName: string := "Panther Telemetry Tour"
  const Altitude: int := 100
  const Tilt: int := 80
  const AltitudeMode: string := "relativeToGround"
  /** The orientation entry's `gxduration`. */
  const HoldDuration: int := 1
  /** `flyto_duration`: the move entry's `gxduration`. */
  const FlytoDuration: int := 5

  /** The heading of the segment from `current` to `next`. */
  function Heading(current: Fix, next: Fix, bearing: Bearing): real {
    bearing(next.longitude - current.longitude, next.latitude - current.latitude)
  }

  /** The tour's camera placed over a fix. */
  function CameraAt(f: Fix, heading: real): Camera {
    Camera(f.longitude, f.latitude, Altitude, AltitudeMode, Tilt, heading)
  }

  /** The two playlist entries for one consecutive pair, cameras assigned. */
  function Segment(current: Fix, next: Fix, bearing: Bearing): seq<FlyTo> {
    var h := Heading(current, next, bearing);
    [FlyTo(HoldDuration, Some(CameraAt(current, h))), FlyTo(FlytoDuration, Some(CameraAt(next, h)))]
  }

  function Description(f: Fix): string {
    "FLGTDATE: " + f.flightDate + ", CATNUMBER: " + f.catNumber +
    ", AGENCY: " + f.agency + ", TIME: " + f.time
  }

  /** The placemark for a fix under counter value `counter`. */
  function PointFor(f: Fix, counter: nat): Placemark {
    Placemark(NatToString(counter), [(f.longitude, f.latitude)], Description(f))
  }

  /** The number of loop iterations, `len(range(len(track) - 1))`. */
  function SegmentCount(track: seq<Fix>): nat {
    if |track| == 0 then 0 else |track| - 1
  }

  /** The playlist after the first n iterations of the loop. */
  function Playlist(track: seq<Fix>, n: nat, bearing: Bearing): (p: seq<FlyTo>)
    requires n == 0 || n < |track|
    ensures |p| == 2 * n
  {
    if n == 0 then [] else Playlist(track, n - 1, bearing) + Segment(track[n - 1], track[n], bearing)
  }

  /** The placemarks for the first n fixes, counter starting at 1. */
  function Placemarks(track: seq<Fix>, n: nat): (p: seq<Placemark>)
    requires n <= |track|
    ensures |p| == n
  {
    if n == 0 then [] else Placemarks(track, n - 1) + [PointFor(track[n - 1], n)]
  }

  /** The whole playlist of a track's tour. */
  function TourPlaylist(track: seq<Fix>, bearing: Bearing): seq<FlyTo> {
    Playlist(track, SegmentCount(track), bearing)
  }

  /** All placemarks of a track's tour: the loop's and the trailing one. */
  function TourPlacemarks(track: seq<Fix>): seq<Placemark> {
    Placemarks(track, |track|)
  }

  /**
   * After n iterations the playlist holds 2n entries: entry 2i is a
   * one-second hold at fix i, entry 2i+1 a `flyto_duration` move to fix
   * i+1, both at altitude 100 above ground, tilt 80, under the heading
   * of fixes i and i+1.
   */
  lemma {:induction false} PlaylistShape(track: seq<Fix>, n: nat, bearing: Bearing)
    requires n == 0 || n < |track|
    ensures forall i :: 0 <= i < n ==>
      var h := bearing(track[i + 1].longitude - track[i].longitude, track[i + 1].latitude - track[i].latitude);
      Playlist(track, n, bearing)[2 * i] ==
        FlyTo(1, Some(Camera(track[i].longitude, track[i].latitude, 100, "relativeToGround", 80, h))) &&
      Playlist(track, n, bearing)[2 * i + 1] ==
        FlyTo(5, Some(Camera(track[i + 1].longitude, track[i + 1].latitude, 100, "relativeToGround", 80, h)))
    decreases n
  {
    if n > 0 {
      PlaylistShape(track, n - 1, bearing);
      var p := Playlist(track, n, bearing);
      assert p == Playlist(track, n - 1, bearing) + Segment(track[n - 1], track[n], bearing);
      forall i | 0 <= i < n - 1
        ensures p[2 * i] == Playlist(track, n - 1, bearing)[2 * i]
        ensures p[2 * i + 1] == Playlist(track, n - 1, bearing)[2 * i + 1]
      {
      }
    }
  }

  /** Segment i's heading is fixed by the coordinates of fixes i and i+1 alone. */
  lemma SegmentHeadingLocal(t1: seq<Fix>, t2: seq<Fix>, i: nat, bearing: Bearing)
    requires i + 1 < |t1| && i + 1 < |t2|
    requires t1[i].longitude == t2[i].longitude && t1[i].latitude == t2[i].latitude
    requires t1[i + 1].longitude == t2[i + 1].longitude && t1[i + 1].latitude == t2[i + 1].latitude
    ensures TourPlaylist(t1, bearing)[2 * i].camera.Some? && TourPlaylist(t1, bearing)[2 * i + 1].camera.Some?
    ensures TourPlaylist(t2, bearing)[2 * i].camera.Some? && TourPlaylist(t2, bearing)[2 * i + 1].camera.Some?
    ensures TourPlaylist(t1, bearing)[2 * i].camera.value.heading ==
            TourPlaylist(t1, bearing)[2 * i + 1].camera.value.heading ==
            TourPlaylist(t2, bearing)[2 * i].camera.value.heading ==
            TourPlaylist(t2, bearing)[2 * i + 1].camera.value.heading
  {
    PlaylistShape(t1, SegmentCount(t1), bearing);
    PlaylistShape(t2, SegmentCount(t2), bearing);
  }

  /**
   * The first n placemarks: placemark k (0-based) is named `str(k + 1)`,
   * sits at fix k's (longitude, latitude), and describes fix k.
   */
  lemma {:induction false} PlacemarksShape(track: seq<Fix>, n: nat)
    requires n <= |track|
    ensures forall k :: 0 <= k < n ==>
      Placemarks(track, n)[k].name == NatToString(k + 1) &&
      Placemarks(track, n)[k].coords == [(track[k].longitude, track[k].latitude)] &&
      Placemarks(track, n)[k].description ==
        "FLGTDATE: " + track[k].flightDate + ", CATNUMBER: " + track[k].catNumber +
        ", AGENCY: " + track[k].agency + ", TIME: " + track[k].time
    decreases n
  {
    if n > 0 {
      PlacemarksShape(track, n - 1);
      var p := Placemarks(track, n);
      assert p == Placemarks(track, n - 1) + [PointFor(track[n - 1], n)];
      forall k | 0 <= k < n - 1 ensures p[k] == Placemarks(track, n - 1)[k] {
      }
    }
  }

  /**
   * Placemark names are the counters 1..n read back in order: no name is
   * repeated and none is skipped.
   */
  lemma PlacemarkNamesContiguous(track: seq<Fix>, n: nat)
    requires n <= |track|
    ensures forall k :: 0 <= k < n ==>
      AllDigits(Placemarks(track, n)[k].name) && ParseDecimal(Placemarks(track, n)[k].name) == k + 1
    ensures forall j, k :: 0 <= j < k < n ==> Placemarks(track, n)[j].name != Placemarks(track, n)[k].name
  {
    PlacemarksShape(track, n);
    forall k | 0 <= k < n ensures ParseDecimal(Placemarks(track, n)[k].name) == k + 1 {
      ParseNatToString(k + 1);
    }
  }

  /**
   * A track of N >= 1 fixes yields 2(N-1) playlist entries and N
   * placemarks, the last one named `str(N)` and placed at the last fix.
   */
  lemma TourCounts(track: seq<Fix>, bearing: Bearing)
    requires |track| >= 1
    ensures |TourPlaylist(track, bearing)| == 2 * (|track| - 1)
    ensures |TourPlacemarks(track)| == |track|
    ensures TourPlacemarks(track)[|track| - 1].name == NatToString(|track|)
    ensures TourPlacemarks(track)[|track| - 1].coords == [(track[|track| - 1].longitude, track[|track| - 1].latitude)]
  {
    PlaylistShape(track, SegmentCount(track), bearing);
    PlacemarksShape(track, |track|);
  }

  /** A single fix: no fly-to entries and one placemark named "1". */
  lemma SingleFixTour(f: Fix, bearing: Bearing)
    ensures TourPlaylist([f], bearing) == []
    ensures TourPlacemarks([f]) == [Placemark("1", [(f.longitude, f.latitude)], Description(f))]
  {
    assert NatToString(1) == "1";
    assert TourPlacemarks([f]) == Placemarks([f], 0) + [PointFor(f, 1)];
  }
}
