/**
 * The part of a simplekml `Kml` document that `download_kml` builds: one
 * tour with its playlist of fly-to entries, and the document's placemarks.
 * `NewGxTour` starts the tour with an empty playlist; the other methods
 * append to a list, or set the camera of one existing fly-to entry, which
 * is created without a camera and gets one assigned afterwards.
 */
module KmlDocument {
  import opened Wrappers

  /** A `Camera` pose: where it is, how high, how it is tilted and turned. */
  datatype Camera = Camera(
    longitude: real,
    latitude: real,
    altitude: int,
    altitudeMode: string,
    tilt: int,
    heading: real)

  /** A `gx:FlyTo` entry of the tour's playlist. */
  datatype FlyTo = FlyTo(duration: int, camera: Option<Camera>)

  /** A point placemark; `coords` holds (longitude, latitude) pairs. */
  datatype Placemark = Placemark(name: string, coords: seq<(real, real)>, description: string)

  class Kml {
    var tourName: string
    var playlist: seq<FlyTo>
    var placemarks: seq<Placemark>

    /** `Kml()`: an empty document. */
    constructor ()
      ensures tourName == "" && playlist == [] && placemarks == []
    {
      tourName := "";
      playlist := [];
      placemarks := [];
    }

    /** `newgxtour(name=...)` followed by `newgxplaylist()`: a named tour with an empty playlist. */
    method NewGxTour(name: string)
      modifies this
      ensures tourName == name && playlist == []
      ensures placemarks == old(placemarks)
    {
      tourName := name;
      playlist := [];
    }

    /** `newgxflyto(gxduration=...)`: append an entry with no camera yet and hand back its position. */
    method NewGxFlyTo(duration: int) returns (entry: nat)
      modifies this
      ensures playlist == old(playlist) + [FlyTo(duration, None)]
      ensures entry == |old(playlist)|
      ensures tourName == old(tourName) && placemarks == old(placemarks)
    {
      entry := |playlist|;
      playlist := playlist + [FlyTo(duration, None)];
    }

    /** `flyto.camera = camera` on an entry already in the playlist. */
    method SetCamera(entry: nat, camera: Camera)
      requires entry < |playlist|
      modifies this
      ensures playlist == old(playlist)[entry := old(playlist)[entry].(camera := Some(camera))]
      ensures tourName == old(tourName) && placemarks == old(placemarks)
    {
      playlist := playlist[entry := playlist[entry].(camera := Some(camera))];
    }

    /** `newpoint(name=..., coords=..., description=...)`. */
    method NewPoint(name: string, coords: seq<(real, real)>, description: string)
      modifies this
      ensures placemarks == old(placemarks) + [Placemark(name, coords, description)]
      ensures tourName == old(tourName) && playlist == old(playlist)
    {
      placemarks := placemarks + [Placemark(name, coords, description)];
    }
  }
}
