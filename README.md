# Panther telemetry tour: a Dafny model

This project models the data path of a small Flask application that serves
GPS telemetry of tagged Florida panthers. It covers three steps:

- Loading: every CSV row's UTM easting and northing (zone 17, band R) is
  converted to latitude and longitude, and the two are added as columns.
- Download: the `/download_kml/<panther_id>` handler keeps the rows whose
  `CATNUMBER` is the requested id, in table order.
- Tour building: from those fixes the handler builds a KML tour. For each
  consecutive pair of fixes it appends a one-second orientation fly-to at
  the current fix and a five-second move fly-to to the next fix, both under
  the same heading. It also appends a placemark for the current fix, named
  by a running counter. A last placemark is added for the final fix. The
  file is named `panther_<id>_telemetry_tour.kml`.

Modules, one per component:

- `Wrappers`: Option and Result.
- `Decimal`: Python's `str(n)` for the counter, with a parser that reads it back.
- `PantherData`: rows, fixes, the enrichment loop and the subject filter.
- `KmlDocument`: the simplekml document as a class. It keeps the tour name,
  the playlist and the placemarks. `NewGxTour` starts a tour with an empty
  playlist; after that the handler only appends entries and placemarks, and
  sets each entry's camera once, right after creating it.
- `Tour`: the playlist and placemarks as functions of the track, with
  lemmas on their shape.
- `DownloadKml`: the handler's loop (`BuildTour`), the whole handler
  (`DownloadKml`) and the file-name rule.

`utm.to_latlon` is a parameter `toLatLon`. It returns `None` where the
library raises its out-of-range error. The heading expression
`math.degrees(math.atan2(dlon, dlat)) % 360` is a parameter `bearing`,
applied to the longitude and latitude differences in that order.

Empty selection: for a subject with no rows the loop runs no iterations,
and reading the last row with `filtered_df.iloc[-1]` (app.py:97) raises.
`BuildTour` and `DownloadKml` return `Err(EmptySelection)` in that case.

## Model

| member | source | states |
|---|---|---|
| Decimal.NatToString | app.py:92 | `str(point_counter)` is a non-empty string of decimal digits with no leading zero unless the value is 0 |
| Decimal.ParseNatToString | app.py:92 | reading a counter name back as a decimal number gives the counter |
| Decimal.NatToStringInjective | app.py:98 | different counter values never give the same placemark name |
| PantherData.EnrichedTableSpec | app.py:21-28 | loading succeeds exactly when every row converts; then the table has one fix per row, in row order; fix i holds `to_latlon(easting_i, northing_i, 17, 'R')` and row i's other columns; if any row fails, the load fails |
| PantherData.GetPantherData | app.py:21-28 | the loop that fills `latitudes`/`longitudes` and assigns them as columns yields exactly the enriched table, or the converter's error |
| PantherData.SelectSubject | app.py:49 | the selection is no longer than the table; a fix is in it exactly when it is in the table and its CATNUMBER equals the id |
| PantherData.SelectSubjectConcat | app.py:49 | filtering a concatenation is the concatenation of the filtered parts, so table order is kept |
| PantherData.SelectSubjectMultiset | app.py:49 | each matching row is kept as many times as it occurs; no other row is kept |
| PantherData.SelectSubjectAllMatch | app.py:49 | a table holding only the subject's rows is its own selection |
| KmlDocument.Kml.constructor | app.py:50 | a new document has no tour name, no fly-to entries and no placemarks |
| KmlDocument.Kml.NewGxTour | app.py:56-57 | the tour gets the given name and an empty playlist; placemarks are unchanged |
| KmlDocument.Kml.NewGxFlyTo | app.py:77 | appends one entry with the given duration and no camera, returns its position, changes nothing else |
| KmlDocument.Kml.SetCamera | app.py:78 | sets the camera of that one entry; every other entry and the placemarks are unchanged |
| KmlDocument.Kml.NewPoint | app.py:92-94 | appends one placemark with the given name, coordinates and description; the playlist is unchanged |
| Tour.Playlist | app.py:60-90 | after n loop iterations the playlist holds exactly 2n entries |
| Tour.Placemarks | app.py:92-95 | after n placemarks the list holds exactly n |
| Tour.PlaylistShape | app.py:60-90 | entry 2i is a 1-second hold at fix i and entry 2i+1 a 5-second move to fix i+1; both have altitude 100, mode relativeToGround, tilt 80 and the heading of fixes i and i+1 |
| Tour.SegmentHeadingLocal | app.py:64-87 | both cameras of segment i have one heading, and any two tracks whose fixes i and i+1 share coordinates give the same heading |
| Tour.PlacemarksShape | app.py:92-100 | placemark k (0-based) is named `str(k+1)`, sits at fix k's (longitude, latitude) with longitude first, and its description is `FLGTDATE: d, CATNUMBER: c, AGENCY: a, TIME: t` from fix k |
| Tour.PlacemarkNamesContiguous | app.py:58-98 | placemark names read back as 1, 2, ..., n in order; no two names are equal |
| Tour.TourCounts | app.py:60-100 | a track of N >= 1 fixes gives 2(N-1) fly-to entries and N placemarks; the last is named `str(N)` and placed at the last fix |
| Tour.SingleFixTour | app.py:97-100 | a single fix gives no fly-to entries and one placemark named "1" |
| DownloadKml.KmlFileName | app.py:103 | the file name is `panther_`, then the id, then `_telemetry_tour.kml`; the id can be cut back out of it |
| DownloadKml.KmlFileNameInjective | app.py:103 | different subject ids give different file names |
| DownloadKml.BuildTour | app.py:50-100 | fails exactly on an empty track, which reads the last row (IndexError); otherwise the tour is named "Panther Telemetry Tour" and its playlist and placemarks are the track's tour; the loop keeps `point_counter == i + 1` |
| DownloadKml.DownloadKml | app.py:47-103 | a load error is returned unchanged. Otherwise the result is an error exactly when the subject has no rows; on success the file name follows the naming rule and the document is the tour of the subject's fixes in table order |

## Left out

- Flask routing, `render_template`, `request.form` and `app.run` (app.py:12, 31-44, 113-114): web plumbing.
- The `home` view with its folium map and marker popups (app.py:31-44): a wrapper over a map renderer. Its own subject filter is not modelled separately.
- `gdown.download` and `pd.read_csv` (app.py:15-19): network and file I/O. The rows read from the CSV are an input.
- The internals of `utm.to_latlon` (app.py:23): floating-point inverse transverse Mercator. It is the parameter `toLatLon`, and the model only propagates its range error.
- The heading arithmetic `math.degrees(math.atan2(...)) % 360` (app.py:66): trigonometry and float modulo. It is the parameter `bearing`. Nothing is claimed about its range: with floats, `% 360` can round a tiny negative value up to 360.0.
- Floating point: coordinates and their differences are exact reals, so float rounding in the subtractions is not modelled.
- Column types: every passed-through column (CATNUMBER, FLGTDATE, TIME, AGENCY) is a string. The `CATNUMBER == panther_id` comparison is therefore a string comparison. The case where pandas parses CATNUMBER as a number, so nothing matches the string id, is not modelled. Columns the tour does not use are dropped from the rows.
- simplekml's object graph: `newgxtour` and `newgxplaylist` are merged into one `NewGxTour`, since the handler creates exactly one tour with one playlist. A fly-to entry is addressed by its position, not by an object reference.
- The XML serialization, `kml.save`, `send_file` and `os.remove` (app.py:104-111): serialization and file-system I/O. Only the file name is modelled.
