/**
 * The risk map of the dashboard (`MapSection`): a one-shot mount effect that,
 * when the container exists and no map is held yet, creates one map, gives
 * it its view and attaches a satellite tile layer, one polygon per risk zone,
 * one marker per incident and a scale control; and the cleanup that removes
 * the held map and clears the reference. The data is the component's own
 * hardcoded zones and incidents; nothing is re-synchronised afterwards.
 */
module MapOverlay {
  import opened Wrappers
  import opened Text

  datatype LatLng = LatLng(lat: real, lng: real)

  /** A hazard zone as the component declares it; its colour is given per record. */
  datatype RiskZone = RiskZone(coords: seq<LatLng>, risk: string, title: string, color: string, description: string)

  /** A detected incident at one point. */
  datatype Incident = Incident(coords: LatLng, kind: string, severity: string, icon: string, details: string)

  datatype View = View(center: LatLng, zoom: nat)

  datatype PathStyle = PathStyle(color: string, fillColor: string, fillOpacity: real, weight: nat, opacity: real)

  datatype Point = Point(x: nat, y: nat)

  datatype DivIcon = DivIcon(glyph: string, className: string, iconSize: Point, iconAnchor: Point)

  /** What a zone popup shows, without its markup and its clock-derived time. */
  datatype ZonePopup = ZonePopup(title: string, riskLevel: string, riskColor: string, description: string)

  /** What an incident popup shows, without its markup and its clock-derived time. */
  datatype IncidentPopup = IncidentPopup(icon: string, kind: string, severity: string, details: string, coords: LatLng)

  /** Everything the effect adds to the map, in the order it adds it. */
  datatype MapItem =
    | TileLayer(urlTemplate: string, attribution: string, maxZoom: nat)
    | Polygon(vertices: seq<LatLng>, style: PathStyle, zonePopup: ZonePopup)
    | Marker(position: LatLng, icon: DivIcon, incidentPopup: IncidentPopup)
    | ScaleControl(metric: bool, imperial: bool, corner: string)

  const InitialView: View := View(LatLng(24.27, 80.17), 12)

  const SatelliteTiles: MapItem :=
    TileLayer("https://server.arcgisonline.com/ArcGIS/rest/services/World_Imagery/MapServer/tile/{z}/{y}/{x}",
              "\U{A9} Esri &copy; OpenStreetMap contributors", 18)

  const Scale: MapItem := ScaleControl(true, false, "bottomright")

  predicate InBounds(p: LatLng) {
    -90.0 <= p.lat <= 90.0 && -180.0 <= p.lng <= 180.0
  }

  /** The four hardcoded zones; each is a quadrilateral. */
  function RiskZones(): (zs: seq<RiskZone>)
    ensures |zs| == 4
    ensures forall i :: 0 <= i < |zs| ==> |zs[i].coords| == 4
    ensures forall i, k :: 0 <= i < |zs| && 0 <= k < |zs[i].coords| ==> InBounds(zs[i].coords[k])
  {
    [ RiskZone([LatLng(24.280, 80.160), LatLng(24.290, 80.170), LatLng(24.285, 80.180), LatLng(24.275, 80.175)],
               "high", "ROCKFALL ZONE A", "#ef4444", "Active slope instability detected"),
      RiskZone([LatLng(24.260, 80.150), LatLng(24.270, 80.160), LatLng(24.265, 80.170), LatLng(24.255, 80.165)],
               "critical", "CRITICAL ZONE B", "#dc2626", "Immediate evacuation required"),
      RiskZone([LatLng(24.275, 80.185), LatLng(24.285, 80.195), LatLng(24.280, 80.205), LatLng(24.270, 80.200)],
               "safe", "SAFE ZONE C", "#22c55e", "Stable geological conditions"),
      RiskZone([LatLng(24.250, 80.140), LatLng(24.260, 80.150), LatLng(24.255, 80.160), LatLng(24.245, 80.155)],
               "medium", "MONITOR ZONE D", "#f59e0b", "Requires continuous monitoring") ]
  }

  /** The four hardcoded incidents; each lies within valid latitude and longitude. */
  function Incidents(): (xs: seq<Incident>)
    ensures |xs| == 4
    ensures forall i :: 0 <= i < |xs| ==> InBounds(xs[i].coords)
  {
    [ Incident(LatLng(24.275, 80.165), "Slope Crack Detection", "Critical", "\U{1F6A8}", "Crack width: 5.2mm, Length: 15m"),
      Incident(LatLng(24.265, 80.155), "Rockfall Event", "High", "\U{26F0}\U{FE0F}", "Volume: 2.3m\U{B3}, Impact radius: 8m"),
      Incident(LatLng(24.280, 80.190), "Seismic Activity", "Medium", "\U{1F4CA}", "Magnitude: 2.1, Depth: 12m"),
      Incident(LatLng(24.255, 80.145), "Drainage Issue", "Medium", "\U{1F4A7}", "Water accumulation, Monitor required") ]
  }

  /** The polygon of a zone: its colour for stroke and fill, fixed opacities and weight. */
  function ZoneOverlay(z: RiskZone): MapItem {
    Polygon(z.coords,
            PathStyle(z.color, z.color, 0.4, 3, 0.8),
            ZonePopup(z.title, Upper(z.risk), z.color, z.description))
  }

  /** The marker of an incident: a 32 x 32 icon anchored at its centre. */
  function IncidentOverlay(x: Incident): MapItem {
    Marker(x.coords,
           DivIcon(x.icon, "custom-marker", Point(32, 32), Point(16, 16)),
           IncidentPopup(x.icon, x.kind, x.severity, x.details, x.coords))
  }

  function ZoneOverlays(zs: seq<RiskZone>): seq<MapItem> {
    seq(|zs|, i requires 0 <= i < |zs| => ZoneOverlay(zs[i]))
  }

  function IncidentOverlays(xs: seq<Incident>): seq<MapItem> {
    seq(|xs|, i requires 0 <= i < |xs| => IncidentOverlay(xs[i]))
  }

  /** What the mount effect attaches, from first to last, for given data. */
  function Overlays(zs: seq<RiskZone>, xs: seq<Incident>): seq<MapItem> {
    [SatelliteTiles] + ZoneOverlays(zs) + IncidentOverlays(xs) + [Scale]
  }

  function InitialOverlays(): seq<MapItem> {
    Overlays(RiskZones(), Incidents())
  }

  function CountPolygons(items: seq<MapItem>): nat {
    if items == [] then 0 else (if items[0].Polygon? then 1 else 0) + CountPolygons(items[1..])
  }

  function CountMarkers(items: seq<MapItem>): nat {
    if items == [] then 0 else (if items[0].Marker? then 1 else 0) + CountMarkers(items[1..])
  }

  lemma {:induction false} CountsAppend(a: seq<MapItem>, b: seq<MapItem>)
    ensures CountPolygons(a + b) == CountPolygons(a) + CountPolygons(b)
    ensures CountMarkers(a + b) == CountMarkers(a) + CountMarkers(b)
  {
    if a != [] {
      assert (a + b)[1..] == a[1..] + b;
      CountsAppend(a[1..], b);
    } else {
      assert a + b == b;
    }
  }

  lemma {:induction false} ZoneOverlayCounts(zs: seq<RiskZone>)
    ensures CountPolygons(ZoneOverlays(zs)) == |zs| && CountMarkers(ZoneOverlays(zs)) == 0
  {
    if zs != [] {
      ZoneOverlayCounts(zs[1..]);
      assert ZoneOverlays(zs) == [ZoneOverlay(zs[0])] + ZoneOverlays(zs[1..]);
      CountsAppend([ZoneOverlay(zs[0])], ZoneOverlays(zs[1..]));
    }
  }

  lemma {:induction false} IncidentOverlayCounts(xs: seq<Incident>)
    ensures CountMarkers(IncidentOverlays(xs)) == |xs| && CountPolygons(IncidentOverlays(xs)) == 0
  {
    if xs != [] {
      IncidentOverlayCounts(xs[1..]);
      assert IncidentOverlays(xs) == [IncidentOverlay(xs[0])] + IncidentOverlays(xs[1..]);
      CountsAppend([IncidentOverlay(xs[0])], IncidentOverlays(xs[1..]));
    }
  }

  /** Exactly one polygon per zone and one marker per incident are attached. */
  lemma OneLayerPerRecord(zs: seq<RiskZone>, xs: seq<Incident>)
    ensures CountPolygons(Overlays(zs, xs)) == |zs|
    ensures CountMarkers(Overlays(zs, xs)) == |xs|
  {
    ZoneOverlayCounts(zs);
    IncidentOverlayCounts(xs);
    CountsAppend([SatelliteTiles], ZoneOverlays(zs));
    CountsAppend([SatelliteTiles] + ZoneOverlays(zs), IncidentOverlays(xs));
    CountsAppend([SatelliteTiles] + ZoneOverlays(zs) + IncidentOverlays(xs), [Scale]);
  }

  /** The tile layer comes first, then the zones' polygons and the incidents'
      markers in array order, and the scale control last. */
  lemma LayerOrder(zs: seq<RiskZone>, xs: seq<Incident>)
    ensures |Overlays(zs, xs)| == |zs| + |xs| + 2
    ensures Overlays(zs, xs)[0] == SatelliteTiles && SatelliteTiles.maxZoom == 18
    ensures forall i :: 0 <= i < |zs| ==> Overlays(zs, xs)[1 + i] == ZoneOverlay(zs[i])
    ensures forall j :: 0 <= j < |xs| ==> Overlays(zs, xs)[1 + |zs| + j] == IncidentOverlay(xs[j])
    ensures Overlays(zs, xs)[|zs| + |xs| + 1] == Scale
  {
  }

  /** Every attached polygon is one of the zones, drawn in that zone's colour
      for both stroke and fill, with fill opacity 0.4, weight 3, opacity 0.8;
      its popup holds the zone's label, upper-cased risk and description. */
  lemma PolygonStyles(zs: seq<RiskZone>, xs: seq<Incident>)
    ensures forall item :: item in Overlays(zs, xs) && item.Polygon? ==>
              exists z :: z in zs &&
                item.vertices == z.coords &&
                item.style == PathStyle(z.color, z.color, 0.4, 3, 0.8) &&
                item.zonePopup == ZonePopup(z.title, Upper(z.risk), z.color, z.description)
  {
    forall item | item in Overlays(zs, xs) && item.Polygon?
      ensures exists z :: z in zs &&
                item.vertices == z.coords &&
                item.style == PathStyle(z.color, z.color, 0.4, 3, 0.8) &&
                item.zonePopup == ZonePopup(z.title, Upper(z.risk), z.color, z.description)
    {
      var k :| 0 <= k < |Overlays(zs, xs)| && Overlays(zs, xs)[k] == item;
      assert 1 <= k <= |zs|;
      assert item == ZoneOverlay(zs[k - 1]);
    }
  }

  /** Every attached marker is one of the incidents, with a 32 x 32 icon
      anchored at (16, 16); its popup holds the icon, type, severity and details. */
  lemma MarkerIcons(zs: seq<RiskZone>, xs: seq<Incident>)
    ensures forall item :: item in Overlays(zs, xs) && item.Marker? ==>
              item.icon.iconSize == Point(32, 32) && item.icon.iconAnchor == Point(16, 16) &&
              exists x :: x in xs && item.position == x.coords &&
                item.incidentPopup == IncidentPopup(x.icon, x.kind, x.severity, x.details, x.coords)
  {
    forall item | item in Overlays(zs, xs) && item.Marker?
      ensures item.icon.iconSize == Point(32, 32) && item.icon.iconAnchor == Point(16, 16) &&
              exists x :: x in xs && item.position == x.coords &&
                item.incidentPopup == IncidentPopup(x.icon, x.kind, x.severity, x.details, x.coords)
    {
      var k :| 0 <= k < |Overlays(zs, xs)| && Overlays(zs, xs)[k] == item;
      assert 1 + |zs| <= k < 1 + |zs| + |xs|;
      assert item == IncidentOverlay(xs[k - 1 - |zs|]);
    }
  }

  /** The popups of the hardcoded zones show their risk upper-cased. */
  lemma HardcodedRiskLevels()
    ensures forall i :: 0 <= i < 4 ==>
              ZoneOverlay(RiskZones()[i]).zonePopup.riskLevel == ["HIGH", "CRITICAL", "SAFE", "MEDIUM"][i]
  {
    assert Upper("high") == "HIGH";
    assert Upper("critical") == "CRITICAL";
    assert Upper("safe") == "SAFE";
    assert Upper("medium") == "MEDIUM";
  }

  /** A Leaflet map, reduced to its view, what is attached to it, and
      whether it has been removed. */
  class LeafletMap {
    var view: Option<View>
    var attached: seq<MapItem>
    var removed: bool

    /** `L.map(container)`: a map with no view and nothing attached. */
    constructor ()
      ensures view == None && attached == [] && !removed
    {
      view := None;
      attached := [];
      removed := false;
    }

    /** `map.setView(center, zoom)`. */
    method SetView(v: View)
      modifies this
      ensures view == Some(v) && attached == old(attached) && removed == old(removed)
    {
      view := Some(v);
    }

    /** `item.addTo(map)`. */
    method Add(item: MapItem)
      modifies this
      ensures attached == old(attached) + [item] && view == old(view) && removed == old(removed)
    {
      attached := attached + [item];
    }

    /** `map.remove()`: detaches everything and disposes of the map. */
    method Remove()
      modifies this
      ensures removed && attached == [] && view == old(view)
    {
      attached := [];
      removed := true;
    }
  }

  /** `riskZones.forEach(...)`: one polygon per zone, in order. */
  method AttachZones(m: LeafletMap, zones: seq<RiskZone>)
    modifies m
    ensures m.attached == old(m.attached) + ZoneOverlays(zones)
    ensures m.view == old(m.view) && m.removed == old(m.removed)
  {
    var i := 0;
    while i < |zones|
      invariant 0 <= i <= |zones|
      invariant m.view == old(m.view) && m.removed == old(m.removed)
      invariant m.attached == old(m.attached) + ZoneOverlays(zones[..i])
    {
      m.Add(ZoneOverlay(zones[i]));
      assert ZoneOverlays(zones[..i + 1]) == ZoneOverlays(zones[..i]) + [ZoneOverlay(zones[i])];
      i := i + 1;
    }
    assert zones[..i] == zones;
  }

  /** `incidents.forEach(...)`: one marker per incident, in order. */
  method AttachIncidents(m: LeafletMap, incidents: seq<Incident>)
    modifies m
    ensures m.attached == old(m.attached) + IncidentOverlays(incidents)
    ensures m.view == old(m.view) && m.removed == old(m.removed)
  {
    var j := 0;
    while j < |incidents|
      invariant 0 <= j <= |incidents|
      invariant m.view == old(m.view) && m.removed == old(m.removed)
      invariant m.attached == old(m.attached) + IncidentOverlays(incidents[..j])
    {
      m.Add(IncidentOverlay(incidents[j]));
      assert IncidentOverlays(incidents[..j + 1]) == IncidentOverlays(incidents[..j]) + [IncidentOverlay(incidents[j])];
      j := j + 1;
    }
    assert incidents[..j] == incidents;
  }

  /** The component: its container element (present or not) and the mutable
      reference to the map it created. */
  class MapSection {
    var containerReady: bool
    var mapInstance: LeafletMap?

    /** A held map is always a live one. */
    ghost predicate Valid()
      reads this, mapInstance
    {
      mapInstance != null ==> !mapInstance.removed
    }

    constructor (containerReady: bool)
      ensures Valid()
      ensures this.containerReady == containerReady && mapInstance == null
    {
      this.containerReady := containerReady;
      mapInstance := null;
    }

    /** The effect body: builds the map only when the container exists and
        no map is held; otherwise it changes nothing (a held map keeps
        exactly what it had). */
    method Mount()
      requires Valid()
      modifies this
      ensures Valid()
      ensures containerReady == old(containerReady)
      ensures old(containerReady) && old(mapInstance) == null ==>
                mapInstance != null && fresh(mapInstance) &&
                mapInstance.view == Some(InitialView) &&
                mapInstance.attached == InitialOverlays()
      ensures !(old(containerReady) && old(mapInstance) == null) ==> mapInstance == old(mapInstance)
    {
      if containerReady && mapInstance == null {
        var m := new LeafletMap();
        m.SetView(InitialView);
        mapInstance := m;
        m.Add(SatelliteTiles);

        AttachZones(m, RiskZones());
        AttachIncidents(m, Incidents());
        m.Add(Scale);
      }
    }

    /** The cleanup closure: removes the held map and clears the reference;
        with no map held it does nothing, so a second cleanup is a no-op. */
    method Cleanup()
      requires Valid()
      modifies this, mapInstance
      ensures Valid()
      ensures mapInstance == null && containerReady == old(containerReady)
      ensures old(mapInstance) != null ==>
                old(mapInstance).removed && old(mapInstance).attached == [] &&
                old(mapInstance).view == old(mapInstance.view)
    {
      if mapInstance != null {
        mapInstance.Remove();
        mapInstance := null;
      }
    }
  }

  /** The setup, cleanup, setup order in which React's development mode
      runs an effect, with one extra cleanup in between to show that a
      second cleanup does nothing: the second mount builds a new map, and
      the first stays removed. */
  method RemountAfterCleanup() returns (first: LeafletMap, second: LeafletMap)
    ensures first != second && first.removed && first.attached == []
    ensures !second.removed && second.view == Some(InitialView) && second.attached == InitialOverlays()
  {
    var section := new MapSection(true);
    section.Mount();
    first := section.mapInstance;
    section.Cleanup();
    section.Cleanup();
    section.Mount();
    second := section.mapInstance;
  }
}
