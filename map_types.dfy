/**
 * The value types shared by the map store and the drawing handler:
 * positions, features and the state record of the map.
 */
module MapTypes {

  datatype Option<+T> = None | Some(value: T)

  /** A geographic position, latitude first. JavaScript numbers are modelled as exact reals. */
  datatype LatLng = LatLng(lat: real, lng: real)

  /** The `type` field of a feature; `RectangleKind` is declared but never produced. */
  datatype FeatureKind = PointKind | PolygonKind | RectangleKind

  /** The `coordinates` of a feature: one `[lat, lng]` pair, or a list of them (an open ring). */
  datatype Coordinates = Position(at: LatLng) | Path(vertices: seq<LatLng>)

  /** A creation time, kept opaque: it is supplied by the caller. */
  type Timestamp = int

  datatype Properties = Properties(name: string, description: Option<string>, createdAt: Timestamp)

  /** Feature identifiers. */
  type FeatureId = nat

  datatype Feature = Feature(id: FeatureId, kind: FeatureKind, coordinates: Coordinates, properties: Properties)

  /** A feature before the store has given it an id (`Omit<Feature, 'id'>`). */
  datatype Draft = Draft(kind: FeatureKind, coordinates: Coordinates, properties: Properties)

  /** The drawing tools; `None` as a selected tool means no tool. */
  datatype Tool = Pan | PointTool | PolygonTool | RectangleTool

  /** The two display layers that can be toggled. */
  datatype Layer = Satellite | DrawnFeatures

  datatype Layers = Layers(satellite: bool, drawnFeatures: bool)

  /** The whole state record of the map store. */
  datatype MapState = MapState(
    center: LatLng,
    zoom: real,
    layers: Layers,
    drawnFeatures: seq<Feature>,
    selectedTool: Option<Tool>,
    isLoading: bool)
}
