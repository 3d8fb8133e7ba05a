/**
 * The drawing handler: the state machine that turns map clicks, double-clicks
 * and right-clicks into features, driven by the store's selected tool.
 * It owns the buffer of polygon vertices clicked so far and whether the dashed
 * preview outline is on the map; everything it commits goes through the store.
 */
module Drawing {
  import opened MapTypes
  import opened MapStore

  /** The pointer events the handler can listen to. */
  datatype PointerEvent = Click | DoubleClick | ContextMenu

  /** The listeners attached for a selected tool: none at all unless it is a drawing tool. */
  function Listeners(tool: Option<Tool>): (r: set<PointerEvent>)
    ensures Click in r <==> tool == Some(PointTool) || tool == Some(PolygonTool)
    ensures DoubleClick in r <==> tool == Some(PolygonTool)
    ensures ContextMenu in r <==> tool == Some(PolygonTool)
  {
    match tool
    case Some(PointTool) => {Click}
    case Some(PolygonTool) => {Click, DoubleClick, ContextMenu}
    case _ => {}
  }

  /** The feature a point-tool click commits. */
  function PointDraft(at: LatLng, name: string, createdAt: Timestamp): Draft
  {
    Draft(PointKind, Position(at), Properties(name, None, createdAt))
  }

  /** The feature a finished polygon commits: its vertices in click order. */
  function PolygonDraft(vertices: seq<LatLng>, name: string, createdAt: Timestamp): Draft
  {
    Draft(PolygonKind, Path(vertices), Properties(name, None, createdAt))
  }

  class DrawingHandler {
    const store: Store
    /** The polygon vertices clicked so far. */
    var polygonPoints: seq<LatLng>
    /** Whether the dashed preview polygon is on the map. */
    var previewShown: bool

    /** The preview is on the map exactly when at least two vertices are buffered. */
    ghost predicate Valid()
      reads this
    {
      previewShown <==> |polygonPoints| >= 2
    }

    constructor (store: Store)
      ensures Valid() && this.store == store
      ensures polygonPoints == [] && !previewShown
    {
      this.store := store;
      polygonPoints := [];
      previewShown := false;
    }

    /** Removes the preview and empties the vertex buffer. */
    method ClearDrawing()
      modifies this
      ensures Valid()
      ensures polygonPoints == [] && !previewShown
    {
      previewShown := false;
      polygonPoints := [];
    }

    /**
     * A click at `at`. With the point tool it commits a point there; with the polygon
     * tool it appends `at` to the buffer; with any other tool nothing listens.
     */
    method OnClick(at: LatLng, name: string, createdAt: Timestamp)
      requires Valid()
      modifies this, store
      ensures Valid()
      ensures old(store.selectedTool) == Some(PointTool) ==>
        store.State() == old(store.State()).(drawnFeatures := Added(old(store.drawnFeatures), PointDraft(at, name, createdAt))) &&
        polygonPoints == old(polygonPoints)
      ensures old(store.selectedTool) == Some(PolygonTool) ==>
        store.State() == old(store.State()) &&
        polygonPoints == old(polygonPoints) + [at]
      ensures Click !in Listeners(old(store.selectedTool)) ==>
        store.State() == old(store.State()) && polygonPoints == old(polygonPoints) && previewShown == old(previewShown)
    {
      if store.selectedTool == Some(PointTool) {
        var _ := store.AddFeature(PointDraft(at, name, createdAt));
      } else if store.selectedTool == Some(PolygonTool) {
        var newPoints := polygonPoints + [at];
        polygonPoints := newPoints;
        if previewShown {
          previewShown := false;
        }
        if |newPoints| >= 2 {
          previewShown := true;
        }
      }
    }

    /**
     * A double-click. With the polygon tool and at least three buffered vertices it commits
     * the polygon, clears the drawing and deselects the tool; otherwise nothing changes.
     */
    method OnDoubleClick(name: string, createdAt: Timestamp)
      requires Valid()
      modifies this, store
      ensures Valid()
      ensures old(store.selectedTool) == Some(PolygonTool) && |old(polygonPoints)| >= 3 ==>
        store.State() == old(store.State()).(
          drawnFeatures := Added(old(store.drawnFeatures), PolygonDraft(old(polygonPoints), name, createdAt)),
          selectedTool := None) &&
        polygonPoints == [] && !previewShown
      ensures !(old(store.selectedTool) == Some(PolygonTool) && |old(polygonPoints)| >= 3) ==>
        store.State() == old(store.State()) && polygonPoints == old(polygonPoints) && previewShown == old(previewShown)
    {
      if store.selectedTool == Some(PolygonTool) && |polygonPoints| >= 3 {
        var _ := store.AddFeature(PolygonDraft(polygonPoints, name, createdAt));
        ClearDrawing();
        store.SetSelectedTool(None);
      }
    }

    /**
     * A right-click. With the polygon tool and a non-empty buffer it discards the drawing
     * and keeps the tool armed; otherwise nothing changes. It never touches the store.
     */
    method OnContextMenu()
      requires Valid()
      modifies this
      ensures Valid()
      ensures old(store.selectedTool) == Some(PolygonTool) && |old(polygonPoints)| > 0 ==>
        polygonPoints == [] && !previewShown
      ensures !(old(store.selectedTool) == Some(PolygonTool) && |old(polygonPoints)| > 0) ==>
        polygonPoints == old(polygonPoints) && previewShown == old(previewShown)
    {
      if store.selectedTool == Some(PolygonTool) && |polygonPoints| > 0 {
        ClearDrawing();
      }
    }

    /**
     * A change of the selected tool. The listeners of the previous tool are detached, and
     * their cleanup clears the drawing unless that previous tool was the polygon tool.
     */
    method SelectTool(t: Option<Tool>)
      requires Valid()
      modifies this, store
      ensures Valid()
      ensures store.State() == old(store.State()).(selectedTool := t)
      ensures t != old(store.selectedTool) && old(store.selectedTool) != Some(PolygonTool) ==>
        polygonPoints == [] && !previewShown
      ensures t == old(store.selectedTool) || old(store.selectedTool) == Some(PolygonTool) ==>
        polygonPoints == old(polygonPoints) && previewShown == old(previewShown)
      ensures t == Some(PolygonTool) && t != old(store.selectedTool) ==> polygonPoints == []
    {
      var previous := store.selectedTool;
      store.SetSelectedTool(t);
      if t != previous && previous != Some(PolygonTool) {
        ClearDrawing();
      }
    }

    /**
     * A toolbar button press, which selects the tool or deselects it when already active.
     * Either way the tool changes, so the drawing is cleared unless the polygon tool was active.
     */
    method ToolbarPress(t: Tool)
      requires Valid()
      modifies this, store
      ensures Valid()
      ensures store.State() == old(store.State()).(selectedTool := ToolbarChoice(old(store.selectedTool), t))
      ensures old(store.selectedTool) != Some(PolygonTool) ==> polygonPoints == [] && !previewShown
      ensures old(store.selectedTool) == Some(PolygonTool) ==>
        polygonPoints == old(polygonPoints) && previewShown == old(previewShown)
    {
      SelectTool(ToolbarChoice(store.selectedTool, t));
    }
  }

  // ---------------------------------------------------------------------------
  // Scenarios: a fresh store and handler fed a sequence of events

  /** Arm the polygon tool, click three corners and double-click: one polygon, tool reset. */
  method PolygonHappyPath() returns (features: seq<Feature>, tool: Option<Tool>, buffer: seq<LatLng>)
    ensures |features| == 1 && features[0].kind == PolygonKind
    ensures features[0].coordinates == Path([LatLng(0.0, 0.0), LatLng(4.0, 0.0), LatLng(0.0, 3.0)])
    ensures tool == None && buffer == []
  {
    var store := new Store();
    var handler := new DrawingHandler(store);
    handler.ToolbarPress(PolygonTool);
    handler.OnClick(LatLng(0.0, 0.0), "", 0);
    handler.OnClick(LatLng(4.0, 0.0), "", 0);
    handler.OnClick(LatLng(0.0, 3.0), "", 0);
    assert handler.polygonPoints == [LatLng(0.0, 0.0), LatLng(4.0, 0.0), LatLng(0.0, 3.0)];
    handler.OnDoubleClick("Polygon", 0);
    features, tool, buffer := store.drawnFeatures, store.selectedTool, handler.polygonPoints;
  }

  /** Arm the polygon tool, click twice and right-click: nothing committed, tool still armed. */
  method PolygonCancel() returns (features: seq<Feature>, tool: Option<Tool>, buffer: seq<LatLng>)
    ensures features == [] && tool == Some(PolygonTool) && buffer == []
  {
    var store := new Store();
    var handler := new DrawingHandler(store);
    handler.ToolbarPress(PolygonTool);
    handler.OnClick(LatLng(0.0, 0.0), "", 0);
    handler.OnClick(LatLng(4.0, 0.0), "", 0);
    handler.OnContextMenu();
    features, tool, buffer := store.drawnFeatures, store.selectedTool, handler.polygonPoints;
  }

  /** Arm the polygon tool, click twice and double-click: too few vertices, nothing changes. */
  method PolygonUnderCount() returns (features: seq<Feature>, tool: Option<Tool>, buffer: seq<LatLng>)
    ensures features == [] && tool == Some(PolygonTool)
    ensures buffer == [LatLng(0.0, 0.0), LatLng(4.0, 0.0)]
  {
    var store := new Store();
    var handler := new DrawingHandler(store);
    handler.ToolbarPress(PolygonTool);
    handler.OnClick(LatLng(0.0, 0.0), "", 0);
    handler.OnClick(LatLng(4.0, 0.0), "", 0);
    assert |handler.polygonPoints| == 2 && store.drawnFeatures == [];
    handler.OnDoubleClick("Polygon", 0);
    features, tool, buffer := store.drawnFeatures, store.selectedTool, handler.polygonPoints;
  }

  /** Arm the point tool and click twice: two points with distinct ids, the tool stays armed. */
  method RepeatedPoints() returns (features: seq<Feature>, tool: Option<Tool>)
    ensures |features| == 2 && features[0].id != features[1].id
    ensures features[0].kind == PointKind && features[0].coordinates == Position(LatLng(1.0, 2.0))
    ensures features[1].kind == PointKind && features[1].coordinates == Position(LatLng(3.0, 4.0))
    ensures tool == Some(PointTool)
  {
    var store := new Store();
    var handler := new DrawingHandler(store);
    handler.ToolbarPress(PointTool);
    handler.OnClick(LatLng(1.0, 2.0), "Point", 0);
    handler.OnClick(LatLng(3.0, 4.0), "Point", 1);
    features, tool := store.drawnFeatures, store.selectedTool;
  }
}
