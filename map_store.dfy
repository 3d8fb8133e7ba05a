/**
 * The map store: one state record, actions that replace fields of it,
 * and the persisted subset (features and layers) saved under one key.
 */
module MapStore {
  import opened MapTypes

  /** The key under which the persisted subset is stored. */
  const StorageKey: string := "map-storage"

  /** The defaults every fresh store starts from. */
  function InitialState(): MapState
  {
    MapState(LatLng(51.478, 7.555), 10.0, Layers(true, true), [], None, false)
  }

  // ---------------------------------------------------------------------------
  // Layers

  function IsVisible(layers: Layers, l: Layer): bool
  {
    match l
    case Satellite => layers.satellite
    case DrawnFeatures => layers.drawnFeatures
  }

  /** The layer record with exactly `l` negated. */
  function Toggled(layers: Layers, l: Layer): (r: Layers)
    ensures IsVisible(r, l) == !IsVisible(layers, l)
    ensures forall other :: other != l ==> IsVisible(r, other) == IsVisible(layers, other)
  {
    match l
    case Satellite => layers.(satellite := !layers.satellite)
    case DrawnFeatures => layers.(drawnFeatures := !layers.drawnFeatures)
  }

  lemma ToggleTwiceRestores(layers: Layers, l: Layer)
    ensures Toggled(Toggled(layers, l), l) == layers
  {
  }

  // ---------------------------------------------------------------------------
  // Feature lists

  /** Some feature in the list carries the id. */
  ghost predicate HasId(fs: seq<Feature>, id: FeatureId)
  {
    exists i :: 0 <= i < |fs| && fs[i].id == id
  }

  /** No two features in the list share an id. */
  ghost predicate UniqueIds(fs: seq<Feature>)
  {
    forall i, j :: 0 <= i < j < |fs| ==> fs[i].id != fs[j].id
  }

  /** An id larger than every id in the list, so not used by any of them. */
  function FreshId(fs: seq<Feature>): (r: FeatureId)
    ensures forall i :: 0 <= i < |fs| ==> fs[i].id < r
    ensures !HasId(fs, r)
  {
    if fs == [] then 0
    else
      var rest := FreshId(fs[1..]);
      if rest <= fs[0].id then fs[0].id + 1 else rest
  }

  /** The draft turned into a feature with the given id. */
  function Stamped(d: Draft, id: FeatureId): Feature
  {
    Feature(id, d.kind, d.coordinates, d.properties)
  }

  /** The list after `addFeature(d)`: the draft appended under a fresh id. */
  function Added(fs: seq<Feature>, d: Draft): (r: seq<Feature>)
    ensures |r| == |fs| + 1 && r[..|fs|] == fs
    ensures r[|fs|].kind == d.kind && r[|fs|].coordinates == d.coordinates
    ensures r[|fs|].properties == d.properties
    ensures !HasId(fs, r[|fs|].id)
    ensures UniqueIds(fs) ==> UniqueIds(r)
  {
    fs + [Stamped(d, FreshId(fs))]
  }

  /** The list after `removeFeature(id)`: every feature whose id differs, in order. */
  function Without(fs: seq<Feature>, id: FeatureId): (r: seq<Feature>)
    ensures forall f :: f in r <==> f in fs && f.id != id
    ensures !HasId(fs, id) ==> r == fs
    ensures |r| <= |fs|
  {
    if fs == [] then []
    else if fs[0].id == id then Without(fs[1..], id)
    else [fs[0]] + Without(fs[1..], id)
  }

  /** Filtering distributes over concatenation, so it keeps the relative order of what it keeps. */
  lemma {:induction false} WithoutDistributes(a: seq<Feature>, b: seq<Feature>, id: FeatureId)
    ensures Without(a + b, id) == Without(a, id) + Without(b, id)
  {
    if a == [] {
      assert a + b == b;
    } else {
      assert (a + b)[0] == a[0];
      assert (a + b)[1..] == a[1..] + b;
      WithoutDistributes(a[1..], b, id);
    }
  }

  /** Removing an id keeps the ids unique. */
  lemma {:induction false} WithoutKeepsUnique(fs: seq<Feature>, id: FeatureId)
    requires UniqueIds(fs)
    ensures UniqueIds(Without(fs, id))
  {
    if fs != [] {
      var rest := Without(fs[1..], id);
      WithoutKeepsUnique(fs[1..], id);
      if fs[0].id != id {
        forall k | 0 <= k < |rest|
          ensures rest[k].id != fs[0].id
        {
          assert rest[k] in fs[1..];
        }
      }
    }
  }

  /** Removing the id of the one feature that carries it cuts exactly that feature out. */
  lemma {:induction false} WithoutSplice(front: seq<Feature>, f: Feature, back: seq<Feature>)
    requires !HasId(front, f.id) && !HasId(back, f.id)
    ensures Without(front + [f] + back, f.id) == front + back
  {
    var id := f.id;
    calc {
      Without(front + [f] + back, id);
      { WithoutDistributes(front + [f], back, id); }
      Without(front + [f], id) + Without(back, id);
      { WithoutDistributes(front, [f], id); }
      Without(front, id) + Without([f], id) + Without(back, id);
      { assert Without(front, id) == front; assert Without(back, id) == back; assert Without([f], id) == []; }
      front + [] + back;
    }
  }

  /** With unique ids, no feature before index k carries the id at index k. */
  lemma NoIdBefore(fs: seq<Feature>, k: nat)
    requires UniqueIds(fs) && k < |fs|
    ensures !HasId(fs[..k], fs[k].id)
  {
    var front := fs[..k];
    forall j | 0 <= j < |front| ensures front[j].id != fs[k].id {
      assert front[j] == fs[j];
    }
  }

  /** With unique ids, no feature after index k carries the id at index k. */
  lemma NoIdAfter(fs: seq<Feature>, k: nat)
    requires UniqueIds(fs) && k < |fs|
    ensures !HasId(fs[k + 1..], fs[k].id)
  {
    var back := fs[k + 1..];
    forall j | 0 <= j < |back| ensures back[j].id != fs[k].id {
      assert back[j] == fs[k + 1 + j];
    }
  }

  /** With unique ids, removing the id at index k is cutting out index k. */
  lemma RemoveAt(fs: seq<Feature>, k: nat)
    requires UniqueIds(fs) && k < |fs|
    ensures Without(fs, fs[k].id) == fs[..k] + fs[k + 1..]
  {
    var front, f, back := fs[..k], fs[k], fs[k + 1..];
    NoIdBefore(fs, k);
    NoIdAfter(fs, k);
    assert fs == front + [f] + back;
    calc {
      Without(fs, f.id);
      Without(front + [f] + back, f.id);
      { WithoutSplice(front, f, back); }
      front + back;
    }
  }

  /** Removing the id that `addFeature` just gave out restores the list. */
  lemma {:induction false} RemoveUndoesAdd(fs: seq<Feature>, d: Draft)
    ensures Without(Added(fs, d), FreshId(fs)) == fs
  {
    var id := FreshId(fs);
    WithoutDistributes(fs, [Stamped(d, id)], id);
  }

  /**
   * The list after `addFeature(d)` as the source writes it: the id is the clock reading
   * in milliseconds, which is not necessarily fresh.
   */
  function AddedAtClock(fs: seq<Feature>, d: Draft, now: nat): (r: seq<Feature>)
    ensures |r| == |fs| + 1 && r[..|fs|] == fs
    ensures r[|fs|].id == now && r[|fs|].kind == d.kind
    ensures r[|fs|].coordinates == d.coordinates && r[|fs|].properties == d.properties
    ensures HasId(fs, now) ==> !UniqueIds(r)
  {
    fs + [Stamped(d, now)]
  }

  /**
   * Two additions within the same millisecond share an id; removing the second one's id
   * then removes both, so remove does not undo add.
   */
  lemma SameMillisecondCollision(d: Draft, now: nat)
    ensures var once := AddedAtClock([], d, now);
      var twice := AddedAtClock(once, d, now);
      !UniqueIds(twice) && Without(twice, now) == [] && Without(twice, now) != once
  {
    var once := AddedAtClock([], d, now);
    var twice := AddedAtClock(once, d, now);
    assert twice[0].id == twice[1].id;
    WithoutDistributes(once, [Stamped(d, now)], now);
    assert Without([Stamped(d, now)], now) == [];
  }

  // ---------------------------------------------------------------------------
  // Toolbar

  /** Choosing the tool that is already active deselects it; any other choice selects it. */
  function ToolbarChoice(current: Option<Tool>, clicked: Tool): (r: Option<Tool>)
    ensures r == None <==> current == Some(clicked)
    ensures r != None ==> r == Some(clicked)
  {
    if current == Some(clicked) then None else Some(clicked)
  }

  // ---------------------------------------------------------------------------
  // Persistence

  /** The persisted subset of the state. */
  datatype PersistedRecord = PersistedRecord(drawnFeatures: seq<Feature>, layers: Layers)

  /** What durable storage holds under a key: a record, or text that does not parse. */
  datatype StoredValue = Parsed(record: PersistedRecord) | Unparsable

  type Storage = map<string, StoredValue>

  /** The subset of the state that is persisted. */
  function Partialize(s: MapState): PersistedRecord
  {
    PersistedRecord(s.drawnFeatures, s.layers)
  }

  /** The state at start-up: the defaults, overwritten by a stored record when one parses. */
  function Rehydrated(storage: Storage): (s: MapState)
    ensures s.center == InitialState().center && s.zoom == InitialState().zoom
    ensures s.selectedTool == None && !s.isLoading
    ensures (StorageKey !in storage || storage[StorageKey] == Unparsable) ==> s == InitialState()
    ensures StorageKey in storage && storage[StorageKey].Parsed? ==>
      s.drawnFeatures == storage[StorageKey].record.drawnFeatures &&
      s.layers == storage[StorageKey].record.layers
  {
    if StorageKey in storage && storage[StorageKey].Parsed? then
      var rec := storage[StorageKey].record;
      InitialState().(drawnFeatures := rec.drawnFeatures, layers := rec.layers)
    else
      InitialState()
  }

  /** Saving a state and starting again restores its features and layers, and only those. */
  lemma SaveThenLoad(s: MapState, storage: Storage)
    ensures Rehydrated(storage[StorageKey := Parsed(Partialize(s))]) ==
      InitialState().(drawnFeatures := s.drawnFeatures, layers := s.layers)
  {
  }

  // ---------------------------------------------------------------------------
  // The store

  class Store {
    var center: LatLng
    var zoom: real
    var layers: Layers
    var drawnFeatures: seq<Feature>
    var selectedTool: Option<Tool>
    var isLoading: bool

    /** The state record the fields make up. */
    function State(): MapState
      reads this
    {
      MapState(center, zoom, layers, drawnFeatures, selectedTool, isLoading)
    }

    constructor ()
      ensures State() == InitialState()
    {
      var init := InitialState();
      center, zoom, layers := init.center, init.zoom, init.layers;
      drawnFeatures, selectedTool, isLoading := init.drawnFeatures, init.selectedTool, init.isLoading;
    }

    /** A store at start-up, reading the persisted subset from storage. */
    constructor Rehydrate(storage: Storage)
      ensures State() == Rehydrated(storage)
    {
      var s := Rehydrated(storage);
      center := s.center;
      zoom := s.zoom;
      layers := s.layers;
      drawnFeatures := s.drawnFeatures;
      selectedTool := s.selectedTool;
      isLoading := s.isLoading;
    }

    method SetCenter(c: LatLng)
      modifies this
      ensures State() == old(State()).(center := c)
    {
      center := c;
    }

    method SetZoom(z: real)
      modifies this
      ensures State() == old(State()).(zoom := z)
    {
      zoom := z;
    }

    method ToggleLayer(l: Layer)
      modifies this
      ensures State() == old(State()).(layers := Toggled(old(layers), l))
    {
      layers := Toggled(layers, l);
    }

    method AddFeature(d: Draft) returns (id: FeatureId)
      modifies this
      ensures !HasId(old(drawnFeatures), id)
      ensures drawnFeatures == old(drawnFeatures) + [Stamped(d, id)]
      ensures State() == old(State()).(drawnFeatures := Added(old(drawnFeatures), d))
      ensures UniqueIds(old(drawnFeatures)) ==> UniqueIds(drawnFeatures)
    {
      id := FreshId(drawnFeatures);
      drawnFeatures := Added(drawnFeatures, d);
    }

    method RemoveFeature(id: FeatureId)
      modifies this
      ensures State() == old(State()).(drawnFeatures := Without(old(drawnFeatures), id))
      ensures UniqueIds(old(drawnFeatures)) ==> UniqueIds(drawnFeatures)
    {
      if UniqueIds(drawnFeatures) {
        WithoutKeepsUnique(drawnFeatures, id);
      }
      drawnFeatures := Without(drawnFeatures, id);
    }

    method SetSelectedTool(t: Option<Tool>)
      modifies this
      ensures State() == old(State()).(selectedTool := t)
    {
      selectedTool := t;
    }

    method SetLoading(b: bool)
      modifies this
      ensures State() == old(State()).(isLoading := b)
    {
      isLoading := b;
    }

    method ClearAllFeatures()
      modifies this
      ensures State() == old(State()).(drawnFeatures := [])
    {
      drawnFeatures := [];
    }

    /** A toolbar button press: select the tool, or deselect it when it is already active. */
    method SelectFromToolbar(t: Tool)
      modifies this
      ensures State() == old(State()).(selectedTool := ToolbarChoice(old(selectedTool), t))
    {
      SetSelectedTool(ToolbarChoice(selectedTool, t));
    }

    /** Writes the persisted subset under the storage key; other keys are left alone. */
    method Save(storage: Storage) returns (written: Storage)
      ensures written.Keys == storage.Keys + {StorageKey}
      ensures written[StorageKey] == Parsed(PersistedRecord(drawnFeatures, layers))
      ensures forall k :: k in storage && k != StorageKey ==> written[k] == storage[k]
    {
      written := storage[StorageKey := Parsed(Partialize(State()))];
    }
  }

  /**
   * Save a store, then start a new one from that storage: features and layers come back,
   * the view, the tool and the loading flag are the defaults again.
   */
  method Reload(store: Store, storage: Storage) returns (s: MapState)
    ensures s == InitialState().(drawnFeatures := store.drawnFeatures, layers := store.layers)
  {
    var written := store.Save(storage);
    var reloaded := new Store.Rehydrate(written);
    s := reloaded.State();
  }

  /** Adding then removing the new id gives back the store's previous features. */
  method AddThenRemove(store: Store, d: Draft) returns (before: seq<Feature>, after: seq<Feature>)
    modifies store
    ensures before == old(store.drawnFeatures) && after == store.drawnFeatures
    ensures before == after
    ensures store.State() == old(store.State())
  {
    before := store.drawnFeatures;
    var id := store.AddFeature(d);
    RemoveUndoesAdd(before, d);
    store.RemoveFeature(id);
    after := store.drawnFeatures;
  }
}
