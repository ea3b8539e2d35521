/** The PluckFromStore property decorator: while a component class is being
    defined, each decorated property appends a record to a per-class metadata
    list, which the component's constructor later reads and deletes. */
module PluckFromStore {
  import opened Wrappers

  /** A store class, known by its name. */
  datatype StoreType = StoreType(name: string)

  /** The options object. A member left out of an options object that is
      passed is `undefined`; only when no options object is passed at all do
      the defaults `traversalKey: null` and `logInfo: false` apply. */
  datatype PluckOptions = PluckOptions(traversalKey: Option<string>, logInfo: Option<bool>)

  /** One recorded decorated property. `None` stands for both `null` and
      `undefined`, and `logInfo` is read by truthiness only. */
  datatype PluckMetadata = PluckMetadata(
    propertyKey: string,
    storeType: StoreType,
    traversalKey: Option<string>,
    logInfo: bool)

  /** The object metadata is attached to: a component class's prototype, or
      one instance of it. */
  datatype MetadataTarget = Prototype(cls: string) | Instance(cls: string, id: nat)

  /** The record one decoration produces. */
  function Record(propertyKey: string, storeType: StoreType, options: Option<PluckOptions>): (m: PluckMetadata)
    ensures m.propertyKey == propertyKey && m.storeType == storeType
    ensures options.None? ==> m.traversalKey == None && !m.logInfo
    ensures options.Some? ==> m.traversalKey == options.value.traversalKey
    ensures options.Some? ==> (m.logInfo <==> options.value.logInfo == Some(true))
  {
    match options
    case None => PluckMetadata(propertyKey, storeType, None, false)
    case Some(o) => PluckMetadata(propertyKey, storeType, o.traversalKey, o.logInfo == Some(true))
  }

  /** `Reflect.getMetadata` on a target: its own list, or else, for an
      instance, its class prototype's. */
  function Lookup(lists: map<MetadataTarget, seq<PluckMetadata>>, target: MetadataTarget): (r: Option<seq<PluckMetadata>>)
    ensures target in lists ==> r == Some(lists[target])
    ensures target !in lists && target.Prototype? ==> r == None
    ensures target !in lists && target.Instance? ==>
      r == (if Prototype(target.cls) in lists then Some(lists[Prototype(target.cls)]) else None)
  {
    if target in lists then Some(lists[target])
    else if target.Instance? && Prototype(target.cls) in lists then Some(lists[Prototype(target.cls)])
    else None
  }

  /** The reflect-metadata store for the pluck metadata key. */
  class MetadataRegistry {
    var lists: map<MetadataTarget, seq<PluckMetadata>>

    constructor()
      ensures lists == map[]
    {
      lists := map[];
    }

    /** `PluckFromStore(storeType, options)` applied to property `propertyKey`
        of class `cls`: the first decoration of a class creates its list
        holding just this record; later ones push onto it, keeping declaration
        order. No other list changes. */
    method Decorate(cls: string, propertyKey: string, storeType: StoreType, options: Option<PluckOptions>)
      modifies this
      ensures Prototype(cls) !in old(lists) ==> lists == old(lists)[Prototype(cls) := [Record(propertyKey, storeType, options)]]
      ensures Prototype(cls) in old(lists) ==>
        lists == old(lists)[Prototype(cls) := old(lists)[Prototype(cls)] + [Record(propertyKey, storeType, options)]]
    {
      var properties := Lookup(lists, Prototype(cls));
      var record := Record(propertyKey, storeType, options);
      if properties.Some? {
        lists := lists[Prototype(cls) := properties.value + [record]];
      } else {
        lists := lists[Prototype(cls) := [record]];
      }
    }

    /** `getPluckFromComponentProperties(origin)`: the list as read, then the
        metadata defined on `origin` itself is deleted. */
    method GetPluckFromComponentProperties(origin: MetadataTarget) returns (r: Option<seq<PluckMetadata>>)
      modifies this
      ensures r == Lookup(old(lists), origin)
      ensures lists == old(lists) - {origin}
    {
      r := Lookup(lists, origin);
      lists := lists - {origin};
    }
  }

  /** Decorating the properties of one class in declaration order records
      them in that order, and reading the list from an instance returns it. */
  method DecoratedInOrder() returns (read: Option<seq<PluckMetadata>>)
    ensures read == Some([PluckMetadata("results", StoreType("ResultsStateStore"), Some("results"), true),
                          PluckMetadata("names", StoreType("NameStore"), None, false)])
  {
    var registry := new MetadataRegistry();
    registry.Decorate("ListViewComponent", "results", StoreType("ResultsStateStore"), Some(PluckOptions(Some("results"), Some(true))));
    assert registry.lists == map[Prototype("ListViewComponent") := [PluckMetadata("results", StoreType("ResultsStateStore"), Some("results"), true)]];
    registry.Decorate("ListViewComponent", "names", StoreType("NameStore"), None);
    assert registry.lists == map[Prototype("ListViewComponent") :=
      [PluckMetadata("results", StoreType("ResultsStateStore"), Some("results"), true)] +
      [PluckMetadata("names", StoreType("NameStore"), None, false)]];
    ghost var before := registry.lists;
    read := registry.GetPluckFromComponentProperties(Instance("ListViewComponent", 0));
    assert Instance("ListViewComponent", 0) !in before;
    assert read == Some(before[Prototype("ListViewComponent")]);
    assert read.value == [PluckMetadata("results", StoreType("ResultsStateStore"), Some("results"), true),
                          PluckMetadata("names", StoreType("NameStore"), None, false)];
  }
}
