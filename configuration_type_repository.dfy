/**
 * A repository that serves the objects of one type T out of the current game configuration,
 * with a lazily built id cache per configuration.
 *
 * The current configuration comes from the repository manager's current context; here it is the
 * parameter `context` of every operation (absent when there is no entity data context). The
 * collection selector's collection of each configuration is the field `collections`.
 */
module ConfigurationRepository {
  import opened Wrappers
  import opened Sequences

  datatype Guid = Guid(value: nat)

  datatype GameConfiguration = GameConfiguration(token: nat)

  /** An object of type T; `id` is present exactly when it is identifiable. Equality stands for reference equality. */
  datatype Entity = Entity(token: nat, id: Option<Guid>)

  /** An argument of `Delete(object)`: an object of type T, or of some other type. */
  datatype AnyObject = OfType(entity: Entity) | OtherType(token: nat)

  datatype Error =
    | InvalidOperation  // no current entity data context (InvalidOperationException)
    | InvalidData       // no cached object with the requested id (InvalidDataException)
    | DuplicateKey      // two identifiable objects share an id (ArgumentException of ToDictionary)

  datatype Unit = Unit

  type Index = map<Guid, Entity>

  /** The current game configuration, or the error raised when there is no entity data context. */
  function CurrentGameConfiguration(context: Option<GameConfiguration>): (r: Result<GameConfiguration, Error>)
    ensures r.Failure? <==> context.None?
    ensures r.Failure? ==> r.error == InvalidOperation
    ensures r.Success? ==> r.value == context.value
  {
    match context
    case None => Failure(InvalidOperation)
    case Some(configuration) => Success(configuration)
  }

  ghost predicate UniqueIds(items: seq<Entity>)
  {
    forall i, j :: 0 <= i < j < |items| && items[i].id.Some? ==> items[i].id != items[j].id
  }

  /**
   * The id index of a collection (`Where(item is IIdentifiable).ToDictionary(Id)`): every
   * identifiable object under its id; it fails when two of them share an id.
   */
  function BuildIndex(items: seq<Entity>): (r: Result<Index, Error>)
    ensures r.Success? <==> UniqueIds(items)
    ensures r.Failure? ==> r.error == DuplicateKey
    ensures r.Success? ==> forall g :: g in r.value <==> exists k :: 0 <= k < |items| && items[k].id == Some(g)
    ensures r.Success? ==> forall g :: g in r.value ==> r.value[g] in items && r.value[g].id == Some(g)
  {
    if |items| == 0 then Success(map[])
    else
      var prefix := items[..|items| - 1];
      var last := items[|items| - 1];
      assert items == prefix + [last];
      match BuildIndex(prefix)
      case Failure(e) =>
        assert !UniqueIds(prefix);
        Failure(e)
      case Success(index) =>
        if last.id.None? then
          Success(index)
        else if last.id.value in index then
          var k :| 0 <= k < |prefix| && prefix[k].id == last.id;
          assert items[k].id == items[|items| - 1].id;
          Failure(DuplicateKey)
        else
          Success(index[last.id.value := last])
  }

  /** The cached object for `id`, or the error raised when there is none. */
  function Lookup(index: Index, id: Guid): (r: Result<Entity, Error>)
    ensures r.Success? <==> id in index
    ensures r.Success? ==> r.value == index[id]
    ensures r.Failure? ==> r.error == InvalidData
  {
    if id in index then Success(index[id]) else Failure(InvalidData)
  }

  /**
   * The cache once the one of `configuration` is ensured: an existing cache is kept as it is;
   * otherwise the index of the configuration's collection is added, leaving the caches of other
   * configurations alone.
   */
  function EnsuredCache(cache: map<GameConfiguration, Index>, configuration: GameConfiguration, collection: seq<Entity>)
    : (r: Result<map<GameConfiguration, Index>, Error>)
    ensures configuration in cache ==> r == Success(cache)
    ensures configuration !in cache ==> (r.Success? <==> BuildIndex(collection).Success?)
    ensures r.Failure? ==> r.error == DuplicateKey
    ensures r.Success? ==> configuration in r.value && r.value.Keys == cache.Keys + {configuration}
    ensures configuration !in cache && r.Success? ==> r.value[configuration] == BuildIndex(collection).value
    ensures r.Success? ==> forall c :: c in cache ==> r.value[c] == cache[c]
  {
    if configuration in cache then Success(cache)
    else
      match BuildIndex(collection)
      case Failure(e) => Failure(e)
      case Success(index) => Success(cache[configuration := index])
  }

  class ConfigurationTypeRepository {
    /** The collection the selector returns for each configuration; one without an entry has an empty collection. */
    var collections: map<GameConfiguration, seq<Entity>>
    /** One id index per configuration. */
    var cache: map<GameConfiguration, Index>
    /** The collection each cached index was built from. */
    ghost var builtFrom: map<GameConfiguration, seq<Entity>>

    /** Every cached index is the index of the collection as it was when the index was built. */
    ghost predicate Valid()
      reads this
    {
      && cache.Keys == builtFrom.Keys
      && forall c :: c in cache ==> BuildIndex(builtFrom[c]) == Success(cache[c])
    }

    constructor (collections: map<GameConfiguration, seq<Entity>>)
      ensures Valid()
      ensures this.collections == collections && cache == map[]
    {
      this.collections := collections;
      cache := map[];
      builtFrom := map[];
    }

    function Collection(configuration: GameConfiguration): seq<Entity>
      reads this
    {
      if configuration in collections then collections[configuration] else []
    }

    /** All objects: the selector's collection of the current configuration. */
    function GetAll(context: Option<GameConfiguration>): (r: Result<seq<Entity>, Error>)
      reads this
      ensures context.None? ==> r == Failure(InvalidOperation)
      ensures context.Some? ==> r == Success(Collection(context.value))
    {
      var configuration :- CurrentGameConfiguration(context);
      Success(Collection(configuration))
    }

    method EnsureCacheForCurrentConfiguration(context: Option<GameConfiguration>) returns (r: Result<Unit, Error>)
      requires Valid()
      modifies this`cache, this`builtFrom
      ensures Valid()
      ensures context.None? ==> r == Failure(InvalidOperation) && cache == old(cache)
      ensures context.Some? ==>
        var ensured := EnsuredCache(old(cache), context.value, Collection(context.value));
        && (ensured.Failure? ==> r == Failure(ensured.error) && cache == old(cache))
        && (ensured.Success? ==> r == Success(Unit) && cache == ensured.value)
    {
      var configuration :- CurrentGameConfiguration(context);
      if configuration in cache {
        return Success(Unit);
      }
      var built := BuildIndex(Collection(configuration));
      if built.Failure? {
        return Failure(built.error);
      }
      cache := cache[configuration := built.value];
      builtFrom := builtFrom[configuration := Collection(configuration)];
      r := Success(Unit);
    }

    /** The object with the given id, looked up in the (ensured) cache of the current configuration. */
    method GetById(context: Option<GameConfiguration>, id: Guid) returns (r: Result<Entity, Error>)
      requires Valid()
      modifies this`cache, this`builtFrom
      ensures Valid()
      ensures context.None? ==> r == Failure(InvalidOperation) && cache == old(cache)
      ensures context.Some? ==>
        var ensured := EnsuredCache(old(cache), context.value, Collection(context.value));
        && (ensured.Failure? ==> r == Failure(ensured.error) && cache == old(cache))
        && (ensured.Success? ==> cache == ensured.value && r == Lookup(ensured.value[context.value], id))
    {
      var ensured := EnsureCacheForCurrentConfiguration(context);
      if ensured.Failure? {
        return Failure(ensured.error);
      }
      var configuration := context.value;
      r := Lookup(cache[configuration], id);
    }

    /**
     * Removes an object of type T from the current configuration's collection and says whether it
     * was there; an object of another type is refused before the context is consulted. The cache
     * is not touched, so a removed object stays cached under its id.
     */
    method Delete(context: Option<GameConfiguration>, obj: AnyObject) returns (r: Result<bool, Error>)
      requires Valid()
      modifies this`collections
      ensures Valid() && cache == old(cache)
      ensures obj.OtherType? ==> r == Success(false) && collections == old(collections)
      ensures obj.OfType? && context.None? ==> r == Failure(InvalidOperation) && collections == old(collections)
      ensures obj.OfType? && context.Some? ==>
        var c := context.value;
        && r == Success(obj.entity in old(Collection(c)))
        && Collection(c) == RemoveFirst(old(Collection(c)), obj.entity)
        && forall other :: other != c ==> Collection(other) == old(Collection(other))
    {
      match obj
      case OtherType(_) =>
        return Success(false);
      case OfType(item) =>
        var configuration :- CurrentGameConfiguration(context);
        var collection := Collection(configuration);
        r := Success(item in collection);
        if configuration in collections {
          collections := collections[configuration := RemoveFirst(collection, item)];
        }
    }

    /** Deletes the object with the given id, found through `GetById`: an unknown id raises its error. */
    method DeleteById(context: Option<GameConfiguration>, id: Guid) returns (r: Result<bool, Error>)
      requires Valid()
      modifies this`cache, this`builtFrom, this`collections
      ensures Valid()
      ensures context.None? ==> r == Failure(InvalidOperation) && cache == old(cache) && collections == old(collections)
      ensures context.Some? ==>
        var c := context.value;
        var ensured := EnsuredCache(old(cache), c, old(Collection(c)));
        && (ensured.Failure? ==> r == Failure(ensured.error) && cache == old(cache) && collections == old(collections))
        && (ensured.Success? ==> cache == ensured.value)
        && (ensured.Success? && id !in ensured.value[c] ==> r == Failure(InvalidData) && collections == old(collections))
        && (ensured.Success? && id in ensured.value[c] ==>
              var item := ensured.value[c][id];
              && r == Success(item in old(Collection(c)))
              && Collection(c) == RemoveFirst(old(Collection(c)), item)
              && forall other :: other != c ==> Collection(other) == old(Collection(other)))
    {
      var found := GetById(context, id);
      if found.Failure? {
        return Failure(found.error);
      }
      ghost var c := context.value;
      assert found.value == cache[c][id];
      assert Collection(c) == old(Collection(c));
      r := Delete(context, OfType(found.value));
    }
  }

  /** Once ensured, a configuration's cache is never rebuilt or replaced, whatever its collection has become. */
  lemma EnsuredCacheBuiltOnce(cache: map<GameConfiguration, Index>, configuration: GameConfiguration,
                              collection: seq<Entity>, later: seq<Entity>)
    requires EnsuredCache(cache, configuration, collection).Success?
    ensures var once := EnsuredCache(cache, configuration, collection).value;
      EnsuredCache(once, configuration, later) == Success(once)
  {
  }

  /** Deleting a cached object by id removes it from its collection and reports true. */
  method DeleteByIdRemoves()
  {
    var configuration := GameConfiguration(1);
    var item := Entity(7, Some(Guid(42)));
    var repository := new ConfigurationTypeRepository(map[configuration := [item]]);
    assert [item][..0] == [];
    var first := repository.DeleteById(Some(configuration), Guid(42));
    assert first == Success(true);
    assert repository.Collection(configuration) == [];
  }

  /**
   * A deleted object stays in the cache: deleting it by id a second time finds it and reports
   * false instead of raising, and `GetById` still returns it.
   */
  method StaleCacheAfterDelete()
  {
    var configuration := GameConfiguration(1);
    var item := Entity(7, Some(Guid(42)));
    var repository := new ConfigurationTypeRepository(map[configuration := [item]]);
    assert [item][..0] == [];
    var first := repository.DeleteById(Some(configuration), Guid(42));
    var second := repository.DeleteById(Some(configuration), Guid(42));
    assert second == Success(false);
    var stale := repository.GetById(Some(configuration), Guid(42));
    assert stale == Success(item);
  }

  /** An id that was never cached raises, and so does a call without an entity data context. */
  method DeleteByIdFailures()
  {
    var configuration := GameConfiguration(1);
    var item := Entity(7, Some(Guid(42)));
    var repository := new ConfigurationTypeRepository(map[configuration := [item]]);
    assert [item][..0] == [];
    var unknown := repository.DeleteById(Some(configuration), Guid(43));
    assert unknown == Failure(InvalidData);
    var outside := repository.DeleteById(None, Guid(42));
    assert outside == Failure(InvalidOperation);
  }
}
