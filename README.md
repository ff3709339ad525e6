# OpenMU game server core: item power-ups, configuration repository, TCP game server listener

This project models three parts of the OpenMU game server and proves properties of them.

- **Item power-up factory** (`item_power_up_factory.dfy`, module `ItemPowerUpFactory`). It computes the
  power-ups an equipped item grants:
  - one base value per base attribute of the item definition;
  - the level bonus of the item's level, when one exists;
  - the power-ups of the item's options, where an option link above level 1 uses the option's
    level-dependent definition.

  It also computes the set bonuses of the worn items: every distinct set group worn on an intact item
  contributes all of its options when it always applies. Otherwise it contributes its first
  `itemCount - 1` options, once `itemCount` reaches the group's minimum item count.
  The factory is pure, so it is modelled as functions and lemmas. `GetSetPowerUps` keeps its loop, as
  a method proved against the fold `SetDefinitions`.
- **Configuration type repository** (`configuration_type_repository.dfy`, module `ConfigurationRepository`).
  It is the repository of one data type inside the current game configuration. It offers `GetAll`,
  `GetById` through an id cache that is built once for each configuration, `Delete(object)` and
  `Delete(id)`. It is a class whose fields are the configurations' collections and the cache. A ghost
  field records the collection each cache entry was built from.
- **TCP game server listener** (`tcp_game_server_listener.dfy`, module `TcpGameServerListener`).
  - `Start` binds the listener, registers the server at the connect server and launches the accept loop.
  - `Stop` unregisters the server and unbinds the listener.
  - The accept loop handles one socket after the other for as long as the listener is bound.
  - A socket is refused and disposed, or granted a player id and wired to a connection and a player.

  The listener is a class with flags for "has a listener" and "is bound", and a trace of everything
  it does to the outside: the socket layer, the connect server and the event subscribers. A call of
  the subscribers is recorded, while their answer is an input; a connect-server call that raises is
  recorded with the call that raised.

Two helper modules hold the wrappers for null and exceptions (`wrappers.dfy`) and the LINQ and
collection operations the code uses (`sequences.dfy`).

### External inputs

What the model cannot see is a parameter:

- `expand` stands for `PowerUpWrapper.CreateByPowerUpDefintion` together with the attribute holder.
- The equippable slot range is `EquippableSlots`.
- `context` is the repository manager's current context.
- `publicAddress` is the result of the public IP resolver.
- `registrationFails` and `unregistrationFails` say whether the connect-server call raised.
- The accept loop reads a list of `AcceptStep`s, one per turn:
  - what the accept produced;
  - the player-id request as the subscribers answer it;
  - whether another caller's `Stop` completed meanwhile.

### Behaviour of the code worth noting

The model follows the code as written in each of these cases.

- **No player-id subscriber.** With no subscriber to the player-id request, the request arguments are
  left untouched, so the socket is granted with id 0, not refused (`RequestPlayerId`,
  `UnsubscribedRequestGrantsIdZero`). `RequestPlayerIdEventArgs` is not part of this model: its fresh
  instance is assumed not cancelled, as a `CancelEventArgs`, with `PlayerId` at the `ushort` default
  of 0 (`FreshRequestArgs`).
- **Registration failure.** A registration at the connect server that raises leaves `Start` after the
  listener is bound and before the accept loop is launched (`FailedRegistration`):
  - the server then accepts no client;
  - a later `Start` does nothing, because the listener is already bound.
- **Accept errors.** An accept that raises, whether because the listener was disposed or for any
  other reason, ends the current accept loop (`AcceptLoopRule`). No client is accepted until a
  `Stop` unbinds the listener and a later `Start` launches a new loop.
- **Set item count.** The code counts every worn item whose level reaches the group's minimum
  set level (`SetItemCountSpec`):
  - whether or not the item belongs to the group;
  - whatever its durability.
- **Stale cache.** `Delete` removes the object from the collection but not from the id cache. A
  deleted object is therefore still returned by `GetById`, and deleting it by id again reports `false`
  (`StaleCacheAfterDelete`).

## Model

| member | source | states |
|---|---|---|
| Sequences.Distinct | src/GameLogic/ItemPowerUpFactory.cs:71 | The result holds exactly the elements of the input, each once, and is no longer than the input. |
| Sequences.NoDuplicatesCardinality | src/GameLogic/ItemPowerUpFactory.cs:85 | A duplicate-free list has exactly as many different elements as it has elements, so `Distinct().Count()` counts the different elements. |
| Sequences.Take | src/GameLogic/ItemPowerUpFactory.cs:88 | The result is a prefix of the input. Its length is 0 for a count of zero or less, the count when it is below the length, and the whole length otherwise. |
| Sequences.RemoveFirst | src/Persistence/EntityFramework/ConfigurationTypeRepository.cs:76 | An absent element leaves the list unchanged. A present one is dropped at its first occurrence, and the multiset loses exactly one copy of it. |
| ItemPowerUpFactory.FirstAtLevel | src/GameLogic/ItemPowerUpFactory.cs:109 | `FirstOrDefault` on a level returns the first index whose level matches, or none exactly when no element matches. |
| ItemPowerUpFactory.LevelBonusOf | src/GameLogic/ItemPowerUpFactory.cs:40 | A null bonus list counts as empty. A bonus is found exactly when one for that level exists; it is the first one and carries that level. |
| ItemPowerUpFactory.HasLevelBonus | src/GameLogic/ItemPowerUpFactory.cs:38-41 | The definition of the guard for a level bonus: the item has a level above 0 and a bonus for that level exists. `AttributePowerUpsShape`, `BasePowerUpsAt` and `LevelBonusCountBounds` are stated through it. |
| ItemPowerUpFactory.LevelBonusCountBounds | src/GameLogic/ItemPowerUpFactory.cs:38-45 | At most one level bonus per attribute, and none for an item of level 0 or less. |
| ItemPowerUpFactory.AttributePowerUps | src/GameLogic/ItemPowerUpFactory.cs:35-46 | The definition of one attribute's power-ups: its base value, then its level bonus when the item has a level and a bonus for it exists. `AttributePowerUpsShape` states its length and elements. |
| ItemPowerUpFactory.BasePowerUps | src/GameLogic/ItemPowerUpFactory.cs:35-46 | The definition of the base power-ups: the attributes' power-ups in definition order. `BasePowerUpsLength` and `BasePowerUpsAt` state their count and layout. |
| ItemPowerUpFactory.BasePowerUpsLength | src/GameLogic/ItemPowerUpFactory.cs:35-46 | The base power-ups number the attributes plus the applying level bonuses: between one and two per attribute, exactly one per attribute below level 1. |
| ItemPowerUpFactory.BasePowerUpsAt | src/GameLogic/ItemPowerUpFactory.cs:35-46 | At each attribute's offset stands its base value for its target attribute, directly followed by its level bonus when one applies. The next attribute starts right after that. |
| ItemPowerUpFactory.LinkDefinition | src/GameLogic/ItemPowerUpFactory.cs:104-117 | A link of level 1 or less uses the option's own definition. A higher link uses its first level-dependent option of that level. It is skipped exactly when the option is not increasable or has no such level. |
| ItemPowerUpFactory.LinkDefinitions | src/GameLogic/ItemPowerUpFactory.cs:102-118 | No more definitions than links. When no link is above level 1, exactly the options' own definitions, in link order. |
| ItemPowerUpFactory.LinkDefinitionsOfOne | src/GameLogic/ItemPowerUpFactory.cs:104-117 | A single link contributes its own definition, or nothing when it is skipped. |
| ItemPowerUpFactory.LinkDefinitionsAppend | src/GameLogic/ItemPowerUpFactory.cs:102-118 | The links are processed one after the other: the definitions of concatenated link lists are the concatenation of their definitions. |
| ItemPowerUpFactory.LinkDefinitionsMembers | src/GameLogic/ItemPowerUpFactory.cs:102-118 | A definition is contributed exactly when some link of the list contributes it. |
| ItemPowerUpFactory.LinkPowerUps | src/GameLogic/ItemPowerUpFactory.cs:102-123 | The definition of the option loop: each link's definition expanded, skipped links contributing nothing. `LinkPowerUpsExpandDefinitions` and `LinkPowerUpsAppend` state its properties. |
| ItemPowerUpFactory.OptionPowerUps | src/GameLogic/ItemPowerUpFactory.cs:97-100 | A null option list yields no power-up. |
| ItemPowerUpFactory.LinkPowerUpsExpandDefinitions | src/GameLogic/ItemPowerUpFactory.cs:102-123 | The option power-ups are the expansions of the contributed definitions, in link order. |
| ItemPowerUpFactory.LinkPowerUpsAppend | src/GameLogic/ItemPowerUpFactory.cs:102-123 | The options of two link lists, one after the other, give the concatenation of their power-ups. |
| ItemPowerUpFactory.ExpandAll | src/GameLogic/ItemPowerUpFactory.cs:92 | The definition of the final `SelectMany(p => CreateByPowerUpDefintion(p, attributeHolder))`: each definition expanded, in order. `ExpandAllAppend` states its properties; `GetSetPowerUps` and `LinkPowerUpsExpandDefinitions` are stated through it. |
| ItemPowerUpFactory.ExpandAllAppend | src/GameLogic/ItemPowerUpFactory.cs:92 | Expanding two definition lists one after the other gives the concatenation of their expansions. |
| ItemPowerUpFactory.GetPowerUps | src/GameLogic/ItemPowerUpFactory.cs:21-33 | An item without durability, one outside the equippable slots, or one without a definition grants no power-up. |
| ItemPowerUpFactory.GetPowerUpsLayout | src/GameLogic/ItemPowerUpFactory.cs:33-52 | For an intact, equipped item with a definition, the power-ups are the base attributes' power-ups followed by the option power-ups. The split point is the attribute count plus the applying level bonuses. |
| ItemPowerUpFactory.WornSetGroupsMembership | src/GameLogic/ItemPowerUpFactory.cs:67-70 | A group is among the worn groups exactly when some worn item with durability above zero lists it. |
| ItemPowerUpFactory.ContributesGroup | src/GameLogic/ItemPowerUpFactory.cs:68-70 | The definition of the filters over the worn items: durability above 0, a non-null group list, and the group in it. `WornSetGroupsMembership`, `ActiveSetGroupsSpec` and `SetDefinitionSource` are stated through it. |
| ItemPowerUpFactory.WornSetGroups | src/GameLogic/ItemPowerUpFactory.cs:67-70 | The definition of the `Where`/`SelectMany` over the worn items. `WornSetGroupsAppend` and `WornSetGroupsMembership` state its properties. |
| ItemPowerUpFactory.WornSetGroupsAppend | src/GameLogic/ItemPowerUpFactory.cs:70 | `SelectMany` over two item lists, one after the other, gives the concatenation of their groups. |
| ItemPowerUpFactory.ActiveSetGroups | src/GameLogic/ItemPowerUpFactory.cs:67-71 | The definition of `itemGroups`: the worn groups without duplicates. `ActiveSetGroupsSpec` states its properties. |
| ItemPowerUpFactory.ActiveSetGroupsSpec | src/GameLogic/ItemPowerUpFactory.cs:67-71 | A group is processed exactly when an intact worn item lists it, and no group is processed twice. |
| ItemPowerUpFactory.DefinitionsAtLevel | src/GameLogic/ItemPowerUpFactory.cs:83 | The items at the minimum set level give no more definitions than there are worn items. |
| ItemPowerUpFactory.DefinitionsAtLevelMembers | src/GameLogic/ItemPowerUpFactory.cs:83 | A definition is counted exactly when some worn item whose level reaches the minimum set level has it. |
| ItemPowerUpFactory.DefinitionsAtLevelAppend | src/GameLogic/ItemPowerUpFactory.cs:83 | The counted definitions of two item lists, one after the other, are those of their concatenation. |
| ItemPowerUpFactory.DefinitionsAtLevelCount | src/GameLogic/ItemPowerUpFactory.cs:83 | One definition is counted per worn item whose level reaches the minimum set level. |
| ItemPowerUpFactory.SetItemCount | src/GameLogic/ItemPowerUpFactory.cs:83-85 | The count is the number of items at the minimum set level, or at most that number when distinct definitions are counted. It never exceeds the worn item count. |
| ItemPowerUpFactory.SetItemCountSpec | src/GameLogic/ItemPowerUpFactory.cs:83-85 | The count is the number of worn items whose level reaches the minimum set level; for a group that counts distinct items, it is the number of different definitions among those items. |
| ItemPowerUpFactory.OptionDefinitions | src/GameLogic/ItemPowerUpFactory.cs:78 | One definition per option, in option order. |
| ItemPowerUpFactory.GroupDefinitions | src/GameLogic/ItemPowerUpFactory.cs:76-89 | The definition of one iteration of the group loop. `GroupDefinitionsSpec` states its properties. |
| ItemPowerUpFactory.SetDefinitions | src/GameLogic/ItemPowerUpFactory.cs:73-90 | The definition of `result` after the loop: the groups' definitions, one group after the other. `SetDefinitionsBound`, `SetDefinitionsFromGroups` and `SetDefinitionSource` state its properties, and `GetSetPowerUps` is proved against it. |
| ItemPowerUpFactory.GroupDefinitionsSpec | src/GameLogic/ItemPowerUpFactory.cs:76-89 | Always a prefix of the group's option definitions: all of them when the group always applies, none below the minimum count, and otherwise `itemCount - 1` of them, limited to the option count. |
| ItemPowerUpFactory.SetDefinitionsBound | src/GameLogic/ItemPowerUpFactory.cs:73-90 | The processed groups together contribute no more definitions than they have options. |
| ItemPowerUpFactory.SetDefinitionsFromGroups | src/GameLogic/ItemPowerUpFactory.cs:73-90 | Every accumulated definition is an option of one of the processed groups. |
| ItemPowerUpFactory.ActiveGroupOptionSource | src/GameLogic/ItemPowerUpFactory.cs:67-78 | An option of a processed group is an option of a group that an intact worn item lists. |
| ItemPowerUpFactory.SetDefinitionSource | src/GameLogic/ItemPowerUpFactory.cs:65-93 | A set bonus is only ever an option of a set group that an intact worn item lists. |
| ItemPowerUpFactory.GetSetPowerUps | src/GameLogic/ItemPowerUpFactory.cs:65-93 | The loop over the distinct groups returns the expansion of the definitions that the groups contribute in order, one group after the other. |
| ConfigurationRepository.CurrentGameConfiguration | src/Persistence/EntityFramework/ConfigurationTypeRepository.cs:117-126 | Without an entity data context it raises `InvalidOperationException`; otherwise it returns the context's configuration. |
| ConfigurationRepository.BuildIndex | src/Persistence/EntityFramework/ConfigurationTypeRepository.cs:110-112 | The index is built exactly when no two identifiable objects share an id; otherwise it raises the duplicate-key error. Its keys are exactly the ids present, and each maps to an object of the collection that carries that id. |
| ConfigurationRepository.Lookup | src/Persistence/EntityFramework/ConfigurationTypeRepository.cs:60-66 | The cached object is found exactly when the id is a key; otherwise `InvalidDataException` is raised. |
| ConfigurationRepository.EnsuredCache | src/Persistence/EntityFramework/ConfigurationTypeRepository.cs:95-115 | An existing cache for the configuration is kept as it is. Otherwise the index of its collection is added and nothing else changes; a failure to build the index raises and adds nothing. |
| ConfigurationRepository.EnsuredCacheBuiltOnce | src/Persistence/EntityFramework/ConfigurationTypeRepository.cs:98-101 | Once a configuration's cache exists, ensuring it again keeps it, whatever its collection has become. |
| ConfigurationRepository.ConfigurationTypeRepository.constructor | src/Persistence/EntityFramework/ConfigurationTypeRepository.cs:29-40 | A new repository has the given collections and an empty cache. |
| ConfigurationRepository.ConfigurationTypeRepository.Collection | src/Persistence/EntityFramework/ConfigurationTypeRepository.cs:53 | The definition of `collectionSelector(configuration)`, the collection of one configuration. `GetAll`, `Delete`, `DeleteById` and the cache contracts (`EnsuredCache` of it) are stated through it. |
| ConfigurationRepository.ConfigurationTypeRepository.GetAll | src/Persistence/EntityFramework/ConfigurationTypeRepository.cs:51-54 | All objects are the current configuration's collection; without a context it raises. |
| ConfigurationRepository.ConfigurationTypeRepository.EnsureCacheForCurrentConfiguration | src/Persistence/EntityFramework/ConfigurationTypeRepository.cs:95-115 | The cache becomes `EnsuredCache` of the old cache; every cached index stays the index of the collection it was built from. |
| ConfigurationRepository.ConfigurationTypeRepository.GetById | src/Persistence/EntityFramework/ConfigurationTypeRepository.cs:57-67 | It ensures the cache, then looks the id up in the cache of the current configuration. It raises when there is no context, when the index cannot be built, or when the id is not a key. |
| ConfigurationRepository.ConfigurationTypeRepository.Delete | src/Persistence/EntityFramework/ConfigurationTypeRepository.cs:70-81 | An object of another type gives false and changes nothing. An object of the type is removed at its first occurrence from the current configuration's collection only, and the result says whether it was there. Without a context it raises. The cache is untouched. |
| ConfigurationRepository.ConfigurationTypeRepository.DeleteById | src/Persistence/EntityFramework/ConfigurationTypeRepository.cs:84-87 | It finds the object through `GetById`, raising its errors, then deletes that object from the current collection. |
| TcpGameServerListener.RequestPlayerId | src/GameServer/DefaultTcpGameServerListener.cs:155-168 | The id is granted exactly when the request is not cancelled, and it is the requested id. Without a subscriber the socket is granted id 0. |
| TcpGameServerListener.RequestEvent | src/GameServer/DefaultTcpGameServerListener.cs:157-165 | Raising the player-id request calls the subscribers exactly when there is one, and logs the missing subscriber exactly when there is none. |
| TcpGameServerListener.SocketEvents | src/GameServer/DefaultTcpGameServerListener.cs:123-153 | The definition of what handling one socket does, in order. `RefusedSocket` and `GrantedSocket` state its properties, and `HandleNewSocket` is proved against it. |
| TcpGameServerListener.RefusedSocket | src/GameServer/DefaultTcpGameServerListener.cs:134-141 | A refused socket's whole handling is the raised request, then the disposal: no connection, no player, no announcement, no disconnect wiring and no receive. |
| TcpGameServerListener.GrantedSocket | src/GameServer/DefaultTcpGameServerListener.cs:142-152 | A granted socket is not disposed. It gets exactly one player, with the granted id, which is announced once when there is a subscriber. The disconnect is wired and receiving begins last. |
| TcpGameServerListener.AcceptedCount | src/GameServer/DefaultTcpGameServerListener.cs:95-121 | The definition of how many turns the accept loop handles. `AcceptLoopRule` states its properties, and `BeginAccept` is proved against it. |
| TcpGameServerListener.TurnEvents | src/GameServer/DefaultTcpGameServerListener.cs:114-117 | The definition of what one handled turn does: the socket's events, then those of a concurrent stop. |
| TcpGameServerListener.LoopEvents | src/GameServer/DefaultTcpGameServerListener.cs:95-121 | The definition of what a run of handled turns does: their events, turn after turn. `HandledTurnEvents` states how it grows, and `BeginAccept` is proved against it. |
| TcpGameServerListener.AcceptLoopRule | src/GameServer/DefaultTcpGameServerListener.cs:95-121 | Every handled turn accepted a socket, and only the last handled turn can have seen a stop. The loop ends early only at an accept exception or after a stop unbound the listener. |
| TcpGameServerListener.GameServerListener.constructor | src/GameServer/DefaultTcpGameServerListener.cs:47-54 | A new listener has no TCP listener, is not bound and has done nothing. |
| TcpGameServerListener.GameServerListener.SubscribePlayerIdRequested | src/GameServer/DefaultTcpGameServerListener.cs:59-60 | Subscribing to the player-id request makes later requests answered by the subscriber. |
| TcpGameServerListener.GameServerListener.SubscribePlayerConnected | src/GameServer/DefaultTcpGameServerListener.cs:56-57 | Subscribing to the player-connected event makes later players announced to the subscriber. |
| TcpGameServerListener.GameServerListener.Start | src/GameServer/DefaultTcpGameServerListener.cs:63-77 | A bound listener is left alone. Otherwise it creates and binds the listener, then registers the public endpoint and launches the accept loop; the server is then advertised. A failed registration leaves it bound, not advertised, and without an accept loop. The listener is bound whenever the server is advertised. |
| TcpGameServerListener.GameServerListener.Stop | src/GameServer/DefaultTcpGameServerListener.cs:80-93 | It always unregisters first; a failed unregistration changes nothing else. Otherwise the server is no longer advertised, the listener is stopped only when it was bound, and it is unbound afterwards. |
| TcpGameServerListener.GameServerListener.OnRequestPlayerId | src/GameServer/DefaultTcpGameServerListener.cs:155-168 | The decision is `RequestPlayerId` of the subscribers' answer. The trace records the call of the subscribers, or the missing subscriber logged as not handled. |
| TcpGameServerListener.GameServerListener.OnPlayerConnected | src/GameServer/DefaultTcpGameServerListener.cs:170-181 | The event is raised for the new player, or logged as not handled. |
| TcpGameServerListener.GameServerListener.HandleNewSocket | src/GameServer/DefaultTcpGameServerListener.cs:123-153 | A null socket is ignored. Otherwise exactly the events of `SocketEvents` are appended, in order. |
| TcpGameServerListener.HandledTurnEvents | src/GameServer/DefaultTcpGameServerListener.cs:114-117 | The events of the handled turns grow, turn by turn, by the socket's events followed by those of a concurrent stop. |
| TcpGameServerListener.GameServerListener.HandleTurn | src/GameServer/DefaultTcpGameServerListener.cs:114-117 | One accepted turn handles the socket, then sees the concurrent stop, if any. The trace grows by the turn's events; the listener stays bound and the server advertised exactly when no stop came. |
| TcpGameServerListener.GameServerListener.BeginAccept | src/GameServer/DefaultTcpGameServerListener.cs:95-121 | On an unbound listener it ends at once. Otherwise it handles exactly `AcceptedCount(steps)` turns, appending their events in order. The listener stays bound, and the server advertised, unless the last handled turn saw a stop. |

## Left out

- Logging, the log context stack and log levels are not modelled. They appear in the trace only where the code logs a missing subscriber.
- The sockets themselves, the encryptor, and the simple-modulus decryptor's cryptography are not modelled. The connection's packet handling and `RemotePlayer` construction are not modelled either. A connection is recorded with the decryptor chain it is configured with.
- Asynchrony, `Task.Run` and real concurrency are not modelled. The recursive asynchronous accept is an iteration over the delivered turns. A concurrent `Stop` is seen only while a socket is handled (`AcceptStep.stopMeanwhile`); a stop during the wait for a socket is the `ListenerDisposed` accept result.
- The listener's own `Start`, which can fail when the port is in use, is not modelled.
- The identity pool that answers player-id requests, and the ids it releases on disconnect, belong to the subscribers. They are inputs here.
- The attribute holder and `PowerUpWrapper.CreateByPowerUpDefintion` are the function parameter `expand`. Power-up values and attribute arithmetic are not modelled.
- Item sockets are not modelled: the code has only a commented-out draft of them.
- Null values that make the code raise are not modelled, because the model's values cannot be null:
  - a null `ItemOption` inside an option link, and a null item, raise `NullReferenceException`;
  - a null `Options` list of a set group raises `ArgumentNullException` from `Select`;
  - an increasable option above level 1 whose `LevelDependentOptions` list is null raises `ArgumentNullException` from `FirstOrDefault`.
- The nullable fields the code checks are `Option`: the item definition, the item options, the set groups and the bonus list. The `Option` of `levelDependentOptions` stands for whether the option is an `IncreasableItemOption`, which the code checks with its `as` cast and `?.`.
- ConfigurationRepository.ConfigurationTypeRepository.Delete: `ICollection<T>.Remove` is modelled as a list's removal of the first occurrence, and entity identity as value equality.
- The lock and the concurrent dictionary of the cache are not modelled; the model is sequential.
- Item durability, slot and level are unbounded integers instead of the code's byte-sized fields. The code only compares them, so no wrap-around arises.
- `IRepository.GetById` returning an `object` is the same operation as `GetById` and has no member of its own.
- src/Persistence/Initialization/Gates.cs is data initialisation and is not part of this model.
- TcpGameServerListener.GameServerListener.HandleNewSocket and TcpGameServerListener.GameServerListener.BeginAccept: an exception raised while a socket is handled is not modelled. It can come from a player-id or player-connected subscriber, from the connection or player constructors, or from `BeginReceive`. `HandleNewSocket` is called outside the `try`, so in the code such an exception ends the accept loop after the events so far. In the model, only an accept error or a stop ends the loop.
- ConfigurationRepository.ConfigurationTypeRepository.GetAll: the code returns the live collection, so a later `Delete` shows through the returned object. The model returns the collection's value at the time of the call, which a later `Delete` does not change.
- TcpGameServerListener.GameServerListener.Start: an exception from the public IP resolver is not modelled. In the code it leaves the listener bound, unregistered and without an accept loop, like a failed registration, but without a connect-server call.
- Unsubscribing from the events (`-=`) is not modelled; a subscription lasts for the listener's lifetime.
