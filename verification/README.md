# aioros: a model of its protocols in Dafny

aioros is an implementation of ROS 1 in Python: a master with a parameter server and a
registry of nodes, and the nodes that talk to it and to each other. This project models
the parts of it in which state is kept in several places at once, and proves what those
places have to do with each other.

* **Parameters.** The master keeps nested dicts which it walks and changes in place
  (`DictObjects`, `MasterCache`, with the worklist of `keys()` in `LeafPaths`). Nodes
  cache subtrees and patch them (`NodeCache`). Each change becomes a batch of updates,
  computed by string tests on slash-terminated keys (`Names`, `Announcements`). Trees are
  understood by their leaf maps (`Trees`); `Updates` says which update a subscription is
  owed; `Coherence` is the whole system, from one write to drained queues.
* **Registry.** `Registrations` describes the registry as a value, `MasterRegistry` is the
  registry as it runs, with loops over dicts and sets and node objects that are changed in
  place, and `MasterApi` the calls that use it together with the parameter store, each of
  them a step of the system of `Coherence`; `MasterRuns`, with `ParamQueues`, puts whole runs
  of the master together, in which these calls mix with all others. What all runs have in
  common is in `RegistryRuns` (agreement of the indexes), `TopicTypes`, `ServiceOwners`,
  `ParamRuns` and `RegistryLifetimes` (the registry as a function of what is outstanding).
  Records that are
  dropped or taken over keep being served until their queues are empty; the model keeps them
  as retired records. `PublisherQueues` says what each queue, theirs included, says about the
  publishers of a topic before and after a call, `ToldLists` what the master has told each
  subscriber, delivered or not, `PublisherViews` what the process behind an API believes,
  `FinalBeliefs` what it can come to believe, and `PromptCalls` gives a plain condition under
  which nothing goes wrong for it. `RegistryExamples` holds short runs in which a
  hypothesis of these theorems is violated. `Subscribers` is the receiving end, a node's
  connections to publishers, and `Connections` the protocol from end to end.
* **Actions.** `GoalTracking` is the table-driven goal tracker, `ActionCalls` the two
  trackers that race to finish a call.
* **TCPROS.** `Bytes`, `Headers` and `Streams` are the codec: sizes, UTF-8, headers, framing
  and the serialization buffer.

Conventions. A name is split into a path, the sequence of its segments. Where Python
iterates over a set or a dict the model takes the elements in any order; logs (ghost
values) record the order that was taken. Exceptions are results (`Outcomes`). Methods that
change objects are proved equal to a function of the old state; the theorems are about
these functions.

Where the code does not do what one would hope, the model follows the code, shows an
input, and says exactly when things go well. The conditions are local: what happens to other
subscribers, topics, publishers or leaves does not matter, and theorems about runs may start
where a subscriber is told anew. The cases are a scalar written over a subscribed tree, or a
private name (`Coherence.SilentBreaks`, `Coherence.OverwriteExample`), an update that meets
a scalar in the mirror (`Coherence.DeliveryExact`), a publisher list that arrives from a
queue nobody is subscribed with any more and outdates a right answer
(`PublisherViews.CallInStepHere`, `PublisherViews.EarlySubscription`,
`RegistryExamples.StaleExample`), a call that is lost because it timed out
(`PublisherViews.LoseInStepHere`), a parameter subscription that outlives its node
(`MasterRegistry.Registry.OnParamUpdate`, `RegistryExamples.MissedExample`), a name with a
slash inside a stored dict (`MasterRegistry.Registry.OnParamUpdate`,
`Announcements.SlashAstray`), the empty name (`Names.ResolveOnce`), cached entries that share
a dict (`NodeCache.RemoveTwice`), a connection task that ends after its publisher came
back (`Subscribers.ExitKeeps`, `Subscribers.LateExample`), keys that do not survive a
header (`Headers.HeaderRoundTrip`), and a serialization buffer left dirty by a failure
(`Streams.SerializedExact`, `Streams.RemainsExample`).

## Model

| member | source | states |
|---|---|---|
| Names.SplitConcat | aioros/_utils/_resolve.py:33-34 | splitting two texts joined by a slash gives the segments of the first, then those of the second |
| Names.SplitSlashed | aioros/_utils/_resolve.py:33-38 | splitting undoes joining segments with slashes |
| Names.FieldsSlashed | aioros/_utils/_resolve.py:37-38 | joining puts exactly one slash between segments, and none at the ends |
| Names.CanonicalKey | aioros/master/_registry.py:234 | join and normalize_namespace file a name under the canonical key of its path, and refuse exactly the private names |
| Names.KeyPrefix | aioros/master/_registry.py:244-248 | one canonical key starts with another exactly if the one path starts with the other |
| Names.KeyInjective | aioros/_utils/_resolve.py:88-98 | different segment paths have different canonical keys |
| Names.KeyRemainder | aioros/master/_registry.py:270-273 | slicing a canonical prefix off a key and splitting gives the rest of the path |
| Names.SplitWireName | aioros/master/_registry.py:261 | the key without its last slash, as sent to nodes, still splits into the path |
| Names.WireText | aioros/master/_registry.py:261 | that text is a slash and the joined path, or empty for the root |
| Names.NamespacesArePrefixes | aioros/_node/_param_cache.py:8-12 | iter_namespaces yields every prefix of a joined name once, shortest first |
| Names.NamespaceRemainder | aioros/_node/_param_cache.py:31 | slicing a namespace off a joined name leaves text that splits into the rest of the path |
| Names.ResolvePath | aioros/_utils/_resolve.py:21-30 | a resolved name is a slash and the joined path, which has the segments of the name itself, of namespace and name, or of namespace, node and private name; the empty name gives the namespace as it is |
| Names.ResolveOnce | aioros/_utils/_resolve.py:21-30 | a resolved name resolves to itself from any other node and namespace, unless it came from an empty name and a namespace that is not written as an absolute joined name |
| Trees.SetAtLeaves | aioros/master/_param_cache.py:27-39 | storing x at p removes the leaves at, below and strictly above p, adds p prefixed to the leaves of x, and keeps all others |
| Trees.SetAtPaths | aioros/master/_param_cache.py:27-39 | path by path, empty dicts included: the value at and below p, dicts above it, and everything else as before |
| Trees.DeleteAtLeaves | aioros/master/_param_cache.py:41-45 | deleting a present path has the effect on leaves of storing an empty dict there |
| Trees.DeletedPaths | aioros/master/_param_cache.py:41-45 | path by path: nothing is found at and below p any more, dicts are above it, and everything else is as before |
| Trees.DeletesIffPresent | aioros/master/_param_cache.py:41-45 | a deletion succeeds exactly if the path is not the root and is present |
| Trees.LeavesPrefixFree | aioros/master/_param_cache.py:19-25 | no leaf of a tree lies below another |
| Trees.WalkableIffNoLeafAbove | aioros/_node/_param_cache.py:62-71 | the mirror's walk to p meets no non-dict exactly if no leaf stands strictly above p |
| Trees.AllKeysSound | aioros/master/_registry.py:17-22 | every generated key is the key of a non-empty path of the value |
| Trees.AllKeysComplete | aioros/master/_registry.py:17-22 | the key of every non-empty path of the value is generated |
| Trees.AllKeysExact | aioros/master/_registry.py:236-249 | a canonical key is in all_keys exactly if its path leads strictly below the written key to something the value holds |
| DictObjects.AssignRooted | aioros/master/_param_cache.py:39 | an assignment to one entry of one dict object of the store is the write at its path in the whole tree, and the objects still form a tree without sharing |
| DictObjects.DropRooted | aioros/master/_param_cache.py:45 | a deletion of one entry of one dict object is the deletion of its path in the whole tree |
| DictObjects.DeleteFaults | aioros/master/_param_cache.py:19-25 | a deletion below a missing path raises KeyError, in a non-dict TypeError, and of a name that is not there KeyError |
| DictObjects.SetAtThrough | aioros/master/_param_cache.py:35-38 | putting an empty dict where a non-dict or nothing stands on the way does not change the outcome of the store |
| MasterCache.ParamCache.constructor | aioros/master/_param_cache.py:8-10 | a new store is an empty dict |
| MasterCache.ParamCache.GetItem | aioros/master/_param_cache.py:19-25 | the object at the path, as it stands in the tree, or KeyError exactly if the path is absent |
| MasterCache.ParamCache.Contains | aioros/master/_param_cache.py:12-17 | true exactly if the path is present |
| MasterCache.ParamCache.SetItem | aioros/master/_param_cache.py:27-39 | the walk over dict objects turns the tree into the one with the value at the path; ValueError and IndexError leave it alone |
| MasterCache.StoredExactly | aioros/master/_param_cache.py:27-39 | a store succeeds unless a scalar is stored to "/" (ValueError) or another name of the root is used (IndexError), and the value is then found at its key |
| MasterCache.ParamCache.DescendAll | aioros/master/_param_cache.py:34-38 | the walk to the parent ends at its dict object, and storing at the path comes to the same before and after |
| MasterCache.ParamCache.DelItem | aioros/master/_param_cache.py:41-45 | the tree without the path, or IndexError, KeyError or TypeError and the same tree |
| LeafPaths.Expand | aioros/master/_param_cache.py:51-52 | replacing a pending dict by its entries keeps the worklist prefix-free and covering, and makes the total size of what is pending smaller |
| MasterCache.ParamCache.Keys | aioros/master/_param_cache.py:47-54 | the worklist terminates and yields the joined path of every leaf exactly once and nothing else; no two names yielded are equal if no name in the store holds a slash |
| MasterCache.ParamCache.Search | aioros/master/_param_cache.py:56-73 | a relative key is placed in the deepest namespace that contains its first segment, in exactly the source's text, and None means that there is none; an empty one raises StopIteration |
| MasterCache.NearestIs | aioros/master/_param_cache.py:68-71 | the namespace found is the deepest: any prefix with the segment, and none deeper, is it |
| NodeCache.PatchedEntries | aioros/_node/_param_cache.py:52-73 | an update succeeds exactly if every cached prefix of its key can be walked, and then makes on each of them, and on nothing else, the write the master makes |
| NodeCache.PatchedUpTo | aioros/_node/_param_cache.py:52-56 | whether it succeeds or not, an update has made that write on the cached prefixes shorter than the first that cannot be walked, and on nothing else |
| NodeCache.UpdatedRead | aioros/_node/_param_cache.py:26-40 | after an update of x at a covered path, a read at or below it finds exactly what x has there, and raises KeyError where x has nothing |
| NodeCache.RemovedLeaves | aioros/_node/_param_cache.py:75-89 | a deletion below an entry's root changes its leaves like storing an empty dict |
| NodeCache.RemovedExactly | aioros/_node/_param_cache.py:75-89 | a deletion in one entry raises KeyError exactly if a non-dict is on the way to the parent or the parent is there without the last name |
| NodeCache.RemovedPaths | aioros/_node/_param_cache.py:75-89 | path by path: nothing is found at and below the deleted path, and everything else is as before |
| NodeCache.PrunedUpTo | aioros/_node/_param_cache.py:46-50 | a deletion succeeds exactly if that is so in no cached prefix, and in any case has been made in the cached prefixes shorter than the first such one, and nowhere else |
| NodeCache.PrunedEntries | aioros/_node/_param_cache.py:46-50 | after a successful deletion the key and all below it are gone from every cached strict prefix, the rest of these entries is as before, and all other entries, that of the key included, are untouched |
| NodeCache.DeletedRead | aioros/_node/_param_cache.py:26-50 | a read at or below a key deleted from a cached strict prefix raises KeyError |
| NodeCache.EveryAncestorAgrees | aioros/_node/_param_cache.py:26-40 | looking up the rest of a path in any cached ancestor that mirrors the master gives the master's leaf map there |
| NodeCache.ReadMirrors | aioros/_node/_param_cache.py:26-40 | a read of a covered key gives the master's leaf map, and raises only where that is empty |
| NodeCache.ParamCache.Contains | aioros/_node/_param_cache.py:19-24 | true exactly if some prefix of the path is cached |
| NodeCache.ParamCache.GetItem | aioros/_node/_param_cache.py:26-40 | the value found in the shortest cached prefix at the rest of the path, and KeyError if there is none there or no prefix is cached |
| NodeCache.ParamCache.Update | aioros/_node/_param_cache.py:52-56 | every cached prefix is patched, shortest first, up to the first that raises KeyError |
| NodeCache.ParamCache.UpdateCache | aioros/_node/_param_cache.py:58-73 | one entry gets the value at the rest of the path, or raises and is left alone if a non-dict is in the way |
| NodeCache.ParamCache.Delete | aioros/_node/_param_cache.py:46-50 | the path is taken out of every cached strict prefix, up to the first that raises KeyError |
| NodeCache.ParamCache.DeleteCache | aioros/_node/_param_cache.py:75-89 | one entry loses the rest of the path; a missing dict on the way is no error, a missing last segment or a non-dict is |
| NodeCache.WriteTwice | aioros/_node/_param_cache.py:58-73 | an update that meets a dict a second time, through another entry that shares it, changes nothing more and does not fail |
| NodeCache.RemoveTwice | aioros/_node/_param_cache.py:75-89 | a deletion that meets a dict a second time raises KeyError if and only if the path was there to delete |
| Updates.ChangedLeaves | aioros/master/_api.py:81-95 | a write or a deletion changes the master's leaves like the flat write of what is announced |
| Updates.OwedShared | aioros/master/_api.py:82-83 | a queued value is the stored dict itself exactly if it is part of a dict that has been stored, not for scalars, deletions and empty dicts made up for what is missing |
| Updates.RefreshShares | aioros/master/_api.py:82-83 | a queued dict that is the stored one still says what the master holds after any later change |
| Announcements.AtOrAbove | aioros/master/_registry.py:244-246 | a key the written one starts with is owed the whole value under the written key, except for the writer |
| Announcements.BelowAbsent | aioros/master/_registry.py:247-252 | a key below the written dict that it has nothing for is owed an empty dict, except for the writer |
| Announcements.BelowPresent | aioros/master/_registry.py:266-278 | a key below the written dict that it has something for is owed exactly that sub-value, the writer included |
| Announcements.Beside | aioros/master/_registry.py:253-254 | any other key is owed nothing |
| Announcements.WellNamedFinds | aioros/master/_registry.py:266-274 | as long as the names inside a written value are non-empty and without slashes, the value has something at every generated key that is subscribed to |
| Announcements.SlashAstray | aioros/master/_registry.py:270-274 | a written dict with one name that holds a slash, whose generated key leads nowhere in it |
| MasterRegistry.Registry.Announce | aioros/master/_registry.py:256-261 | the registrations under one key are told once each, up to the first whose node is not on record |
| MasterRegistry.Registry.OnParamUpdate | aioros/master/_registry.py:228-278 | exactly one right call is queued for each registration that is owed one, in both loops together, and none for others; it raises if and only if such a registration has no node on record (KeyError), or a generated key that is subscribed to leads nowhere in the value (KeyError or TypeError), or the name is private (ValueError, and no call) |
| MasterApi.Master.SetParam | aioros/master/_api.py:81-85 | the value is stored first and announced then; a private name is refused after it was stored; with one API per caller the two together are a write step of every system the master may be the master of |
| MasterApi.Master.DeleteParam | aioros/master/_api.py:88-95 | -1 and no change exactly on KeyError, other errors are raised, a deletion is announced as an empty dict, and the two together are a write step of the system |
| MasterApi.Master.SubscribeParam | aioros/master/_api.py:207-215 | the answer is the stored object or a new empty dict, the caller is registered, and this is a subscription step of the system; private names are refused |
| MasterApi.Master.RegisterSubscriber | aioros/master/_api.py:152-162 | the answer lists the APIs now registered as publishers |
| MasterApi.Master.RegisterPublisher | aioros/master/_api.py:172-182 | the answer lists the APIs now registered as subscribers |
| MasterApi.AnnouncesFanOut | aioros/master/_registry.py:243-278 | the calls queued by on_param_update are, path for path, the fan-out of one step of the whole system |
| MasterApi.TasksAreMail | aioros/master/_registry.py:77-78 | what is queued for a node is the mail of that step, in order |
| MasterApi.WriteIsStep | aioros/master/_api.py:81-95 | a change of the store and the calls queued for it are one write step of the whole system: same tree, same subscriptions, and every queue gains in the system what it gains in the registry, call for call |
| MasterApi.SubscribeIsStep | aioros/master/_api.py:207-215 | a registration is one subscription step of the whole system |
| MasterApi.SubscribedMore | aioros/master/_registry.py:206-212 | registering for a key adds exactly the caller's subscription of the path |
| MasterApi.SteadyOneApi | aioros/master/_registry.py:206-212 | with one API per caller nobody is filed twice under a key, as the fan-out of a step supposes |
| ParamQueues.CallUndisturbed | aioros/master/_registry.py:100-226 | with one API per caller no call about other things queues or drops a parameter update, but with a record that goes |
| MasterRuns.EventFits | aioros/master/_registry.py:50-278 | every call of the master and every delivery is a step of the system or does not concern it, and keeps subscriptions and queued updates the same in registry and system |
| MasterRuns.MasterMirrors | aioros/master/_api.py:81-215 | over every run of the master, all its calls mixed: a subscriber that does not write, and for which the registry has no parameter update queued, holds the master's leaf at every spared path below its subscriptions |
| Coherence.CoherentNext | aioros/master/_registry.py:228-278 | every write, subscription, delivery and loss that spares a leaf keeps every node that does not write coherent there: handling its queue would give it the master's leaf |
| Coherence.RestoredNext | aioros/master/_registry.py:243-278 | a write about a leaf that every subscription above it is owed makes the node coherent there, whatever it held and whatever is queued |
| Coherence.DrainedLeaf | aioros/_node/_param_cache.py:52-73 | over every run, from where the node has not asked for a leaf or is told of it: if no step is silent about this leaf or loses an update about it, a drained queue means the node holds the master's leaf; other leaves do not matter |
| Coherence.DrainedMirrors | aioros/_node/_param_cache.py:52-73 | if that is so below a subscription, the node holds there the master's leaf map |
| Coherence.DrainedReads | aioros/_node/_param_cache.py:26-40 | and what it reads from its cache has the leaf of what the master would answer |
| Coherence.WriteCoherent | aioros/master/_registry.py:236-254 | a write keeps a node coherent at a leaf, whatever is queued, if and only if it is not silent: it does not take the leaf away from below a subscription by a scalar while no queued update demands a dict there, nor change it by a private name while no update of the whole tree is queued |
| Coherence.SilentBreaks | aioros/master/_registry.py:236-254 | the same in every reachable state |
| Coherence.OverwriteExample | aioros/master/_registry.py:240-254 | a concrete scalar write after which a node reads a parameter the master does not have |
| Coherence.DeliveryExact | aioros/_node/_param_cache.py:62-64 | whatever is queued, a node can take in an update exactly if it has no leaf strictly above its key where it has subscribed |
| Coherence.QuietLeaf | aioros/_node/_param_cache.py:52-73 | a coherent node has the master's leaf wherever nothing queued speaks of it or demands a dict there |
| Coherence.RunShares | aioros/master/_api.py:82-83 | over every run a queued dict that is shared with the store says what the store says |
| MasterRegistry.Node.constructor | aioros/master/_registry.py:35-48 | a new node record is empty |
| MasterRegistry.Node.HasAnyRegistration | aioros/master/_registry.py:61-70 | true exactly if some set of names is not empty |
| MasterRegistry.Node.Send | aioros/master/_registry.py:72-81 | a call is appended to the node's queue |
| MasterRegistry.Node.Receive | aioros/master/_registry.py:50-58 | the serve loop takes the calls in the order they were queued |
| MasterRegistry.Registry.constructor | aioros/master/_registry.py:84-98 | a new registry is empty |
| MasterRegistry.Registry.UpdateSubscribers | aioros/master/_registry.py:144-150 | the node of every registered subscriber is sent the current list of APIs, once a registration |
| MasterRegistry.Registry.UnregisterAll | aioros/master/_registry.py:128-142 | the caller's services go, then its publications one by one with an update each, then its subscriptions |
| MasterRegistry.Registry.RegisterNode | aioros/master/_registry.py:100-112 | a caller with a new API takes the name over; the old record is told to shut down, replaced and retired with its queue |
| MasterRegistry.Registry.RegisterTopic | aioros/master/_registry.py:114-116 | the first type other than "*" is recorded |
| MasterRegistry.Registry.CheckTopic | aioros/master/_registry.py:118-120 | the type goes with the last key of the topic |
| MasterRegistry.Registry.CheckNode | aioros/master/_registry.py:122-126 | a record without registrations is dropped, and its queue goes on being served |
| MasterRegistry.Registry.Retire | aioros/master/_registry.py:122-126 | the record goes from the dict with all it has queued, which is kept in order among the retired ones |
| MasterRegistry.Registry.ServeNode | aioros/master/_registry.py:50-58 | the first call queued for a node on record is taken, and nothing else changes |
| MasterRegistry.Registry.ServeRetired | aioros/master/_registry.py:50-58 | so it is for a record that was dropped or taken over |
| MasterRegistry.Registry.RegisterService | aioros/master/_registry.py:152-156 | the caller is enrolled and holds the name, and the last writer owns it |
| MasterRegistry.Registry.UnregisterService | aioros/master/_registry.py:158-162 | the entry goes whoever owns it, and the caller loses the name |
| MasterRegistry.Registry.RegisterSubscriber | aioros/master/_registry.py:164-169 | type, enrolment, node index and topic index, in this order |
| MasterRegistry.Registry.UnregisterSubscriber | aioros/master/_registry.py:171-183 | the registration with this API goes, the caller loses the topic, empty keys, records and types go |
| MasterRegistry.Registry.RegisterPublisher | aioros/master/_registry.py:185-191 | like a subscriber, and the subscribers are told |
| MasterRegistry.Registry.UnregisterPublisher | aioros/master/_registry.py:193-204 | like a subscriber, and the subscribers are told |
| MasterRegistry.Registry.RegisterParamSubscriber | aioros/master/_registry.py:206-212 | the registration is filed under the canonical key; private names are refused |
| MasterRegistry.Registry.UnregisterParamSubscriber | aioros/master/_registry.py:214-226 | the registration is taken from the canonical key |
| ServiceOwners.StepOwner | aioros/master/_registry.py:152-162 | for every call and every service: the last registration owns it, anybody can withdraw it, a takeover of its owner's name does, nothing else touches it |
| ServiceOwners.LastOwner | aioros/master/_registry.py:152-162 | over every run a service found is the one last registered, from then until it is withdrawn or its owner's name taken over |
| RegistryRuns.EvictedTold | aioros/master/_registry.py:105-106 | the record that loses its name is told to shut down before anything else that follows |
| RegistryRuns.TakeoverClears | aioros/master/_registry.py:100-142 | a takeover removes all services, publications and subscriptions of the caller, leaves every other caller's and all parameter subscriptions untouched, keeps emptied keys, and starts a blank record |
| RegistryRuns.OpAgrees | aioros/master/_registry.py:152-226 | every call keeps publications and subscriptions in two-way agreement with the node records, services in one-way agreement, and every record busy |
| RegistryRuns.RunAgrees | aioros/master/_registry.py:100-226 | over every run, takeovers included, the indexes agree and every record kept has a registration |
| TopicTypes.StepCarries | aioros/master/_registry.py:114-120 | a call drops a type exactly if its topic stops being a key of publications and subscriptions, and never changes one |
| TopicTypes.RunTypesLive | aioros/master/_registry.py:114-142 | over every run only topics that are keys of publications or subscriptions have a type |
| TopicTypes.TypeLasts | aioros/master/_registry.py:114-142 | from the call that states it a type is recorded and unchanged while the topic stays a key |
| TopicTypes.TypedRegistration | aioros/master/_registry.py:164-204 | while a registration made with a type is in an index, a type is recorded, the one first stated |
| PublisherQueues.NotifySaid | aioros/master/_registry.py:144-150 | after an update the queue of every node subscribed to the topic ends on the current list of it; all other queues say what they said |
| PublisherQueues.NotifyExact | aioros/master/_registry.py:144-150 | each node gets the list as often as it is registered, behind what was queued |
| PublisherQueues.CallBooks | aioros/master/_registry.py:152-226 | who publishes a topic, and who subscribes to it, after any call, takeovers included, in terms of the state before |
| PublisherQueues.CallLines | aioros/master/_registry.py:100-226 | no call loses a queue: each is still served afterwards, under the same API, and what it last says of each topic is the list the call sends it or what it said before |
| ToldLists.CallCurrent | aioros/master/_registry.py:100-226 | every call queues for every subscriber that keeps its name exactly what it needs to know the publishers of its topic |
| ToldLists.RunCurrent | aioros/master/_registry.py:144-169 | over every run, without any condition: for each subscription the list answered to it, overwritten by every list queued for the node since, is the set of registered APIs |
| PublisherViews.CallInStepHere | aioros/master/_registry.py:100-226 | a call keeps the subscribers of a topic at an API in step if and only if, before it, no queue that leads to one that remains, of a node or of a retired record, ends on a list of the topic that differs from the registrations the call leaves and is not sent a new one |
| PublisherViews.CallInStep | aioros/master/_registry.py:100-226 | the same for all subscribers together |
| PublisherViews.RenewedInStep | aioros/master/_registry.py:144-204 | a subscription, or a publisher that comes or goes, puts the subscribers in step, whatever they believed and whatever was queued, under the same condition |
| PublisherViews.LoseInStepHere | aioros/master/_registry.py:50-58 | a call that times out puts a subscriber out of step if and only if it was the only one queued that says anything of the topic and the belief is not yet right |
| PublisherViews.EarlySubscription | aioros/master/_registry.py:164-169 | for a subscription without a takeover the condition is that no queue to its API ends on a list of its topic other than the APIs registered when it is made |
| PublisherViews.EarlyPublisher | aioros/master/_registry.py:185-204 | for a publisher that comes or goes without a takeover it is that no queue to the API of a subscriber, itself not one of a subscribed node, ends on a list other than the one then registered |
| PublisherViews.NobodyElse | aioros/master/_registry.py:152-226 | no other call without a takeover puts anybody out of step |
| PublisherViews.RunInStep | aioros/master/_registry.py:50-226 | over every run, takeovers, dropped records and lost calls included: from its start, or from a call that tells the subscribers of a topic at an API, as long as no call overtakes a queue to them and no decisive call to them is lost, their belief completed by what is queued anywhere for the process is the set of registered APIs; other subscribers may be overtaken |
| PublisherViews.DrainedView | aioros/master/_api.py:152-162 | under this condition, for its own API and topic only, a registered subscriber believes exactly the registered APIs once all queues to its API are drained, those of retired records included |
| FinalBeliefs.InStepExactly | aioros/master/_registry.py:50-58 | to be in step is to believe the registered APIs after every way of delivering what is queued, in whatever order the queues are served |
| PromptCalls.PromptRun | aioros/master/_registry.py:164-204 | the condition is met if no two names use the API, each subscription to the topic there either stands already or is made when no list of the topic is queued for the process, and no list of it is lost |
| RegistryExamples.StaleExample | aioros/master/_registry.py:122-126 | a run in which a node withdraws its only registration and subscribes again: rightly answered, it is then told by the queue of its dropped record of a publisher that has gone, and nothing is queued that would correct it |
| RegistryLifetimes.RunCanon | aioros/master/_registry.py:152-226 | with one API per caller, every run leads to the registry of its outstanding registrations, without empty sets |
| RegistryLifetimes.SameClaimsSameIndexes | aioros/master/_registry.py:152-226 | the same outstanding registrations, in whatever order they came about, give the same indexes and the same nodes on record |
| RegistryLifetimes.EmptyAgain | aioros/master/_registry.py:118-126 | once everything has been withdrawn, indexes and records are empty |
| RegistryLifetimes.RunEmpty | aioros/master/_registry.py:118-226 | over every run with one API per caller, once all registrations have been withdrawn the registry is as it was at the start, services and topic types included, but for retired records |
| ParamRuns.RunFiled | aioros/master/_registry.py:206-226 | over every run, takeovers included, each parameter subscription of a record is in the index under the record's API, and no key has an empty set |
| RegistryLifetimes.LookupsNeverMiss | aioros/master/_registry.py:260 | with one API per caller the node of every parameter subscription is on record |
| RegistryExamples.MissedExample | aioros/master/_registry.py:128-142 | a run with a takeover after which a parameter write fails to find a node |
| Subscribers.UpdateKeeps | aioros/_node/_tcpros/_topic_subscriber.py:87-99 | reconciling with a list keeps a running task of its own for every connection, and a connection for every task not cancelled |
| Subscribers.UpdateCleanAt | aioros/_node/_tcpros/_topic_subscriber.py:87-99 | for one publisher: no cancelled task is left behind its connection if and only if it does not come back with the list before its cancelled task has ended |
| Subscribers.UpdateClean | aioros/_node/_tcpros/_topic_subscriber.py:87-99 | the same for all publishers |
| Subscribers.ExitKeepsAt | aioros/_node/_tcpros/_topic_subscriber.py:154-155 | for one publisher: the end of a task leaves its running tasks accounted for if and only if it is not a cancelled one that takes along the connection of a later one |
| Subscribers.ExitKeeps | aioros/_node/_tcpros/_topic_subscriber.py:154-155 | the end of a task leaves all running tasks accounted for if and only if it does not take along the connection of a later task for the same URI |
| Subscribers.LateExample | aioros/_node/_tcpros/_topic_subscriber.py:154-155 | a publisher that leaves and comes back too soon is forgotten while its task is running |
| Subscribers.SubscriptionManager.UpdatePublishers | aioros/_node/_tcpros/_topic_subscriber.py:87-99 | the connections are those of the list; listed ones are the same objects as before, dropped ones and no others are cancelled, new ones get fresh ids |
| Subscribers.SubscriptionManager.Register | aioros/_node/_tcpros/_topic_subscriber.py:59-71 | the first stream registers the node and takes in the answer |
| Subscribers.SubscriptionManager.Unregister | aioros/_node/_tcpros/_topic_subscriber.py:73-85 | the last stream drops all connections |
| Subscribers.SubscriptionManager.TaskExit | aioros/_node/_tcpros/_topic_subscriber.py:154-155 | a finished task removes the connection filed under its URI |
| Connections.DrainedConnects | aioros/_node/_node.py:109-111 | from end to end: a registered subscriber whose queues are drained is connected to a publisher exactly if that is registered and has not hung up since the last list, provided that no call overtook a queue to this API about this topic, no decisive call was lost, and this publisher was on no list before its cancelled task had ended; both since the start, or since the process was told anew or began anew |
| Connections.DrainedConnections | aioros/_node/_node.py:109-111 | if that is so for all publishers, the connections are exactly those |
| GoalTracking.CommStateMachine.UpdateStatus | aioros/_node/_action/_state_machine.py:15-40 | the first matching status decides; what is assigned, in order, and what is raised with goal_state already assigned |
| GoalTracking.CommStateMachine.UpdateOnResultStatus | aioros/_node/_action/_state_machine.py:42-48 | a result is accepted before the end only, and leads to DONE unless the table raises |
| GoalTracking.Unmentioned | aioros/_node/_action/_state_machine.py:26-34 | a status array without the goal changes nothing while the goal has not been seen, nor once a final status has been; in between the goal is LOST and the tracker DONE |
| GoalTracking.Mentioned | aioros/_node/_action/_state_machine.py:15-40 | a recognised status is always noted, leads to its comm state, and is refused exactly if the server cannot have got there, or, after the end, if the goal is still to be run |
| GoalTracking.Unrecognised | aioros/_node/_action/_state_machine.py:24-25 | a number that is no goal state changes nothing |
| GoalTracking.StatusNumbers | aioros/_node/_action/_state_machine.py:17-23 | the numbers of the goal states |
| GoalTracking.FirstStatusExact | aioros/_node/_action/_state_machine.py:18-22 | the first entry for the goal counts |
| GoalTracking.ResultExact | aioros/_node/_action/_state_machine.py:42-48 | a result is accepted with the state it reports and makes the tracker DONE, unless the table refuses that state |
| GoalTracking.ResultLate | aioros/_node/_action/_state_machine.py:42-48 | after the end a result only changes the goal state; one in no goal state raises ValueError |
| GoalTracking.ResultOther | aioros/_node/_action/_state_machine.py:42-48 | the result of another goal counts as a status array without the goal, and makes the tracker DONE |
| GoalTracking.TableExact | aioros/_node/_action/_state_machine.py:60-157 | before the end the table refuses a status exactly if the server cannot have got there, and otherwise leads to a state that depends on the status alone |
| GoalTracking.TableWay | aioros/_node/_action/_state_machine.py:60-157 | the states gone through on a status are those of a way the server can have taken since the last one |
| GoalTracking.TableFinal | aioros/_node/_action/_state_machine.py:102-112 | after the end the tracker stays where it is, and refuses exactly the statuses of a goal still pending, recalling or preempting (when DONE, active too) |
| GoalTracking.TableCancel | aioros/_node/_action/_state_machine.py:113-123 | in WAITING_FOR_CANCEL_ACK every status is accepted; pending and active ones keep it waiting, the others lead to their comm state |
| GoalTracking.SamplingIndependence | aioros/_node/_action/_state_machine.py:15-40 | whatever part of a server's run is sampled, nothing raises and the comm state is a fixed function of the last status seen |
| GoalTracking.AcceptedExactly | aioros/_node/_action/_state_machine.py:60-157 | up to the first final status a series of statuses is accepted if and only if it samples some run of a server |
| GoalTracking.Progress | aioros/_node/_action/_state_machine.py:15-48 | under any messages, legal or not, at most five changes of the comm state, each to a higher rank; WAITING_FOR_CANCEL_ACK and LOST are never entered, DONE is never left |
| ActionCalls.StepConsistent | aioros/_node/_action/_client.py:48-89 | after every step the call has terminated exactly if the tracker is DONE; the result is not touched after that |
| ActionCalls.Verdict | aioros/_node/_action/_client.py:111-113 | under all interleavings the answer is settled once there is one, and is empty exactly if the goal was given up before a result was accepted |
| ActionCalls.OpenExactly | aioros/_node/_action/_client.py:48-89 | over every run: a call goes on exactly until a result comes, a message does not mention the goal though it has been seen and has not ended, or a status is refused; until then the tracker is where the statuses seen have led it |
| ActionCalls.LostExactly | aioros/_node/_action/_client.py:57-60 | over every run: a call is given up if and only if some message does not mention its goal after that has been seen, before it has ended, and before anything else has decided the call |
| ActionCalls.AnswerExactly | aioros/_node/_action/_client.py:82-89 | over every run: the answer is the value of the first result that comes before the call is decided otherwise, if the state it reports can be |
| ActionCalls.ActionCall.TrackStatus | aioros/_node/_action/_client.py:57-60 | one iteration of the status tracker |
| ActionCalls.ActionCall.TrackResult | aioros/_node/_action/_client.py:82-89 | one iteration of the result tracker |
| Bytes.SizeRoundTrip | aioros/_node/_tcpros/_protocol.py:9-10 | a size below 2^32 survives packing and unpacking |
| Bytes.SizeBytes | aioros/_node/_tcpros/_protocol.py:10 | the least significant byte of a size comes first |
| Bytes.SizeOnto | aioros/_node/_tcpros/_protocol.py:10 | any four bytes are a size, of one number only |
| Bytes.TextRoundTrip | aioros/_node/_tcpros/_protocol.py:58-67 | a text survives encoding and decoding |
| Bytes.TextExact | aioros/_node/_tcpros/_protocol.py:58 | bytes that decode are the encoding of their text, so no two byte strings mean the same |
| Bytes.CharOrder | aioros/_node/_tcpros/_protocol.py:58-68 | characters are ordered as their bytes are |
| Bytes.CharExamples | aioros/_node/_tcpros/_protocol.py:68 | a character of each length in UTF-8 |
| Headers.EncodeHeader | aioros/_node/_tcpros/_protocol.py:65-70 | sized lines behind a size, in the order of the keys, or struct.error exactly if a line or all of them do not fit 32 bits; the data decode to the header if and only if all its keys survive |
| Headers.SortedItems | aioros/_node/_tcpros/_protocol.py:67 | the entries of the header, each once, with keys in ascending order |
| Headers.OneOrder | aioros/_node/_tcpros/_protocol.py:67 | a header has only one such enumeration, hence one encoding |
| Headers.LineBytes | aioros/_node/_tcpros/_protocol.py:68 | a line is the key, an '=' and the value |
| Headers.HeaderExample | aioros/_node/_tcpros/_protocol.py:65-70 | the bytes of a header with one entry |
| Headers.DecodeHeader | aioros/_node/_tcpros/_protocol.py:51-62 | the loop over sized lines, with slices that may be short, lines that are skipped, and errors |
| Headers.EnteredExact | aioros/_node/_tcpros/_protocol.py:59-62 | a line is divided at its first '=' after the first character, and the key is stripped |
| Headers.EnteredNothing | aioros/_node/_tcpros/_protocol.py:59-61 | a line without one is skipped |
| Headers.StripExact | aioros/_node/_tcpros/_protocol.py:62 | white space goes at both ends of a key, and nothing else |
| Headers.ShortLine | aioros/_node/_tcpros/_protocol.py:55-58 | a last line shorter than announced counts as it is |
| Headers.LinesDecode | aioros/_node/_tcpros/_protocol.py:51-70 | written lines are read back one by one, whatever follows |
| Headers.HeaderRoundTrip | aioros/_node/_tcpros/_protocol.py:51-70 | in any order of its entries a header survives if and only if all its keys are non-empty, unpadded and without '=' after the first character |
| Streams.BufferedStream.ReadHeader | aioros/_node/_tcpros/_protocol.py:44-48 | one frame is taken from the stream and decoded, and the rest is left |
| Streams.BufferedStream.ReadData | aioros/_node/_tcpros/_protocol.py:94-97 | one frame is taken from the stream, or the stream ends too early |
| Streams.CutShort | aioros/_node/_tcpros/_protocol.py:94-97 | a frame cut short is never mistaken for a message |
| Streams.SmallFrame | aioros/_node/_tcpros/_protocol.py:94-97 | a body of fewer than 256 bytes follows its length and three zeros |
| Streams.FramesRoundTrip | aioros/_node/_tcpros/_protocol.py:94-97 | messages sent one after the other are read back in order, and nothing more |
| Streams.ConnectionRoundTrip | aioros/_node/_tcpros/_protocol.py:44-97 | reading the header leaves exactly the messages behind, which are then read back |
| Streams.SerializeInto | aioros/_node/_tcpros/_protocol.py:14-23 | however a message is written, the result is its frame followed by what the buffer held behind it |
| Streams.Serializer.Serialize | aioros/_node/_tcpros/_protocol.py:31-41 | a message with a header gets the next number and frame id "0" where it has none; the buffer is cleared after a success and left as it is after a failure |
| Streams.NumberedInOrder | aioros/_node/_tcpros/_protocol.py:29-36 | messages without a number get consecutive numbers in the order they are sent, failed ones included, and frame id "0" if they have none; what a message has it keeps |
| Streams.NumbersGrow | aioros/_node/_tcpros/_protocol.py:29-36 | numbers given to different messages differ, and grow |
| Streams.StampedOnce | aioros/_node/_tcpros/_protocol.py:32-36 | sending a message again does not change its header |
| Streams.SerializedExact | aioros/_node/_tcpros/_protocol.py:31-41 | the output is the frame of the message exactly if the remains of a failure are no longer than that frame |
| Streams.FailureRemains | aioros/_node/_tcpros/_protocol.py:14-41 | a failed message stays in the buffer, behind room for a size, over what was there |
| Streams.RemainsExample | aioros/_node/_tcpros/_protocol.py:38-40 | a message that raises half-way corrupts the next one |
| Streams.OutputIsFrames | aioros/_node/_tcpros/_protocol.py:31-41 | without failures a serializer writes exactly what can be read back |

## Left out

- Coherence.CoherentNext: node caches are values here, so the dict objects that overlapping entries of one cache share in the source are not modelled; sharing between the master's store and its queues is (Updates.RefreshShares, Coherence.RunShares).
- Coherence.DrainedMirrors: for nodes that do not write themselves. Runs end with a delivery that raises: the node answers with an error status, on which the master's client asserts (aioros/xmlrpc/_client.py:45), and its serve task ends the master's task group. Unsubscribing, which no node does, and takeovers are not steps of these runs.
- MasterRuns.MasterMirrors: every caller keeps one API, and no call fails half-way through its announcements.
- NodeCache.ParamCache.UpdateCache: entries are values, so that the change an update makes in another entry through a dict they share is not shown; it is the change the update then makes there itself, and comes to the same (NodeCache.WriteTwice).
- NodeCache.ParamCache.DeleteCache: entries are values, so that the change a deletion makes in another entry through a dict they share is not shown.
- NodeCache.ParamCache.Delete: where an update of "/a/b" has put one dict into the entries "a" and "a/b", the source removes "/a/b/x" through the first and then raises KeyError at the second, in which this model still finds it; exactly the deletions of a path that is present in shared dicts fail so (NodeCache.RemoveTwice).
- MasterApi.Master.SetParam: calls queued in the registry hold values as of the time they were queued; that a queued dict that is the stored one shows later changes is part of the step it makes (MasterApi.WriteIsStep, Coherence.RunShares, MasterRuns). A call that fails half-way, because a node is not on record or a name holds a slash, is not a step.
- MasterCache.ParamCache.Keys: which of two siblings comes first is left open.
- PublisherViews.DrainedView: a process is known by its API; what a node does when it is told to shut down, and a process that dies or is replaced by another under the same API, are not modelled. A call and its answer are one step, and so is a delivery or its loss by a time-out; a delivery that fails otherwise ends the master and the run.
- Connections.DrainedConnects: calls under the API are made under one name.
- RegistryRuns.RunAgrees: unregister calls name the API on record; services are last-writer-wins, so nothing leads from a node record to a service entry.
- GoalTracking.SamplingIndependence: the moves of a server are those of the actionlib protocol; the server itself is not part of the repository.
- ActionCalls.Verdict: after an exception in a tracker the other makes no further step; cancellation may come some steps late otherwise.
- Streams.SerializeInto: a message is a list of chunks of bytes, which may depend on its header, and may raise after them.
- Names.ResolvePath: the validation of segments by a regular expression, remappings and command-line arguments are left out.
- Sockets, listeners, task groups, timeouts but for the calls they lose, and logging: input and output; only the steps between awaits are modelled.
- XML-RPC: taken as transport that preserves values; a value that arrives shares no dict with the store.
- Read-only calls of the master and of nodes, shutdown, simulated time and tf2: they would add easy members only.
- Publication latching and reference counts, services over TCPROS and their error replies: not modelled.
- Feedback of actions, wait_for_peers and statistics of connections: not modelled.
