/** The sharded broker, proved to behave as one flat table of topics (internal/broker/broker.go). */
module Brokers {
  import opened Model
  import opened Mailbox
  import opened ReplayLog
  import opened ShardHash
  import opened FlatBroker
  import opened Subscribers
  import opened Topics
  import opened Shards
  import opened Sums

  datatype Statistics = Statistics(totalTopics: nat, totalSubscribers: nat, topicStats: seq<TopicInfo>)

  class Broker {
    const shards: seq<Shard>
    const storage: RedisStorage
    ghost var flat: map<Name, Topic>             // the topics of all shards together
    ghost var clients: map<ClientId, Subscriber> // every client that has connected
    ghost var world: World                       // the state all these objects stand for

    /** The shards are 32 tables that partition `flat` by hash. */
    ghost predicate Sharded()
      reads this`flat, shards
    {
      && |shards| == SHARD_COUNT
      && (forall i, j :: 0 <= i < j < |shards| ==> shards[i] != shards[j])
      && (forall i :: 0 <= i < |shards| ==>
            shards[i].shardID == i && shards[i].maxSubscribersPerTopic == MAX_SUBSCRIBERS_PER_TOPIC)
      && (forall i, n {:trigger n in shards[i].topicsMap} {:trigger shards[i].topicsMap[n]} :: 0 <= i < |shards| && n in shards[i].topicsMap ==>
            ShardOf(n) == i && n in flat && flat[n] == shards[i].topicsMap[n])
      && (forall n {:trigger ShardOf(n)} :: n in flat ==> n in shards[ShardOf(n)].topicsMap)
      && (forall n {:trigger flat[n]} :: n in flat ==>
            flat[n].topicName == n && flat[n].maxSubscribersPerTopic == MAX_SUBSCRIBERS_PER_TOPIC)
    }

    /** A listed client is the one connected under its identifier. */
    ghost predicate Listed()
      reads this`flat, this`clients, flat.Values
    {
      && (forall c {:trigger clients[c]} :: c in clients ==> clients[c].clientID == c)
      && (forall n, c {:trigger c in flat[n].subscribers} {:trigger flat[n].subscribers[c]} :: n in flat && c in flat[n].subscribers ==>
            c in clients && clients[c] == flat[n].subscribers[c])
      && (forall n {:trigger flat[n]} :: n in flat ==> flat[n].Valid())
    }

    /** Objects under different names are different objects. */
    ghost predicate Apart()
      reads this`flat, this`clients, flat.Values
    {
      && (forall n {:trigger flat[n]} :: n in flat ==> flat[n].topicName == n && flat[n].Valid())
      && (forall c {:trigger clients[c]} :: c in clients ==> clients[c].clientID == c)
    }

    ghost predicate Has(topic: Topic, subscriber: Subscriber)
      reads this`flat, this`clients
    {
      && topic.topicName in flat && flat[topic.topicName] == topic
      && subscriber.clientID in clients && clients[subscriber.clientID] == subscriber
    }

    /** `w` is what the objects hold. */
    ghost predicate Holds(w: World)
      reads this`flat, this`clients, storage, flat.Values, clients.Values
    {
      && w.topics.Keys == flat.Keys
      && (forall n {:trigger flat[n]} {:trigger w.topics[n]} :: n in flat ==> w.topics[n] == flat[n].View())
      && w.clients.Keys == clients.Keys
      && (forall c {:trigger clients[c]} :: c in clients ==> w.clients[c] == clients[c].View())
      && w.lists == storage.lists
    }

    /** The objects are in order and hold `w`. */
    ghost predicate Consistent(w: World)
      reads this`flat, this`clients, shards, storage, flat.Values, clients.Values
    {
      Sharded() && Listed() && Holds(w) && storage.replaySize == REPLAY_BUFFER_SIZE
    }

    ghost predicate Valid()
      reads this, shards, storage, flat.Values, clients.Values
    {
      Consistent(world)
    }

    ghost method Commit(w: World)
      requires Consistent(w)
      modifies this`world
      ensures Valid() && world == w
    {
      world := w;
    }

    // What one operation leaves of the invariant, part by part, from what it changed.

    twostate predicate SameTables()
      reads shards
    {
      forall i :: 0 <= i < |shards| ==> shards[i].topicsMap == old(shards[i].topicsMap)
    }

    twostate lemma SameShards()
      requires old(Sharded()) && flat == old(flat) && SameTables()
      ensures Sharded()
    {}

    twostate lemma StillListed(new topicName: Name)
      requires old(Listed()) && flat == old(flat) && clients == old(clients) && topicName in flat
      requires forall n :: n in flat && n != topicName ==> flat[n].subscribers == old(flat[n].subscribers)
      requires var now, was := flat[topicName].subscribers, old(flat[topicName].subscribers);
               forall c :: c in now ==> (c in was && now[c] == was[c]) || (c in clients && now[c] == clients[c])
      ensures Listed()
    {}

    twostate lemma StillHolds(new topicName: Name, new c: ClientId, new w: World)
      requires old(Holds(world)) && flat == old(flat) && clients == old(clients)
      requires topicName in flat && c in clients
      requires forall n :: n in flat && n != topicName ==> flat[n].Same()
      requires forall d :: d in clients && d != c ==> clients[d].Same()
      requires TouchesOnly(old(world), w, topicName, c) && w.lists == storage.lists
      requires w.topics[topicName] == flat[topicName].View() && w.clients[c] == clients[c].View()
      ensures Holds(w)
    {}

    /** Everything but this topic and this subscriber is as before. */
    twostate predicate OnlyChanged(topicName: Name, c: ClientId)
      reads this`flat, this`clients, shards, storage, flat.Values, clients.Values
    {
      && flat == old(flat) && clients == old(clients)
      && SameTables() && storage.lists == old(storage.lists)
      && (forall n :: n in flat && n != topicName ==> flat[n].Same())
      && (forall d :: d in clients && d != c ==> clients[d].Same())
    }

    twostate lemma EditKeepsConsistent(new topicName: Name, new c: ClientId, new w: World)
      requires old(Valid()) && topicName in old(flat) && c in old(clients)
      requires OnlyChanged(topicName, c)
      requires var now, was := flat[topicName].subscribers, old(flat[topicName].subscribers);
               forall d :: d in now ==> (d in was && now[d] == was[d]) || (d in clients && now[d] == clients[d])
      requires TouchesOnly(old(world), w, topicName, c)
      requires w.topics[topicName] == flat[topicName].View() && w.clients[c] == clients[c].View()
      ensures Consistent(w)
    {
      SameShards();
      StillListed(topicName);
      StillHolds(topicName, c, w);
    }

    twostate lemma Subscribed(new topicName: Name, new c: ClientId, new error: Option<BrokerError>)
      requires old(Valid()) && topicName in old(flat) && c in old(clients)
      requires OnlyChanged(topicName, c)
      requires flat[topicName].Added(clients[c], error)
      ensures var outcome := FlatBroker.SubscribeToTopic(old(world), topicName, c);
              Consistent(outcome.world) && error == outcome.error
    {
      SubscribeTouches(old(world), topicName, c);
      SubscribedViews(topicName, c, error);
      EditKeepsConsistent(topicName, c, FlatBroker.SubscribeToTopic(old(world), topicName, c).world);
    }

    twostate lemma SubscribedViews(new topicName: Name, new c: ClientId, new error: Option<BrokerError>)
      requires old(Valid()) && topicName in old(flat) && c in old(clients)
      requires flat == old(flat) && clients == old(clients) && flat[topicName].Added(clients[c], error)
      ensures var outcome := FlatBroker.SubscribeToTopic(old(world), topicName, c);
              && error == outcome.error
              && topicName in outcome.world.topics && outcome.world.topics[topicName] == flat[topicName].View()
              && c in outcome.world.clients && outcome.world.clients[c] == clients[c].View()
    {
      assert old(world).topics[topicName] == old(flat[topicName].View());
      assert old(world).clients[c] == old(clients[c].View());
    }

    twostate lemma Unsubscribed(new topicName: Name, new c: ClientId)
      requires old(Valid()) && topicName in old(flat) && c in old(clients)
      requires OnlyChanged(topicName, c)
      requires flat[topicName].Removed(clients[c])
      ensures var outcome := FlatBroker.UnsubscribeFromTopic(old(world), topicName, c);
              Consistent(outcome.world) && outcome.error == None
    {
      UnsubscribeTouches(old(world), topicName, c);
      EditKeepsConsistent(topicName, c, FlatBroker.UnsubscribeFromTopic(old(world), topicName, c).world);
    }

    twostate predicate OnlyClientChanged(c: ClientId)
      reads this`flat, this`clients, shards, storage, flat.Values, clients.Values
    {
      && flat == old(flat) && clients == old(clients)
      && SameTables() && storage.lists == old(storage.lists)
      && (forall n :: n in flat ==> flat[n].Same())
      && (forall d :: d in clients && d != c ==> clients[d].Same())
    }

    twostate lemma ClientKeepsConsistent(new c: ClientId, new w: World)
      requires old(Valid()) && c in old(clients) && OnlyClientChanged(c)
      requires w == old(world).(clients := old(world).clients[c := clients[c].View()])
      ensures Consistent(w)
    {
      SameShards();
      ClientKeepsListed(c);
      ClientKeepsHolding(c, w);
    }

    twostate lemma ClientKeepsListed(new c: ClientId)
      requires old(Listed()) && c in old(clients) && OnlyClientChanged(c)
      ensures Listed()
    {
      forall n | n in flat ensures flat[n].Valid() {
        assert flat[n].Same();
      }
    }

    twostate lemma ClientKeepsHolding(new c: ClientId, new w: World)
      requires old(Holds(world)) && c in old(clients) && OnlyClientChanged(c)
      requires w == old(world).(clients := old(world).clients[c := clients[c].View()])
      ensures Holds(w)
    {
      forall n | n in flat ensures w.topics[n] == flat[n].View() {
        assert flat[n].Same();
      }
      forall d | d in clients ensures w.clients[d] == clients[d].View() {
        assert d != c ==> clients[d].Same();
      }
    }

    /** Hands one frame to one connected client. */
    method Send(subscriber: Subscriber, frame: ServerMessage)
      requires Valid()
      requires subscriber.clientID in clients && clients[subscriber.clientID] == subscriber
      modifies this`world, subscriber
      ensures Valid() && world == FlatBroker.Send(old(world), subscriber.clientID, frame)
    {
      GiveTo(subscriber, frame);
      Commit(FlatBroker.Send(world, subscriber.clientID, frame));
    }

    method GiveTo(subscriber: Subscriber, frame: ServerMessage)
      requires Valid()
      requires subscriber.clientID in clients && clients[subscriber.clientID] == subscriber
      modifies subscriber
      ensures Consistent(FlatBroker.Send(world, subscriber.clientID, frame))
    {
      var ok := subscriber.SendMessage(frame);
      ClientKeepsConsistent(subscriber.clientID, FlatBroker.Send(world, subscriber.clientID, frame));
    }

    method CloseSubscriber(subscriber: Subscriber)
      requires Valid()
      requires subscriber.clientID in clients && clients[subscriber.clientID] == subscriber
      modifies this`world, subscriber
      ensures Valid() && world == FlatBroker.Close(old(world), subscriber.clientID)
    {
      CloseOne(subscriber);
      Commit(FlatBroker.Close(world, subscriber.clientID));
    }

    method CloseOne(subscriber: Subscriber)
      requires Valid()
      requires subscriber.clientID in clients && clients[subscriber.clientID] == subscriber
      modifies subscriber
      ensures Consistent(FlatBroker.Close(world, subscriber.clientID))
    {
      subscriber.Close();
      ClientKeepsConsistent(subscriber.clientID, FlatBroker.Close(world, subscriber.clientID));
    }

    /** A new connection: nothing lists it yet. */
    ghost method Connect(subscriber: Subscriber)
      requires Valid() && subscriber.clientID !in clients && subscriber.View() == NewClient()
      modifies this`clients, this`world
      ensures Valid() && clients == old(clients)[subscriber.clientID := subscriber]
      ensures world == FlatBroker.Connect(old(world), subscriber.clientID)
    {
      clients := clients[subscriber.clientID := subscriber];
      world := FlatBroker.Connect(world, subscriber.clientID);
    }

    /** The clients a topic lists are the connected ones. */
    ghost predicate ListsConnected(topic: Topic)
      reads this`clients, topic
    {
      forall c :: c in topic.subscribers ==> c in clients && topic.subscribers[c] == clients[c]
    }

    twostate predicate Published(topicName: Name, message: Message, push: Reply, trim: Reply, new ok: bool)
      requires topicName in flat
      reads this`flat, this`clients, shards, storage, flat.Values, clients.Values
    {
      var saved := Save(old(storage.lists), topicName, message, push, trim);
      var topic := flat[topicName];
      && flat == old(flat) && clients == old(clients) && SameTables()
      && storage.lists == saved.lists && ok == saved.ok
      && (forall n :: n in flat && n != topicName ==> flat[n].Same())
      && topic.subscribers == old(topic.subscribers)
      && topic.totalMessageCount == old(topic.totalMessageCount) + (if ok then 1 else 0)
      && (forall c :: c in clients ==>
            clients[c].View() == if ok && c in topic.subscribers
                                 then Give(old(clients[c].View()), Delivery(topicName, message))
                                 else old(clients[c].View()))
    }

    twostate lemma PublishedHolds(new topicName: Name, new message: Message, new push: Reply, new trim: Reply, new ok: bool)
      requires old(Holds(world)) && topicName in flat && Published(topicName, message, push, trim, ok)
      requires forall c :: c in old(flat[topicName].subscribers) ==> c in clients
      ensures Holds(FlatBroker.PublishMessage(old(world), topicName, message, push, trim).world)
      ensures FlatBroker.PublishMessage(old(world), topicName, message, push, trim).error
              == if ok then None else Some(PersistFailed)
    {
      var w := FlatBroker.PublishMessage(old(world), topicName, message, push, trim).world;
      assert old(world).topics[topicName] == old(flat[topicName].View());
      forall c | c in clients ensures w.clients[c] == clients[c].View() {
        assert old(world).clients[c] == old(clients[c].View());
      }
      forall n | n in flat ensures w.topics[n] == flat[n].View() {
        assert n != topicName ==> old(world).topics[n] == flat[n].View();
      }
    }

    twostate lemma AfterPublish(new topicName: Name, new message: Message, new push: Reply, new trim: Reply, new ok: bool)
      requires old(Valid()) && topicName in flat && Published(topicName, message, push, trim, ok)
      ensures var outcome := FlatBroker.PublishMessage(old(world), topicName, message, push, trim);
              Consistent(outcome.world) && outcome.error == if ok then None else Some(PersistFailed)
    {
      SameShards();
      StillListed(topicName);
      PublishedHolds(topicName, message, push, trim, ok);
    }

    twostate predicate Created(topicName: Name, new error: Option<BrokerError>)
      requires |shards| == SHARD_COUNT
      reads this`flat, this`clients, shards, storage, flat.Values, clients.Values
    {
      var home := ShardOf(topicName);
      && clients == old(clients) && storage.lists == old(storage.lists)
      && (forall i :: 0 <= i < |shards| && i != home ==> shards[i].topicsMap == old(shards[i].topicsMap))
      && (forall n :: n in old(flat) ==> n in flat && flat[n] == old(flat)[n] && flat[n].Same())
      && (forall c :: c in clients ==> clients[c].View() == old(clients[c].View()))
      && if topicName in old(shards[home].topicsMap) then
           error == Some(TopicAlreadyExists) && flat == old(flat) && shards[home].topicsMap == old(shards[home].topicsMap)
         else
           && error == None
           && topicName in flat && flat == old(flat)[topicName := flat[topicName]] && fresh(flat[topicName])
           && shards[home].topicsMap == old(shards[home].topicsMap)[topicName := flat[topicName]]
           && flat[topicName].topicName == topicName
           && flat[topicName].maxSubscribersPerTopic == MAX_SUBSCRIBERS_PER_TOPIC
           && flat[topicName].View() == TopicState({}, 0)
    }

    twostate lemma CreatedSharded(new topicName: Name, new error: Option<BrokerError>)
      requires old(Sharded()) && Created(topicName, error)
      ensures Sharded()
    {}

    twostate lemma CreatedListed(new topicName: Name, new error: Option<BrokerError>)
      requires old(Sharded()) && old(Listed()) && Created(topicName, error)
      ensures Listed()
    {}

    twostate lemma CreatedHolds(new topicName: Name, new error: Option<BrokerError>)
      requires old(Sharded()) && old(Holds(world)) && Created(topicName, error)
      requires topicName != EMPTY_NAME && |old(world).topics| < MAX_TOPICS_LIMIT
      ensures Holds(FlatBroker.CreateTopic(old(world), topicName).world)
      ensures error == FlatBroker.CreateTopic(old(world), topicName).error
    {}

    twostate lemma AfterCreate(new topicName: Name, new error: Option<BrokerError>)
      requires old(Valid()) && Created(topicName, error)
      requires topicName != EMPTY_NAME && |old(world).topics| < MAX_TOPICS_LIMIT
      ensures fresh(flat.Values - old(flat.Values))
      ensures var outcome := FlatBroker.CreateTopic(old(world), topicName);
              Consistent(outcome.world) && error == outcome.error
    {
      CreatedSharded(topicName, error);
      CreatedListed(topicName, error);
      CreatedHolds(topicName, error);
    }

    twostate predicate Deleted(topicName: Name, new error: Option<BrokerError>)
      requires |shards| == SHARD_COUNT
      reads this`flat, this`clients, shards, storage, flat.Values, clients.Values
    {
      var home := ShardOf(topicName);
      && clients == old(clients) && storage.lists == old(storage.lists)
      && (forall i :: 0 <= i < |shards| && i != home ==> shards[i].topicsMap == old(shards[i].topicsMap))
      && flat == old(flat) - {topicName}
      && shards[home].topicsMap == old(shards[home].topicsMap) - {topicName}
      && (forall n :: n in flat ==> flat[n].Same())
      && error == (if topicName in old(flat) then None else Some(TopicNotFound))
      && (forall c :: c in clients ==>
            clients[c].View() == if topicName in old(flat) && c in old(flat[topicName].subscribers)
                                 then Evict(old(clients[c].View()), topicName)
                                 else old(clients[c].View()))
    }

    twostate lemma DeletedSharded(new topicName: Name, new error: Option<BrokerError>)
      requires old(Sharded()) && Deleted(topicName, error)
      ensures Sharded()
    {}

    twostate lemma DeletedListed(new topicName: Name, new error: Option<BrokerError>)
      requires old(Sharded()) && old(Listed()) && Deleted(topicName, error)
      ensures Listed()
    {}

    twostate lemma DeletedHolds(new topicName: Name, new error: Option<BrokerError>)
      requires old(Sharded()) && old(Holds(world)) && Deleted(topicName, error)
      ensures Holds(FlatBroker.DeleteTopic(old(world), topicName).world)
      ensures error == FlatBroker.DeleteTopic(old(world), topicName).error
    {}

    twostate lemma AfterDelete(new topicName: Name, new error: Option<BrokerError>)
      requires old(Valid()) && Deleted(topicName, error)
      ensures var outcome := FlatBroker.DeleteTopic(old(world), topicName);
              Consistent(outcome.world) && error == outcome.error
    {
      DeletedSharded(topicName, error);
      DeletedListed(topicName, error);
      DeletedHolds(topicName, error);
    }

    lemma ShardValid(i: nat)
      requires Sharded() && Apart() && i < |shards|
      ensures shards[i].Valid()
      ensures shards[i].topicsMap.Values <= flat.Values
    {
      forall n | n in shards[i].topicsMap ensures shards[i].topicsMap[n].Valid() && shards[i].topicsMap[n] == flat[n] {
        assert flat[n] == shards[i].topicsMap[n];
      }
    }

    /** How many topics the first `i` shards hold. */
    ghost function HeldCount(i: nat): nat
      reads this`flat
    {
      |HeldBelow(flat.Keys, i)|
    }

    lemma HeldByShard(i: nat)
      requires Sharded() && i < |shards|
      ensures HeldCount(i + 1) == HeldCount(i) + |shards[i].topicsMap|
    {
      assert HeldBelow(flat.Keys, i + 1) == HeldBelow(flat.Keys, i) + shards[i].topicsMap.Keys;
    }

    ghost function Lists(): map<Name, set<ClientId>>
      reads this`flat, flat.Values
    {
      map n | n in flat :: flat[n].subscribers.Keys
    }

    /** How many pairs of topic and listed client the first `i` shards hold. */
    ghost function PairsHeld(i: nat): nat
      reads this`flat, flat.Values
    {
      |PairsIn(Lists(), HeldBelow(flat.Keys, i))|
    }

    lemma PairsHeldByShard(i: nat)
      requires Sharded() && i < |shards|
      ensures shards[i].topicsMap.Values <= flat.Values
      ensures PairsHeld(i + 1) == PairsHeld(i) + |PairsIn(shards[i].Lists(), shards[i].topicsMap.Keys)|
    {
      var mine := PairsIn(shards[i].Lists(), shards[i].topicsMap.Keys);
      assert forall n :: n in shards[i].topicsMap ==> flat[n] == shards[i].topicsMap[n];
      assert PairsIn(Lists(), HeldBelow(flat.Keys, i + 1)) == PairsIn(Lists(), HeldBelow(flat.Keys, i)) + mine;
      assert PairsIn(Lists(), HeldBelow(flat.Keys, i)) !! mine;
    }

    lemma SameLists()
      requires Holds(world)
      ensures Lists() == FlatBroker.Lists(world)
    {
      forall n | n in flat ensures flat[n].subscribers.Keys == world.topics[n].subscribers {
        assert world.topics[n] == flat[n].View();
      }
    }

    lemma PairsHeldByAll()
      requires Sharded() && Holds(world)
      ensures PairsHeld(0) == 0 && PairsHeld(|shards|) == |Pairs(world)|
    {
      SameLists();
      EmptyBelow(Lists(), flat.Keys);
      AllBelow(flat.Keys);
    }

    /** The names of shard `i` as its table holds them, and what the listing says of each. */
    lemma ListedByShard(i: nat)
      requires Sharded() && Holds(world) && i < |shards|
      ensures HeldBelow(flat.Keys, i + 1) == HeldBelow(flat.Keys, i) + shards[i].topicsMap.Keys
      ensures HeldBelow(flat.Keys, i) !! shards[i].topicsMap.Keys
      ensures forall n :: n in shards[i].topicsMap ==>
                n in world.topics && shards[i].topicsMap[n].topicName == n
                && shards[i].topicsMap[n].View() == world.topics[n]
    {
      forall n | n in shards[i].topicsMap
        ensures n in world.topics && shards[i].topicsMap[n].topicName == n
                && shards[i].topicsMap[n].View() == world.topics[n]
      {
        assert flat[n] == shards[i].topicsMap[n];
      }
    }

    lemma HeldByAll()
      requires Sharded() && Holds(world)
      ensures HeldCount(0) == 0 && HeldCount(|shards|) == |world.topics|
    {
      assert HeldBelow(flat.Keys, 0) == {};
      assert HeldBelow(flat.Keys, |shards|) == flat.Keys == world.topics.Keys;
    }

    constructor (storage: RedisStorage)
      requires storage.replaySize == REPLAY_BUFFER_SIZE
      ensures Valid() && this.storage == storage && fresh(shards)
      ensures world == World(map[], map[], storage.lists)
    {
      var tables: seq<Shard> := [];
      for i := 0 to SHARD_COUNT
        invariant |tables| == i && fresh(tables)
        invariant forall k :: 0 <= k < i ==>
                    && tables[k].shardID == k
                    && tables[k].maxSubscribersPerTopic == MAX_SUBSCRIBERS_PER_TOPIC
                    && tables[k].topicsMap == map[]
        invariant forall j, k :: 0 <= j < k < i ==> tables[j] != tables[k]
      {
        var shard := new Shard(i, MAX_SUBSCRIBERS_PER_TOPIC);
        tables := tables + [shard];
      }
      this.storage := storage;
      shards := tables;
      flat := map[];
      clients := map[];
      world := World(map[], map[], storage.lists);
    }

    function SelectShardForTopic(topicName: Name): (shard: Shard)
      requires |shards| == SHARD_COUNT
    {
      shards[ShardOf(topicName)]
    }

    method CreateTopic(topicName: Name) returns (error: Option<BrokerError>)
      requires Valid()
      modifies this`flat, this`world, shards
      ensures Valid() && fresh(flat.Values - old(flat.Values))
      ensures Outcome(world, error) == FlatBroker.CreateTopic(old(world), topicName)
    {
      if topicName == EMPTY_NAME {
        return Some(TopicNameEmpty);
      }
      var currentTopicCount := GetTotalTopicCount();
      assert currentTopicCount == |world.topics|;
      if currentTopicCount >= MAX_TOPICS_LIMIT {
        return Some(MaxTopicsReached);
      }
      error := CreateInShard(topicName);
      AfterCreate(topicName, error);
      Commit(FlatBroker.CreateTopic(world, topicName).world);
    }

    method CreateInShard(topicName: Name) returns (error: Option<BrokerError>)
      requires Sharded() && Apart()
      modifies this`flat, {shards[ShardOf(topicName)]}`topicsMap
      ensures Created(topicName, error)
    {
      var shard := SelectShardForTopic(topicName);
      ShardValid(ShardOf(topicName));
      error := shard.CreateTopic(topicName);
      if error.None? {
        flat := flat[topicName := shard.topicsMap[topicName]];
      }
    }

    method DeleteTopic(topicName: Name) returns (error: Option<BrokerError>)
      requires Valid()
      modifies this`flat, this`world, shards, flat.Values`subscribers, clients.Values
      ensures Valid() && flat.Values <= old(flat.Values)
      ensures Outcome(world, error) == FlatBroker.DeleteTopic(old(world), topicName)
    {
      error := DeleteFromShard(topicName);
      AfterDelete(topicName, error);
      Commit(FlatBroker.DeleteTopic(world, topicName).world);
    }

    method DeleteFromShard(topicName: Name) returns (error: Option<BrokerError>)
      requires Sharded() && Apart() && (topicName in flat ==> ListsConnected(flat[topicName]))
      modifies this`flat, {shards[ShardOf(topicName)]}`topicsMap
      modifies (if topicName in flat then {flat[topicName]} else {})`subscribers
      modifies if topicName in flat then flat[topicName].subscribers.Values else {}
      ensures Deleted(topicName, error)
    {
      var shard := SelectShardForTopic(topicName);
      ShardValid(ShardOf(topicName));
      error := shard.DeleteTopic(topicName);
      flat := flat - {topicName};
    }

    method GetTopic(topicName: Name) returns (topic: Topic?)
      requires Valid()
      ensures topic == if topicName in flat then flat[topicName] else null
    {
      var shard := SelectShardForTopic(topicName);
      topic := shard.GetTopic(topicName);
    }

    method TopicExists(topicName: Name) returns (answer: bool)
      requires Valid()
      ensures answer == (topicName in world.topics)
    {
      var shard := SelectShardForTopic(topicName);
      answer := shard.TopicExists(topicName);
    }

    method PublishMessage(topicName: Name, message: Message, push: Reply, trim: Reply)
      returns (error: Option<BrokerError>)
      requires Valid()
      modifies this`world, storage`lists, flat.Values`totalMessageCount, clients.Values
      ensures Valid()
      ensures Outcome(world, error) == FlatBroker.PublishMessage(old(world), topicName, message, push, trim)
    {
      var topic := GetTopic(topicName);
      if topic == null {
        return Some(TopicNotFound);
      }
      var ok := PublishTo(topic, message, push, trim);
      Commit(FlatBroker.PublishMessage(world, topicName, message, push, trim).world);
      return if ok then None else Some(PersistFailed);
    }

    method PublishTo(topic: Topic, message: Message, push: Reply, trim: Reply) returns (ok: bool)
      requires Valid() && topic.topicName in flat && flat[topic.topicName] == topic
      modifies storage`lists, flat.Values`totalMessageCount, clients.Values
      ensures var outcome := FlatBroker.PublishMessage(world, topic.topicName, message, push, trim);
              Consistent(outcome.world) && outcome.error == if ok then None else Some(PersistFailed)
    {
      ListenersAreClients(topic.topicName);
      ok := SaveAndFanOut(topic, message, push, trim);
      AfterPublish(topic.topicName, message, push, trim, ok);
    }

    lemma ListenersAreClients(topicName: Name)
      requires Sharded() && Listed() && topicName in flat
      ensures Apart() && ListsConnected(flat[topicName]) && flat[topicName].subscribers.Values <= clients.Values
    {
      forall s | s in flat[topicName].subscribers.Values ensures s in clients.Values {
        var c :| c in flat[topicName].subscribers && flat[topicName].subscribers[c] == s;
        assert clients[c] == s;
      }
    }

    /** Saving comes first; a failed save ends the publish. */
    method SaveAndFanOut(topic: Topic, message: Message, push: Reply, trim: Reply) returns (ok: bool)
      requires Apart() && topic.topicName in flat && flat[topic.topicName] == topic
      requires ListsConnected(topic) && storage.replaySize == REPLAY_BUFFER_SIZE
      modifies storage`lists, topic`totalMessageCount, topic.subscribers.Values
      ensures Published(topic.topicName, message, push, trim, ok)
    {
      ok := storage.SaveMessage(topic.topicName, message, push, trim);
      if ok {
        var slowConsumerCount := topic.PublishMessage(message);
      }
    }

    method SubscribeToTopic(topicName: Name, subscriber: Subscriber) returns (error: Option<BrokerError>)
      requires Valid()
      requires subscriber.clientID in clients && clients[subscriber.clientID] == subscriber
      modifies this`world, flat.Values`subscribers, subscriber`subscribedTopics
      ensures Valid()
      ensures Outcome(world, error) == FlatBroker.SubscribeToTopic(old(world), topicName, subscriber.clientID)
    {
      var topic := GetTopic(topicName);
      if topic == null {
        return Some(TopicNotFound);
      }
      error := Join(topic, subscriber);
      Commit(FlatBroker.SubscribeToTopic(world, topicName, subscriber.clientID).world);
    }

    method Join(topic: Topic, subscriber: Subscriber) returns (error: Option<BrokerError>)
      requires Valid() && Has(topic, subscriber)
      modifies flat.Values`subscribers, subscriber`subscribedTopics
      ensures var outcome := FlatBroker.SubscribeToTopic(world, topic.topicName, subscriber.clientID);
              Consistent(outcome.world) && error == outcome.error
    {
      error := AddTo(topic, subscriber);
      Subscribed(topic.topicName, subscriber.clientID, error);
    }

    /** The call that `SubscribeToTopic` makes, told by what it leaves alone. */
    method AddTo(topic: Topic, subscriber: Subscriber) returns (error: Option<BrokerError>)
      requires Apart() && Has(topic, subscriber)
      modifies topic`subscribers, subscriber`subscribedTopics
      ensures OnlyChanged(topic.topicName, subscriber.clientID) && topic.Added(subscriber, error)
    {
      error := topic.AddSubscriber(subscriber);
    }

    method UnsubscribeFromTopic(topicName: Name, clientID: ClientId) returns (error: Option<BrokerError>)
      requires Valid()
      requires clientID in clients
      modifies this`world, flat.Values`subscribers, {clients[clientID]}`subscribedTopics
      ensures Valid()
      ensures Outcome(world, error) == FlatBroker.UnsubscribeFromTopic(old(world), topicName, clientID)
    {
      var topic := GetTopic(topicName);
      if topic == null {
        return Some(TopicNotFound);
      }
      Leave(topic, clientID);
      Commit(FlatBroker.UnsubscribeFromTopic(world, topicName, clientID).world);
      return None;
    }

    method Leave(topic: Topic, clientID: ClientId)
      requires Valid() && clientID in clients && Has(topic, clients[clientID])
      modifies flat.Values`subscribers, {clients[clientID]}`subscribedTopics
      ensures var outcome := FlatBroker.UnsubscribeFromTopic(world, topic.topicName, clientID);
              Consistent(outcome.world) && outcome.error == None
    {
      RemoveFrom(topic, clientID);
      Unsubscribed(topic.topicName, clientID);
    }

    method RemoveFrom(topic: Topic, clientID: ClientId)
      requires Apart() && clientID in clients && Has(topic, clients[clientID])
      requires clientID in topic.subscribers ==> topic.subscribers[clientID] == clients[clientID]
      modifies topic`subscribers, {clients[clientID]}`subscribedTopics
      ensures OnlyChanged(topic.topicName, clientID) && topic.Removed(clients[clientID])
    {
      topic.RemoveSubscriber(clientID);
    }

    method GetReplayMessages(topicName: Name, lastNMessages: int, range: Reply)
      returns (messages: Option<seq<Message>>)
      requires Valid()
      ensures messages == Fetch(world.lists, topicName, lastNMessages, range)
    {
      messages := storage.GetReplayMessages(topicName, lastNMessages, range);
    }

    method GetTotalTopicCount() returns (total: nat)
      requires Valid()
      ensures total == |world.topics|
    {
      HeldByAll();
      total := 0;
      for i := 0 to |shards|
        invariant total == HeldCount(i)
      {
        var count := shards[i].GetTopicCount();
        HeldByShard(i);
        total := total + count;
      }
    }

    /** Every topic exactly once. */
    method ListAllTopics() returns (allTopics: seq<TopicInfo>)
      requires Valid()
      ensures IsListing(allTopics, world, world.topics.Keys)
      ensures |allTopics| == |world.topics|
    {
      allTopics := [];
      ghost var done: set<Name> := {};
      HeldByAll();
      for i := 0 to |shards|
        invariant done == HeldBelow(flat.Keys, i)
        invariant IsListing(allTopics, world, done)
      {
        var infos := ListShard(i);
        ListingJoins(allTopics, infos, world, done, shards[i].topicsMap.Keys);
        allTopics, done := allTopics + infos, done + shards[i].topicsMap.Keys;
      }
      assert done == world.topics.Keys;
    }

    method ListShard(i: nat) returns (infos: seq<TopicInfo>)
      requires Valid() && i < |shards|
      ensures IsListing(infos, world, shards[i].topicsMap.Keys)
      ensures HeldBelow(flat.Keys, i + 1) == HeldBelow(flat.Keys, i) + shards[i].topicsMap.Keys
      ensures HeldBelow(flat.Keys, i) !! shards[i].topicsMap.Keys
    {
      ListedByShard(i);
      ShardValid(i);
      var shardTopics := shards[i].GetAllTopics();
      infos := GetTopicInfos(shardTopics);
      TableListed(i, shardTopics, infos);
    }

    lemma TableListed(i: nat, topics: seq<Topic>, infos: seq<TopicInfo>)
      requires i < |shards| && |infos| == |topics| == |shards[i].topicsMap|
      requires forall n :: n in shards[i].topicsMap ==>
                 n in world.topics && shards[i].topicsMap[n].topicName == n
                 && shards[i].topicsMap[n].View() == world.topics[n]
      requires forall k :: 0 <= k < |topics| ==>
                 && topics[k].topicName in shards[i].topicsMap && shards[i].topicsMap[topics[k].topicName] == topics[k]
                 && infos[k] == TopicInfo(topics[k].topicName, |topics[k].View().subscribers|, topics[k].View().count)
      requires forall n :: n in shards[i].topicsMap ==> shards[i].topicsMap[n] in topics
      requires forall j, k :: 0 <= j < k < |topics| ==> topics[j].topicName != topics[k].topicName
      ensures IsListing(infos, world, shards[i].topicsMap.Keys)
    {
      forall n | n in shards[i].topicsMap ensures exists k :: 0 <= k < |infos| && infos[k].topicName == n {
        var k :| 0 <= k < |topics| && topics[k] == shards[i].topicsMap[n];
        assert infos[k].topicName == n;
      }
    }

    static method GetTopicInfos(topics: seq<Topic>) returns (infos: seq<TopicInfo>)
      ensures |infos| == |topics|
      ensures forall k :: 0 <= k < |topics| ==>
                infos[k] == TopicInfo(topics[k].topicName, |topics[k].View().subscribers|, topics[k].View().count)
    {
      infos := [];
      for k := 0 to |topics|
        invariant |infos| == k
        invariant forall j :: 0 <= j < k ==>
                    infos[j] == TopicInfo(topics[j].topicName, |topics[j].View().subscribers|, topics[j].View().count)
      {
        var info := topics[k].GetTopicInfo();
        infos := infos + [info];
      }
    }

    method GetStatistics() returns (stats: Statistics)
      requires Valid()
      ensures stats.totalTopics == |world.topics|
      ensures stats.totalSubscribers == |Pairs(world)|
      ensures IsListing(stats.topicStats, world, world.topics.Keys)
    {
      var topicInfoList := ListAllTopics();
      var totalSubscribers := AddUpSubscribers(topicInfoList, world);
      return Statistics(|topicInfoList|, totalSubscribers, topicInfoList);
    }

    static method AddUpSubscribers(infos: seq<TopicInfo>, ghost w: World) returns (total: nat)
      requires IsListing(infos, w, w.topics.Keys)
      ensures total == |Pairs(w)|
    {
      total := 0;
      ghost var done: set<Name> := {};
      for k := 0 to |infos|
        invariant IsListing(infos[..k], w, done)
        invariant total == |PairsIn(FlatBroker.Lists(w), done)|
      {
        SubscribersGrow(infos, w, done, k);
        done := done + {infos[k].topicName};
        total := total + infos[k].subscriberCount;
      }
      assert infos[..|infos|] == infos;
      SameListing(infos, w, done, w.topics.Keys);
    }

    method GetTotalSubscriberCount() returns (total: nat)
      requires Valid()
      ensures total == |Pairs(world)|
    {
      PairsHeldByAll();
      total := CollectSubscriberCount();
    }

    /** The first `i` shards hold `total` pairs. */
    ghost predicate CountedTo(i: nat, total: nat)
      reads this`flat, shards, flat.Values
    {
      Sharded() && total == PairsHeld(i)
    }

    method CollectSubscriberCount() returns (total: nat)
      requires CountedTo(0, 0)
      ensures CountedTo(|shards|, total)
    {
      total := 0;
      for i := 0 to |shards|
        invariant CountedTo(i, total)
      {
        total := AddSubscriberCount(i, total);
      }
    }

    method AddSubscriberCount(i: nat, total: nat) returns (sum: nat)
      requires i < |shards| && CountedTo(i, total)
      ensures CountedTo(i + 1, sum)
    {
      var count := shards[i].GetTotalSubscriberCount();
      PairsHeldByShard(i);
      sum := total + count;
    }

    method StatisticsOf(i: nat) returns (line: ShardStatistics)
      requires Sharded() && Holds(world) && i < |shards|
      ensures line == ShardLine(world, i)
      ensures PairsHeld(i + 1) == PairsHeld(i) + line.subscriberCount
    {
      line := shards[i].GetShardStatistics();
      PairsHeldByShard(i);
      TableIsShare(i);
      ListsOfShard(i);
      CountsOfShard(i);
    }

    lemma TableIsShare(i: nat)
      requires Sharded() && Holds(world) && i < |shards|
      ensures shards[i].topicsMap.Keys == NamesIn(world, i)
      ensures forall n :: n in shards[i].topicsMap ==> n in world.topics && shards[i].topicsMap[n].View() == world.topics[n]
    {
      ListedByShard(i);
    }

    lemma ListsOfShard(i: nat)
      requires Sharded() && Holds(world) && i < |shards|
      ensures PairsIn(shards[i].Lists(), shards[i].topicsMap.Keys) == PairsIn(FlatBroker.Lists(world), NamesIn(world, i))
    {
      TableIsShare(i);
      forall n | n in shards[i].topicsMap ensures shards[i].Lists()[n] == FlatBroker.Lists(world)[n] {
        assert shards[i].topicsMap[n].View().subscribers == world.topics[n].subscribers;
      }
    }

    lemma CountsOfShard(i: nat)
      requires Sharded() && Holds(world) && i < |shards|
      ensures CountsOf(shards[i].topicsMap, shards[i].topicsMap.Keys) == CountsIn(world, i)
    {
      TableIsShare(i);
      assert forall n :: n in shards[i].topicsMap ==> shards[i].topicsMap[n].View().count == world.topics[n].count;
    }

    /** One line a shard, on the names that hash to it; the subscriber counts add up to the same total. */
    method GetShardStatistics() returns (stats: seq<ShardStatistics>)
      requires Valid()
      ensures |stats| == SHARD_COUNT && AddedUp(stats) == |Pairs(world)|
      ensures forall i :: 0 <= i < |stats| ==> stats[i] == ShardLine(world, i)
    {
      PairsHeldByAll();
      stats := CollectStatistics();
    }

    method CollectStatistics() returns (stats: seq<ShardStatistics>)
      requires Sharded() && Holds(world) && PairsHeld(0) == 0
      ensures |stats| == |shards| && AddedUp(stats) == PairsHeld(|shards|)
      ensures forall i :: 0 <= i < |stats| ==> stats[i] == ShardLine(world, i)
    {
      stats := [];
      for i := 0 to |shards|
        invariant |stats| == i && AddedUp(stats) == PairsHeld(i)
        invariant forall j :: 0 <= j < i ==> stats[j] == ShardLine(world, j)
      {
        var line := StatisticsOf(i);
        LineAdded(stats, line, i);
        stats := stats + [line];
      }
    }

    lemma LineAdded(stats: seq<ShardStatistics>, line: ShardStatistics, i: nat)
      requires |stats| == i && AddedUp(stats) == PairsHeld(i) && PairsHeld(i + 1) == PairsHeld(i) + line.subscriberCount
      requires line == ShardLine(world, i) && forall j :: 0 <= j < i ==> stats[j] == ShardLine(world, j)
      ensures AddedUp(stats + [line]) == PairsHeld(i + 1)
      ensures forall j :: 0 <= j < i + 1 ==> (stats + [line])[j] == ShardLine(world, j)
    {
      AddedUpLonger(stats, line);
    }
  }

  ghost function NamesIn(w: World, i: nat): set<Name> {
    set n | n in w.topics && ShardOf(n) == i
  }

  ghost function CountsIn(w: World, i: nat): map<Name, nat> {
    map n | n in NamesIn(w, i) :: w.topics[n].count
  }

  /** What the statistics should say of shard `i`: its names, the clients their topics list, and their messages. */
  ghost function ShardLine(w: World, i: nat): ShardStatistics {
    ShardStatistics(i, |NamesIn(w, i)|, |PairsIn(FlatBroker.Lists(w), NamesIn(w, i))|, Sum(CountsIn(w, i)))
  }

  function AddedUp(stats: seq<ShardStatistics>): nat {
    if stats == [] then 0 else AddedUp(stats[..|stats| - 1]) + stats[|stats| - 1].subscriberCount
  }

  lemma AddedUpLonger(stats: seq<ShardStatistics>, line: ShardStatistics)
    ensures AddedUp(stats + [line]) == AddedUp(stats) + line.subscriberCount
  {
    assert (stats + [line])[..|stats|] == stats;
  }

  ghost function InfoOf(w: World, n: Name): TopicInfo
    requires n in w.topics
  {
    TopicInfo(n, |w.topics[n].subscribers|, w.topics[n].count)
  }

  /** `infos` tells of each of `names` once, and of nothing else. */
  ghost predicate IsListing(infos: seq<TopicInfo>, w: World, names: set<Name>) {
    && names <= w.topics.Keys
    && |infos| == |names|
    && (forall k :: 0 <= k < |infos| ==> infos[k].topicName in names && infos[k] == InfoOf(w, infos[k].topicName))
    && (forall j, k :: 0 <= j < k < |infos| ==> infos[j].topicName != infos[k].topicName)
    && (forall n :: n in names ==> exists k :: 0 <= k < |infos| && infos[k].topicName == n)
  }

  lemma ListingGrows(infos: seq<TopicInfo>, w: World, names: set<Name>, n: Name)
    requires IsListing(infos, w, names) && n in w.topics && n !in names
    ensures IsListing(infos + [InfoOf(w, n)], w, names + {n})
  {
    var longer := infos + [InfoOf(w, n)];
    forall m | m in names + {n} ensures exists k :: 0 <= k < |longer| && longer[k].topicName == m {
      if m == n {
        assert longer[|infos|].topicName == n;
      } else {
        var k :| 0 <= k < |infos| && infos[k].topicName == m;
        assert longer[k].topicName == m;
      }
    }
  }

  lemma ListingJoins(infos: seq<TopicInfo>, more: seq<TopicInfo>, w: World, names: set<Name>, others: set<Name>)
    requires IsListing(infos, w, names) && IsListing(more, w, others) && names !! others
    ensures IsListing(infos + more, w, names + others)
  {
    var all := infos + more;
    forall n | n in names + others ensures exists k :: 0 <= k < |all| && all[k].topicName == n {
      if n in names {
        var k :| 0 <= k < |infos| && infos[k].topicName == n;
        assert all[k].topicName == n;
      } else {
        var k :| 0 <= k < |more| && more[k].topicName == n;
        assert all[|infos| + k].topicName == n;
      }
    }
  }

  lemma NextIsNew(infos: seq<TopicInfo>, w: World, done: set<Name>, k: nat)
    requires IsListing(infos, w, w.topics.Keys) && k < |infos| && IsListing(infos[..k], w, done)
    ensures infos[k].topicName in w.topics && infos[k].topicName !in done
    ensures infos[k] == InfoOf(w, infos[k].topicName) && infos[..k + 1] == infos[..k] + [infos[k]]
  {}

  lemma SubscribersGrow(infos: seq<TopicInfo>, w: World, done: set<Name>, k: nat)
    requires IsListing(infos, w, w.topics.Keys) && k < |infos| && IsListing(infos[..k], w, done)
    ensures IsListing(infos[..k + 1], w, done + {infos[k].topicName})
    ensures |PairsIn(FlatBroker.Lists(w), done + {infos[k].topicName})|
            == |PairsIn(FlatBroker.Lists(w), done)| + infos[k].subscriberCount
  {
    NextIsNew(infos, w, done, k);
    ListingGrows(infos[..k], w, done, infos[k].topicName);
    PairsInGrow(FlatBroker.Lists(w), done, infos[k].topicName);
  }

  lemma SameListing(infos: seq<TopicInfo>, w: World, names: set<Name>, others: set<Name>)
    requires IsListing(infos, w, names) && IsListing(infos, w, others)
    ensures names == others
  {
    forall n ensures n in names <==> n in others {
      if n in names {
        var k :| 0 <= k < |infos| && infos[k].topicName == n;
      }
      if n in others {
        var k :| 0 <= k < |infos| && infos[k].topicName == n;
      }
    }
  }

  lemma EmptyBelow(lists: map<Name, set<ClientId>>, names: set<Name>)
    ensures PairsIn(lists, HeldBelow(names, 0)) == {}
  {}

  lemma AllBelow(names: set<Name>)
    ensures HeldBelow(names, SHARD_COUNT) == names
  {}

  /** Only this topic and this client differ. */
  ghost predicate TouchesOnly(w: World, after: World, topic: Name, c: ClientId) {
    && after.topics.Keys == w.topics.Keys && topic in w.topics
    && after.clients.Keys == w.clients.Keys && c in w.clients
    && (forall n :: n in w.topics && n != topic ==> after.topics[n] == w.topics[n])
    && (forall d :: d in w.clients && d != c ==> after.clients[d] == w.clients[d])
    && after.lists == w.lists
  }

  lemma SubscribeTouches(w: World, topic: Name, c: ClientId)
    requires c in w.clients && topic in w.topics
    ensures TouchesOnly(w, FlatBroker.SubscribeToTopic(w, topic, c).world, topic, c)
  {}

  lemma UnsubscribeTouches(w: World, topic: Name, c: ClientId)
    requires c in w.clients && topic in w.topics
    ensures TouchesOnly(w, FlatBroker.UnsubscribeFromTopic(w, topic, c).world, topic, c)
  {}

  /** The names that shards before `i` hold. */
  ghost function HeldBelow(names: set<Name>, i: nat): set<Name> {
    set n | n in names && ShardOf(n) < i
  }
}
