/** One of the broker's tables of topics (internal/broker/shard.go). */
module Shards {
  import opened Model
  import opened FlatBroker
  import opened Subscribers
  import opened Sums
  import opened Topics

  datatype ShardStatistics = ShardStatistics(shardID: nat, topicCount: nat, subscriberCount: nat, totalMessages: nat)

  ghost function CountsOf(topics: map<Name, Topic>, names: set<Name>): map<Name, nat>
    reads topics.Values
  {
    map n | n in names && n in topics :: topics[n].totalMessageCount
  }

  class Shard {
    const shardID: nat
    const maxSubscribersPerTopic: nat
    var topicsMap: map<Name, Topic>

    ghost predicate Valid()
      reads this, topicsMap.Values
    {
      forall n :: n in topicsMap ==>
        && topicsMap[n].topicName == n
        && topicsMap[n].maxSubscribersPerTopic == maxSubscribersPerTopic
        && topicsMap[n].Valid()
    }

    ghost function Lists(): map<Name, set<ClientId>>
      reads this`topicsMap, topicsMap.Values
    {
      map n | n in topicsMap :: topicsMap[n].subscribers.Keys
    }

    constructor (shardID: nat, maxSubscribersPerTopic: nat)
      ensures this.shardID == shardID && this.maxSubscribersPerTopic == maxSubscribersPerTopic
      ensures topicsMap == map[]
    {
      this.shardID, this.maxSubscribersPerTopic, topicsMap := shardID, maxSubscribersPerTopic, map[];
    }

    method CreateTopic(topicName: Name) returns (error: Option<BrokerError>)
      requires Valid()
      modifies this`topicsMap
      ensures Valid()
      ensures if topicName in old(topicsMap) then error == Some(TopicAlreadyExists) && topicsMap == old(topicsMap)
              else
                && error == None
                && topicName in topicsMap && topicsMap == old(topicsMap)[topicName := topicsMap[topicName]]
                && fresh(topicsMap[topicName]) && topicsMap[topicName].View() == TopicState({}, 0)
    {
      if topicName in topicsMap {
        return Some(TopicAlreadyExists);
      }
      var newTopic := new Topic(topicName, maxSubscribersPerTopic);
      topicsMap := topicsMap[topicName := newTopic];
      return None;
    }

    method DeleteTopic(topicName: Name) returns (error: Option<BrokerError>)
      requires Valid()
      modifies this`topicsMap
      modifies (if topicName in topicsMap then {topicsMap[topicName]} else {})`subscribers
      modifies if topicName in topicsMap then topicsMap[topicName].subscribers.Values else {}
      ensures Valid()
      ensures topicsMap == old(topicsMap) - {topicName}
      ensures error == if topicName in old(topicsMap) then None else Some(TopicNotFound)
      ensures topicName in old(topicsMap) ==>
                var listed := old(topicsMap[topicName].subscribers);
                forall c :: c in listed ==> listed[c].View() == Evict(old(listed[c].View()), topicName)
    {
      if topicName !in topicsMap {
        return Some(TopicNotFound);
      }
      var topic := topicsMap[topicName];
      topic.CloseAllSubscribers();
      topicsMap := topicsMap - {topicName};
      return None;
    }

    method GetTopic(topicName: Name) returns (topic: Topic?)
      ensures topic == if topicName in topicsMap then topicsMap[topicName] else null
    {
      if topicName in topicsMap {
        return topicsMap[topicName];
      }
      return null;
    }

    method TopicExists(topicName: Name) returns (exists_: bool)
      ensures exists_ == (topicName in topicsMap)
    {
      return topicName in topicsMap;
    }

    method GetTopicCount() returns (count: nat)
      ensures count == |topicsMap|
    {
      return |topicsMap|;
    }

    /** The topics, each once, in no particular order. */
    method GetAllTopics() returns (topics: seq<Topic>)
      requires Valid()
      ensures |topics| == |topicsMap|
      ensures forall i :: 0 <= i < |topics| ==>
                topics[i].topicName in topicsMap && topicsMap[topics[i].topicName] == topics[i]
      ensures forall n :: n in topicsMap ==> topicsMap[n] in topics
      ensures forall i, j :: 0 <= i < j < |topics| ==> topics[i].topicName != topics[j].topicName
    {
      topics := [];
      var remaining := topicsMap.Keys;
      while remaining != {}
        invariant remaining <= topicsMap.Keys
        invariant |topics| + |remaining| == |topicsMap|
        invariant forall n :: n in topicsMap && n !in remaining ==> topicsMap[n] in topics
        invariant forall i :: 0 <= i < |topics| ==>
                    topics[i].topicName in topicsMap.Keys - remaining && topicsMap[topics[i].topicName] == topics[i]
        invariant forall i, j :: 0 <= i < j < |topics| ==> topics[i].topicName != topics[j].topicName
      {
        var topicName :| topicName in remaining;
        topics := topics + [topicsMap[topicName]];
        remaining := remaining - {topicName};
      }
    }

    method GetTotalSubscriberCount() returns (total: nat)
      ensures total == |PairsIn(Lists(), topicsMap.Keys)|
    {
      total := 0;
      var remaining := topicsMap.Keys;
      while remaining != {}
        invariant remaining <= topicsMap.Keys
        invariant total == |PairsIn(Lists(), topicsMap.Keys - remaining)|
      {
        var topicName :| topicName in remaining;
        ghost var done := topicsMap.Keys - remaining;
        var count := topicsMap[topicName].GetSubscriberCount();
        PairsInGrow(Lists(), done, topicName);
        remaining := remaining - {topicName};
        assert topicsMap.Keys - remaining == done + {topicName};
        total := total + count;
      }
      assert topicsMap.Keys - {} == topicsMap.Keys;
    }

    /** The message counts of all topics, added up in the order the table is ranged over. */
    method GetShardStatistics() returns (stats: ShardStatistics)
      ensures stats.shardID == shardID && stats.topicCount == |topicsMap|
      ensures stats.subscriberCount == |PairsIn(Lists(), topicsMap.Keys)|
      ensures stats.totalMessages == Sum(CountsOf(topicsMap, topicsMap.Keys))
    {
      var totalMessages, totalSubscribers := 0, 0;
      var remaining := topicsMap.Keys;
      while remaining != {}
        invariant remaining <= topicsMap.Keys
        invariant totalSubscribers == |PairsIn(Lists(), topicsMap.Keys - remaining)|
        invariant totalMessages == Sum(CountsOf(topicsMap, topicsMap.Keys - remaining))
      {
        var topicName :| topicName in remaining;
        ghost var done := topicsMap.Keys - remaining;
        var messages := topicsMap[topicName].GetTotalMessageCount();
        var count := topicsMap[topicName].GetSubscriberCount();
        PairsInGrow(Lists(), done, topicName);
        CountsGrow(topicsMap, done, topicName);
        remaining := remaining - {topicName};
        assert topicsMap.Keys - remaining == done + {topicName};
        totalMessages := totalMessages + messages;
        totalSubscribers := totalSubscribers + count;
      }
      assert topicsMap.Keys - {} == topicsMap.Keys;
      return ShardStatistics(shardID, |topicsMap|, totalSubscribers, totalMessages);
    }
  }

  lemma CountsGrow(topics: map<Name, Topic>, done: set<Name>, n: Name)
    requires n in topics && n !in done
    ensures Sum(CountsOf(topics, done + {n})) == Sum(CountsOf(topics, done)) + topics[n].totalMessageCount
  {
    SumByAny(CountsOf(topics, done + {n}), n);
    assert CountsOf(topics, done + {n}) - {n} == CountsOf(topics, done);
  }
}
