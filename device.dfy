/**
 * The Device document's topic subscriptions and activity stamp. The topic
 * list is kept free of repetitions by subscribing only to topics not yet
 * listed; unsubscribing removes every occurrence.
 */
module Devices {
  import opened Seqs

  datatype Platform = Ios | Android | Web

  /** `subscribedTopics.includes(t) ? topics : [...topics, t]`. */
  function Subscribed(topics: seq<string>, topic: string): (r: seq<string>)
    ensures forall t :: t in r <==> t in topics || t == topic
    ensures IsPrefix(topics, r)
  {
    if topic in topics then topics else topics + [topic]
  }

  function Other(topic: string): string -> bool {
    t => t != topic
  }

  /** `subscribedTopics.filter(t => t !== topic)`. */
  function Unsubscribed(topics: seq<string>, topic: string): seq<string> {
    Filter(topics, Other(topic))
  }

  class Device {
    var userId: string
    var deviceId: string
    var platform: Platform
    var isActive: bool
    var lastActiveAt: int
    var subscribedTopics: seq<string>

    /** A new document: active, no topics, last active now. */
    constructor(userId: string, deviceId: string, platform: Platform, now: int)
      ensures this.userId == userId && this.deviceId == deviceId && this.platform == platform
      ensures isActive && lastActiveAt == now && subscribedTopics == []
    {
      this.userId := userId;
      this.deviceId := deviceId;
      this.platform := platform;
      isActive := true;
      lastActiveAt := now;
      subscribedTopics := [];
    }

    method UpdateLastActive(now: int)
      modifies this
      ensures lastActiveAt == now
      ensures unchanged(this`userId, this`deviceId, this`platform, this`isActive, this`subscribedTopics)
    {
      lastActiveAt := now;
    }

    method SubscribeToTopic(topic: string)
      modifies this
      ensures subscribedTopics == Subscribed(old(subscribedTopics), topic)
      ensures NoDuplicates(old(subscribedTopics)) ==> NoDuplicates(subscribedTopics)
      ensures unchanged(this`userId, this`deviceId, this`platform, this`isActive, this`lastActiveAt)
    {
      if topic !in subscribedTopics {
        subscribedTopics := subscribedTopics + [topic];
      }
      SubscribedKeepsDistinct(old(subscribedTopics), topic);
    }

    method UnsubscribeFromTopic(topic: string)
      modifies this
      ensures subscribedTopics == Unsubscribed(old(subscribedTopics), topic)
      ensures topic !in subscribedTopics
      ensures unchanged(this`userId, this`deviceId, this`platform, this`isActive, this`lastActiveAt)
    {
      subscribedTopics := Filter(subscribedTopics, Other(topic));
      UnsubscribedExactly(old(subscribedTopics), topic, topic);
    }
  }

  /** Subscribing never repeats a topic, and a second subscription to the
      same topic changes nothing. */
  lemma SubscribedKeepsDistinct(topics: seq<string>, topic: string)
    ensures NoDuplicates(topics) ==> NoDuplicates(Subscribed(topics, topic))
    ensures Subscribed(Subscribed(topics, topic), topic) == Subscribed(topics, topic)
  {
    if NoDuplicates(topics) && topic !in topics {
      NoDuplicatesSnoc(topics, topic);
    }
  }

  /** Unsubscribing keeps exactly the other topics, in order. */
  lemma UnsubscribedExactly(topics: seq<string>, topic: string, t: string)
    ensures t in Unsubscribed(topics, topic) <==> t in topics && t != topic
    ensures topic !in topics ==> Unsubscribed(topics, topic) == topics
    ensures Unsubscribed(Unsubscribed(topics, topic), topic) == Unsubscribed(topics, topic)
  {
    FilterMembership(topics, Other(topic), t);
    if topic !in topics {
      FilterAll(topics, Other(topic));
    }
    FilterFilterImplied(topics, Other(topic), Other(topic));
  }

  /** Subscribing to a topic not yet listed and unsubscribing again restores
      the list. */
  lemma {:induction false} SubscribeThenUnsubscribe(topics: seq<string>, topic: string)
    requires topic !in topics
    ensures Unsubscribed(Subscribed(topics, topic), topic) == topics
  {
    FilterSnoc(topics, topic, Other(topic));
    FilterAll(topics, Other(topic));
  }

  /** Unsubscribing from a topic a duplicate-free list holds shortens it by one. */
  lemma {:induction false} UnsubscribedLength(topics: seq<string>, topic: string)
    requires NoDuplicates(topics) && topic in topics
    ensures |Unsubscribed(topics, topic)| == |topics| - 1
  {
    var i := IndexOf(topics, topic);
    var before, after := topics[..i], topics[i + 1..];
    assert topics == before + [topic] + after;
    assert topic !in before && topic !in after;
    FilterAppend(before + [topic], after, Other(topic));
    FilterSnoc(before, topic, Other(topic));
    FilterAll(before, Other(topic));
    FilterAll(after, Other(topic));
  }
}
