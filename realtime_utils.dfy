/** The realtime helper library: a registry of per-conversation message channels, the client
    configuration it is built with, and the relative timestamp shown beside a message. The
    channel transport is abstracted to a channel object that is created subscribed and can be
    unsubscribed; what the transport delivers on it is modelled in the message provider. */
module RealtimeUtils {
  import opened Wrappers
  import opened Strings

  /** A field of the object literal a caller passes: left out, written as `undefined`, or given
      a number. */
  datatype Field = Absent | Undefined | Given(value: int)

  /** The tunables a caller may pass. */
  datatype ConfigInput = ConfigInput(
    eventsPerSecond: Field,
    heartbeatIntervalMs: Field,
    reconnectAfterMs: Field)

  /** The configuration the manager keeps; `None` is a field that ended up `undefined`. */
  datatype RealtimeConfig = RealtimeConfig(
    eventsPerSecond: Option<int>,
    heartbeatIntervalMs: Option<int>,
    reconnectAfterMs: Option<int>)

  const DefaultEventsPerSecond := 10
  const DefaultHeartbeatIntervalMs := 30000
  const DefaultReconnectAfterMs := 1000

  /** One field of `{ field: default, ...config }`: a spread copies every own property of
      `config`, an explicit `undefined` included, so only a left-out field keeps the default. */
  function Spread(default: int, f: Field): Option<int> {
    match f
    case Absent => Some(default)
    case Undefined => None
    case Given(v) => Some(v)
  }

  /** `{ eventsPerSecond: 10, heartbeatIntervalMs: 30000, reconnectAfterMs: 1000, ...config }`:
      each field the caller writes wins, even as `undefined`; every left-out field takes its
      default. */
  function ResolveConfig(config: ConfigInput): (r: RealtimeConfig)
    ensures config.eventsPerSecond.Given? ==> r.eventsPerSecond == Some(config.eventsPerSecond.value)
    ensures config.eventsPerSecond.Undefined? ==> r.eventsPerSecond.None?
    ensures config.eventsPerSecond.Absent? ==> r.eventsPerSecond == Some(DefaultEventsPerSecond)
    ensures config.heartbeatIntervalMs.Given? ==> r.heartbeatIntervalMs == Some(config.heartbeatIntervalMs.value)
    ensures config.heartbeatIntervalMs.Undefined? ==> r.heartbeatIntervalMs.None?
    ensures config.heartbeatIntervalMs.Absent? ==> r.heartbeatIntervalMs == Some(DefaultHeartbeatIntervalMs)
    ensures config.reconnectAfterMs.Given? ==> r.reconnectAfterMs == Some(config.reconnectAfterMs.value)
    ensures config.reconnectAfterMs.Undefined? ==> r.reconnectAfterMs.None?
    ensures config.reconnectAfterMs.Absent? ==> r.reconnectAfterMs == Some(DefaultReconnectAfterMs)
  {
    RealtimeConfig(
      Spread(DefaultEventsPerSecond, config.eventsPerSecond),
      Spread(DefaultHeartbeatIntervalMs, config.heartbeatIntervalMs),
      Spread(DefaultReconnectAfterMs, config.reconnectAfterMs))
  }

  /** A kept configuration written back as an object literal: every field is present, the
      `undefined` ones as `undefined`. */
  function AsInput(c: RealtimeConfig): (r: ConfigInput)
    ensures !r.eventsPerSecond.Absent? && !r.heartbeatIntervalMs.Absent? && !r.reconnectAfterMs.Absent?
    ensures ResolveConfig(r) == c
  {
    ConfigInput(
      if c.eventsPerSecond.Some? then Given(c.eventsPerSecond.value) else Undefined,
      if c.heartbeatIntervalMs.Some? then Given(c.heartbeatIntervalMs.value) else Undefined,
      if c.reconnectAfterMs.Some? then Given(c.reconnectAfterMs.value) else Undefined)
  }

  /** Resolving an already resolved configuration changes nothing. */
  lemma ResolveConfigIdempotent(config: ConfigInput)
    ensures ResolveConfig(AsInput(ResolveConfig(config))) == ResolveConfig(config)
  {
  }

  /** A configuration with no field written as `undefined` resolves to numbers everywhere. */
  lemma NoUndefinedResolvesFully(config: ConfigInput)
    requires !config.eventsPerSecond.Undefined? && !config.heartbeatIntervalMs.Undefined?
    requires !config.reconnectAfterMs.Undefined?
    ensures var r := ResolveConfig(config);
            r.eventsPerSecond.Some? && r.heartbeatIntervalMs.Some? && r.reconnectAfterMs.Some?
  {
  }

  /** The channel topic for a conversation. */
  function ChannelTopic(conversationId: string): string {
    "messages:" + conversationId
  }

  /** The row filter that limits a channel to one conversation's inserts. */
  function ChannelFilter(conversationId: string): string {
    "conversation_id=eq." + conversationId
  }

  /** Distinct conversations get distinct topics and distinct filters. */
  lemma {:induction false} TopicAndFilterInjective(a: string, b: string)
    ensures ChannelTopic(a) == ChannelTopic(b) ==> a == b
    ensures ChannelFilter(a) == ChannelFilter(b) ==> a == b
  {
    if ChannelTopic(a) == ChannelTopic(b) {
      assert a == ChannelTopic(a)[9..];
      assert b == ChannelTopic(b)[9..];
    }
    if ChannelFilter(a) == ChannelFilter(b) {
      assert a == ChannelFilter(a)[19..];
      assert b == ChannelFilter(b)[19..];
    }
  }

  /** What the subscribe callback reports for a status: the status itself, followed by an error
      notice when the status is CHANNEL_ERROR. */
  datatype Notice = StatusChanged(status: string) | ErrorRaised(message: string)

  const ChannelErrorText := "Failed to connect to realtime channel"

  function StatusNotices(status: string): (r: seq<Notice>)
    ensures |r| >= 1 && r[0] == StatusChanged(status)
    ensures ErrorRaised(ChannelErrorText) in r <==> status == "CHANNEL_ERROR"
    ensures forall i :: 1 <= i < |r| ==> r[i] == ErrorRaised(ChannelErrorText)
  {
    [StatusChanged(status)] + (if status == "CHANNEL_ERROR" then [ErrorRaised(ChannelErrorText)] else [])
  }

  /** A realtime channel on one conversation's message inserts. */
  class Channel {
    const topic: string
    const filter: string
    var subscribed: bool

    constructor (conversationId: string)
      ensures topic == ChannelTopic(conversationId)
      ensures filter == ChannelFilter(conversationId)
      ensures subscribed
    {
      topic := ChannelTopic(conversationId);
      filter := ChannelFilter(conversationId);
      subscribed := true;
    }

    method Unsubscribe()
      modifies this
      ensures !subscribed
    {
      subscribed := false;
    }
  }

  /** The channel registry, keyed by conversation id. */
  class RealtimeManager {
    var channels: map<string, Channel>
    const config: RealtimeConfig

    /** Every registered channel is live, listens to its own conversation, and no channel is
        registered under two ids. */
    ghost predicate Valid()
      reads this, channels.Values
    {
      && (forall id | id in channels ::
            channels[id].subscribed && channels[id].topic == ChannelTopic(id)
            && channels[id].filter == ChannelFilter(id))
      && (forall a, b | a in channels && b in channels && a != b :: channels[a] != channels[b])
    }

    constructor (callerConfig: ConfigInput)
      ensures Valid()
      ensures config == ResolveConfig(callerConfig)
      ensures channels == map[]
    {
      config := ResolveConfig(callerConfig);
      channels := map[];
    }

    function GetChannel(conversationId: string): (r: Option<Channel>)
      reads this
      ensures r.Some? <==> conversationId in channels
      ensures r.Some? ==> r.value == channels[conversationId]
    {
      if conversationId in channels then Some(channels[conversationId]) else None
    }

    predicate IsSubscribed(conversationId: string): (b: bool)
      reads this
      ensures b <==> GetChannel(conversationId).Some?
    {
      conversationId in channels
    }

    /** Unsubscribes and forgets the channel of `conversationId`, if there is one; no other
        entry and no other channel changes. */
    method UnsubscribeFromMessages(conversationId: string)
      requires Valid()
      modifies this, channels.Values
      ensures Valid()
      ensures channels == old(channels) - {conversationId}
      ensures conversationId in old(channels) ==> !old(channels)[conversationId].subscribed
      ensures forall c | c in old(channels.Values) && (conversationId !in old(channels) || c != old(channels)[conversationId]) ::
                c.subscribed == old(c.subscribed)
      ensures !IsSubscribed(conversationId)
    {
      if conversationId in channels {
        var channel := channels[conversationId];
        channel.Unsubscribe();
        channels := channels - {conversationId};
      }
    }

    /** Replaces any channel of `conversationId` by a fresh subscribed one and returns it: the
        old channel is unsubscribed, every other entry stays as it was. */
    method SubscribeToMessages(conversationId: string) returns (channel: Channel)
      requires Valid()
      modifies this, channels.Values
      ensures Valid()
      ensures fresh(channel) && channel.subscribed
      ensures channel.topic == ChannelTopic(conversationId)
      ensures channel.filter == ChannelFilter(conversationId)
      ensures channels == old(channels)[conversationId := channel]
      ensures conversationId in old(channels) ==> !old(channels)[conversationId].subscribed
      ensures IsSubscribed(conversationId) && GetChannel(conversationId) == Some(channel)
    {
      UnsubscribeFromMessages(conversationId);
      ghost var kept := channels;
      assert conversationId !in kept;
      channel := new Channel(conversationId);
      channels := channels[conversationId := channel];
      forall id | id in channels
        ensures channels[id].subscribed && channels[id].topic == ChannelTopic(id)
        ensures channels[id].filter == ChannelFilter(id)
      {
        if id != conversationId {
          assert channels[id] == kept[id];
        }
      }
      forall a, b | a in channels && b in channels && a != b
        ensures channels[a] != channels[b]
      {
        if a != conversationId && b != conversationId {
          assert channels[a] == kept[a] && channels[b] == kept[b];
        } else if a == conversationId {
          assert kept[b] != channel;
        } else {
          assert kept[a] != channel;
        }
      }
    }

    /** Unsubscribes every registered channel and empties the registry. */
    method UnsubscribeFromAll()
      requires Valid()
      modifies this, channels.Values
      ensures Valid()
      ensures channels == map[]
      ensures forall id | id in old(channels) :: !old(channels)[id].subscribed
      ensures forall id :: !IsSubscribed(id)
    {
      var pending := channels.Keys;
      while pending != {}
        invariant pending <= channels.Keys
        invariant channels == old(channels)
        invariant forall id | id in channels :: (id in pending <==> channels[id].subscribed)
        invariant forall a, b | a in channels && b in channels && a != b :: channels[a] != channels[b]
        decreases pending
      {
        var id :| id in pending;
        channels[id].Unsubscribe();
        pending := pending - {id};
      }
      channels := map[];
    }
  }

  /** `formatMessageTimestamp` over the whole minutes elapsed since the message, which may be
      negative for a timestamp in the future. `None` stands for the locale date string shown
      from one day on. */
  function FormatMessageTimestamp(minutes: int): (r: Option<string>)
    ensures r.None? <==> minutes >= 1440
    ensures r.Some? && minutes >= 1 ==> |r.value| > 4 && r.value[|r.value| - 4..] == " ago"
    ensures r == Some("Just now") <==> minutes < 1
    ensures 1 <= minutes < 60 ==> r == Some(NatToString(minutes) + "m ago")
    ensures 60 <= minutes < 1440 ==> r == Some(NatToString(minutes / 60) + "h ago")
  {
    if minutes < 1 then Some("Just now")
    else if minutes < 60 then Some(NatToString(minutes) + "m ago")
    else if minutes < 1440 then Some(NatToString(minutes / 60) + "h ago")
    else None
  }

  /** Appending the same suffix to two decimal renderings keeps them apart. */
  lemma NumberLabelInjective(a: nat, b: nat, suffix: string)
    ensures NatToString(a) + suffix == NatToString(b) + suffix ==> a == b
  {
    if NatToString(a) + suffix == NatToString(b) + suffix {
      var x := NatToString(a) + suffix;
      assert NatToString(a) == x[..|x| - |suffix|] == NatToString(b);
      ParseNatToString(a);
      ParseNatToString(b);
    }
  }

  /** The text shown tells the bucket back: "Just now" exactly below one minute, "{k}m ago"
      only for exactly k minutes, "{k}h ago" only within the k-th hour of the first day, and no
      relative text at all from one day on. */
  lemma {:induction false} MessageLabelDeterminesAge(minutes: int, k: nat)
    ensures FormatMessageTimestamp(minutes) == Some("Just now") <==> minutes < 1
    ensures FormatMessageTimestamp(minutes) == Some(NatToString(k) + "m ago") ==> minutes == k
    ensures FormatMessageTimestamp(minutes) == Some(NatToString(k) + "h ago") ==>
              60 * k <= minutes < 60 * k + 60
    ensures FormatMessageTimestamp(minutes) == None <==> minutes >= 1440
  {
    if 1 <= minutes < 60 {
      var shown := NatToString(minutes) + "m ago";
      assert FormatMessageTimestamp(minutes) == Some(shown);
      assert shown[0] != 'J';
      if shown == NatToString(k) + "m ago" {
        NumberLabelInjective(minutes, k, "m ago");
      }
      var other := NatToString(k) + "h ago";
      assert other[|other| - 5] == 'h';
      assert shown[|shown| - 5] == 'm';
      assert shown != other;
    } else if 60 <= minutes < 1440 {
      var hours := minutes / 60;
      assert 60 * hours <= minutes < 60 * hours + 60;
      var shown := NatToString(hours) + "h ago";
      assert FormatMessageTimestamp(minutes) == Some(shown);
      assert shown[0] != 'J';
      if shown == NatToString(k) + "h ago" {
        NumberLabelInjective(hours, k, "h ago");
      }
      var other := NatToString(k) + "m ago";
      assert other[|other| - 5] == 'm';
      assert shown[|shown| - 5] == 'h';
      assert shown != other;
    } else if minutes < 1 {
      var justNow := "Just now";
      var minuteLabel := NatToString(k) + "m ago";
      var hourLabel := NatToString(k) + "h ago";
      assert justNow[|justNow| - 5] == 't';
      assert minuteLabel[|minuteLabel| - 5] == 'm';
      assert hourLabel[|hourLabel| - 5] == 'h';
    }
  }
}
