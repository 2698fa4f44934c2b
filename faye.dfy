/** The adapter around the real-time transport (faye.js): a client for one
    conversation's channel, an outgoing extension that decorates subscribe
    frames with the widget's credentials, and forwarding of every inbound
    message to the process-wide event bus. */
module Faye {
  import opened Common

  const MetaSubscribe: string := "/meta/subscribe"
  const ConversationsPrefix: string := "/conversations/"
  const FayePath: string := "/faye"

  /** The endpoint values the adapter reads (endpoint.js is not part of this
      model): `None` stands for a property that is `undefined`. */
  datatype Endpoint = Endpoint(rootUrl: string, appToken: Option<string>, appUserId: Option<string>)

  /** The observable content of a Bayeux frame. */
  datatype FrameData = FrameData(channel: string, appToken: Option<string>,
                                 appUserId: Option<string>, rest: map<string, string>)

  /** What the outgoing extension turns a frame into. */
  function Decorate(f: FrameData, ep: Endpoint): (r: FrameData)
    ensures r.channel == f.channel && r.rest == f.rest
    ensures f.channel == MetaSubscribe ==> r.appToken == ep.appToken && r.appUserId == ep.appUserId
    ensures f.channel != MetaSubscribe ==> r == f
  {
    if f.channel == MetaSubscribe then f.(appToken := ep.appToken, appUserId := ep.appUserId) else f
  }

  /** Decorating twice is decorating once, so a frame that passes the
      extension again (a retried handshake) is unchanged by the second pass. */
  lemma DecorateIdempotent(f: FrameData, ep: Endpoint)
    ensures Decorate(Decorate(f, ep), ep) == Decorate(f, ep)
  {
  }

  /** The channel of a conversation: the prefix followed by its id. */
  function ChannelFor(conversationId: string): (c: string)
    ensures |c| == |ConversationsPrefix| + |conversationId|
    ensures c[..|ConversationsPrefix|] == ConversationsPrefix
    ensures c[|ConversationsPrefix|..] == conversationId
  {
    ConversationsPrefix + conversationId
  }

  /** Distinct conversations never share a channel. */
  lemma ChannelInjective(a: string, b: string)
    requires ChannelFor(a) == ChannelFor(b)
    ensures a == b
  {
    assert a == ChannelFor(a)[|ConversationsPrefix|..];
    assert b == ChannelFor(b)[|ConversationsPrefix|..];
  }

  /** A frame object; the extension changes its fields in place. */
  class Frame {
    var channel: string
    var appToken: Option<string>
    var appUserId: Option<string>
    var rest: map<string, string>

    constructor (data: FrameData)
      ensures Data() == data
    {
      channel, appToken, appUserId, rest := data.channel, data.appToken, data.appUserId, data.rest;
    }

    function Data(): FrameData
      reads this
    {
      FrameData(channel, appToken, appUserId, rest)
    }
  }

  /** The event bus entries the adapter publishes. */
  datatype BusEvent = ReceiveMessage(message: Message)

  /** The process-wide event bus (vent.js), seen as the log of what was
      published on it. */
  class Bus {
    var events: seq<BusEvent>

    constructor ()
      ensures events == []
    {
      events := [];
    }
  }

  /** A transport client with the widget's extension installed. `passedOn`
      is what the extension handed to the transport's callback, in order;
      `subscribed` is the channel `subscribe` was asked for. */
  class Client {
    const url: string
    var subscribed: Option<string>
    var passedOn: seq<Frame>
    var connected: bool

    constructor (url: string)
      ensures this.url == url && subscribed == None && passedOn == [] && connected
    {
      this.url := url;
      subscribed := None;
      passedOn := [];
      connected := true;
    }

    /** The outgoing extension: a subscribe frame gets the endpoint's token
        and user id, any other frame stays as it is, and the callback is
        called exactly once with the same frame object. The endpoint is read
        when the frame is sent, not when the client is made. */
    method Outgoing(frame: Frame, ep: Endpoint)
      modifies frame, this`passedOn
      ensures frame.Data() == Decorate(old(frame.Data()), ep)
      ensures passedOn == old(passedOn) + [frame]
    {
      if frame.channel == MetaSubscribe {
        frame.appToken := ep.appToken;
        frame.appUserId := ep.appUserId;
      }
      passedOn := passedOn + [frame];
    }

    /** The subscription's message handler: each inbound message is
        published once, unmodified, under `receive:message`. */
    method Inbound(message: Message, bus: Bus)
      modifies bus
      ensures bus.events == old(bus.events) + [ReceiveMessage(message)]
    {
      bus.events := bus.events + [ReceiveMessage(message)];
    }

    method Disconnect()
      modifies this`connected
      ensures !connected
    {
      connected := false;
    }
  }

  /** `init`: makes a client on the endpoint's root URL, subscribes it to the
      conversation's channel, and adapts the transport's promise: a
      successful subscription resolves with the client itself, a failed one
      rejects with the transport's own error. The handshake's result is the
      parameter `handshake`. The subscription is recorded directly: Faye's
      own dispatch of the `/meta/subscribe` frame through the outgoing
      extension (`Client.Outgoing`) is library-internal and not modelled,
      so `passedOn` stays empty here. */
  method Init(conversationId: string, ep: Endpoint, handshake: Outcome<Err>)
    returns (client: Client, r: Result<Client, Err>)
    ensures fresh(client)
    ensures client.url == ep.rootUrl + FayePath
    ensures client.subscribed == Some(ChannelFor(conversationId))
    ensures client.connected && client.passedOn == []
    ensures handshake.Pass? ==> r == Success(client)
    ensures handshake.Fail? ==> r == Failure(handshake.error)
  {
    client := new Client(ep.rootUrl + FayePath);
    client.subscribed := Some(ChannelFor(conversationId));
    match handshake
    case Pass => r := Success(client);
    case Fail(e) => r := Failure(e);
  }
}
