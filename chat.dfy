/** The chat controller (controllers/chatController.js): the one conversation
    of the widget session, its bootstrap against the server's copy, the
    real-time subscription, the send pipeline, unread accounting and the
    open/close state. Network round trips are the outcome parameters of the
    methods that make them; `steps` records the requests in the order they
    are issued. */
module Chat {
  import opened Common
  import opened Unread
  import opened Messages
  import Faye

  /** The attributes of a conversation model. `id` is `None` until the
      server assigns one (Backbone's `isNew`). `appMakers` is the id-keyed
      collection of app-side authors, `appUsers` the end-user participants. */
  datatype ConvAttrs = ConvAttrs(id: Option<string>, appUserId: string, messages: seq<Message>,
                                 appMakers: seq<string>, appUsers: set<string>, unread: nat)

  function NewConversationAttrs(appUserId: string): ConvAttrs {
    ConvAttrs(None, appUserId, [], [], {}, 0)
  }

  /** A conversation model object. Listeners hold on to the object, which is
      why reconciliation copies attributes into it rather than replacing it. */
  class Conversation {
    var attrs: ConvAttrs

    constructor (attrs: ConvAttrs)
      ensures this.attrs == attrs
    {
      this.attrs := attrs;
    }

    predicate IsNew()
      reads this
    {
      attrs.id.None?
    }
  }

  /** Requests to collaborators, in issue order. */
  datatype Step = FetchConversations | CreateConversation | Subscribe(channel: string)
                | SaveUser | CreateMessage(text: string)

  /** `add` events of the conversation's collections, which views observe.
      A message is announced with the id it has when it is added: `None` for
      the end user's message, which `messages.create` adds before the server
      has answered. */
  datatype AddEvent = AppMakerAdded(authorId: string) | MessageAdded(messageId: Option<string>)

  /** The server's answer to a conversation creation: the id it assigns and
      the conversation's end-user participants. */
  datatype ConvCreated = ConvCreated(id: string, appUsers: set<string>)

  /** The server's answer to a message creation. */
  datatype Created = Created(id: string, received: real)

  /** The outcomes of the send pipeline's round trips, in order: creating the
      conversation (with the id the server assigns), the subscription
      handshake, saving the user, creating the message. */
  datatype SendNet = SendNet(create: Result<ConvCreated, Err>, handshake: Outcome<Err>,
                             saveUser: Outcome<Err>, message: Result<Created, Err>)

  // ---------------------------------------------------------------------
  // Specification functions

  /** The last-read marker `_getLatestReadTime` returns: the cache while it is
      truthy, otherwise the cookie, read as 0 when absent. */
  function ReadMarker(cached: Option<int>, cookie: Option<int>): (ts: int)
    ensures cached.Some? && cached.value != 0 ==> ts == cached.value
    ensures cached.None? || cached == Some(0) ==> ts == cookie.GetOr(0)
  {
    if cached.None? || cached == Some(0) then cookie.GetOr(0) else cached.value
  }

  /** The cache after `_getLatestReadTime`: refilled from the cookie only
      while it is unset or 0. */
  function CacheAfterRead(cached: Option<int>, cookie: Option<int>): (c: Option<int>)
    ensures c == Some(ReadMarker(cached, cookie))
  {
    if cached.None? || cached == Some(0) then Some(cookie.GetOr(0)) else cached
  }

  /** Writing a marker to the cache and the cookie and reading it back gives
      the marker, 0 included (a 0 in the cache is re-read from the cookie,
      which holds the same 0). */
  lemma MarkerRoundTrip(ts: int)
    ensures ReadMarker(Some(ts), Some(ts)) == ts
    ensures CacheAfterRead(Some(ts), Some(ts)) == Some(ts)
  {
  }

  /** The conversation's attributes after `_updateUnread`. */
  function Recount(a: ConvAttrs, cached: Option<int>, cookie: Option<int>): (r: ConvAttrs)
    ensures r.unread == |UnreadMessages(a.messages, a.appUsers, ReadMarker(cached, cookie))|
    ensures r.(unread := a.unread) == a
  {
    a.(unread := |UnreadMessages(a.messages, a.appUsers, ReadMarker(cached, cookie))|)
  }

  /** Adds an app-side author to the id-keyed `appMakers` collection. */
  function AddAppMaker(ids: seq<string>, id: string): (r: seq<string>)
    ensures id in r
    ensures id in ids ==> r == ids
    ensures id !in ids ==> r == ids + [id]
  {
    if id in ids then ids else ids + [id]
  }

  /** The authors of `msgs`, in collection order. */
  function Authors(msgs: seq<Message>): (r: seq<string>)
    ensures |r| == |msgs|
    ensures forall i :: 0 <= i < |msgs| ==> r[i] == msgs[i].authorId
  {
    seq(|msgs|, i requires 0 <= i < |msgs| => msgs[i].authorId)
  }

  /** The number of messages authored by `authorId`. */
  function CountAuthored(msgs: seq<Message>, authorId: string): (n: nat)
    ensures n <= |msgs|
  {
    if msgs == [] then 0
    else (if msgs[0].authorId == authorId then 1 else 0) + CountAuthored(msgs[1..], authorId)
  }

  /** The count is the author's multiplicity among the messages' authors. */
  lemma {:induction false} CountAuthoredIsMultiplicity(msgs: seq<Message>, authorId: string)
    ensures CountAuthored(msgs, authorId) == multiset(Authors(msgs))[authorId]
  {
    if msgs != [] {
      assert Authors(msgs) == [msgs[0].authorId] + Authors(msgs[1..]);
      CountAuthoredIsMultiplicity(msgs[1..], authorId);
    }
  }

  lemma {:induction false} CountAuthoredAppend(msgs: seq<Message>, m: Message, authorId: string)
    ensures CountAuthored(msgs + [m], authorId)
         == CountAuthored(msgs, authorId) + (if m.authorId == authorId then 1 else 0)
  {
    if msgs == [] {
      assert [m][1..] == [];
    } else {
      assert (msgs + [m])[1..] == msgs[1..] + [m];
      CountAuthoredAppend(msgs[1..], m, authorId);
    }
  }

  /** The email-capture trigger after a successful send: capture is enabled,
      exactly one message of the collection is the end user's, and the user
      has no email. */
  predicate ShouldPromptEmail(enabled: bool, msgs: seq<Message>, appUserId: string, email: Option<string>) {
    enabled && CountAuthored(msgs, appUserId) == 1 && !TruthyString(email)
  }

  /** Once the prompt has fired, a further message by the end user keeps it
      from firing again. */
  lemma EmailPromptNotRepeated(enabled: bool, msgs: seq<Message>, m: Message, appUserId: string, email: Option<string>)
    requires ShouldPromptEmail(enabled, msgs, appUserId, email)
    requires m.authorId == appUserId
    ensures !ShouldPromptEmail(enabled, msgs + [m], appUserId, email)
  {
    CountAuthoredAppend(msgs, m, appUserId);
  }

  /** The first message of a user without email, with capture enabled, fires
      the prompt. */
  lemma EmailPromptOnFirstMessage(msgs: seq<Message>, m: Message, appUserId: string)
    requires CountAuthored(msgs, appUserId) == 0
    requires m.authorId == appUserId
    ensures ShouldPromptEmail(true, msgs + [m], appUserId, None)
  {
    CountAuthoredAppend(msgs, m, appUserId);
  }

  /** The conversation id the pipeline subscribes with: the existing one, or
      the one the server assigned on creation. */
  function PipelineId(existing: Option<string>, net: SendNet): string {
    if existing.Some? then existing.value
    else if net.create.Success? then net.create.value.id
    else ""
  }

  /** Every request of a send in which nothing fails. */
  function FullSendTrace(existing: Option<string>, net: SendNet, text: string): seq<Step> {
    (if existing.None? then [CreateConversation] else [])
      + [Subscribe(Faye.ChannelFor(PipelineId(existing, net))), SaveUser, CreateMessage(text)]
  }

  /** The requests of the pipeline's first three steps (create if new,
      subscribe, save the user): each starts only after the previous one
      succeeded. */
  function PrepareTrace(existing: Option<string>, net: SendNet): seq<Step> {
    var create := if existing.None? then [CreateConversation] else [];
    if existing.None? && net.create.Failure? then create
    else
      create + [Subscribe(Faye.ChannelFor(PipelineId(existing, net)))]
      + (if net.handshake.Fail? then [] else [SaveUser])
  }

  /** The error of the first of those three steps that failed. */
  function PrepareError(existing: Option<string>, net: SendNet): Option<Err> {
    if existing.None? && net.create.Failure? then Some(net.create.error)
    else if net.handshake.Fail? then Some(net.handshake.error)
    else if net.saveUser.Fail? then Some(net.saveUser.error)
    else None
  }

  /** The requests a whole send issues. */
  function SendTrace(existing: Option<string>, net: SendNet, text: string): seq<Step> {
    PrepareTrace(existing, net) + (if PrepareError(existing, net).None? then [CreateMessage(text)] else [])
  }

  /** The error a send rejects with: that of the first step that failed. */
  function SendError(existing: Option<string>, net: SendNet): Option<Err> {
    if PrepareError(existing, net).Some? then PrepareError(existing, net)
    else if net.message.Failure? then Some(net.message.error)
    else None
  }

  /** The conversation's attributes once the create step has run: a new
      conversation takes the id and the participants of the server's answer. */
  function AfterCreate(a: ConvAttrs, net: SendNet): ConvAttrs {
    if a.id.None? && net.create.Success? then a.(id := Some(net.create.value.id), appUsers := net.create.value.appUsers)
    else a
  }

  /** The send's requests are issued in the fixed order, a failure stops all
      later requests, and a send without failure issues all of them. */
  lemma SendTraceFailStop(existing: Option<string>, net: SendNet, text: string)
    ensures SendTrace(existing, net, text) <= FullSendTrace(existing, net, text)
    ensures SendError(existing, net).None? ==> SendTrace(existing, net, text) == FullSendTrace(existing, net, text)
    ensures existing.None? && net.create.Failure? ==> SendTrace(existing, net, text) == [CreateConversation]
    ensures (existing.Some? || net.create.Success?) && net.handshake.Fail?
            ==> |SendTrace(existing, net, text)| == |FullSendTrace(existing, net, text)| - 2
    ensures (existing.Some? || net.create.Success?) && net.handshake.Pass? && net.saveUser.Fail?
            ==> |SendTrace(existing, net, text)| == |FullSendTrace(existing, net, text)| - 1
    ensures SendError(existing, net).Some? <==>
            (existing.None? && net.create.Failure?) || net.handshake.Fail? || net.saveUser.Fail? || net.message.Failure?
  {
  }

  // ---------------------------------------------------------------------

  class ChatController {
    const appUserId: string
    const appToken: Option<string>
    const rootUrl: string
    const emailCaptureEnabled: bool
    /** `!!this.view` and `!!this.chatInputController`, set up by rendering. */
    const hasView: bool
    const hasInput: bool

    var isOpened: bool
    var conversation: Conversation?
    /** The user's conversations collection. */
    var collection: seq<Conversation>
    var conversationInitiated: bool
    /** `latestReadTs`, the cached last-read marker. */
    var latestReadTs: Option<int>
    /** The `sk_latestts` entry of the browser's cookie. */
    var cookie: Option<int>
    /** `this.unread`, read by `_updateUnread` and written nowhere. */
    var unread: Option<int>
    var fayeClient: Faye.Client?
    /** A `change:conversationStarted` listener is registered. */
    var startedObserver: bool
    /** The messages' `add` listener that recounts unread is registered. */
    var unreadObserver: bool
    var steps: seq<Step>
    var adds: seq<AddEvent>
    /** How often the email-capture prompt has been shown. */
    var emailPrompts: nat

    ghost predicate Valid()
      reads this
    {
      unread == None
    }

    function Endpoint(): Faye.Endpoint
      reads this
    {
      Faye.Endpoint(rootUrl, appToken, Some(appUserId))
    }

    constructor (appUserId: string, appToken: Option<string>, rootUrl: string,
                 emailCaptureEnabled: bool, cookie: Option<int>,
                 hasView: bool, hasInput: bool)
      ensures Valid()
      ensures this.appUserId == appUserId && this.appToken == appToken && this.rootUrl == rootUrl
      ensures this.emailCaptureEnabled == emailCaptureEnabled
      ensures this.hasView == hasView && this.hasInput == hasInput && this.cookie == cookie
      ensures !isOpened && conversation == null && collection == [] && !conversationInitiated
      ensures latestReadTs == None && fayeClient == null && !startedObserver && !unreadObserver
      ensures steps == [] && adds == [] && emailPrompts == 0
    {
      this.appUserId, this.appToken, this.rootUrl := appUserId, appToken, rootUrl;
      this.emailCaptureEnabled := emailCaptureEnabled;
      this.hasView, this.hasInput, this.cookie := hasView, hasInput, cookie;
      isOpened, conversation, collection, conversationInitiated := false, null, [], false;
      latestReadTs, unread, fayeClient := None, None, null;
      startedObserver, unreadObserver := false, false;
      steps, adds, emailPrompts := [], [], 0;
    }

    // ---- unread accounting ------------------------------------------------

    /** `_getLatestReadTime`. */
    method GetLatestReadTime() returns (ts: int)
      modifies this`latestReadTs
      ensures ts == ReadMarker(old(latestReadTs), cookie)
      ensures latestReadTs == CacheAfterRead(old(latestReadTs), cookie)
    {
      if latestReadTs.None? || latestReadTs == Some(0) {
        latestReadTs := Some(cookie.GetOr(0));
      }
      ts := latestReadTs.value;
    }

    /** `_setLatestReadTime`: the marker goes to the cache and the cookie. */
    method SetLatestReadTime(ts: int)
      modifies this`latestReadTs, this`cookie
      ensures latestReadTs == Some(ts) && cookie == Some(ts)
    {
      latestReadTs := Some(ts);
      cookie := Some(ts);
    }

    /** `_updateUnread`: the conversation's unread count becomes the number of
        messages not authored by an end-user participant received after the
        marker. The guard against `this.unread` always passes, since that
        field is never written. Without a conversation it throws, after the
        marker has been read. */
    method UpdateUnread() returns (o: Outcome<Err>)
      requires Valid()
      modifies this`latestReadTs, conversation
      ensures Valid()
      ensures latestReadTs == CacheAfterRead(old(latestReadTs), cookie)
      ensures conversation == null ==> o == Fail(TypeError)
      ensures conversation != null ==>
        o == Pass && conversation.attrs == Recount(old(conversation.attrs), old(latestReadTs), cookie)
    {
      var marker := GetLatestReadTime();
      if conversation == null {
        return Fail(TypeError);
      }
      var count := |UnreadMessages(conversation.attrs.messages, conversation.attrs.appUsers, marker)|;
      if unread != Some(count) {
        conversation.attrs := conversation.attrs.(unread := count);
      }
      o := Pass;
    }

    /** The effect of `resetUnread` with outcome `o`: the marker moves to
        the floor of the latest receipt time (0 without messages), in cache
        and cookie, and the conversation's unread count becomes 0; without a
        conversation it throws and changes nothing. */
    twostate predicate UnreadReset(new o: Outcome<Err>)
      reads this, conversation
    {
      var c := old(conversation);
      && conversation == c
      && if c == null then
           o == Fail(TypeError) && latestReadTs == old(latestReadTs) && cookie == old(cookie)
         else
           && o == Pass
           && latestReadTs == Some(ResetMarker(old(c.attrs.messages)))
           && cookie == Some(ResetMarker(old(c.attrs.messages)))
           && c.attrs == old(c.attrs).(unread := 0)
    }

    /** `resetUnread`; the recount that follows the new marker finds nothing
        unread. */
    method ResetUnread() returns (o: Outcome<Err>)
      requires Valid()
      modifies this`latestReadTs, this`cookie, conversation
      ensures Valid()
      ensures UnreadReset(o)
    {
      if conversation == null {
        return Fail(TypeError);
      }
      var latestTs := 0;
      var latest := LatestMessage(conversation.attrs.messages);
      if latest.Some? {
        latestTs := latest.value.received.Floor;
      }
      SetLatestReadTime(latestTs);
      ResetLeavesNothingUnread(conversation.attrs.messages, conversation.attrs.appUsers);
      o := UpdateUnread();
    }

    /** `_manageUnread`: one recount, then a recount on every message add. */
    method ManageUnread() returns (o: Outcome<Err>)
      requires Valid()
      modifies this`latestReadTs, conversation, this`unreadObserver
      ensures Valid()
      ensures latestReadTs == CacheAfterRead(old(latestReadTs), cookie)
      ensures conversation == null ==> o == Fail(TypeError) && unreadObserver == old(unreadObserver)
      ensures conversation != null ==>
        o == Pass && unreadObserver && conversation.attrs == Recount(old(conversation.attrs), old(latestReadTs), cookie)
    {
      o := UpdateUnread();
      if o.Pass? {
        unreadObserver := true;
      }
    }

    // ---- inbound messages ---------------------------------------------------

    /** `_receiveMessage`: without a conversation nothing happens. Otherwise
        an unseen author is added to `appMakers` first, then the message is
        added by id (a known id is a no-op); an actual add is observed by the
        unread recount when that listener is registered. */
    method ReceiveMessage(m: Message)
      requires Valid()
      modifies this`adds, this`latestReadTs, conversation
      ensures Valid()
      ensures old(conversation) == null ==> adds == old(adds) && latestReadTs == old(latestReadTs)
      ensures conversation != null ==>
        var a0 := old(conversation.attrs);
        var a1 := a0.(appMakers := AddAppMaker(a0.appMakers, m.authorId),
                      messages := AddById(a0.messages, m));
        var added := m.id !in Ids(a0.messages);
        && m.authorId in conversation.attrs.appMakers
        && adds == old(adds) + (if m.authorId in a0.appMakers then [] else [AppMakerAdded(m.authorId)])
                             + (if added then [MessageAdded(Some(m.id))] else [])
        && conversation.attrs == (if added && unreadObserver then Recount(a1, old(latestReadTs), cookie) else a1)
        && latestReadTs == (if added && unreadObserver then CacheAfterRead(old(latestReadTs), cookie) else old(latestReadTs))
      ensures conversation != null && DistinctIds(old(conversation.attrs.messages)) ==>
        DistinctIds(conversation.attrs.messages)
      ensures conversation != null && m.authorId in old(conversation.attrs.appMakers)
              && m.id in Ids(old(conversation.attrs.messages))
              ==> conversation.attrs == old(conversation.attrs) && adds == old(adds)
    {
      if conversation == null {
        return;
      }
      ghost var a0 := conversation.attrs;
      ghost var adds0 := adds;
      if m.authorId !in conversation.attrs.appMakers {
        conversation.attrs := conversation.attrs.(appMakers := conversation.attrs.appMakers + [m.authorId]);
        adds := adds + [AppMakerAdded(m.authorId)];
      }
      assert conversation.attrs == a0.(appMakers := AddAppMaker(a0.appMakers, m.authorId));
      assert adds == adds0 + (if m.authorId in a0.appMakers then [] else [AppMakerAdded(m.authorId)]);
      AddMessage(m);
    }

    /** `messages.add` with its `add` listeners: a message with a known id
        changes nothing; a new one is appended, announced, and recounted when
        the unread listener is registered. */
    method AddMessage(m: Message)
      requires Valid() && conversation != null
      modifies this`adds, this`latestReadTs, conversation
      ensures Valid()
      ensures
        var a0 := old(conversation.attrs);
        var a1 := a0.(messages := AddById(a0.messages, m));
        var added := m.id !in Ids(a0.messages);
        && adds == old(adds) + (if added then [MessageAdded(Some(m.id))] else [])
        && conversation.attrs == (if added && unreadObserver then Recount(a1, old(latestReadTs), cookie) else a1)
        && latestReadTs == (if added && unreadObserver then CacheAfterRead(old(latestReadTs), cookie) else old(latestReadTs))
    {
      if m.id !in Ids(conversation.attrs.messages) {
        conversation.attrs := conversation.attrs.(messages := AddById(conversation.attrs.messages, m));
        adds := adds + [MessageAdded(Some(m.id))];
        if unreadObserver {
          var _ := UpdateUnread();
        }
      }
    }

    // ---- bootstrap ------------------------------------------------------------

    /** The effect of `_getConversation` when the collection it sees is
        `coll0`: a new local conversation takes the first remote one's
        attributes and its place, keeping its own identity; without a local
        one, the first remote one is adopted or a new one made for the user;
        otherwise nothing changes. */
    twostate predicate Reconciled(coll0: seq<Conversation>)
      reads this, conversation
    {
      var c0 := old(conversation);
      if c0 != null then
        conversation == c0 &&
        if old(c0.attrs.id).None? && |coll0| > 0 then
          conversation.attrs == old(coll0[0].attrs) && collection == [conversation] + coll0[1..]
        else
          conversation.attrs == old(c0.attrs) && collection == coll0
      else if |coll0| > 0 then
        conversation == coll0[0] && conversation.attrs == old(coll0[0].attrs) && collection == coll0
      else
        conversation != null && fresh(conversation)
        && conversation.attrs == NewConversationAttrs(appUserId) && collection == coll0
    }

    /** `_getConversation`. */
    method GetConversation() returns (c: Conversation)
      requires Valid()
      modifies this`conversation, this`collection, conversation
      ensures Valid()
      ensures Reconciled(old(collection))
      ensures c == conversation
      ensures |collection| == |old(collection)|
    {
      if conversation != null {
        if conversation.IsNew() && |collection| > 0 {
          var remote := collection[0];
          conversation.attrs := remote.attrs;
          collection := [conversation] + collection[1..];
        }
      } else {
        if |collection| > 0 {
          conversation := collection[0];
        } else {
          conversation := new Conversation(NewConversationAttrs(appUserId));
        }
      }
      c := conversation;
    }

    /** `_initFaye`: a persisted conversation gets a new subscription whose
        client replaces `fayeClient`; the previous client is neither checked
        nor disconnected. A new conversation passes through untouched. */
    method InitFaye(conv: Conversation, handshake: Outcome<Err>) returns (r: Result<Conversation, Err>)
      modifies this`fayeClient, this`steps
      ensures conv.IsNew() ==> r == Success(conv) && fayeClient == old(fayeClient) && steps == old(steps)
      ensures !conv.IsNew() ==> steps == old(steps) + [Subscribe(Faye.ChannelFor(conv.attrs.id.value))]
      ensures !conv.IsNew() && handshake.Pass? ==>
        r == Success(conv) && fayeClient != null && fresh(fayeClient)
        && fayeClient.subscribed == Some(Faye.ChannelFor(conv.attrs.id.value)) && fayeClient.connected
      ensures !conv.IsNew() && handshake.Fail? ==> r == Failure(handshake.error) && fayeClient == old(fayeClient)
    {
      if !conv.IsNew() {
        var channel := Faye.ChannelFor(conv.attrs.id.value);
        steps := steps + [Subscribe(channel)];
        var client, res := Faye.Init(conv.attrs.id.value, Endpoint(), handshake);
        match res
        case Success(cl) =>
          fayeClient := cl;
          r := Success(conv);
        case Failure(e) =>
          r := Failure(e);
        return;
      }
      r := Success(conv);
    }

    /** `_initConversation`: once initiated, only `_getConversation` runs.
        Otherwise the conversations are fetched, reconciled and subscribed
        to; the flag then records whether the conversation is persisted,
        and a still-new conversation registers the `conversationStarted`
        listener. `fetch` is the fetch's outcome: the objects the collection
        then holds. */
    method InitConversation(fetch: Result<seq<Conversation>, Err>, handshake: Outcome<Err>)
      returns (r: Result<Conversation, Err>)
      requires Valid()
      modifies this`conversation, this`collection, conversation, this`fayeClient, this`steps
      modifies this`conversationInitiated, this`startedObserver
      ensures Valid()
      ensures r.Success? ==> r.value == conversation
      ensures old(conversationInitiated) ==>
        Reconciled(old(collection)) && r == Success(conversation) && steps == old(steps)
        && fayeClient == old(fayeClient) && conversationInitiated && startedObserver == old(startedObserver)
      ensures !old(conversationInitiated) && fetch.Failure? ==>
        r == Failure(fetch.error) && steps == old(steps) + [FetchConversations]
        && conversation == old(conversation) && collection == old(collection)
        && (conversation != null ==> conversation.attrs == old(conversation.attrs))
        && fayeClient == old(fayeClient)
      ensures !old(conversationInitiated) && fetch.Success? ==>
        Reconciled(fetch.value)
        && steps == old(steps) + [FetchConversations]
                    + (if conversation.IsNew() then [] else [Subscribe(Faye.ChannelFor(conversation.attrs.id.value))])
        && (conversation.IsNew() || handshake.Pass? ==> r.Success?)
        && (!conversation.IsNew() && handshake.Fail? ==> r == Failure(handshake.error))
        && (conversation.IsNew() || handshake.Fail? ==> fayeClient == old(fayeClient))
        && (!conversation.IsNew() && handshake.Pass? ==>
              && fayeClient != null && fresh(fayeClient) && fayeClient.connected
              && fayeClient.subscribed == Some(Faye.ChannelFor(conversation.attrs.id.value)))
      ensures !old(conversationInitiated) ==>
        (conversationInitiated <==> r.Success? && !conversation.IsNew())
        && (startedObserver <==> old(startedObserver) || (r.Success? && conversation.IsNew()))
    {
      if conversationInitiated {
        var c := GetConversation();
        return Success(c);
      }
      steps := steps + [FetchConversations];
      match fetch
      case Failure(e) =>
        r := Failure(e);
      case Success(fetched) =>
        collection := fetched;
        var c := GetConversation();
        var res := InitFaye(c, handshake);
        if res.Failure? {
          return res;
        }
        conversationInitiated := !c.IsNew();
        if !conversationInitiated {
          startedObserver := true;
        }
        r := Success(c);
    }

    /** `onConversationStarted`: when the user's `conversationStarted`
        becomes true the listener removes itself and the bootstrap runs
        again; any other value changes nothing. */
    method OnConversationStarted(started: bool, fetch: Result<seq<Conversation>, Err>, handshake: Outcome<Err>)
      returns (r: Option<Result<Conversation, Err>>)
      requires Valid()
      modifies this`conversation, this`collection, conversation, this`fayeClient, this`steps
      modifies this`conversationInitiated, this`startedObserver
      ensures Valid()
      ensures !started ==>
        && r == None && startedObserver == old(startedObserver) && steps == old(steps)
        && conversation == old(conversation) && collection == old(collection)
        && conversationInitiated == old(conversationInitiated) && fayeClient == old(fayeClient)
        && (conversation != null ==> conversation.attrs == old(conversation.attrs))
      ensures started && old(conversationInitiated) ==>
        && Reconciled(old(collection)) && r == Some(Success(conversation)) && steps == old(steps)
        && fayeClient == old(fayeClient) && conversationInitiated && !startedObserver
      ensures started && !old(conversationInitiated) && fetch.Failure? ==>
        && r == Some(Failure(fetch.error)) && steps == old(steps) + [FetchConversations]
        && conversation == old(conversation) && collection == old(collection)
        && (conversation != null ==> conversation.attrs == old(conversation.attrs))
        && fayeClient == old(fayeClient) && !conversationInitiated && !startedObserver
      ensures started && !old(conversationInitiated) && fetch.Success? ==>
        && Reconciled(fetch.value) && r.Some?
        && steps == old(steps) + [FetchConversations]
                    + (if conversation.IsNew() then [] else [Subscribe(Faye.ChannelFor(conversation.attrs.id.value))])
        && (conversation.IsNew() || handshake.Pass? ==> r.value.Success?)
        && (!conversation.IsNew() && handshake.Fail? ==> r.value == Failure(handshake.error))
        && (conversationInitiated <==> r.value.Success? && !conversation.IsNew())
        && (startedObserver <==> r.value.Success? && conversation.IsNew())
        && (conversation.IsNew() || handshake.Fail? ==> fayeClient == old(fayeClient))
        && (!conversation.IsNew() && handshake.Pass? ==>
              && fayeClient != null && fresh(fayeClient) && fayeClient.connected
              && fayeClient.subscribed == Some(Faye.ChannelFor(conversation.attrs.id.value)))
    {
      if started {
        startedObserver := false;
        var res := InitConversation(fetch, handshake);
        r := Some(res);
      } else {
        r := None;
      }
    }

    // ---- send pipeline ---------------------------------------------------------

    /** `sendMessage`: create the conversation if it is new, subscribe to it,
        save the user, create the message; the first failure rejects with its
        own error and skips the rest. The message create adds the message
        before the server answers, with no receipt time, so the recount its
        `add` triggers counts only the earlier messages (`Math.floor` of
        `undefined` is `NaN`, and `NaN > ts` is false); the server's answer
        then sets its id and receipt time without a further recount. After a
        successful send the email prompt shows when `ShouldPromptEmail` holds
        of the collection and of `email`, the user's email as it stands when
        the message is created. The conversation object stays the same one
        throughout. */
    method SendMessage(text: string, net: SendNet, email: Option<string>) returns (r: Result<Message, Err>)
      requires Valid()
      modifies this`steps, this`fayeClient, this`collection, this`adds, this`latestReadTs
      modifies this`emailPrompts, conversation
      ensures Valid()
      ensures old(conversation) == null ==>
        && r == Failure(TypeError) && steps == old(steps)
        && fayeClient == old(fayeClient) && collection == old(collection) && adds == old(adds)
        && latestReadTs == old(latestReadTs) && emailPrompts == old(emailPrompts)
      ensures conversation != null ==>
        steps == old(steps) + SendTrace(old(conversation.attrs.id), net, text)
      ensures conversation != null ==>
        (r.Failure? <==> SendError(old(conversation.attrs.id), net).Some?)
      ensures conversation != null && r.Failure? ==> r.error == SendError(old(conversation.attrs.id), net).value
      ensures conversation != null && PrepareError(old(conversation.attrs.id), net).Some? ==>
        && conversation.attrs == AfterCreate(old(conversation.attrs), net)
        && adds == old(adds) && latestReadTs == old(latestReadTs) && emailPrompts == old(emailPrompts)
      ensures conversation != null && PrepareError(old(conversation.attrs.id), net).None? ==>
        var a0 := AfterCreate(old(conversation.attrs), net);
        var counted := if unreadObserver then Recount(a0, old(latestReadTs), cookie) else a0;
        && adds == old(adds) + [MessageAdded(None)]
        && latestReadTs == (if unreadObserver then CacheAfterRead(old(latestReadTs), cookie) else old(latestReadTs))
        && (net.message.Failure? ==> conversation.attrs == counted && emailPrompts == old(emailPrompts))
        && (net.message.Success? ==>
              var m := Message(net.message.value.id, appUserId, text, net.message.value.received);
              && r == Success(m)
              && conversation.attrs == counted.(messages := a0.messages + [m])
              && emailPrompts == old(emailPrompts)
                 + (if ShouldPromptEmail(emailCaptureEnabled, a0.messages + [m], appUserId, email) then 1 else 0))
      ensures conversation != null && PrepareError(old(conversation.attrs.id), net).None? && net.message.Success? ==>
        (DistinctIds(conversation.attrs.messages)
         <==> DistinctIds(old(conversation.attrs.messages)) && net.message.value.id !in Ids(old(conversation.attrs.messages)))
      ensures conversation != null && old(conversation.attrs.id).None? && net.create.Success? ==>
        collection == old(collection) + (if conversation in old(collection) then [] else [conversation])
      ensures conversation != null && (old(conversation.attrs.id).Some? || net.create.Failure?) ==>
        collection == old(collection)
      ensures conversation != null && (old(conversation.attrs.id).Some? || net.create.Success?) && net.handshake.Pass? ==>
        && fayeClient != null && fresh(fayeClient)
        && fayeClient.subscribed == Some(Faye.ChannelFor(PipelineId(old(conversation.attrs.id), net)))
      ensures conversation != null && ((old(conversation.attrs.id).None? && net.create.Failure?) || net.handshake.Fail?) ==>
        fayeClient == old(fayeClient)
    {
      if conversation == null {
        return Failure(TypeError);
      }
      var prepared := PrepareSend(net);
      if prepared.Fail? {
        return Failure(prepared.error);
      }
      r := SubmitMessage(text, net.message, email);
    }

    /** Steps 1 to 3 of `sendMessage`. */
    method PrepareSend(net: SendNet) returns (o: Outcome<Err>)
      requires Valid() && conversation != null
      modifies this`steps, this`fayeClient, this`collection, conversation
      ensures Valid()
      ensures steps == old(steps) + PrepareTrace(old(conversation.attrs.id), net)
      ensures PrepareError(old(conversation.attrs.id), net).None? ==> o == Pass
      ensures PrepareError(old(conversation.attrs.id), net).Some? ==>
        o == Fail(PrepareError(old(conversation.attrs.id), net).value)
      ensures conversation.attrs == AfterCreate(old(conversation.attrs), net)
      ensures old(conversation.attrs.id).None? && net.create.Success? ==>
        collection == old(collection) + (if conversation in old(collection) then [] else [conversation])
      ensures old(conversation.attrs.id).Some? || net.create.Failure? ==> collection == old(collection)
      ensures (old(conversation.attrs.id).Some? || net.create.Success?) && net.handshake.Pass? ==>
        && fayeClient != null && fresh(fayeClient)
        && fayeClient.subscribed == Some(Faye.ChannelFor(PipelineId(old(conversation.attrs.id), net)))
      ensures (old(conversation.attrs.id).None? && net.create.Failure?) || net.handshake.Fail? ==>
        fayeClient == old(fayeClient)
    {
      var conv := conversation;
      if conv.IsNew() {
        var created := CreateRemoteConversation(net.create);
        if created.Fail? {
          return created;
        }
      }
      var subscribed := InitFaye(conv, net.handshake);
      if subscribed.Failure? {
        return Fail(subscribed.error);
      }
      steps := steps + [SaveUser];
      if net.saveUser.Fail? {
        return Fail(net.saveUser.error);
      }
      o := Pass;
    }

    /** Steps 4 and 5 of `sendMessage`: `messages.create` without `wait`
        adds the end user's message at once, unsaved, announces it and
        recounts, the unsaved message not counting; the server's answer then
        gives it its id and receipt time, and the email prompt is considered
        against the user's current `email`. */
    method SubmitMessage(text: string, created: Result<Created, Err>, email: Option<string>) returns (r: Result<Message, Err>)
      requires Valid() && conversation != null
      modifies this`steps, this`adds, this`latestReadTs, this`emailPrompts, conversation
      ensures Valid()
      ensures steps == old(steps) + [CreateMessage(text)]
      ensures adds == old(adds) + [MessageAdded(None)]
      ensures latestReadTs == (if unreadObserver then CacheAfterRead(old(latestReadTs), cookie) else old(latestReadTs))
      ensures created.Failure? ==>
        && r == Failure(created.error) && emailPrompts == old(emailPrompts)
        && conversation.attrs == (if unreadObserver then Recount(old(conversation.attrs), old(latestReadTs), cookie)
                                  else old(conversation.attrs))
      ensures created.Success? ==>
        var a0 := old(conversation.attrs);
        var m := Message(created.value.id, appUserId, text, created.value.received);
        var counted := if unreadObserver then Recount(a0, old(latestReadTs), cookie) else a0;
        && r == Success(m)
        && conversation.attrs == counted.(messages := a0.messages + [m])
        && emailPrompts == old(emailPrompts)
           + (if ShouldPromptEmail(emailCaptureEnabled, a0.messages + [m], appUserId, email) then 1 else 0)
      ensures created.Success? ==>
        (DistinctIds(conversation.attrs.messages)
         <==> DistinctIds(old(conversation.attrs.messages)) && created.value.id !in Ids(old(conversation.attrs.messages)))
    {
      ghost var a0 := conversation.attrs;
      steps := steps + [CreateMessage(text)];
      AddUnsavedMessage();
      assert conversation.attrs.messages == a0.messages;
      if created.Failure? {
        return Failure(created.error);
      }
      var m := Message(created.value.id, appUserId, text, created.value.received);
      AppendDistinct(a0.messages, m);
      conversation.attrs := conversation.attrs.(messages := conversation.attrs.messages + [m]);
      if ShouldPromptEmail(emailCaptureEnabled, conversation.attrs.messages, appUserId, email) {
        emailPrompts := emailPrompts + 1;
      }
      r := Success(m);
    }

    /** `messages.add` of the end user's message before the server has
        answered: the model has no id yet, so it is announced without one,
        and no receipt time, so the recount its listener runs does not count
        it and the count is that of the earlier messages. The model itself
        stays outside the collection until the answer gives it its id. */
    method AddUnsavedMessage()
      requires Valid() && conversation != null
      modifies this`adds, this`latestReadTs, conversation
      ensures Valid()
      ensures adds == old(adds) + [MessageAdded(None)]
      ensures latestReadTs == (if unreadObserver then CacheAfterRead(old(latestReadTs), cookie) else old(latestReadTs))
      ensures conversation.attrs == (if unreadObserver then Recount(old(conversation.attrs), old(latestReadTs), cookie)
                                     else old(conversation.attrs))
    {
      adds := adds + [MessageAdded(None)];
      if unreadObserver {
        var _ := UpdateUnread();
      }
    }

    /** `collection.create` of the new conversation: on success the object
        takes the server's id and participants and joins the collection. */
    method CreateRemoteConversation(create: Result<ConvCreated, Err>) returns (o: Outcome<Err>)
      requires Valid() && conversation != null && conversation.IsNew()
      modifies this`steps, this`collection, conversation
      ensures Valid()
      ensures steps == old(steps) + [CreateConversation]
      ensures create.Failure? ==>
        o == Fail(create.error) && collection == old(collection) && conversation.attrs == old(conversation.attrs)
      ensures create.Success? ==>
        && o == Pass
        && conversation.attrs == old(conversation.attrs).(id := Some(create.value.id), appUsers := create.value.appUsers)
        && collection == old(collection) + (if conversation in old(collection) then [] else [conversation])
    {
      steps := steps + [CreateConversation];
      match create
      case Failure(e) =>
        o := Fail(e);
      case Success(answer) =>
        conversation.attrs := conversation.attrs.(id := Some(answer.id), appUsers := answer.appUsers);
        if conversation !in collection {
          collection := collection + [conversation];
        }
        o := Pass;
    }

    // ---- open / close -------------------------------------------------------------

    /** `open`: only with a view and an input, and only when closed. */
    method Open()
      modifies this`isOpened
      ensures isOpened == (old(isOpened) || (hasView && hasInput))
    {
      if hasView && hasInput && !isOpened {
        isOpened := true;
      }
    }

    /** `close`: only with a view and when open; it then resets unread. */
    method Close() returns (o: Outcome<Err>)
      requires Valid()
      modifies this`isOpened, this`latestReadTs, this`cookie, conversation
      ensures Valid()
      ensures !(hasView && old(isOpened)) ==>
        && o == Pass && isOpened == old(isOpened)
        && latestReadTs == old(latestReadTs) && cookie == old(cookie)
        && (conversation != null ==> conversation.attrs == old(conversation.attrs))
      ensures hasView && old(isOpened) ==> !isOpened && UnreadReset(o)
    {
      o := Pass;
      if hasView && isOpened {
        isOpened := false;
        o := ResetUnread();
      }
    }

    /** `toggle`: closes when open, opens otherwise. */
    method Toggle() returns (o: Outcome<Err>)
      requires Valid()
      modifies this`isOpened, this`latestReadTs, this`cookie, conversation
      ensures Valid()
      ensures old(isOpened) && !hasView ==>
        && o == Pass && isOpened
        && latestReadTs == old(latestReadTs) && cookie == old(cookie)
        && (conversation != null ==> conversation.attrs == old(conversation.attrs))
      ensures old(isOpened) && hasView ==> !isOpened && UnreadReset(o)
      ensures !old(isOpened) ==>
        && o == Pass && isOpened == (hasView && hasInput)
        && latestReadTs == old(latestReadTs) && cookie == old(cookie)
        && (conversation != null ==> conversation.attrs == old(conversation.attrs))
    {
      if isOpened {
        o := Close();
      } else {
        Open();
        o := Pass;
      }
    }

    /** `onDestroy`: disconnects the current client only; its subscription
        record and the frames it passed on stay as they were. */
    method OnDestroy()
      modifies fayeClient
      ensures fayeClient != null ==> !fayeClient.connected
      ensures fayeClient != null ==>
        fayeClient.subscribed == old(fayeClient.subscribed) && fayeClient.passedOn == old(fayeClient.passedOn)
    {
      if fayeClient != null {
        fayeClient.Disconnect();
      }
    }
  }
}
