/** The SDK facade (main.js): `init` option validation, `login` argument
    normalisation and email flags, the device id, the session state `ready` /
    `_widgetRendered`, and the gate that keeps calls away from the chat
    controller until the SDK is ready. Calls into the controller are
    recorded in `controllerCalls`; network requests are recorded in
    `requests` and their outcomes are parameters. */
module Sdk {
  import opened Common

  /** The JavaScript values the facade inspects. */
  datatype JsValue = Undefined | Null | Bool(b: bool) | Num(n: int) | Str(s: string)
                   | Obj(fields: map<string, JsValue>) | Func

  function TypeOf(v: JsValue): string {
    match v
    case Undefined => "undefined"
    case Null => "object"
    case Bool(_) => "boolean"
    case Num(_) => "number"
    case Str(_) => "string"
    case Obj(_) => "object"
    case Func => "function"
  }

  predicate Truthy(v: JsValue) {
    match v
    case Undefined => false
    case Null => false
    case Bool(b) => b
    case Num(n) => n != 0
    case Str(s) => s != ""
    case Obj(_) => true
    case Func => true
  }

  /** underscore's `isObject`: objects and functions, not `null`. */
  predicate IsObject(v: JsValue) {
    v.Obj? || v.Func?
  }

  /** underscore's `isEmpty`: a string or object without content, and every
      other value. */
  predicate IsEmpty(v: JsValue) {
    match v
    case Str(s) => s == ""
    case Obj(f) => |f| == 0
    case _ => true
  }

  function Get(f: map<string, JsValue>, key: string): JsValue {
    if key in f then f[key] else Undefined
  }

  /** A property read `v.key`; on `undefined` or `null` it throws. */
  function Prop(v: JsValue, key: string): (r: Result<JsValue, Err>)
    ensures r.Failure? <==> v.Undefined? || v.Null?
    ensures v.Obj? ==> r == Success(Get(v.fields, key))
  {
    match v
    case Undefined => Failure(TypeError)
    case Null => Failure(TypeError)
    case Obj(f) => Success(Get(f, key))
    case _ => Success(Undefined)
  }

  /** underscore's `pick`: the listed own properties of an object. */
  function Pick(v: JsValue, keys: set<string>): (r: map<string, JsValue>)
    ensures forall k :: k in r ==> k in keys && v.Obj? && k in v.fields && r[k] == v.fields[k]
    ensures v.Obj? ==> forall k :: k in keys && k in v.fields ==> k in r
  {
    match v
    case Obj(f) => map k | k in f && k in keys :: f[k]
    case _ => map[]
  }

  const NotReady: Err := Err("Can't use this function until the SDK is ready.")
  const SendNotReady: Err := Err("Can not send messages until init has completed")
  const InitArgError: Err := Err("init method accepts an object or string")
  const InitTokenError: Err := Err("init method requires an appToken")
  const UpdateUserError: Err := Err("updateUser accepts an object as parameter")
  /** What calling the undefined `clearUnread` of the controller throws. */
  const ClearUnreadError: Err := Err("TypeError: clearUnread is not a function")

  const StorageKey: string := "sk_deviceid"
  const SdkVersion: string := "VERSION"

  /** The user attributes the facade passes on (AppUser.EDITABLE_PROPERTIES;
      models/appUser.js is not part of this model, only that `email` is
      among them matters here). */
  const EditableProperties: set<string> := {"givenName", "surname", "email", "signedUpAt", "properties"}

  // ---------------------------------------------------------------------
  // login argument normalisation and email flags

  datatype LoginArgs = LoginArgs(userId: JsValue, jwt: JsValue, attributes: JsValue)

  /** `login(userId, jwt, attributes)` called with `argc` arguments: two
      arguments whose second is an object mean `(userId, attributes)`; any
      other call with fewer than three has no attributes. */
  function NormalizeLogin(argc: nat, userId: JsValue, jwt: JsValue, attributes: JsValue): (r: LoginArgs)
    ensures r.userId == userId
    ensures argc == 2 && IsObject(jwt) ==> r.jwt == Undefined && r.attributes == jwt
    ensures !(argc == 2 && IsObject(jwt)) ==> r.jwt == jwt
    ensures !(argc == 2 && IsObject(jwt)) && argc < 3 ==> r.attributes == Obj(map[])
    ensures argc >= 3 ==> r == LoginArgs(userId, jwt, attributes)
    ensures argc < 3 ==> IsObject(r.attributes)
  {
    if argc == 2 && IsObject(jwt) then LoginArgs(userId, Undefined, jwt)
    else if argc < 3 then LoginArgs(userId, jwt, Obj(map[]))
    else LoginArgs(userId, jwt, attributes)
  }

  /** JavaScript's `a && b`: `a` itself when it is falsy, `b` otherwise. */
  function JsAnd(a: JsValue, b: JsValue): (r: JsValue)
    ensures Truthy(r) == (Truthy(a) && Truthy(b))
    ensures !Truthy(a) ==> r == a
  {
    if Truthy(a) then b else a
  }

  datatype EmailFlags = EmailFlags(readOnlyEmail: bool, emailCaptureEnabled: JsValue)

  /** The email flags `login` derives: an email given as an attribute makes
      it read-only, and capture is on only when the option asks for it and
      the email is not read-only. `emailCaptureEnabled` is the value of
      `options.emailCaptureEnabled && !readOnlyEmail`, which is the option
      itself when that is falsy. Reading `email` of an undefined or null
      `attributes` throws. */
  function DeriveEmailFlags(captureOption: JsValue, attributes: JsValue): (r: Result<EmailFlags, Err>)
    ensures r.Failure? <==> attributes.Undefined? || attributes.Null?
    ensures r.Success? ==> r.value.readOnlyEmail == !IsEmpty(Prop(attributes, "email").value)
    ensures r.Success? ==> Truthy(r.value.emailCaptureEnabled) == (Truthy(captureOption) && !r.value.readOnlyEmail)
    ensures r.Success? && !Truthy(captureOption) ==> r.value.emailCaptureEnabled == captureOption
  {
    match Prop(attributes, "email")
    case Failure(e) => Failure(e)
    case Success(email) =>
      var readOnly := !IsEmpty(email);
      Success(EmailFlags(readOnly, JsAnd(captureOption, Bool(!readOnly))))
  }

  /** An email given at login turns capture off; without one, capture
      follows the option. */
  lemma EmailCaptureExclusive(captureOption: JsValue, attributes: map<string, JsValue>)
    ensures var r := DeriveEmailFlags(captureOption, Obj(attributes));
      && r.Success?
      && (r.value.readOnlyEmail ==> !Truthy(r.value.emailCaptureEnabled))
      && (("email" !in attributes || attributes["email"] == Str("")) ==>
            !r.value.readOnlyEmail && Truthy(r.value.emailCaptureEnabled) == Truthy(captureOption))
      && ("email" in attributes && attributes["email"].Str? && attributes["email"].s != "" ==>
            r.value.readOnlyEmail && !Truthy(r.value.emailCaptureEnabled))
  {
  }

  /** A login normalised from fewer than three arguments never throws on
      reading the email. */
  lemma NormalisedAttributesReadable(argc: nat, userId: JsValue, jwt: JsValue, attributes: JsValue, captureOption: JsValue)
    requires argc < 3
    ensures DeriveEmailFlags(captureOption, NormalizeLogin(argc, userId, jwt, attributes).attributes).Success?
  {
  }

  // ---------------------------------------------------------------------
  // device id

  /** A uuid v4 in its textual form: 36 characters with dashes exactly at
      positions 8, 13, 18 and 23. */
  predicate IsUuidText(u: string) {
    |u| == 36 && forall i :: 0 <= i < |u| ==> (u[i] == '-' <==> i == 8 || i == 13 || i == 18 || i == 23)
  }

  /** `replace(/-/g, '')`. */
  function StripDashes(s: string): (r: string)
    ensures '-' !in r
    ensures forall c :: c in r ==> c in s
    ensures forall i :: 0 <= i < |s| && s[i] != '-' ==> s[i] in r
    ensures |r| <= |s|
  {
    if s == [] then []
    else if s[0] == '-' then StripDashes(s[1..])
    else [s[0]] + StripDashes(s[1..])
  }

  /** The id `getDeviceId` returns: the stored one unless it is missing or
      empty, otherwise the generated uuid without dashes. */
  function DeviceIdFor(stored: Option<string>, uuid: string): (id: string)
    ensures stored.Some? && stored.value != "" ==> id == stored.value
    ensures (stored.None? || stored.value == "") ==> '-' !in id
  {
    if stored.Some? && stored.value != "" then stored.value else StripDashes(uuid)
  }

  /** A generated id is never empty, so once it is stored every later call
      returns it, whatever uuid that call would have generated. */
  lemma DeviceIdStable(stored: Option<string>, u1: string, u2: string)
    requires IsUuidText(u1)
    ensures DeviceIdFor(Some(DeviceIdFor(stored, u1)), u2) == DeviceIdFor(stored, u1)
  {
    if !(stored.Some? && stored.value != "") {
      assert u1[0] != '-';
      assert u1[0] in StripDashes(u1);
    }
  }

  // ---------------------------------------------------------------------

  /** Calls that reach the chat controller. */
  datatype ControllerCall = NewController | DestroyController | ResetUnreadCall | SendMessageCall(text: string)
                          | OpenCall | CloseCall

  /** Requests to the server. `InitRequest` carries the device id and the
      user id it was sent with (`Undefined` when none was). */
  datatype Request = InitRequest(deviceId: string, userId: JsValue) | SaveUser(attributes: map<string, JsValue>)
                   | TrackEvent(name: string, appUser: JsValue)

  /** The endpoint's fields (endpoint.js is not part of this model). */
  datatype Endpoint = Endpoint(appToken: JsValue, rootUrl: JsValue, userId: JsValue, jwt: JsValue,
                               appUserId: JsValue, sdkVersion: JsValue)

  /** `endpoint.reset()`: modelled as forgetting the per-user fields, keeping
      the token and URL (`destroy` deletes the token separately). */
  function ResetEndpoint(e: Endpoint): Endpoint {
    e.(userId := Undefined, jwt := Undefined, appUserId := Undefined)
  }

  /** The outcomes of `login`'s round trips: the init call (with the
      `appUser` it returns), saving the user, rendering the widget. */
  datatype LoginNet = LoginNet(initCall: Result<map<string, JsValue>, Err>, saveUser: Outcome<Err>,
                               widget: Outcome<Err>)

  predicate UserIsNew(user: map<string, JsValue>) {
    Get(user, "id").Undefined? || Get(user, "id").Null?
  }

  /** The condition under which `login` calls the controller's `clearUnread`,
      which the controller does not define. */
  predicate CallsClearUnread(user: map<string, JsValue>, userId: JsValue) {
    !UserIsNew(user) && Truthy(userId) && !Truthy(Get(user, "userId"))
  }

  /** The facade's state as a value. `hasOptions` says whether `init` has
      stored its options (before that, `login` throws reading them);
      `optionsObject` whether what it stored is an object, on which
      underscore's property writes take effect (on a string or another
      primitive they are lost); `captureOption` is
      `options.emailCaptureEnabled`; `readOnlyEmail` and
      `emailCaptureEnabled` are the flags the next controller is made
      with. They are not a second copy of the option: the source keeps
      `readOnlyEmail` in `this.options` only, and `emailCaptureEnabled` is
      the value `login` last wrote there (`ExtendOptions`), which equals
      `Truthy(captureOption)` on object options until a later `init`
      replaces the options. Only a login, which writes both again, makes a
      controller, so no controller sees them disagree. `storage` is the
      browser's local storage. */
  datatype Session = Session(ready: bool, widgetRendered: bool, user: map<string, JsValue>,
                             endpoint: Endpoint, hasOptions: bool, optionsObject: bool, captureOption: JsValue,
                             readOnlyEmail: bool, emailCaptureEnabled: bool,
                             storage: map<string, string>, controllerCalls: seq<ControllerCall>,
                             requests: seq<Request>, eventsForwarded: bool)

  /** A state after a call, with the call's outcome. */
  datatype Settled = Settled(state: Session, outcome: Outcome<Err>)

  function StoredId(storage: map<string, string>): Option<string> {
    if StorageKey in storage then Some(storage[StorageKey]) else None
  }

  /** `_cleanState`. */
  function CleanSession(s: Session): Session {
    s.(user := map[],
       controllerCalls := s.controllerCalls + (if s.widgetRendered then [DestroyController] else []),
       endpoint := ResetEndpoint(s.endpoint), ready := false, widgetRendered := false)
  }

  /** `login` called with `argc` arguments, `uuid` being what `uuid.v4()`
      would return: the `clearUnread` throw; `_cleanState`; the device id;
      user id and jwt into the endpoint; the email flags; then the round
      trips. */
  function LoginSpec(s: Session, argc: nat, userId: JsValue, jwt: JsValue, attributes: JsValue,
                     uuid: string, net: LoginNet): Settled
  {
    var a := NormalizeLogin(argc, userId, jwt, attributes);
    if CallsClearUnread(s.user, a.userId) then Settled(s, Fail(ClearUnreadError))
    else LoginPastCheck(s, a, uuid, net)
  }

  function LoginPastCheck(s: Session, a: LoginArgs, uuid: string, net: LoginNet): Settled {
    var s1 := LoginLocal(CleanSession(s), a, uuid);
    var flags := DeriveEmailFlags(s.captureOption, a.attributes);
    if flags.Failure? then Settled(s1, Fail(flags.error))
    else if !s.hasOptions then Settled(s1, Fail(TypeError))
    else LoginRemote(ExtendOptions(s1, flags.value), DeviceIdFor(StoredId(s.storage), uuid), a, net)
  }

  /** `_.extend(this.options, {readOnlyEmail, emailCaptureEnabled})`: on an
      object the derived flags overwrite the stored option, so the next
      `login` reads them; on a primitive the writes are lost and the
      controller reads `undefined` for both. */
  function ExtendOptions(s: Session, flags: EmailFlags): (r: Session)
    ensures s.optionsObject ==>
      r.captureOption == flags.emailCaptureEnabled && r.readOnlyEmail == flags.readOnlyEmail
      && r.emailCaptureEnabled == Truthy(flags.emailCaptureEnabled)
    ensures !s.optionsObject ==> r.captureOption == s.captureOption && !r.readOnlyEmail && !r.emailCaptureEnabled
    ensures r.(captureOption := s.captureOption, readOnlyEmail := s.readOnlyEmail,
               emailCaptureEnabled := s.emailCaptureEnabled) == s
  {
    if s.optionsObject then
      s.(captureOption := flags.emailCaptureEnabled, readOnlyEmail := flags.readOnlyEmail,
         emailCaptureEnabled := Truthy(flags.emailCaptureEnabled))
    else s.(readOnlyEmail := false, emailCaptureEnabled := false)
  }

  /** The device id stored, and a truthy user id and jwt put into the
      endpoint. */
  function LoginLocal(s: Session, a: LoginArgs, uuid: string): Session {
    var e1 := if Truthy(a.userId) then s.endpoint.(userId := a.userId) else s.endpoint;
    var e2 := if Truthy(a.jwt) then e1.(jwt := a.jwt) else e1;
    s.(storage := s.storage[StorageKey := DeviceIdFor(StoredId(s.storage), uuid)], endpoint := e2)
  }

  /** The promise chain of `login`: the init request, then (on success) the
      user set from the returned `appUser` and saved with the editable
      attributes, then the controller made and its widget rendered, then
      the events forwarded. The first failure settles the call. */
  function LoginRemote(s: Session, deviceId: string, a: LoginArgs, net: LoginNet): Settled {
    var s2 := s.(requests := s.requests + [InitRequest(deviceId, if Truthy(a.userId) then a.userId else Undefined)]);
    match net.initCall
    case Failure(e) => Settled(s2, Fail(e))
    case Success(appUser) =>
      var u := s.user + map["conversation" := Obj(map[])] + appUser;
      var saved := Pick(a.attributes, EditableProperties);
      var s3 := s2.(user := u, endpoint := s2.endpoint.(appUserId := Get(u, "id")),
                    requests := s2.requests + [SaveUser(saved)]);
      AfterSave(s3, saved, net)
  }

  /** Once the user save settles: on success the saved attributes are set,
      the controller is made and its widget rendered. */
  function AfterSave(s: Session, saved: map<string, JsValue>, net: LoginNet): Settled {
    if net.saveUser.Fail? then Settled(s, Fail(net.saveUser.error))
    else
      var s4 := s.(user := s.user + saved, controllerCalls := s.controllerCalls + [NewController]);
      if net.widget.Fail? then Settled(s4, Fail(net.widget.error))
      else Settled(s4.(widgetRendered := true, ready := true, eventsForwarded := true), Pass)
  }

  /** The token `init` stores for its argument. */
  function InitToken(options: JsValue): JsValue {
    match options
    case Str(_) => options
    case Obj(f) => Get(f, "appToken")
    case _ => Undefined
  }

  /** `init`: once ready it resolves and changes nothing; otherwise the
      session stops being ready; a missing argument throws at the
      `customText` read; the options are stored; a string stands for
      `{appToken: s}`; any other non-object is refused; the token (and a
      truthy `serviceUrl`) go into the endpoint and the token is then
      required; `login` follows with the options' user id, jwt and editable
      properties. */
  function InitSpec(s: Session, options: JsValue, uuid: string, net: LoginNet): Settled {
    if s.ready then Settled(s, Pass)
    else
      var s0 := s.(ready := false);
      if options.Undefined? || options.Null? then Settled(s0, Fail(TypeError))
      else
        var s1 := s0.(hasOptions := true, optionsObject := IsObject(options) || !Truthy(options),
                      captureOption := if options.Obj? then Get(options.fields, "emailCaptureEnabled") else Undefined);
        var opts := if options.Str? then Obj(map["appToken" := options]) else options;
        if !opts.Obj? then Settled(s1, Fail(InitArgError))
        else InitWithOptions(s1, opts.fields, uuid, net)
  }

  /** `init` once its argument is an object `f`: the token and a truthy
      `serviceUrl` into the endpoint, the token required, then `login`. */
  function InitWithOptions(s: Session, f: map<string, JsValue>, uuid: string, net: LoginNet): Settled {
    var serviceUrl := Get(f, "serviceUrl");
    var e := s.endpoint.(appToken := Get(f, "appToken"),
                         rootUrl := if Truthy(serviceUrl) then serviceUrl else s.endpoint.rootUrl);
    if !Truthy(e.appToken) then Settled(s.(endpoint := e), Fail(InitTokenError))
    else
      LoginSpec(s.(endpoint := e.(sdkVersion := Str(SdkVersion))), 3, Get(f, "userId"),
                Get(f, "jwt"), Obj(Pick(Obj(f), EditableProperties)), uuid, net)
  }

  // ---------------------------------------------------------------------
  // what login and init promise

  /** Nothing changes when `login` throws at `clearUnread`. */
  lemma LoginClearUnreadChangesNothing(s: Session, argc: nat, userId: JsValue, jwt: JsValue, attributes: JsValue,
                                       uuid: string, net: LoginNet)
    requires CallsClearUnread(s.user, userId)
    ensures LoginSpec(s, argc, userId, jwt, attributes, uuid, net) == Settled(s, Fail(ClearUnreadError))
  {
  }

  /** `login` past the `clearUnread` check, step by step: the cleaned
      session with the device id and credentials, then a throw reading the
      email or the options, or the promise chain on the extended options. */
  lemma LoginSteps(s: Session, argc: nat, userId: JsValue, jwt: JsValue, attributes: JsValue,
                   uuid: string, net: LoginNet)
    requires !CallsClearUnread(s.user, userId)
    ensures var a := NormalizeLogin(argc, userId, jwt, attributes);
      var s1 := LoginLocal(CleanSession(s), a, uuid);
      var flags := DeriveEmailFlags(s.captureOption, a.attributes);
      var r := LoginSpec(s, argc, userId, jwt, attributes, uuid, net);
      && !s1.ready && !s1.widgetRendered
      && s1.controllerCalls == s.controllerCalls + (if s.widgetRendered then [DestroyController] else [])
      && s1.captureOption == s.captureOption && s1.readOnlyEmail == s.readOnlyEmail
      && s1.emailCaptureEnabled == s.emailCaptureEnabled
      && (flags.Failure? || !s.hasOptions ==> r.state == s1 && r.outcome.Fail?)
      && (flags.Success? && s.hasOptions ==>
            r == LoginRemote(ExtendOptions(s1, flags.value), DeviceIdFor(StoredId(s.storage), uuid), a, net))
  {
  }

  /** `login` resolves exactly when every round trip succeeds (and
      nothing threw before them), and then, and only then, leaves the
      session ready with the widget rendered. */
  lemma LoginReadyIffAllSucceed(s: Session, argc: nat, userId: JsValue, jwt: JsValue, attributes: JsValue,
                                uuid: string, net: LoginNet)
    ensures var r := LoginSpec(s, argc, userId, jwt, attributes, uuid, net);
      && (r.outcome.Pass? <==>
            && !CallsClearUnread(s.user, userId)
            && DeriveEmailFlags(s.captureOption, NormalizeLogin(argc, userId, jwt, attributes).attributes).Success?
            && s.hasOptions
            && net.initCall.Success? && net.saveUser.Pass? && net.widget.Pass?)
      && (!CallsClearUnread(s.user, userId) ==>
            && (r.state.ready <==> r.outcome.Pass?)
            && (r.state.widgetRendered <==> r.outcome.Pass?))
  {
    if !CallsClearUnread(s.user, userId) {
      LoginViaChain(s, argc, userId, jwt, attributes, uuid, net);
    }
  }

  /** `LoginSteps`, then what the promise chain does when it runs. */
  lemma LoginViaChain(s: Session, argc: nat, userId: JsValue, jwt: JsValue, attributes: JsValue,
                      uuid: string, net: LoginNet)
    requires !CallsClearUnread(s.user, userId)
    ensures var a := NormalizeLogin(argc, userId, jwt, attributes);
      var flags := DeriveEmailFlags(s.captureOption, a.attributes);
      var r := LoginSpec(s, argc, userId, jwt, attributes, uuid, net);
      var destroyed := s.controllerCalls + (if s.widgetRendered then [DestroyController] else []);
      && (flags.Failure? || !s.hasOptions ==>
            r.outcome.Fail? && !r.state.ready && !r.state.widgetRendered && r.state.controllerCalls == destroyed
            && r.state.captureOption == s.captureOption && r.state.readOnlyEmail == s.readOnlyEmail
            && r.state.emailCaptureEnabled == s.emailCaptureEnabled)
      && (flags.Success? && s.hasOptions ==>
            var s2 := ExtendOptions(LoginLocal(CleanSession(s), a, uuid), flags.value);
            && (r.state.controllerCalls == destroyed
                || (r.state.controllerCalls == destroyed + [NewController]
                    && net.initCall.Success? && net.saveUser.Pass?))
            && (r.outcome.Pass? <==> net.initCall.Success? && net.saveUser.Pass? && net.widget.Pass?)
            && (r.state.ready <==> r.outcome.Pass?) && (r.state.widgetRendered <==> r.outcome.Pass?)
            && (r.outcome.Pass? ==>
                  && r.state.eventsForwarded && |r.state.requests| == |s.requests| + 2
                  && |r.state.controllerCalls| > 0 && r.state.controllerCalls[|r.state.controllerCalls| - 1] == NewController)
            && r.state.endpoint.appToken == s.endpoint.appToken
            && r.state.captureOption == s2.captureOption && r.state.readOnlyEmail == s2.readOnlyEmail
            && r.state.emailCaptureEnabled == s2.emailCaptureEnabled)
  {
    LoginSteps(s, argc, userId, jwt, attributes, uuid, net);
    var a := NormalizeLogin(argc, userId, jwt, attributes);
    var s1 := LoginLocal(CleanSession(s), a, uuid);
    var flags := DeriveEmailFlags(s.captureOption, a.attributes);
    if flags.Success? && s.hasOptions {
      var s2 := ExtendOptions(s1, flags.value);
      assert s1.endpoint.appToken == s.endpoint.appToken && s1.requests == s.requests;
      RemoteOutcome(s2, DeviceIdFor(StoredId(s.storage), uuid), a, net);
    }
  }

  /** Past the `clearUnread` check, `login` destroys the old controller
      exactly when its widget was rendered, and makes a new one only after
      the user is saved. */
  lemma LoginControllerLifecycle(s: Session, argc: nat, userId: JsValue, jwt: JsValue, attributes: JsValue,
                                 uuid: string, net: LoginNet)
    requires !CallsClearUnread(s.user, userId)
    ensures var r := LoginSpec(s, argc, userId, jwt, attributes, uuid, net);
      var destroyed := s.controllerCalls + (if s.widgetRendered then [DestroyController] else []);
      r.state.controllerCalls == destroyed
      || (r.state.controllerCalls == destroyed + [NewController]
          && net.initCall.Success? && net.saveUser.Pass?)
  {
    LoginViaChain(s, argc, userId, jwt, attributes, uuid, net);
  }

  /** Past the `clearUnread` check, the device id is stored, and the init
      request (sent only when nothing threw first) carries it; the saving
      request follows only a successful init. */
  lemma LoginRequestsFailStop(s: Session, argc: nat, userId: JsValue, jwt: JsValue, attributes: JsValue,
                              uuid: string, net: LoginNet)
    requires !CallsClearUnread(s.user, userId)
    ensures var r := LoginSpec(s, argc, userId, jwt, attributes, uuid, net);
      var id := DeviceIdFor(StoredId(s.storage), uuid);
      var init := InitRequest(id, if Truthy(userId) then userId else Undefined);
      && r.state.storage == s.storage[StorageKey := id]
      && (r.state.requests == s.requests
          || (r.state.requests == s.requests + [init] && r.outcome == Fail(net.initCall.error))
          || (r.state.requests == s.requests + [init, SaveUser(Pick(NormalizeLogin(argc, userId, jwt, attributes).attributes,
                                                                     EditableProperties))]
              && net.initCall.Success?))
  {
    LoginSteps(s, argc, userId, jwt, attributes, uuid, net);
    var a := NormalizeLogin(argc, userId, jwt, attributes);
    var id := DeviceIdFor(StoredId(s.storage), uuid);
    var s1 := LoginLocal(CleanSession(s), a, uuid);
    assert s1.storage == s.storage[StorageKey := id] && s1.requests == s.requests;
    var flags := DeriveEmailFlags(s.captureOption, a.attributes);
    if flags.Success? && s.hasOptions {
      var s2 := ExtendOptions(s1, flags.value);
      assert s2.storage == s1.storage && s2.requests == s1.requests;
      RemoteRequests(s2, id, a, net);
    }
  }

  /** The requests `login`'s promise chain adds, and that it leaves the
      storage alone. */
  lemma RemoteRequests(s: Session, deviceId: string, a: LoginArgs, net: LoginNet)
    ensures var r := LoginRemote(s, deviceId, a, net);
      var init := InitRequest(deviceId, if Truthy(a.userId) then a.userId else Undefined);
      && r.state.storage == s.storage
      && ((r.state.requests == s.requests + [init] && r.outcome == Fail(net.initCall.error))
          || (r.state.requests == s.requests + [init, SaveUser(Pick(a.attributes, EditableProperties))]
              && net.initCall.Success?))
  {
    var init := InitRequest(deviceId, if Truthy(a.userId) then a.userId else Undefined);
    assert s.requests + [init] + [SaveUser(Pick(a.attributes, EditableProperties))]
        == s.requests + [init, SaveUser(Pick(a.attributes, EditableProperties))];
  }

  /** What the promise chain does to a cleaned session besides requests:
      the outcome, readiness and the controller it makes; the token and the
      email flags stay as they are. */
  lemma RemoteOutcome(s: Session, deviceId: string, a: LoginArgs, net: LoginNet)
    requires !s.ready && !s.widgetRendered
    ensures var r := LoginRemote(s, deviceId, a, net);
      && (r.state.controllerCalls == s.controllerCalls
          || (r.state.controllerCalls == s.controllerCalls + [NewController]
              && net.initCall.Success? && net.saveUser.Pass?))
      && (r.outcome.Pass? <==> net.initCall.Success? && net.saveUser.Pass? && net.widget.Pass?)
      && (r.state.ready <==> r.outcome.Pass?) && (r.state.widgetRendered <==> r.outcome.Pass?)
      && (r.outcome.Pass? ==>
            && r.state.eventsForwarded && |r.state.requests| == |s.requests| + 2
            && |r.state.controllerCalls| > 0 && r.state.controllerCalls[|r.state.controllerCalls| - 1] == NewController)
      && r.state.endpoint.appToken == s.endpoint.appToken
      && r.state.captureOption == s.captureOption && r.state.readOnlyEmail == s.readOnlyEmail
      && r.state.emailCaptureEnabled == s.emailCaptureEnabled
  {
  }

  /** Two logins in a row from the same browser send the same device id,
      whatever uuid the second would have generated. */
  lemma LoginKeepsDeviceId(s: Session, argc: nat, userId: JsValue, jwt: JsValue, attributes: JsValue,
                           u1: string, u2: string, net: LoginNet)
    requires IsUuidText(u1)
    requires !CallsClearUnread(s.user, userId)
    ensures var s1 := LoginSpec(s, argc, userId, jwt, attributes, u1, net).state;
      DeviceIdFor(StoredId(s1.storage), u2) == DeviceIdFor(StoredId(s.storage), u1)
  {
    LoginRequestsFailStop(s, argc, userId, jwt, attributes, u1, net);
    DeviceIdStable(StoredId(s.storage), u1, u2);
  }

  /** The email flags `login` stores never have both an email given at login
      and email capture on. */
  lemma LoginEmailFlagsExclusive(s: Session, argc: nat, userId: JsValue, jwt: JsValue, attributes: JsValue,
                                 uuid: string, net: LoginNet)
    requires !s.readOnlyEmail || !s.emailCaptureEnabled
    ensures var s1 := LoginSpec(s, argc, userId, jwt, attributes, uuid, net).state;
      !s1.readOnlyEmail || !s1.emailCaptureEnabled
  {
    if !CallsClearUnread(s.user, userId) {
      LoginViaChain(s, argc, userId, jwt, attributes, uuid, net);
    }
  }

  /** A `login` whose attributes carry an email, on options stored as an
      object, writes capture off into the options: the next controller is
      made read-only and without capture. */
  lemma LoginWithEmailTurnsCaptureOff(s: Session, argc: nat, userId: JsValue, jwt: JsValue, attributes: JsValue,
                                      uuid: string, net: LoginNet)
    requires s.hasOptions && s.optionsObject && !CallsClearUnread(s.user, userId)
    requires var a := NormalizeLogin(argc, userId, jwt, attributes).attributes;
      a.Obj? && !IsEmpty(Get(a.fields, "email"))
    ensures var r := LoginSpec(s, argc, userId, jwt, attributes, uuid, net).state;
      r.readOnlyEmail && !Truthy(r.captureOption) && !r.emailCaptureEnabled
  {
    LoginViaChain(s, argc, userId, jwt, attributes, uuid, net);
  }

  /** Once the stored capture option is falsy, no `login` turns it back on:
      a `login` that resolves makes its controller without capture, and one
      that fails leaves capture as it was. */
  lemma LoginKeepsCaptureOff(s: Session, argc: nat, userId: JsValue, jwt: JsValue, attributes: JsValue,
                             uuid: string, net: LoginNet)
    requires !Truthy(s.captureOption)
    ensures var r := LoginSpec(s, argc, userId, jwt, attributes, uuid, net);
      && !Truthy(r.state.captureOption)
      && (r.state.emailCaptureEnabled ==> r.outcome.Fail? && s.emailCaptureEnabled)
  {
    if !CallsClearUnread(s.user, userId) {
      LoginViaChain(s, argc, userId, jwt, attributes, uuid, net);
    }
  }

  /** A `login` with an email followed by `logout`: the `login` that
      `logout` runs reads the overwritten option, so its controller has no
      capture either, although the options asked for it at `init`. */
  lemma EmailLoginThenLogout(s: Session, argc: nat, userId: JsValue, jwt: JsValue, attributes: JsValue,
                             u1: string, u2: string, n1: LoginNet, n2: LoginNet)
    requires s.hasOptions && s.optionsObject && !CallsClearUnread(s.user, userId)
    requires var a := NormalizeLogin(argc, userId, jwt, attributes).attributes;
      a.Obj? && !IsEmpty(Get(a.fields, "email"))
    ensures var s1 := LoginSpec(s, argc, userId, jwt, attributes, u1, n1).state;
      !LoginSpec(s1, 0, Undefined, Undefined, Undefined, u2, n2).state.emailCaptureEnabled
  {
    LoginWithEmailTurnsCaptureOff(s, argc, userId, jwt, attributes, u1, n1);
    var s1 := LoginSpec(s, argc, userId, jwt, attributes, u1, n1).state;
    LoginKeepsCaptureOff(s1, 0, Undefined, Undefined, Undefined, u2, n2);
    assert !s1.emailCaptureEnabled;
  }

  /** `init` on a ready session is a no-op. */
  lemma InitWhenReadyIsNoOp(s: Session, options: JsValue, uuid: string, net: LoginNet)
    requires s.ready
    ensures InitSpec(s, options, uuid, net) == Settled(s, Pass)
  {
  }

  /** `init` refuses every argument that is neither a string nor an object,
      and every token that is falsy, before any request; in both cases the
      options are already stored and the session is not ready. */
  lemma InitRejectsBeforeRequests(s: Session, options: JsValue, uuid: string, net: LoginNet)
    requires !s.ready
    requires !(options.Str? || options.Obj?) || !Truthy(InitToken(options))
    ensures var r := InitSpec(s, options, uuid, net);
      && r.outcome.Fail?
      && !r.state.ready
      && r.state.requests == s.requests
      && r.state.controllerCalls == s.controllerCalls
      && (options.Undefined? || options.Null? ==> r.outcome == Fail(TypeError) && r.state == s)
      && (!(options.Undefined? || options.Null? || options.Str? || options.Obj?) ==>
            r.outcome == Fail(InitArgError) && r.state.endpoint == s.endpoint)
      && ((options.Str? || options.Obj?) ==>
            r.outcome == Fail(InitTokenError) && r.state.endpoint.appToken == InitToken(options))
  {
  }

  /** A string argument is the app token: `init(t)` goes on as
      `init({appToken: t})` would, except that the options it stores are
      the string itself (an empty string becomes an object), with no
      capture option. */
  lemma InitStringIsToken(s: Session, t: string, uuid: string, net: LoginNet)
    requires !s.ready
    ensures InitSpec(s, Str(t), uuid, net)
         == InitWithOptions(s.(hasOptions := true, optionsObject := t == "", captureOption := Undefined),
                            map["appToken" := Str(t)], uuid, net)
  {
  }

  /** `init` with an object argument on a session that is not ready
      stores the options and goes on to `InitWithOptions`. */
  lemma InitObjectTakesOptions(s: Session, f: map<string, JsValue>, uuid: string, net: LoginNet)
    requires !s.ready
    ensures InitSpec(s, Obj(f), uuid, net)
         == InitWithOptions(s.(hasOptions := true, optionsObject := true, captureOption := Get(f, "emailCaptureEnabled")),
                            f, uuid, net)
  {
  }

  /** A successful `init` once the argument is an object: the session
      is ready, rendered and forwarding events, the endpoint holds the
      given truthy token, exactly one init request and one save were sent,
      and the last controller call made the controller. */
  lemma InitWithOptionsSuccess(s: Session, f: map<string, JsValue>, uuid: string, net: LoginNet)
    requires InitWithOptions(s, f, uuid, net).outcome.Pass?
    ensures var r := InitWithOptions(s, f, uuid, net).state;
      && r.ready && r.widgetRendered && r.eventsForwarded
      && Truthy(r.endpoint.appToken) && r.endpoint.appToken == Get(f, "appToken")
      && |r.requests| == |s.requests| + 2
      && |r.controllerCalls| > 0 && r.controllerCalls[|r.controllerCalls| - 1] == NewController
  {
    var serviceUrl := Get(f, "serviceUrl");
    var e := s.endpoint.(appToken := Get(f, "appToken"),
                         rootUrl := if Truthy(serviceUrl) then serviceUrl else s.endpoint.rootUrl);
    LoginSuccess(s.(endpoint := e.(sdkVersion := Str(SdkVersion))), 3, Get(f, "userId"),
                 Get(f, "jwt"), Obj(Pick(Obj(f), EditableProperties)), uuid, net);
  }

  /** A successful `login` leaves the session ready, rendered and
      forwarding events; it sent two requests, made a controller last, and
      kept the token. */
  lemma LoginSuccess(s: Session, argc: nat, userId: JsValue, jwt: JsValue, attributes: JsValue,
                     uuid: string, net: LoginNet)
    requires LoginSpec(s, argc, userId, jwt, attributes, uuid, net).outcome.Pass?
    ensures var r := LoginSpec(s, argc, userId, jwt, attributes, uuid, net).state;
      && r.ready && r.widgetRendered && r.eventsForwarded
      && r.endpoint.appToken == s.endpoint.appToken
      && |r.requests| == |s.requests| + 2
      && |r.controllerCalls| > 0 && r.controllerCalls[|r.controllerCalls| - 1] == NewController
  {
    assert !CallsClearUnread(s.user, userId);
    LoginViaChain(s, argc, userId, jwt, attributes, uuid, net);
  }

  class Smooch {
    var ready: bool
    var widgetRendered: bool
    var user: map<string, JsValue>
    var endpoint: Endpoint
    var hasOptions: bool
    var optionsObject: bool
    var captureOption: JsValue
    var readOnlyEmail: bool
    var emailCaptureEnabled: bool
    var storage: map<string, string>
    var controllerCalls: seq<ControllerCall>
    var requests: seq<Request>
    var eventsForwarded: bool

    function State(): Session
      reads this
    {
      Session(ready, widgetRendered, user, endpoint, hasOptions, optionsObject, captureOption, readOnlyEmail,
              emailCaptureEnabled, storage, controllerCalls, requests, eventsForwarded)
    }

    constructor (storage: map<string, string>)
      ensures State() == Session(false, false, map[], Endpoint(Undefined, Undefined, Undefined, Undefined, Undefined, Undefined),
                                 false, false, Undefined, false, false, storage, [], [], false)
    {
      ready, widgetRendered, user := false, false, map[];
      endpoint := Endpoint(Undefined, Undefined, Undefined, Undefined, Undefined, Undefined);
      hasOptions, optionsObject, captureOption := false, false, Undefined;
      readOnlyEmail, emailCaptureEnabled := false, false;
      this.storage := storage;
      controllerCalls, requests, eventsForwarded := [], [], false;
    }

    /** `_checkReady`. */
    method CheckReady(message: Err) returns (o: Outcome<Err>)
      ensures o == (if ready then Pass else Fail(message))
    {
      o := if ready then Pass else Fail(message);
    }

    /** `getDeviceId`: the stored id, or a new one from `uuid` with its
        dashes removed; what is returned is stored. */
    method GetDeviceId(uuid: string) returns (id: string)
      modifies this`storage
      ensures id == DeviceIdFor(StoredId(old(storage)), uuid)
      ensures storage == old(storage)[StorageKey := id]
    {
      if StorageKey in storage && storage[StorageKey] != "" {
        id := storage[StorageKey];
      } else {
        id := StripDashes(uuid);
      }
      storage := storage[StorageKey := id];
    }

    /** `_cleanState`: the user is cleared, the controller destroyed only if
        the widget was rendered, the endpoint reset, and the session is
        neither ready nor rendered. */
    method CleanState()
      modifies this`user, this`controllerCalls, this`endpoint, this`ready, this`widgetRendered
      ensures State() == CleanSession(old(State()))
    {
      user := map[];
      if widgetRendered {
        controllerCalls := controllerCalls + [DestroyController];
      }
      endpoint := ResetEndpoint(endpoint);
      ready := false;
      widgetRendered := false;
    }

    /** `init`; see `InitSpec`. */
    method Init(options: JsValue, uuid: string, net: LoginNet) returns (r: Outcome<Err>)
      modifies this
      ensures Settled(State(), r) == InitSpec(old(State()), options, uuid, net)
    {
      if ready {
        return Pass;
      }
      ready := false;
      if options.Undefined? || options.Null? {
        return Fail(TypeError);
      }
      hasOptions := true;
      optionsObject := IsObject(options) || !Truthy(options);
      captureOption := if options.Obj? then Get(options.fields, "emailCaptureEnabled") else Undefined;
      var opts := if options.Str? then Obj(map["appToken" := options]) else options;
      if !opts.Obj? {
        return Fail(InitArgError);
      }
      assert State() == old(State()).(ready := false, hasOptions := true, optionsObject := optionsObject,
                                      captureOption := captureOption);
      r := InitWith(opts.fields, uuid, net);
    }

    /** `init` once its argument is an object; see `InitWithOptions`. */
    method InitWith(f: map<string, JsValue>, uuid: string, net: LoginNet) returns (r: Outcome<Err>)
      modifies this
      ensures Settled(State(), r) == InitWithOptions(old(State()), f, uuid, net)
    {
      var serviceUrl := Get(f, "serviceUrl");
      endpoint := endpoint.(appToken := Get(f, "appToken"),
                            rootUrl := if Truthy(serviceUrl) then serviceUrl else endpoint.rootUrl);
      if !Truthy(endpoint.appToken) {
        return Fail(InitTokenError);
      }
      endpoint := endpoint.(sdkVersion := Str(SdkVersion));
      r := Login(3, Get(f, "userId"), Get(f, "jwt"), Obj(Pick(Obj(f), EditableProperties)), uuid, net);
    }

    /** `login`; see `LoginSpec`. */
    method Login(argc: nat, userId: JsValue, jwt: JsValue, attributes: JsValue, uuid: string, net: LoginNet)
      returns (r: Outcome<Err>)
      modifies this
      ensures Settled(State(), r) == LoginSpec(old(State()), argc, userId, jwt, attributes, uuid, net)
    {
      var args := NormalizeLogin(argc, userId, jwt, attributes);
      if CallsClearUnread(user, args.userId) {
        return Fail(ClearUnreadError);
      }
      r := LoginAfterCheck(args, uuid, net);
    }

    /** `login` past the `clearUnread` check; see `LoginPastCheck`. */
    method LoginAfterCheck(args: LoginArgs, uuid: string, net: LoginNet) returns (r: Outcome<Err>)
      modifies this
      ensures Settled(State(), r) == LoginPastCheck(old(State()), args, uuid, net)
    {
      var flags := DeriveEmailFlags(captureOption, args.attributes);
      var options := hasOptions;
      CleanState();
      var deviceId := ApplyLocal(args, uuid);
      if flags.Failure? {
        return Fail(flags.error);
      }
      if !options {
        return Fail(TypeError);
      }
      if optionsObject {
        captureOption := flags.value.emailCaptureEnabled;
        readOnlyEmail, emailCaptureEnabled := flags.value.readOnlyEmail, Truthy(flags.value.emailCaptureEnabled);
      } else {
        readOnlyEmail, emailCaptureEnabled := false, false;
      }
      assert State() == ExtendOptions(LoginLocal(CleanSession(old(State())), args, uuid), flags.value);
      r := SendLogin(deviceId, args, net);
    }

    /** The device id, and the user id and jwt into the endpoint; see
        `LoginLocal`. */
    method ApplyLocal(args: LoginArgs, uuid: string) returns (deviceId: string)
      modifies this
      ensures deviceId == DeviceIdFor(StoredId(old(storage)), uuid)
      ensures State() == LoginLocal(old(State()), args, uuid)
    {
      deviceId := GetDeviceId(uuid);
      if Truthy(args.userId) {
        endpoint := endpoint.(userId := args.userId);
      }
      if Truthy(args.jwt) {
        endpoint := endpoint.(jwt := args.jwt);
      }
    }

    /** `login`'s promise chain; see `LoginRemote`. */
    method SendLogin(deviceId: string, args: LoginArgs, net: LoginNet) returns (r: Outcome<Err>)
      modifies this
      ensures Settled(State(), r) == LoginRemote(old(State()), deviceId, args, net)
    {
      requests := requests + [InitRequest(deviceId, if Truthy(args.userId) then args.userId else Undefined)];
      if net.initCall.Failure? {
        return Fail(net.initCall.error);
      }
      user := user + map["conversation" := Obj(map[])] + net.initCall.value;
      endpoint := endpoint.(appUserId := Get(user, "id"));
      var saved := Pick(args.attributes, EditableProperties);
      requests := requests + [SaveUser(saved)];
      r := SaveAndRender(saved, net);
    }

    /** The rest of the chain; see `AfterSave`. */
    method SaveAndRender(saved: map<string, JsValue>, net: LoginNet) returns (r: Outcome<Err>)
      modifies this
      ensures Settled(State(), r) == AfterSave(old(State()), saved, net)
    {
      if net.saveUser.Fail? {
        return Fail(net.saveUser.error);
      }
      user := user + saved;
      controllerCalls := controllerCalls + [NewController];
      if net.widget.Fail? {
        return Fail(net.widget.error);
      }
      widgetRendered := true;
      ready := true;
      eventsForwarded := true;
      r := Pass;
    }

    /** `logout`: once ready, a `login` without arguments. */
    method Logout(uuid: string, net: LoginNet) returns (r: Outcome<Err>)
      modifies this
      ensures Settled(State(), r) == (if old(ready) then LoginSpec(old(State()), 0, Undefined, Undefined, Undefined, uuid, net)
                                      else Settled(old(State()), Pass))
    {
      if ready {
        r := Login(0, Undefined, Undefined, Undefined, uuid, net);
      } else {
        r := Pass;
      }
    }

    /** The facade's gated calls: before `ready` they throw and the
        controller sees nothing; afterwards they are passed on. */
    method ResetUnread() returns (o: Outcome<Err>)
      modifies this`controllerCalls
      ensures !ready ==> o == Fail(NotReady) && controllerCalls == old(controllerCalls)
      ensures ready ==> o == Pass && controllerCalls == old(controllerCalls) + [ResetUnreadCall]
    {
      o := CheckReady(NotReady);
      if o.Pass? {
        controllerCalls := controllerCalls + [ResetUnreadCall];
      }
    }

    method SendMessage(text: string) returns (o: Outcome<Err>)
      modifies this`controllerCalls
      ensures !ready ==> o == Fail(SendNotReady) && controllerCalls == old(controllerCalls)
      ensures ready ==> o == Pass && controllerCalls == old(controllerCalls) + [SendMessageCall(text)]
    {
      o := CheckReady(SendNotReady);
      if o.Pass? {
        controllerCalls := controllerCalls + [SendMessageCall(text)];
      }
    }

    method Open() returns (o: Outcome<Err>)
      modifies this`controllerCalls
      ensures !ready ==> o == Fail(NotReady) && controllerCalls == old(controllerCalls)
      ensures ready ==> o == Pass && controllerCalls == old(controllerCalls) + [OpenCall]
    {
      o := CheckReady(NotReady);
      if o.Pass? {
        controllerCalls := controllerCalls + [OpenCall];
      }
    }

    method Close() returns (o: Outcome<Err>)
      modifies this`controllerCalls
      ensures !ready ==> o == Fail(NotReady) && controllerCalls == old(controllerCalls)
      ensures ready ==> o == Pass && controllerCalls == old(controllerCalls) + [CloseCall]
    {
      o := CheckReady(NotReady);
      if o.Pass? {
        controllerCalls := controllerCalls + [CloseCall];
      }
    }

    /** `track`: gated like the others; once ready the event is posted,
        with the user properties when they are truthy, and the call settles
        as the request does. */
    method Track(name: string, userProps: JsValue, response: Outcome<Err>) returns (o: Outcome<Err>)
      modifies this`requests
      ensures !ready ==> o == Fail(NotReady) && requests == old(requests)
      ensures ready ==>
        o == response && requests == old(requests) + [TrackEvent(name, if Truthy(userProps) then userProps else Undefined)]
    {
      o := CheckReady(NotReady);
      if o.Pass? {
        requests := requests + [TrackEvent(name, if Truthy(userProps) then userProps else Undefined)];
        o := response;
      }
    }

    /** `destroy`: `_cleanState`, and the endpoint forgets the token. */
    method Destroy()
      modifies this`user, this`controllerCalls, this`endpoint, this`ready, this`widgetRendered
      ensures State() == var c := CleanSession(old(State())); c.(endpoint := c.endpoint.(appToken := Undefined))
    {
      CleanState();
      endpoint := endpoint.(appToken := Undefined);
    }

    /** `updateUser`: a non-object argument is refused without a request
        (`typeof null` is `"object"`, so `null` passes and saves nothing);
        otherwise its editable properties are saved and, once the server
        confirms, set on the user. */
    method UpdateUser(userInfo: JsValue, save: Outcome<Err>) returns (o: Outcome<Err>)
      modifies this`user, this`requests
      ensures TypeOf(userInfo) != "object" ==>
        o == Fail(UpdateUserError) && user == old(user) && requests == old(requests)
      ensures TypeOf(userInfo) == "object" ==>
        && requests == old(requests) + [SaveUser(Pick(userInfo, EditableProperties))]
        && o == save
        && user == (if save.Pass? then old(user) + Pick(userInfo, EditableProperties) else old(user))
    {
      if TypeOf(userInfo) != "object" {
        return Fail(UpdateUserError);
      }
      var saved := Pick(userInfo, EditableProperties);
      requests := requests + [SaveUser(saved)];
      o := save;
      if save.Pass? {
        user := user + saved;
      }
    }
  }
}
