/** The application delegate's PushKit and notification handlers, as the
    effects they have on the call-UI plugin, on the persisted key/value store
    and on the push transport's completion callback. */
module PushDelegate {
  import opened PushPayload
  import TokenEncoding

  /** The `UserDefaults` key under which the VoIP token is cached. */
  const CachedVoipTokenKey: string := "flutter.cached_voip_token"

  /** The members of `UNNotificationPresentationOptions`. */
  datatype PresentationOption = Alert | Badge | Sound | List | Banner

  /** How a notification that arrives while the app is in front is shown:
      as an alert, with its badge and with its sound; neither of the newer
      list/banner options is asked for. */
  function ForegroundPresentationOptions(): (opts: set<PresentationOption>)
    ensures Alert in opts && Badge in opts && Sound in opts
    ensures List !in opts && Banner !in opts
  {
    {Alert, Badge, Sound}
  }

  /** One `showCallkitIncoming` request: the call-info dictionary handed to
      `Data(args:)` and whether it came from PushKit. */
  datatype ShownCall = ShownCall(data: map<string, Value>, fromPushKit: bool)

  /** What the delegate can observe of the call-UI plugin's shared instance:
      the VoIP token last handed to it, the incoming calls it was asked to
      show and how many times it was asked to end all calls. */
  class CallkitPlugin {
    var voipToken: string
    var shownCalls: seq<ShownCall>
    var endAllRequests: nat

    constructor ()
      ensures voipToken == "" && shownCalls == [] && endAllRequests == 0
    {
      voipToken, shownCalls, endAllRequests := "", [], 0;
    }

    /** `setDevicePushTokenVoIP(_:)`. */
    method SetDevicePushTokenVoIP(token: string)
      modifies this
      ensures voipToken == token
      ensures shownCalls == old(shownCalls) && endAllRequests == old(endAllRequests)
    {
      voipToken := token;
    }

    /** `showCallkitIncoming(_:fromPushKit:)`. */
    method ShowCallkitIncoming(data: map<string, Value>, fromPushKit: bool)
      modifies this
      ensures shownCalls == old(shownCalls) + [ShownCall(data, fromPushKit)]
      ensures voipToken == old(voipToken) && endAllRequests == old(endAllRequests)
    {
      shownCalls := shownCalls + [ShownCall(data, fromPushKit)];
    }

    /** `endAllCalls()`. */
    method EndAllCalls()
      modifies this
      ensures endAllRequests == old(endAllRequests) + 1
      ensures voipToken == old(voipToken) && shownCalls == old(shownCalls)
    {
      endAllRequests := endAllRequests + 1;
    }
  }

  class AppDelegate {
    /** `SwiftFlutterCallkitIncomingPlugin.sharedInstance`, read afresh by
        every handler; `null` while the plugin has not registered, and then
        every call on it is skipped. */
    var plugin: CallkitPlugin?
    /** `UserDefaults.standard`. */
    var defaults: map<string, Value>
    /** How many times a push's `completion` callback has been invoked. */
    var completions: nat
    /** The options handed to each foreground `completionHandler`, in order. */
    var foregroundPresentations: seq<set<PresentationOption>>

    /** A freshly launched app: the store holds what earlier runs left in
        it, and the plugin has not registered yet. */
    constructor (defaults: map<string, Value>)
      ensures plugin == null && this.defaults == defaults
      ensures completions == 0 && foregroundPresentations == []
    {
      plugin := null;
      this.defaults := defaults;
      completions := 0;
      foregroundPresentations := [];
    }

    /** The plugin's registration sets (or clears) the shared instance that
        later handlers see; nothing else changes. */
    method RegisterPlugin(p: CallkitPlugin?)
      modifies this`plugin
      ensures plugin == p
    {
      plugin := p;
    }

    /** `userNotificationCenter(_:willPresent:withCompletionHandler:)`: the
        handler is called once, with the fixed foreground options. */
    method WillPresentNotification()
      modifies this`foregroundPresentations
      ensures foregroundPresentations == old(foregroundPresentations) + [ForegroundPresentationOptions()]
    {
      foregroundPresentations := foregroundPresentations + [ForegroundPresentationOptions()];
    }

    /** `pushRegistry(_:didUpdate:for:)`: the credential bytes are hex
        encoded, handed to the plugin and cached under one key. */
    method DidUpdatePushCredentials(credentials: seq<TokenEncoding.byte>) returns (deviceToken: string)
      modifies this`defaults, plugin
      ensures deviceToken == TokenEncoding.Encode(credentials)
      ensures plugin == old(plugin)
      ensures plugin != null ==> plugin.voipToken == deviceToken
      ensures plugin != null ==> plugin.shownCalls == old(plugin.shownCalls)
      ensures plugin != null ==> plugin.endAllRequests == old(plugin.endAllRequests)
      ensures CachedVoipTokenKey in defaults && defaults[CachedVoipTokenKey] == Str(deviceToken)
      ensures forall k :: k != CachedVoipTokenKey ==> (k in defaults <==> k in old(defaults))
      ensures forall k :: k != CachedVoipTokenKey && k in defaults ==> defaults[k] == old(defaults)[k]
    {
      deviceToken := TokenEncoding.Encode(credentials);
      if plugin != null {
        plugin.SetDevicePushTokenVoIP(deviceToken);
      }
      defaults := defaults[CachedVoipTokenKey := Str(deviceToken)];
    }

    /** `pushRegistry(_:didInvalidatePushTokenFor:)`: only the plugin's token
        is reset; the cached token stays in the store. */
    method DidInvalidatePushToken()
      modifies plugin
      ensures plugin != null ==> plugin.voipToken == ""
      ensures plugin == old(plugin)
      ensures plugin != null ==> plugin.shownCalls == old(plugin.shownCalls)
      ensures plugin != null ==> plugin.endAllRequests == old(plugin.endAllRequests)
      ensures defaults == old(defaults) && completions == old(completions)
    {
      if plugin != null {
        plugin.SetDevicePushTokenVoIP("");
      }
    }

    /** The push transport's `completion()` callback. */
    method Complete()
      modifies this`completions
      ensures completions == old(completions) + 1
    {
      completions := completions + 1;
    }

    /** `pushRegistry(_:didReceiveIncomingPushWith:for:completion:)`. A cancel
        push asks the plugin to end all calls; any other push is normalised
        and shown as one call from PushKit. Either way the completion is
        invoked exactly once, with or without a plugin. `freshId` is the
        identifier generated for a payload without `"id"`. */
    method DidReceiveIncomingPush(payload: Payload, freshId: string) returns (outcome: PushOutcome)
      modifies this`completions, plugin
      ensures outcome == Classify(payload, freshId)
      ensures plugin == old(plugin)
      ensures completions == old(completions) + 1
      ensures defaults == old(defaults)
      ensures plugin != null ==> plugin.voipToken == old(plugin.voipToken)
      ensures plugin != null && outcome.Cancel? ==>
        plugin.endAllRequests == old(plugin.endAllRequests) + 1 && plugin.shownCalls == old(plugin.shownCalls)
      ensures plugin != null && outcome.Incoming? ==>
        plugin.shownCalls == old(plugin.shownCalls) + [ShownCall(outcome.info, true)]
        && plugin.endAllRequests == old(plugin.endAllRequests)
    {
      if IsCancelPush(payload) {
        if plugin != null {
          plugin.EndAllCalls();
        }
        Complete();
        return Cancel;
      }

      var info := Normalise(payload, freshId);
      if plugin != null {
        plugin.ShowCallkitIncoming(info, true);
      }
      Complete();
      outcome := Incoming(info);
    }
  }

  /** A token update followed by an invalidation: the plugin ends with the
      empty token while the store still holds the encoded credentials. */
  method UpdateThenInvalidate(stored: map<string, Value>, credentials: seq<TokenEncoding.byte>)
    returns (persisted: Value, presented: string)
    ensures persisted == Str(TokenEncoding.Encode(credentials))
    ensures presented == ""
  {
    var plugin := new CallkitPlugin();
    var delegate := new AppDelegate(stored);
    delegate.RegisterPlugin(plugin);
    var _ := delegate.DidUpdatePushCredentials(credentials);
    delegate.DidInvalidatePushToken();
    persisted := delegate.defaults[CachedVoipTokenKey];
    presented := plugin.voipToken;
  }

  /** One push delivered to a freshly launched app, with the plugin
      registered or not: exactly one completion, and exactly one plugin
      action when there is a plugin. */
  method DeliverOnePush(payload: Payload, freshId: string, pluginRegistered: bool)
    returns (acks: nat, shown: seq<ShownCall>, endAll: nat)
    ensures acks == 1
    ensures pluginRegistered && "type" in payload && payload["type"] == Str("cancel_call") ==>
      shown == [] && endAll == 1
    ensures pluginRegistered && !("type" in payload && payload["type"] == Str("cancel_call")) ==>
      shown == [ShownCall(Normalise(payload, freshId), true)] && endAll == 0
  {
    var plugin: CallkitPlugin? := null;
    var delegate := new AppDelegate(map[]);
    if pluginRegistered {
      plugin := new CallkitPlugin();
      delegate.RegisterPlugin(plugin);
    }
    var _ := delegate.DidReceiveIncomingPush(payload, freshId);
    acks := delegate.completions;
    if plugin != null {
      shown, endAll := plugin.shownCalls, plugin.endAllRequests;
    } else {
      shown, endAll := [], 0;
    }
  }

  /** A token that arrives before the plugin registers reaches only the
      store; a push after registration is still shown by the plugin, which
      never received the token. */
  method TokenBeforeRegistration(credentials: seq<TokenEncoding.byte>, payload: Payload, freshId: string)
    returns (persisted: Value, presented: string, shown: seq<ShownCall>, acks: nat)
    ensures persisted == Str(TokenEncoding.Encode(credentials))
    ensures presented == ""
    ensures credentials != [] ==> presented != TokenEncoding.Encode(credentials)
    ensures acks == 1
    ensures "type" in payload && payload["type"] == Str("cancel_call") ==> shown == []
    ensures !("type" in payload && payload["type"] == Str("cancel_call")) ==>
      shown == [ShownCall(Normalise(payload, freshId), true)]
  {
    var delegate := new AppDelegate(map[]);
    var _ := delegate.DidUpdatePushCredentials(credentials);
    var plugin := new CallkitPlugin();
    delegate.RegisterPlugin(plugin);
    var _ := delegate.DidReceiveIncomingPush(payload, freshId);
    persisted := delegate.defaults[CachedVoipTokenKey];
    presented, shown, acks := plugin.voipToken, plugin.shownCalls, delegate.completions;
  }
}
