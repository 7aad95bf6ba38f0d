# VoIP push handling of the ProCounsellor iOS runner

The iOS entry point of the ProCounsellor app (`AppDelegate.swift`) connects
PushKit VoIP pushes to the `flutter_callkit_incoming` call-UI plugin. This
project models its three pieces of logic and proves what they guarantee:

- **Incoming-push dispatch** (`PushPayload`, `PushDelegate.AppDelegate.DidReceiveIncomingPush`).
  A payload whose `"type"` entry is the string `"cancel_call"` asks the plugin
  to end all calls. Every other payload becomes a ten-key call-info dictionary
  that the plugin is asked to show as one call coming from PushKit. Each key is
  copied from the payload when present and given a fixed default when absent.
  Both paths invoke the push transport's completion exactly once.
- **VoIP token encoding** (`TokenEncoding`). The credential bytes are formatted
  with `%02x` and joined. The model proves the length, the alphabet, the zero
  padding, distribution over concatenation, and a decoder that inverts it.
- **Token lifecycle** (`PushDelegate.AppDelegate.DidUpdatePushCredentials`,
  `DidInvalidatePushToken`). A new token goes to the plugin and into
  `UserDefaults` under `"flutter.cached_voip_token"`. Invalidation resets only
  the plugin's token to `""`; the cached entry stays in the store.

The payload is a `map<string, Value>`, where `Value` covers strings, integers,
booleans, nested dictionaries and everything else. The plugin's shared instance
is a nullable `CallkitPlugin` field of the delegate that every handler reads
afresh. It starts `null` at launch, and `RegisterPlugin` sets it later.
While it is `null`, every plugin call is skipped, and the rest of the handler
(the store write, the completion) still runs. So a token that arrives before
the plugin registers reaches only the store. In the app's own launch
sequence the plugin registers (line 21) before the PushKit registry is created
(lines 24-26). So a token meets a `null` instance only if the plugin's
registration left it unset; the model allows either order. `UserDefaults` is a
map field of the delegate. The completion callback is a counter.

The ten assignments of the incoming path all have the same form,
`info[key] = dictionary[key] ?? default`. `Normalise` writes them as one
comprehension over the ten keys, and the defaults live once, in the table
`DefaultFor`. `EmptyPayloadIsAllDefaults` states every literal default
directly, so the table is checked against the code's constants.

Three behaviours of the code are worth stating plainly:

- Invalidation resets only the plugin's token. The cached store entry is not cleared.
- `??` substitutes only for an absent key. A present value of any kind, null included, is copied.
- A cancel push ends all calls. It names no single call.

## Model

| member | source | states |
|---|---|---|
| TokenEncoding.ByteToHex | ProCounsellor/ios/Runner/AppDelegate.swift:39 | `%02x` of a byte is two lower-case hex digits whose value is the byte, high nibble first; the first digit is `0` exactly when the byte is below 16 |
| TokenEncoding.Encode | ProCounsellor/ios/Runner/AppDelegate.swift:39 | the joined token has length twice the number of credential bytes, and every character is in `[0-9a-f]` |
| TokenEncoding.Decode | ProCounsellor/ios/Runner/AppDelegate.swift:39 | the inverse reader accepts exactly the even-length strings of lower-case hex digits, and yields half as many bytes as characters |
| TokenEncoding.EncodeAppend | ProCounsellor/ios/Runner/AppDelegate.swift:39 | encoding the concatenation of two byte strings is the concatenation of their encodings |
| TokenEncoding.EncodeAt | ProCounsellor/ios/Runner/AppDelegate.swift:39 | byte `i` of the credentials is rendered, zero-padded, at characters `2i` and `2i+1` of the token |
| TokenEncoding.DecodeEncode | ProCounsellor/ios/Runner/AppDelegate.swift:39 | decoding the forwarded token gives back the credential bytes |
| TokenEncoding.EncodeDecode | ProCounsellor/ios/Runner/AppDelegate.swift:39 | every string the decoder accepts is the encoding of the bytes it returns, so the encoder's image is exactly the well-formed hex strings |
| TokenEncoding.EncodeInjective | ProCounsellor/ios/Runner/AppDelegate.swift:39 | two different credentials never produce the same token string |
| PushPayload.Defaults | ProCounsellor/ios/Runner/AppDelegate.swift:67-83 | the default table covers exactly the ten call-info keys |
| PushPayload.Normalise | ProCounsellor/ios/Runner/AppDelegate.swift:67-83 | the call-info dictionary has exactly the ten keys; a key present in the payload is copied verbatim, an absent one takes its default |
| PushPayload.Classify | ProCounsellor/ios/Runner/AppDelegate.swift:59-83 | the push is a cancel exactly when `"type"` is present and is the string `"cancel_call"`; otherwise it is an incoming call carrying the normalised dictionary |
| PushPayload.NormaliseIsOverride | ProCounsellor/ios/Runner/AppDelegate.swift:67-83 | the call-info dictionary equals the default table overridden by the payload's own call-info entries, with every other payload key dropped |
| PushPayload.CancelIgnoresOtherKeys | ProCounsellor/ios/Runner/AppDelegate.swift:59-63 | setting `"type"` to `"cancel_call"` makes any payload a cancel, whatever its other keys and whatever id would be generated |
| PushPayload.IncomingKeepsType | ProCounsellor/ios/Runner/AppDelegate.swift:59-71 | a `"type"` that is absent, not a string, or another string gives an incoming call; a present `"type"` is copied unchanged and only an absent one becomes `0` |
| PushPayload.NormaliseOnlyReadsCallKeys | ProCounsellor/ios/Runner/AppDelegate.swift:67-83 | two payloads that agree on the ten call-info keys give the same call-info dictionary |
| PushPayload.FreshIdOnlyWhenAbsent | ProCounsellor/ios/Runner/AppDelegate.swift:68 | the generated identifier matters only when the payload has no `"id"`, and then it becomes the call's id |
| PushPayload.NormaliseIdempotent | ProCounsellor/ios/Runner/AppDelegate.swift:67-83 | normalising an already normalised dictionary leaves it unchanged |
| PushPayload.EmptyPayloadIsAllDefaults | ProCounsellor/ios/Runner/AppDelegate.swift:67-83 | an empty payload yields the generated id, `"Unknown"`, `"Caller"`, `0`, `"Answer"`, `"Decline"`, `"Missed call"`, `"Call back"`, `{}` and the iOS options (`CallKitIcon`, `generic`, video on, 2 call groups, 1 call per group) |
| PushPayload.CallerFieldsKept | ProCounsellor/ios/Runner/AppDelegate.swift:67-83 | a payload with only an id, a caller name and a handle, whatever their values, keeps those three verbatim and defaults the other seven keys |
| PushDelegate.ForegroundPresentationOptions | ProCounsellor/ios/Runner/AppDelegate.swift:35 | a notification arriving while the app is in front is presented as an alert with badge and sound, and neither list nor banner is requested |
| PushDelegate.AppDelegate.WillPresentNotification | ProCounsellor/ios/Runner/AppDelegate.swift:32-36 | each foreground notification invokes the completion handler once, with the fixed foreground options |
| PushDelegate.CallkitPlugin.SetDevicePushTokenVoIP | ProCounsellor/ios/Runner/AppDelegate.swift:42 | the plugin's token becomes the given string and nothing else in the plugin changes |
| PushDelegate.CallkitPlugin.ShowCallkitIncoming | ProCounsellor/ios/Runner/AppDelegate.swift:85-88 | exactly one shown call is appended, with the given data and PushKit flag; nothing else in the plugin changes |
| PushDelegate.CallkitPlugin.EndAllCalls | ProCounsellor/ios/Runner/AppDelegate.swift:61 | one more end-all request is recorded and nothing else in the plugin changes |
| PushDelegate.AppDelegate.RegisterPlugin | ProCounsellor/ios/Runner/AppDelegate.swift:21 | plugin registration sets the shared instance that later handlers read, and changes nothing else |
| PushDelegate.AppDelegate.DidUpdatePushCredentials | ProCounsellor/ios/Runner/AppDelegate.swift:38-46 | the same hex token goes to the plugin (when registered) and into the store under `flutter.cached_voip_token`; no other stored key and no shown or ended call changes |
| PushDelegate.AppDelegate.DidInvalidatePushToken | ProCounsellor/ios/Runner/AppDelegate.swift:50-53 | the plugin's token becomes `""` (when registered); the store and the completion count are left unchanged |
| PushDelegate.AppDelegate.Complete | ProCounsellor/ios/Runner/AppDelegate.swift:90 | one more completion acknowledgement is recorded |
| PushDelegate.AppDelegate.DidReceiveIncomingPush | ProCounsellor/ios/Runner/AppDelegate.swift:55-91 | the outcome is `Classify` of the payload; a cancel records one end-all request and shows nothing; an incoming call appends exactly one shown call with the normalised dictionary, marked as from PushKit; plugin steps are skipped when there is no plugin; the completion count rises by exactly one; the token and the store are untouched |
| PushDelegate.UpdateThenInvalidate | ProCounsellor/ios/Runner/AppDelegate.swift:38-53 | after a token update and then an invalidation, the plugin holds `""` while the store still holds the encoded token |
| PushDelegate.TokenBeforeRegistration | ProCounsellor/ios/Runner/AppDelegate.swift:38-91 | a token update before the plugin registers is cached in the store but never reaches the plugin; a push after registration is still acknowledged once and shown exactly as normalised, or shows nothing if it is a cancel |
| PushDelegate.DeliverOnePush | ProCounsellor/ios/Runner/AppDelegate.swift:55-91 | one push to a fresh delegate is acknowledged exactly once, with or without a plugin; with one, it either ends all calls once or shows exactly the normalised call |

## Left out

- App launch (lines 12-29) is left out. `FirebaseApp.configure`, remote-notification registration, plugin registration and the `PKPushRegistry` setup are calls into frameworks whose behaviour is not visible. Plugin registration is modelled only by its effect on the delegate: `RegisterPlugin` makes the shared instance available to later handlers.
- The `print` logging (lines 40, 51, 60) is left out because it has no effect on behaviour.
- `UUID().uuidString` (line 68) is platform randomness, so the generated identifier is the parameter `freshId`. The model does not state that it is unique.
- The plugin's internals are left out. `Data(args:)`, `showCallkitIncoming`, `endAllCalls` and `setDevicePushTokenVoIP` are recorded as effects on the `CallkitPlugin` state; the CallKit UI and the Flutter channel behind them are not visible.
- `UserDefaults` is a map field. Its persistence across restarts is not modelled, and neither is Firebase or Firestore.
- Threading (`DispatchQueue.main`) and PushKit's delivery deadline are left out. They are platform concurrency and timing, and the code does not enforce them.
- Payload keys are `AnyHashable` in Swift but strings in the model. The handler only looks up string keys.
- Payload numbers other than integers, arrays, null values and other objects are all `Value.Other`, told apart only by a tag. The handler never inspects them, only copies them.
- PushDelegate.AppDelegate.DidReceiveIncomingPush: the contract does not state that the completion happens after the plugin call. Both take place within one handler call, so the order is not visible in the end state; the method body performs them in the code's order.
- A freshly created `CallkitPlugin` is taken to hold the empty token. The plugin's real start-up state is not visible.
