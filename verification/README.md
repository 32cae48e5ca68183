# Webex calling bridge for Expo — a Dafny model

This project models the logic core of an Expo native module that bridges the
Webex calling SDK into a React Native host:

- **Session** (`session.dfy`, the Swift module `ExpoWebexCallingModule`): a
  state machine over the login flag and the single active-call slot. It is
  driven by three host commands (`initWebex`, `authenticate`, `answerCall`)
  and by the closures it installs on the engine: the phone's incoming-call
  listener and each call's ringing, connected, disconnected, failed and
  membership-changed callbacks. Everything sent to the host goes into an
  event log (`events`), on the five channels the module declares.
  The engine calls, permission prompts and view connect steps the module
  makes go into an effect log (`effects`), so the order of both logs can be
  stated. Installing closures is not logged: the incoming-call listener is
  a flag on the engine handle (`incomingListener`) and the per-call
  callbacks are a flag on the call (`callbacksArmed`), so the order of an
  installation relative to the events is not stated. Each command is one atomic step that settles its promise once.
  The engine's answers, the authoriser's result and the two permission
  answers are method parameters.
- **View** (`calling_view.dfy`, `ExpoWebexCallingView`): the draggable
  self-view thumbnail. During a drag its centre follows the pointer. When
  the drag ends, three vertical corrections and one horizontal correction
  run in order. Each correction reads the centre the previous one left,
  because an animation block takes effect at once. The view also has the
  `connectToCall` step, which binds the view's two surfaces to the call
  snapshot the view took when it was created.
- **Sdk** (`sdk.dfy`): the engine objects the bridge holds. A call has an
  id and a membership list. It also records whether the bridge's callbacks
  are installed on it and which view's surfaces are attached to it.
- **ConfigPlugin** (`config_plugin.dfy`, `plugin/src/withExpoCalling.ts`):
  - the Info.plist defaults, where JavaScript `||` lets empty strings fall through;
  - the idempotent "append a tagged generated block" edit of `build.gradle`;
  - the guard that accepts only a Groovy build file.

  The library's `createGeneratedHeaderComment` and `removeGeneratedContents`
  are uninterpreted function values (`Codegen`).

Two quirks of the code are modelled as written:

- An incoming call replaces the call in the slot even when the slot is
  occupied. The guard for that case is commented out in the source.
- Every call's disconnected and failed callbacks empty the single shared
  slot. So a late disconnection from a call that was replaced empties the
  slot while it holds the newer call. `OverwrittenCallScenario` shows this.

Notes on the code's behaviour:

- A second incoming call replaces the first. It is not refused.
- Errors are the three exception classes the code throws, carrying the
  code's message strings.
- A successful answer does not itself send `connected`. That status comes
  only from the engine's connected callback.
- The channel names are the code's own, including `OnCallStatusChange`
  with a capital O.
- The code has no media-changed handler, so none is modelled.

Three crashes in the source are preconditions here:

- `Authenticate` requires an initialised engine, because the engine handle
  is force-unwrapped.
- `ConnectToCall`, and the answer and connected paths that reach it,
  require the view's call snapshot, because the source calls `fatalError`
  without one.
- Building the membership payload requires every membership to have a name
  and a person id, because both are force-unwrapped.

## Model

| member | source | states |
|---|---|---|
| `View.SnapY` | ios/ExpoWebexCallingView.swift:70-90 | the rested vertical centre is at most height/4; it lies in [thumbHeight-20, height/4] when that interval is non-empty and equals height/4 otherwise; a centre at or below the quarter line rests exactly at height/4, one above the lower limit rests exactly at thumbHeight-20, and a centre already inside stays put |
| `View.SnapX` | ios/ExpoWebexCallingView.swift:93-101 | the rested horizontal centre is width-60 when the pointer is at or right of the middle, otherwise 60 |
| `View.SettledCenter` | ios/ExpoWebexCallingView.swift:65-103 | the centre equals the pointer, unclamped, unless the gesture ended; after an ended gesture, x is snapped horizontally and y vertically, and y is at most height/4 |
| `View.CallingView.constructor` | ios/ExpoWebexCallingView.swift:27-63 | a new view holds the given call snapshot, an opaque 100x180 thumbnail and the label "No video" |
| `View.CallingView.SetName` | ios/ExpoWebexCallingModule.swift:202-204 | the `name` prop setter stores the name and changes nothing else |
| `View.CallingView.HandleSelfViewGesture` | ios/ExpoWebexCallingView.swift:65-103 | after one gesture frame, the thumbnail centre is `SettledCenter` of the pointer; nothing else in the view changes |
| `View.CallingView.ConnectToCall` | ios/ExpoWebexCallingView.swift:108-122 | requires a call snapshot; binds this view's surfaces to that call and sets alpha 1 and the label "active call" |
| `View.AxesIndependent` | ios/ExpoWebexCallingView.swift:74-101 | the rested x depends only on the pointer's x and the rested y only on its y |
| `View.WorkedExamples` | ios/ExpoWebexCallingView.swift:70-101 | for a 700x600 container, a drag ending at (550,500) rests at (640,150) and one ending at (100,500) rests at (60,150) |
| `Session.EventChannels` | ios/ExpoWebexCallingModule.swift:8-14 | the five channel names are distinct, each event goes out on its own channel, and status changes use "OnCallStatusChange" |
| `Session.StatusTextsDistinct` | ios/ExpoWebexCallingModule.swift:238-265 | the status strings are exactly ringing, connected, disconnected, participants-changed and failed, and no two statuses share one |
| `Session.RejectionReasons` | ios/ExpoWebexCallingModule.swift:16-38 | the reason texts of the authenticator, authentication and answer exceptions, each answer failure prefixed "Failed to answer call. " |
| `Session.Entries` | ios/ExpoWebexCallingModule.swift:287-290 | the participants payload has exactly one entry per membership |
| `Session.EntriesAt` | ios/ExpoWebexCallingModule.swift:287-290 | entry i is membership i's name, person id, state and self flag, so the engine's order is kept |
| `Session.BuildMemberships` | ios/ExpoWebexCallingModule.swift:287-290 | the append loop builds exactly `Entries` of the membership list |
| `Session.CallingModule.constructor` | ios/ExpoWebexCallingModule.swift:42-45 | a new module has no engine, is logged out, and has no call, no view and empty logs |
| `Session.CallingModule.SendIsLoggedInEvent` | ios/ExpoWebexCallingModule.swift:299-303 | sends exactly one login event carrying the current login flag |
| `Session.CallingModule.SendCallStatusChange` | ios/ExpoWebexCallingModule.swift:305-309 | sends exactly one status event with the given status |
| `Session.CallingModule.SetIncomingCallListener` | ios/ExpoWebexCallingModule.swift:210-213 | installs the incoming-call listener on the engine and keeps its authenticator |
| `Session.CallingModule.EmitCallMembership` | ios/ExpoWebexCallingModule.swift:281-297 | with a call in the slot, sends that call's whole membership payload, replacing any earlier one; with no call, sends nothing |
| `Session.CallingModule.EmitCallEvents` | ios/ExpoWebexCallingModule.swift:229-268 | installs the callbacks on the call in the slot, if there is one, and changes nothing else about it |
| `Session.CallingModule.InitWebex` | ios/ExpoWebexCallingModule.swift:76-99 | clears the slot; creates a token-authenticated engine; the login flag and the resolved value equal what the engine reports; the login event and the listener happen only when that value is true |
| `Session.CallingModule.Authenticate` | ios/ExpoWebexCallingModule.swift:102-138 | logged in: sends login(true), re-arms the listener, resolves true and never calls `authorizedWith`. Non-token authenticator: rejects and changes nothing. Success: logged in, login(true), listener armed, resolves true. Failure: logged out, login(false), listener untouched, rejects with the result text |
| `Session.CallingModule.AnswerCall` | ios/ExpoWebexCallingModule.swift:142-178 | no call: rejects with "Active call not found." and requests nothing. Audio denied: rejects and never asks for video. Video denied: rejects. Both granted: binds the view, then answers. Settings and callbacks are applied, and it resolves true, exactly when the answer error is nil. The rejections leave the view and the calls untouched; the view's snapshot, centre and name and the call's memberships never change; the view's snapshot call, even when it is an older call than the one in the slot, keeps its memberships and callbacks; the slot call's render views change only when it is the view's snapshot |
| `Session.CallingModule.CreateView` | ios/ExpoWebexCallingModule.swift:189-199 | the new view's call snapshot is the current slot, it starts with no name, alpha 1, the "No video" label and the 100x180 thumbnail, and the module keeps it as its view |
| `Session.CallingModule.OnIncoming` | ios/ExpoWebexCallingModule.swift:213-226 | once the listener is armed, the new call takes the slot even when the slot is occupied; the events are its membership payload and then its call id, and its callbacks are armed. Without the listener nothing happens, and the call's names need not be present |
| `Session.CallingModule.OnRinging` | ios/ExpoWebexCallingModule.swift:235-239 | an armed call sends "ringing" and changes nothing else |
| `Session.CallingModule.OnConnected` | ios/ExpoWebexCallingModule.swift:241-246 | an armed call sends "connected" and then runs the view's connect step (surfaces bound to the view's own snapshot, alpha 1, label "active call"); the slot, the view's snapshot, centre and name and the call's memberships are unchanged, and the view's snapshot call keeps its memberships and callbacks; an unarmed call touches nothing |
| `Session.CallingModule.OnDisconnected` | ios/ExpoWebexCallingModule.swift:248-253 | an armed call sends "disconnected" and then empties the shared slot, whichever call it holds |
| `Session.CallingModule.OnFailed` | ios/ExpoWebexCallingModule.swift:262-267 | an armed call sends "failed" and then empties the shared slot |
| `Session.CallingModule.OnCallMembershipChanged` | ios/ExpoWebexCallingModule.swift:255-260 | an armed call sends "participants-changed" and then the membership payload of the call in the slot; the slot is unchanged |
| `Session.OverwrittenCallScenario` | ios/ExpoWebexCallingModule.swift:213-253 | a second incoming call takes the slot, and the first call's late disconnection empties it; the exact event log is given |
| `Session.MembershipReplaceScenario` | ios/ExpoWebexCallingModule.swift:255-296 | after the engine empties a call's membership list, the membership-changed callback sends "participants-changed" and then an empty list, replacing the two entries sent on arrival |
| `Session.ReauthenticateScenario` | ios/ExpoWebexCallingModule.swift:105-111 | authenticating while logged in resolves true without a second `authorizedWith`, whatever the engine would have answered |
| `ConfigPlugin.AppendContents` | plugin/src/withExpoCalling.ts:53-84 | merges exactly when the header is absent; when the header is present the result is `src` with no merge and no clear; a clear implies a cleared, non-empty text |
| `ConfigPlugin.AppendAtEnd` | plugin/src/withExpoCalling.ts:64-80 | header absent and nothing to clear: the result is `src` followed by header, contents and end marker; it merges without clearing and then contains the header |
| `ConfigPlugin.ClearedReplacesAll` | plugin/src/withExpoCalling.ts:66-81 | header absent and an older block cleared: the result is exactly the cleared text without the new block, and `didClear` is whether that text is non-empty |
| `ConfigPlugin.AppendIdempotent` | plugin/src/withExpoCalling.ts:64-83 | when the header was present or nothing was cleared, a second append on the result is a no-op |
| `ConfigPlugin.AddCameraImport` | plugin/src/withExpoCalling.ts:43-50 | the build.gradle edit merges exactly when its header is absent, keeps the file otherwise, and with nothing to clear appends the maven block under tag `expo-webex-calling-import` with `//` markers |
| `ConfigPlugin.AddCameraImportIdempotent` | plugin/src/withExpoCalling.ts:43-50 | the build.gradle edit, with tag `expo-webex-calling-import` and comment `//`, is a no-op on its own output under the same condition |
| `ConfigPlugin.ProjectBuildGradle.ApplyCameraImport` | plugin/src/withExpoCalling.ts:27-41 | a Groovy file's contents become `AddCameraImport` of the old contents; any other language throws the not-groovy message and leaves the contents as they were |
| `ConfigPlugin.Fallback` | plugin/src/withExpoCalling.ts:93-101 | the option if non-empty, else the existing value if non-empty, else the default; never empty when the default is non-empty |
| `ConfigPlugin.WithUsageDescriptions` | plugin/src/withExpoCalling.ts:92-101 | sets the camera and microphone keys by `Fallback` and keeps every other key |
| `ConfigPlugin.GroupIdentifier` | plugin/src/withExpoCalling.ts:120-122 | keeps a non-empty existing group; otherwise "group." followed by the bundle id, or by "undefined" when the bundle id is missing |
| `ConfigPlugin.ConfiguredIos` | plugin/src/withExpoCalling.ts:103-122 | a missing `ios` section is created with no bundle id and a missing `infoPlist` empty; the bundle id is kept; the plist gains exactly the camera, microphone and group keys, set by `Fallback` and `GroupIdentifier` against its old values, and every other key is kept |
| `ConfigPlugin.InfoPlistConfig.ApplyInfoPlist` | plugin/src/withExpoCalling.ts:92-125 | sets the usage strings of `modResults`; creates `ios` and `infoPlist` empty when missing; sets both usage strings and the group there |
| `ConfigPlugin.UsageDescriptionsIdempotent` | plugin/src/withExpoCalling.ts:92-101 | applying the usage-string step to its own output changes nothing |
| `ConfigPlugin.ConfiguredIosIdempotent` | plugin/src/withExpoCalling.ts:103-122 | applying the `ios` section step again with the same options changes nothing |

## Left out

- Webex engine internals: building the engine, `TokenAuthenticator`, `initialize`, `authorizedWith`, `answer`. Their outcomes are parameters. `updatePhoneSettings` and `getMediaOption` are SDK property assignments; each settings update is recorded as one `UpdatePhoneSettings` effect.
- Camera and microphone permission prompts belong to the operating system. The user's two answers are boolean parameters.
- The event transport and host-side subscriptions: sending an event appends it to the `events` log.
- Threading and promise delivery (`DispatchQueue.main.sync`, asynchronous completions). Each command is one atomic step. A completion that never arrives is not modelled.
- Animation parameters (spring damping, duration, easing). Only the positions that the animation blocks assign are modelled.
- Coordinates: Swift's `CGFloat` values are exact reals, so floating-point rounding in the snapping arithmetic is not modelled.
- Layout: the constraint helpers (ios/ExpoWebexCallingView.swift:127-174) and the thumbnail's initial position from constraints. The initial centre is left unconstrained.
- The view's copy of the engine handle (ios/ExpoWebexCallingModule.swift:193): the view's logic never reads it.
- The demo members `hello`, `setValueAsync` and `asyncFunction`, and the `PI` constant. Only `setValueAsync` sends on the `onChange` channel, so the model never emits on it.
- `WebexAuthenticationLoggedInException` is declared but never thrown.
- Logging (`print`, `NSLog`).
- AnswerCall: the `"Unknown error"` fallback for an answer error is not modelled. A non-nil error always has a description, so the model takes that description as the error.
- The membership `state` is the engine's enum, modelled as an opaque string.
- The rejection for a non-token authenticator is reachable only from an engine that `InitWebex` never creates, because it always installs a token authenticator.
- `AppendContents`: `createGeneratedHeaderComment` (a hash) and `removeGeneratedContents` are uninterpreted. So the model states nothing about header text or about how an older block is cut out.
- The plugin framework plumbing: `withInfoPlist`, `withProjectBuildGradle`, `AndroidConfig.Permissions.withPermissions` (the camera and record-audio permissions), `createRunOncePlugin`, and the order in which `withExpoCalling` chains the mods.
- Info.plist values that are not strings: every value is a string here.
- The TypeScript wrappers under `src/` and the example app: they re-export or display values and hold no logic.
