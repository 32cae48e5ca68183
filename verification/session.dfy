/**
 * The bridge module: a small state machine over the login flag and the
 * single active-call slot, driven by three host commands (initialise,
 * authenticate, answer) and by the closures it installs on the engine.
 * Everything it sends to the host is appended to an event log, and the
 * engine, permission and view calls whose order matters (initialising,
 * authorising, requesting access, connecting the view, answering,
 * updating the phone settings) are appended to an effect log; building
 * the engine and installing its closures change the module's state but
 * are not logged.
 * Each command runs as one atomic step and settles its promise once.
 */
module Session {
  import opened Wrappers
  import opened Sdk
  import View

  /** The five event channels the module declares. */
  datatype EventType = OnChange | OnLogin | OnCallIncoming | OnCallParticipantsChange | OnCallStatusChange

  /** Channel names as the host sees them; note the capital O of the status channel. */
  function RawValue(t: EventType): string {
    match t
    case OnChange => "onChange"
    case OnLogin => "onLogin"
    case OnCallIncoming => "onCallIncoming"
    case OnCallParticipantsChange => "onCallParticipantsChange"
    case OnCallStatusChange => "OnCallStatusChange"
  }

  /** The only statuses ever sent on the status channel. */
  datatype CallStatus = Ringing | Connected | Disconnected | ParticipantsChanged | Failed

  function StatusText(s: CallStatus): string {
    match s
    case Ringing => "ringing"
    case Connected => "connected"
    case Disconnected => "disconnected"
    case ParticipantsChanged => "participants-changed"
    case Failed => "failed"
  }

  /** One membership as serialised into the participants event. */
  datatype MembershipEntry = MembershipEntry(displayName: string, personId: string, state: string, isSelf: bool)

  /** An event sent to the host, with its payload. */
  datatype Event =
    | Login(isLoggedIn: bool)
    | CallIncoming(callId: string)
    | StatusChange(status: CallStatus)
    | ParticipantsChange(memberships: seq<MembershipEntry>)
  {
    function Channel(): EventType {
      match this
      case Login(_) => OnLogin
      case CallIncoming(_) => OnCallIncoming
      case StatusChange(_) => OnCallStatusChange
      case ParticipantsChange(_) => OnCallParticipantsChange
    }
  }

  datatype MediaKind = Audio | Video

  /** Calls out of the module, in the order it makes them. */
  datatype Effect =
    | Initialize
    | AuthorizedWith(accessToken: string)
    | RequestAccess(kind: MediaKind)
    | ConnectView
    | Answer(callId: string)
    | UpdatePhoneSettings

  datatype Authenticator = TokenAuthenticator | OtherAuthenticator

  /** The engine handle: its authenticator, and whether the module's
      incoming-call closure is installed on its phone. */
  datatype WebexHandle = WebexHandle(authenticator: Authenticator, incomingListener: bool)

  /** What the engine's authorisation completion reports. */
  datatype AuthResult = AuthSuccess | AuthFailure(description: string)

  /** The exceptions a command's promise can be rejected with. */
  datatype CallingError =
    | AuthenticatorInitialization
    | AuthenticationFailed(description: string)
    | CallAnswerFailed(param: string)
  {
    function Reason(): string {
      match this
      case AuthenticatorInitialization => "Webex authenticator failed to initialized."
      case AuthenticationFailed(d) => "Authentication failed with message: " + d
      case CallAnswerFailed(p) => "Failed to answer call. " + p
    }
  }

  /** How a command's promise settles. */
  datatype Completion = Resolved(value: bool) | Rejected(error: CallingError)

  const ActiveCallNotFound := "Active call not found."
  const AudioPermissionDenied := "Audio permission denied."
  const VideoPermissionDenied := "Video permission denied."

  /** Each event travels on its own channel, the five channel names are
      distinct, and status changes go out on "OnCallStatusChange". */
  lemma EventChannels(b: bool, id: string, s: CallStatus, ms: seq<MembershipEntry>)
    ensures forall t, u :: RawValue(t) == RawValue(u) ==> t == u
    ensures RawValue(Login(b).Channel()) == "onLogin"
    ensures RawValue(CallIncoming(id).Channel()) == "onCallIncoming"
    ensures RawValue(StatusChange(s).Channel()) == "OnCallStatusChange"
    ensures RawValue(ParticipantsChange(ms).Channel()) == "onCallParticipantsChange"
  {
  }

  /** The five status strings are distinct, so the host can tell them apart. */
  lemma StatusTextsDistinct()
    ensures forall s, t :: StatusText(s) == StatusText(t) ==> s == t
    ensures forall s :: StatusText(s) in {"ringing", "connected", "disconnected", "participants-changed", "failed"}
  {
  }

  /** The reasons the host sees for the rejections the module issues: the
      answer failures all share one prefix before their message. */
  lemma RejectionReasons(description: string, message: string)
    ensures AuthenticatorInitialization.Reason() == "Webex authenticator failed to initialized."
    ensures AuthenticationFailed(description).Reason() == "Authentication failed with message: " + description
    ensures CallAnswerFailed(message).Reason() == "Failed to answer call. " + message
  {
  }

  function EntryOf(m: Membership): MembershipEntry
    requires Named(m)
  {
    MembershipEntry(m.displayName.value, m.personId.value, m.state, m.isSelf)
  }

  /** The participants payload for a membership list: one entry per
      membership, in the engine's order. */
  function Entries(ms: seq<Membership>): (es: seq<MembershipEntry>)
    requires AllNamed(ms)
    ensures |es| == |ms|
  {
    if ms == [] then [] else Entries(ms[..|ms| - 1]) + [EntryOf(ms[|ms| - 1])]
  }

  lemma {:induction false} EntriesAt(ms: seq<Membership>, i: int)
    requires AllNamed(ms) && 0 <= i < |ms|
    ensures Entries(ms)[i] == EntryOf(ms[i])
  {
    if i < |ms| - 1 {
      EntriesAt(ms[..|ms| - 1], i);
    }
  }

  /** The loop that serialises a membership list. The force-unwrapped name
      and person id are a precondition. */
  method BuildMemberships(ms: seq<Membership>) returns (entries: seq<MembershipEntry>)
    requires AllNamed(ms)
    ensures entries == Entries(ms)
  {
    entries := [];
    var i := 0;
    while i < |ms|
      invariant 0 <= i <= |ms|
      invariant entries == Entries(ms[..i])
    {
      assert ms[..i + 1][..i] == ms[..i];
      entries := entries + [EntryOf(ms[i])];
      i := i + 1;
    }
    assert ms[..i] == ms;
  }

  class CallingModule {
    var webex: Option<WebexHandle>
    var isLoggedIn: bool
    var activeCall: Call?
    var callingViewRef: View.CallingView?
    var events: seq<Event>
    var effects: seq<Effect>

    /** There is no login and no call before the engine exists, and the
        call in the slot always carries the module's callbacks. */
    ghost predicate Valid()
      reads this, activeCall
    {
      (webex.None? ==> !isLoggedIn && activeCall == null) &&
      (activeCall != null ==> activeCall.callbacksArmed)
    }

    /** The call whose render views the view's connect step sets, if any. */
    function ViewCall(): set<Call>
      reads this, callingViewRef
    {
      if callingViewRef != null && callingViewRef.activeCall != null then {callingViewRef.activeCall} else {}
    }

    constructor ()
      ensures Valid()
      ensures webex == None && !isLoggedIn && activeCall == null && callingViewRef == null
      ensures events == [] && effects == []
    {
      webex := None;
      isLoggedIn := false;
      activeCall := null;
      callingViewRef := null;
      events := [];
      effects := [];
    }

    /** Sends the current login flag on the login channel. */
    method SendIsLoggedInEvent()
      modifies this`events
      ensures events == old(events) + [Login(isLoggedIn)]
    {
      events := events + [Login(isLoggedIn)];
    }

    method SendCallStatusChange(status: CallStatus)
      modifies this`events
      ensures events == old(events) + [StatusChange(status)]
    {
      events := events + [StatusChange(status)];
    }

    /** Installs the incoming-call closure on the engine's phone; installing
        it again replaces it with an identical one. */
    method SetIncomingCallListener()
      requires webex.Some?
      modifies this`webex
      ensures webex == Some(old(webex).value.(incomingListener := true))
    {
      webex := Some(webex.value.(incomingListener := true));
    }

    /** Sends the active call's whole membership list (never a diff); with
        no active call nothing is sent. */
    method EmitCallMembership()
      requires activeCall != null ==> AllNamed(activeCall.memberships)
      modifies this`events
      ensures activeCall == null ==> events == old(events)
      ensures activeCall != null ==> events == old(events) + [ParticipantsChange(Entries(activeCall.memberships))]
    {
      if activeCall == null {
        return;
      }
      var memberships := BuildMemberships(activeCall.memberships);
      events := events + [ParticipantsChange(memberships)];
    }

    /** Installs the per-call closures on the call now in the slot; they are
        the `OnRinging` ... `OnFailed` methods below. */
    method EmitCallEvents()
      modifies activeCall
      ensures activeCall != null ==> activeCall.callbacksArmed
      ensures activeCall != null ==> activeCall.memberships == old(activeCall.memberships)
      ensures activeCall != null ==> activeCall.videoRenderViews == old(activeCall.videoRenderViews)
    {
      if activeCall == null {
        return;
      }
      activeCall.callbacksArmed := true;
    }

    /** `initWebex`: clears the login flag and the call slot, builds a fresh
        engine with a token authenticator, and settles with the login state
        the engine reports; only a logged-in engine gets the login event and
        the incoming-call listener. */
    method InitWebex(engineLoggedIn: bool) returns (p: Completion)
      requires Valid()
      modifies this
      ensures Valid()
      ensures webex == Some(WebexHandle(TokenAuthenticator, engineLoggedIn))
      ensures isLoggedIn == engineLoggedIn && activeCall == null
      ensures events == old(events) + (if engineLoggedIn then [Login(true)] else [])
      ensures effects == old(effects) + [Initialize]
      ensures callingViewRef == old(callingViewRef)
      ensures p == Resolved(engineLoggedIn)
    {
      isLoggedIn := false;
      activeCall := null;
      webex := Some(WebexHandle(TokenAuthenticator, false));
      effects := effects + [Initialize];
      isLoggedIn := engineLoggedIn;
      if isLoggedIn {
        SendIsLoggedInEvent();
        SetIncomingCallListener();
      }
      p := Resolved(isLoggedIn);
    }

    /** `authenticate`. Logged in: re-announce, re-arm, succeed, and leave the
        engine alone. Authenticator not token-based: reject and change
        nothing. Otherwise hand the token to the engine; `result` is what
        its completion reports. An engine that was never initialised makes
        the source crash, hence the precondition. */
    method Authenticate(accessToken: string, result: AuthResult) returns (p: Completion)
      requires Valid()
      requires webex.Some?
      modifies this
      ensures Valid()
      ensures activeCall == old(activeCall) && callingViewRef == old(callingViewRef)
      ensures old(isLoggedIn) ==>
        isLoggedIn && p == Resolved(true) && webex.Some? && webex.value.incomingListener &&
        events == old(events) + [Login(true)] && effects == old(effects)
      ensures !old(isLoggedIn) && old(webex).value.authenticator != TokenAuthenticator ==>
        !isLoggedIn && p == Rejected(AuthenticatorInitialization) &&
        events == old(events) && effects == old(effects) && webex == old(webex)
      ensures !old(isLoggedIn) && old(webex).value.authenticator == TokenAuthenticator ==>
        effects == old(effects) + [AuthorizedWith(accessToken)] &&
        isLoggedIn == result.AuthSuccess? &&
        events == old(events) + [Login(result.AuthSuccess?)] &&
        (result.AuthSuccess? ==> p == Resolved(true) && webex.Some? && webex.value.incomingListener) &&
        (result.AuthFailure? ==> p == Rejected(AuthenticationFailed(result.description)) && webex == old(webex))
      ensures webex.Some? && webex.value.authenticator == old(webex).value.authenticator
    {
      if isLoggedIn {
        SendIsLoggedInEvent();
        SetIncomingCallListener();
        p := Resolved(true);
        return;
      }
      if webex.value.authenticator != TokenAuthenticator {
        p := Rejected(AuthenticatorInitialization);
        return;
      }
      effects := effects + [AuthorizedWith(accessToken)];
      if result == AuthSuccess {
        isLoggedIn := true;
        SendIsLoggedInEvent();
        SetIncomingCallListener();
        p := Resolved(true);
      } else {
        isLoggedIn := false;
        SendIsLoggedInEvent();
        p := Rejected(AuthenticationFailed(result.description));
      }
    }

    /** `answerCall`. `audioGranted` and `videoGranted` are the user's answers
        to the two permission prompts, asked in that order; `answerError` is
        the engine's answer error. The view's connect step is fatal when the
        view has no call snapshot, hence the precondition on that path. */
    method AnswerCall(audioGranted: bool, videoGranted: bool, answerError: Option<string>) returns (p: Completion)
      requires Valid()
      requires activeCall != null && audioGranted && videoGranted && callingViewRef != null ==>
        callingViewRef.activeCall != null
      modifies this, activeCall, callingViewRef, ViewCall()
      ensures Valid()
      ensures activeCall == old(activeCall) && isLoggedIn == old(isLoggedIn)
      ensures webex == old(webex) && callingViewRef == old(callingViewRef) && events == old(events)
      ensures old(activeCall) == null ==>
        p == Rejected(CallAnswerFailed(ActiveCallNotFound)) && effects == old(effects)
      ensures old(activeCall) != null && !audioGranted ==>
        p == Rejected(CallAnswerFailed(AudioPermissionDenied)) &&
        effects == old(effects) + [RequestAccess(Audio)]
      ensures old(activeCall) != null && audioGranted && !videoGranted ==>
        p == Rejected(CallAnswerFailed(VideoPermissionDenied)) &&
        effects == old(effects) + [RequestAccess(Audio), RequestAccess(Video)]
      ensures old(activeCall) != null && audioGranted && videoGranted ==>
        effects == old(effects) + [RequestAccess(Audio), RequestAccess(Video)]
          + (if old(callingViewRef) != null then [ConnectView] else [])
          + [Answer(old(activeCall).callId)]
          + (if answerError.None? then [UpdatePhoneSettings] else []) &&
        (answerError.None? ==> p == Resolved(true)) &&
        (answerError.Some? ==> p == Rejected(CallAnswerFailed(answerError.value)))
      ensures old(activeCall) != null && audioGranted && videoGranted && old(callingViewRef) != null ==>
        callingViewRef.labelText == "active call" && callingViewRef.selfAlpha == 1.0 &&
        callingViewRef.activeCall != null && callingViewRef.activeCall.videoRenderViews == callingViewRef
      ensures p.Resolved? <==> old(activeCall) != null && audioGranted && videoGranted && answerError.None?
      ensures !(old(activeCall) != null && audioGranted && videoGranted) ==>
        (unchanged(old(ViewCall())) && (callingViewRef != null ==> unchanged(callingViewRef)) &&
         (activeCall != null ==> unchanged(activeCall)))
      ensures activeCall != null ==> activeCall.memberships == old(activeCall.memberships)
      ensures callingViewRef != null ==>
        (callingViewRef.activeCall == old(callingViewRef.activeCall) &&
         callingViewRef.selfCenter == old(callingViewRef.selfCenter) &&
         callingViewRef.name == old(callingViewRef.name))
      ensures forall c :: c in old(ViewCall()) ==>
        c.memberships == old(c.memberships) && c.callbacksArmed == old(c.callbacksArmed)
      ensures activeCall != null && activeCall !in old(ViewCall()) ==>
        activeCall.videoRenderViews == old(activeCall.videoRenderViews)
    {
      if activeCall == null {
        p := Rejected(CallAnswerFailed(ActiveCallNotFound));
        return;
      }
      var call := activeCall;
      effects := effects + [RequestAccess(Audio)];
      if !audioGranted {
        p := Rejected(CallAnswerFailed(AudioPermissionDenied));
        return;
      }
      effects := effects + [RequestAccess(Video)];
      if !videoGranted {
        p := Rejected(CallAnswerFailed(VideoPermissionDenied));
        return;
      }
      if callingViewRef != null {
        effects := effects + [ConnectView];
        callingViewRef.ConnectToCall();
      }
      effects := effects + [Answer(call.callId)];
      if answerError == None {
        effects := effects + [UpdatePhoneSettings];
        EmitCallEvents();
        p := Resolved(true);
      } else {
        p := Rejected(CallAnswerFailed(answerError.value));
      }
    }

    /** The view factory: a new view whose call snapshot is the call in the
        slot now; the module keeps it as its view. */
    method CreateView() returns (v: View.CallingView)
      modifies this`callingViewRef
      ensures fresh(v) && callingViewRef == v
      ensures v.activeCall == activeCall && v.labelText == "No video"
      ensures v.name == None && v.selfAlpha == 1.0 && v.thumb == View.ThumbSize
    {
      v := new View.CallingView(activeCall);
      callingViewRef := v;
    }

    /** The incoming-call closure, when installed: the new call takes the
        slot even if it holds another call, its membership list is sent,
        its callbacks are installed, and its id is announced last. */
    method OnIncoming(call: Call)
      requires Valid()
      requires webex.Some? && webex.value.incomingListener ==> AllNamed(call.memberships)
      modifies this, call
      ensures Valid()
      ensures isLoggedIn == old(isLoggedIn) && webex == old(webex)
      ensures callingViewRef == old(callingViewRef) && effects == old(effects)
      ensures call.memberships == old(call.memberships)
      ensures call.videoRenderViews == old(call.videoRenderViews)
      ensures old(webex).Some? && old(webex).value.incomingListener ==>
        activeCall == call && call.callbacksArmed &&
        events == old(events) + [ParticipantsChange(Entries(call.memberships)), CallIncoming(call.callId)]
      ensures !(old(webex).Some? && old(webex).value.incomingListener) ==>
        activeCall == old(activeCall) && events == old(events) && call.callbacksArmed == old(call.callbacksArmed)
    {
      if !(webex.Some? && webex.value.incomingListener) {
        return;
      }
      activeCall := call;
      EmitCallMembership();
      EmitCallEvents();
      events := events + [CallIncoming(call.callId)];
    }

    /** The ringing closure of `call`: status only. */
    method OnRinging(call: Call)
      requires Valid()
      modifies this`events
      ensures Valid()
      ensures events == old(events) + (if call.callbacksArmed then [StatusChange(Ringing)] else [])
    {
      if call.callbacksArmed {
        SendCallStatusChange(Ringing);
      }
    }

    /** The connected closure of `call`: status, then the view's connect step. */
    method OnConnected(call: Call)
      requires Valid()
      requires call.callbacksArmed && callingViewRef != null ==> callingViewRef.activeCall != null
      modifies this`events, this`effects, callingViewRef, ViewCall()
      ensures Valid()
      ensures !call.callbacksArmed ==> events == old(events) && effects == old(effects)
      ensures call.callbacksArmed ==>
        events == old(events) + [StatusChange(Connected)] &&
        effects == old(effects) + (if callingViewRef != null then [ConnectView] else [])
      ensures call.callbacksArmed && callingViewRef != null ==>
        callingViewRef.labelText == "active call" && callingViewRef.selfAlpha == 1.0 &&
        callingViewRef.activeCall != null && callingViewRef.activeCall.videoRenderViews == callingViewRef
      ensures !call.callbacksArmed ==>
        (unchanged(old(ViewCall())) && (callingViewRef != null ==> unchanged(callingViewRef)))
      ensures activeCall != null ==> activeCall.memberships == old(activeCall.memberships)
      ensures callingViewRef != null ==>
        (callingViewRef.activeCall == old(callingViewRef.activeCall) &&
         callingViewRef.selfCenter == old(callingViewRef.selfCenter) &&
         callingViewRef.name == old(callingViewRef.name))
      ensures forall c :: c in old(ViewCall()) ==>
        c.memberships == old(c.memberships) && c.callbacksArmed == old(c.callbacksArmed)
    {
      if call.callbacksArmed {
        SendCallStatusChange(Connected);
        if callingViewRef != null {
          effects := effects + [ConnectView];
          callingViewRef.ConnectToCall();
        }
      }
    }

    /** The disconnected closure of `call`: status, then the shared slot is
        emptied, whichever call it holds by now. */
    method OnDisconnected(call: Call)
      requires Valid()
      modifies this`events, this`activeCall
      ensures Valid()
      ensures call.callbacksArmed ==> events == old(events) + [StatusChange(Disconnected)] && activeCall == null
      ensures !call.callbacksArmed ==> events == old(events) && activeCall == old(activeCall)
    {
      if call.callbacksArmed {
        SendCallStatusChange(Disconnected);
        activeCall := null;
      }
    }

    /** The failed closure of `call`: like disconnection, with status failed. */
    method OnFailed(call: Call)
      requires Valid()
      modifies this`events, this`activeCall
      ensures Valid()
      ensures call.callbacksArmed ==> events == old(events) + [StatusChange(Failed)] && activeCall == null
      ensures !call.callbacksArmed ==> events == old(events) && activeCall == old(activeCall)
    {
      if call.callbacksArmed {
        SendCallStatusChange(Failed);
        activeCall := null;
      }
    }

    /** The membership-changed closure of `call`: status, then the membership
        list of the call in the slot (which need not be `call`). */
    method OnCallMembershipChanged(call: Call)
      requires Valid()
      requires call.callbacksArmed && activeCall != null ==> AllNamed(activeCall.memberships)
      modifies this`events
      ensures Valid()
      ensures !call.callbacksArmed ==> events == old(events)
      ensures call.callbacksArmed ==>
        events == old(events) + [StatusChange(ParticipantsChanged)]
          + (if activeCall != null then [ParticipantsChange(Entries(activeCall.memberships))] else [])
    {
      if call.callbacksArmed {
        SendCallStatusChange(ParticipantsChanged);
        EmitCallMembership();
      }
    }
  }

  /** Two calls arrive one after the other while logged in: the second takes
      the slot from the first, and the first one's late disconnection then
      empties the slot although it holds the second call. */
  method OverwrittenCallScenario() returns (secondTookSlot: bool, slotEmptied: bool, log: seq<Event>)
    ensures secondTookSlot && slotEmptied
    ensures log == [Login(true),
                    ParticipantsChange([]), CallIncoming("first"),
                    ParticipantsChange([]), CallIncoming("second"),
                    StatusChange(Disconnected)]
  {
    var m := new CallingModule();
    var _ := m.InitWebex(true);
    var first := new Call("first", []);
    var second := new Call("second", []);
    m.OnIncoming(first);
    m.OnIncoming(second);
    secondTookSlot := m.activeCall == second;
    m.OnDisconnected(first);
    slotEmptied := m.activeCall == null;
    log := m.events;
  }

  /** Authenticating while logged in never reaches the engine again: the
      second attempt resolves true although its engine result would fail. */
  method ReauthenticateScenario(token: string) returns (first: Completion, second: Completion, calls: seq<Effect>)
    ensures first == Resolved(true) && second == Resolved(true)
    ensures calls == [Initialize, AuthorizedWith(token)]
  {
    var m := new CallingModule();
    var _ := m.InitWebex(false);
    first := m.Authenticate(token, AuthSuccess);
    second := m.Authenticate(token, AuthFailure("unauthorized"));
    calls := m.effects;
  }

  /** The engine replaces a call's membership list with an empty one: the
      membership-changed callback sends the status and then an empty list,
      not the two members sent when the call arrived. */
  method MembershipReplaceScenario() returns (log: seq<Event>)
    ensures log == [Login(true),
                    ParticipantsChange([MembershipEntry("Ann", "p1", "joined", true),
                                        MembershipEntry("Bo", "p2", "notified", false)]),
                    CallIncoming("c"),
                    StatusChange(ParticipantsChanged),
                    ParticipantsChange([])]
  {
    var m := new CallingModule();
    var _ := m.InitWebex(true);
    var ms := [Membership(Some("Ann"), Some("p1"), "joined", true),
               Membership(Some("Bo"), Some("p2"), "notified", false)];
    var call := new Call("c", ms);
    EntriesAt(ms, 0);
    EntriesAt(ms, 1);
    assert Entries(ms) == [MembershipEntry("Ann", "p1", "joined", true), MembershipEntry("Bo", "p2", "notified", false)];
    m.OnIncoming(call);
    call.ReplaceMemberships([]);
    m.OnCallMembershipChanged(call);
    log := m.events;
  }
}
