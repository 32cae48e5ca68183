/**
 * The objects of the calling engine that the bridge holds and mutates.
 * The engine itself is not modelled: what it reports arrives as method
 * parameters, and what the bridge installs on its objects is recorded in
 * the fields below.
 */
module Sdk {
  import opened Wrappers

  /** One participant of a call, as the engine reports it.
      Name and person id are optional on the engine's side. */
  datatype Membership = Membership(
    displayName: Option<string>,
    personId: Option<string>,
    state: string,
    isSelf: bool)

  /** A membership whose name and person id are both present. */
  predicate Named(m: Membership) {
    m.displayName.Some? && m.personId.Some?
  }

  predicate AllNamed(ms: seq<Membership>) {
    forall i :: 0 <= i < |ms| ==> Named(ms[i])
  }

  /** An engine call object. `callbacksArmed` records that the bridge has
      installed its ringing/connected/disconnected/membership/failed closures
      on this object; `videoRenderViews` is the view whose local and remote
      surfaces were last attached to it (null when none). */
  class Call {
    const callId: string
    var memberships: seq<Membership>
    var callbacksArmed: bool
    var videoRenderViews: object?

    /** A call as the engine hands it to the incoming-call listener. */
    constructor (id: string, ms: seq<Membership>)
      ensures callId == id && memberships == ms
      ensures !callbacksArmed && videoRenderViews == null
    {
      callId := id;
      memberships := ms;
      callbacksArmed := false;
      videoRenderViews := null;
    }

    /** The engine replaces the membership list wholesale before it raises
        a membership-changed callback. */
    method ReplaceMemberships(ms: seq<Membership>)
      modifies this`memberships
      ensures memberships == ms
    {
      memberships := ms;
    }
  }
}
