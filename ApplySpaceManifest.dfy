/**
 * `Actor.ApplySpaceManifest`: announce that the manifest is being applied, send
 * it to the space through `SetSpaceManifest`, report how that went, and close
 * the event stream. The worker runs to completion here: the stream is the
 * sequence of events it sent, and whether it is closed.
 */
module ApplySpaceManifest {
  import opened Wrappers
  import opened Errors
  import opened ManifestModel
  import opened PushPlan

  /** The `Event` tags this step uses; `NoEvent` is the empty tag of an error event. */
  datatype Event = NoEvent | ApplyManifest | ApplyManifestComplete

  datatype PushEvent = PushEvent(plan: PushPlan, err: Option<Error>, event: Event, warnings: seq<string>)

  /** `&PushEvent{Event: ApplyManifest}`. */
  const ApplyManifestStarted: PushEvent := PushEvent(ZeroPlan, None, ApplyManifest, [])

  datatype SetSpaceManifestCall = SetSpaceManifestCall(spaceGUID: string, rawManifest: Bytes, noRoute: bool)

  /** The remote side of `SetSpaceManifest`: it answers each call, and the calls are recorded. */
  class SpaceManifestClient {
    var calls: seq<SetSpaceManifestCall>
    const respond: SetSpaceManifestCall -> (seq<string>, Option<Error>)

    constructor(respond: SetSpaceManifestCall -> (seq<string>, Option<Error>))
      ensures calls == [] && this.respond == respond
    {
      calls := [];
      this.respond := respond;
    }

    method SetSpaceManifest(spaceGUID: string, rawManifest: Bytes, noRoute: bool)
      returns (warnings: seq<string>, err: Option<Error>)
      modifies this
      ensures calls == old(calls) + [SetSpaceManifestCall(spaceGUID, rawManifest, noRoute)]
      ensures (warnings, err) == respond(SetSpaceManifestCall(spaceGUID, rawManifest, noRoute))
    {
      calls := calls + [SetSpaceManifestCall(spaceGUID, rawManifest, noRoute)];
      var answer := respond(SetSpaceManifestCall(spaceGUID, rawManifest, noRoute));
      warnings, err := answer.0, answer.1;
    }
  }

  /** The push event channel: what was sent on it, in order, and whether it was closed. */
  class PushEventStream {
    var events: seq<PushEvent>
    var closed: bool

    constructor()
      ensures events == [] && !closed
    {
      events := [];
      closed := false;
    }

    method Send(e: PushEvent)
      requires !closed
      modifies this
      ensures events == old(events) + [e] && !closed
    {
      events := events + [e];
    }

    method Close()
      requires !closed
      modifies this
      ensures closed && events == old(events)
    {
      closed := true;
    }
  }

  /**
   * The events of one apply: the start announcement, then one event carrying
   * the plan and the call's warnings, tagged complete on success and carrying
   * the error otherwise.
   */
  function ApplyManifestEvents(plan: PushPlan, warnings: seq<string>, err: Option<Error>): (r: seq<PushEvent>)
    ensures |r| == 2 && r[0] == ApplyManifestStarted
    ensures r[1].plan == plan && r[1].warnings == warnings && r[1].err == err
    ensures r[1].event == ApplyManifestComplete <==> err.None?
    ensures err.Some? ==> r[1].event == NoEvent
  {
    if err.Some? then [ApplyManifestStarted, PushEvent(plan, err, NoEvent, warnings)]
    else [ApplyManifestStarted, PushEvent(plan, None, ApplyManifestComplete, warnings)]
  }

  /** The events lose nothing of the call's answer: different answers give different events. */
  lemma EventsDetermineAnswer(plan: PushPlan, w1: seq<string>, e1: Option<Error>, w2: seq<string>, e2: Option<Error>)
    requires ApplyManifestEvents(plan, w1, e1) == ApplyManifestEvents(plan, w2, e2)
    ensures w1 == w2 && e1 == e2
  {
    assert ApplyManifestEvents(plan, w1, e1)[1] == ApplyManifestEvents(plan, w2, e2)[1];
  }

  /**
   * `ApplySpaceManifest`: only the first plan is consulted; `SetSpaceManifest`
   * is called once, with its space, the raw manifest as given and its no-route
   * flag; the stream holds the two events of that answer and is closed.
   */
  method ApplySpaceManifest(client: SpaceManifestClient, pushPlans: seq<PushPlan>, rawManifest: Bytes)
    returns (pushEventStream: PushEventStream)
    requires |pushPlans| >= 1
    modifies client
    ensures fresh(pushEventStream) && pushEventStream.closed
    ensures var call := SetSpaceManifestCall(pushPlans[0].spaceGUID, rawManifest, pushPlans[0].noRouteFlag);
            client.calls == old(client.calls) + [call]
            && pushEventStream.events
               == ApplyManifestEvents(pushPlans[0], client.respond(call).0, client.respond(call).1)
  {
    pushEventStream := new PushEventStream();
    pushEventStream.Send(ApplyManifestStarted);
    var warnings, err := client.SetSpaceManifest(pushPlans[0].spaceGUID, rawManifest, pushPlans[0].noRouteFlag);
    var successEvent := ApplyManifestComplete;
    if err.Some? {
      pushEventStream.Send(PushEvent(pushPlans[0], err, NoEvent, warnings));
      pushEventStream.Close();
      return;
    }
    pushEventStream.Send(PushEvent(pushPlans[0], None, successEvent, warnings));
    pushEventStream.Close();
  }
}
