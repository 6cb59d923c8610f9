/**
 * The session controller of the test runner (detox/src/client/Client.js).
 *
 * The web socket, its timers and the promises awaiting replies are made
 * explicit: the socket is an open flag plus an in-flight table of requests
 * keyed by message id; each readiness barrier (`_whenAppIsConnected`,
 * `_whenAppIsReady`) is a resolved flag with a generation counter that grows
 * whenever the barrier is replaced by a fresh, unresolved one; a timer is a
 * handle that is either absent, scheduled, or elapsed (JavaScript keeps the
 * handle of a timer that already fired until someone clears it); a reply from
 * the app is a parameter of the method that receives it.
 */
module SessionClient {
  import opened Common

  /** The protocol's actions, with the parameters the client gives them. */
  datatype Action =
    | Login(sessionId: string)
    | Invoke(invocation: string)
    | Cleanup(stopRunner: bool)
    | Ready
    | CurrentStatus
    | ReloadReactNative
    | SetSyncSettings(settings: string)
    | WaitForBackground
    | WaitForActive
    | CaptureViewHierarchy(viewHierarchyURL: string)
    | Shake
    | SetOrientation(orientation: string)
    | SetInstrumentsRecordingState(recording: Option<string>)
    | DeliverPayload(payload: string)

  /** A request as the socket keeps it while its reply is awaited. */
  datatype Message = Message(messageId: nat, action: Action)

  /** A handled response; `appConnected` is what Login's reply reports. */
  datatype Payload = Payload(appConnected: bool, body: string)

  /** What the app eventually answers to one request. */
  datatype Answer =
    | Replied(payload: Payload)
    | ServerErrorReply(error: string)  // a response of type 'serverError'
    | Failed(error: string)            // the socket or the action's own handler threw

  /** An answer, or none yet: the request stays in flight. */
  datatype Reply = Answered(answer: Answer) | NoReply

  datatype ClientError =
    | AppCrashed(errorDetails: string)  // 'The app has crashed, see the details below:'
    | AppDisconnected                   // 'The app has unexpectedly disconnected from Detox server.'
    | ServerError(error: string)
    | ActionFailed(error: string)
    | SocketOpenFailed

  /** The state of the promise `sendAction` returns. */
  datatype Outcome = Done(payload: Payload) | Threw(error: ClientError) | Pending(messageId: nat)

  /** The state of the promise of a compound operation (connect, cleanup, ...). */
  datatype Completion = Completed | Raised(error: ClientError) | Awaiting

  datatype TimerHandle = NoTimer | Scheduled | Elapsed

  datatype LogEntry =
    | AppUnreachable                                              // error APP_UNREACHABLE
    | PendingRequests(messages: seq<Message>, testName: Option<string>)  // warn PENDING_REQUESTS
    | AppStatus(status: Payload)                                  // info APP_STATUS
    | AppNonresponsive(threadDump: string)                        // warn APP_NONRESPONSIVE
    | TerminateAppRequested
    | TerminateAppFailed(error: string)                           // error ERROR
    | UnhandledServerError(serverError: Option<string>)              // error ERROR

  /** `_inferSendOptions`: Login and CurrentStatus are never monitored. */
  predicate IsMonitored(action: Action) {
    !action.CurrentStatus? && !action.Login?
  }

  /** `_doSendAction`: a 'serverError' response and a failed handler both throw. */
  function Settle(answer: Answer): Outcome {
    match answer
    case Replied(p) => Done(p)
    case ServerErrorReply(e) => Threw(ServerError(e))
    case Failed(e) => Threw(ActionFailed(e))
  }

  /** The handle `_scheduleSlowInvocationQuery` leaves behind. */
  function ProbeHandle(timeout: int, isCleaningUp: bool): TimerHandle {
    if timeout > 0 && !isCleaningUp then Scheduled else NoTimer
  }

  /** The reply is a successful response. */
  predicate Succeeded(reply: Reply) {
    reply.Answered? && reply.answer.Replied?
  }

  /** The promise of a compound operation after its one request: pending while the request is in flight. */
  function CompletionOf(reply: Reply): (c: Completion)
    ensures c == Awaiting <==> reply.NoReply?
    ensures c == Completed <==> Succeeded(reply)
    ensures c.Raised? ==> reply.Answered? && Settle(reply.answer) == Threw(c.error)
  {
    match reply
    case NoReply => Awaiting
    case Answered(a) => if a.Replied? then Completed else Raised(Settle(a).error)
  }

  /** The in-flight table after a request: it holds the request until its reply comes. */
  function AfterSend(inFlight: map<nat, Message>, id: nat, action: Action, reply: Reply): map<nat, Message> {
    if reply.NoReply? then inFlight[id := Message(id, action)] else inFlight
  }

  /** The probe handle after a monitored request: armed while the request is in flight, cleared once it settles. */
  function SettledProbe(timeout: int, isCleaningUp: bool, reply: Reply): TimerHandle {
    if reply.NoReply? then ProbeHandle(timeout, isCleaningUp) else NoTimer
  }

  /**
   * The requests `dumpPendingRequests` lists: the in-flight messages with an
   * id below `upto`, in ascending id order, leaving out status queries.
   */
  function PendingListing(inFlight: map<nat, Message>, upto: nat): seq<Message> {
    if upto == 0 then []
    else
      var id := upto - 1;
      PendingListing(inFlight, id)
        + (if id in inFlight && !inFlight[id].action.CurrentStatus? then [inFlight[id]] else [])
  }

  /** A message is listed exactly when it is in flight and is not a status query. */
  lemma {:induction false} PendingListingContents(inFlight: map<nat, Message>, upto: nat, m: Message)
    requires forall id :: id in inFlight ==> inFlight[id].messageId == id
    ensures m in PendingListing(inFlight, upto)
        <==> (m.messageId < upto && m.messageId in inFlight && inFlight[m.messageId] == m
              && !m.action.CurrentStatus?)
  {
    if upto > 0 {
      PendingListingContents(inFlight, upto - 1, m);
    }
  }

  /** The listing is ordered by message id, so each request appears once. */
  lemma {:induction false} PendingListingOrdered(inFlight: map<nat, Message>, upto: nat)
    requires forall id :: id in inFlight ==> inFlight[id].messageId == id
    ensures forall i, j :: 0 <= i < j < |PendingListing(inFlight, upto)| ==>
      PendingListing(inFlight, upto)[i].messageId < PendingListing(inFlight, upto)[j].messageId
    ensures forall i :: 0 <= i < |PendingListing(inFlight, upto)| ==>
      PendingListing(inFlight, upto)[i].messageId < upto
  {
    if upto > 0 {
      PendingListingOrdered(inFlight, upto - 1);
    }
  }

  /** The listing is empty exactly when every in-flight request is a status query. */
  lemma PendingListingEmpty(inFlight: map<nat, Message>, upto: nat)
    requires forall id :: id in inFlight ==> inFlight[id].messageId == id && id < upto
    ensures PendingListing(inFlight, upto) == []
        <==> forall id :: id in inFlight ==> inFlight[id].action.CurrentStatus?
  {
    var l := PendingListing(inFlight, upto);
    if l != [] {
      PendingListingContents(inFlight, upto, l[0]);
    } else {
      forall id | id in inFlight ensures inFlight[id].action.CurrentStatus? {
        PendingListingContents(inFlight, upto, inFlight[id]);
      }
    }
  }

  /** Some awaited request is an Invoke. */
  predicate InvokeInFlight(inFlight: map<nat, Message>) {
    exists id :: id in inFlight && inFlight[id].action.Invoke?
  }

  /**
   * Message ids are handed out in order and never reused; the in-flight
   * table holds sent messages under their own ids; the status queries the
   * slow-invocation probe awaits are in flight.
   */
  ghost predicate RequestsConsistent(sent: seq<Message>, inFlight: map<nat, Message>, statusQueries: set<nat>) {
    && (forall i :: 0 <= i < |sent| ==> sent[i].messageId == i)
    && (forall id :: id in inFlight ==> id < |sent| && inFlight[id] == sent[id])
    && statusQueries <= inFlight.Keys
    && (forall id :: id in statusQueries ==> inFlight[id].action.CurrentStatus?)
  }

  /** A suspended `waitUntilReady` awaits a barrier generation that exists. */
  ghost predicate WaitersConsistent(waiters: multiset<nat>, generation: nat, isWaitingForAppConnect: bool) {
    && (forall g :: g in waiters ==> g <= generation)
    && (isWaitingForAppConnect ==> |waiters| > 0)
  }

  class Client {
    const sessionId: string
    const slowInvocationTimeout: int  // debugSynchronization

    var socketOpen: bool
    /** `_whenAppIsConnected`: resolved or not, and which replacement it is. */
    var connected: bool
    var connectedGeneration: nat
    /** `_whenAppIsReady`. */
    var ready: bool
    var readyGeneration: nat
    var pendingAppCrash: Option<string>
    var successfulTestRun: bool
    var isCleaningUp: bool
    var isWaitingForAppConnect: bool
    /** Barrier generations that suspended `waitUntilReady` calls await. */
    var waiters: multiset<nat>
    /** Every message sent, in order; its index is its id. */
    var sent: seq<Message>
    var inFlight: map<nat, Message>
    /** Ids of the status queries sent by the probe whose reply is awaited. */
    var statusQueries: set<nat>
    var slowInvocationStatusHandle: TimerHandle
    var appTerminationHandle: TimerHandle
    var log: seq<LogEntry>

    ghost predicate Valid()
      reads this
    {
      RequestsConsistent(sent, inFlight, statusQueries)
      && WaitersConsistent(waiters, connectedGeneration, isWaitingForAppConnect)
    }

    /** `isConnected`: the socket is open and the connected barrier is resolved. */
    predicate IsConnected()
      reads this
    {
      socketOpen && connected
    }

    constructor (sessionId: string, debugSynchronization: int)
      ensures Valid()
      ensures this.sessionId == sessionId && slowInvocationTimeout == debugSynchronization
      ensures !socketOpen && !connected && !ready && connectedGeneration == 0 && readyGeneration == 0
      ensures pendingAppCrash == None && successfulTestRun && !isCleaningUp && !isWaitingForAppConnect
      ensures waiters == multiset{} && sent == [] && inFlight == map[] && statusQueries == {}
      ensures slowInvocationStatusHandle == NoTimer && appTerminationHandle == NoTimer && log == []
    {
      this.sessionId := sessionId;
      slowInvocationTimeout := debugSynchronization;
      socketOpen := false;
      connected, connectedGeneration := false, 0;
      ready, readyGeneration := false, 0;
      pendingAppCrash := None;
      successfulTestRun := true;
      isCleaningUp := false;
      isWaitingForAppConnect := false;
      waiters := multiset{};
      sent, inFlight, statusQueries := [], map[], {};
      slowInvocationStatusHandle, appTerminationHandle := NoTimer, NoTimer;
      log := [];
    }

    /** `_scheduleSlowInvocationQuery`: arms the probe unless disabled or cleaning up. */
    method ScheduleSlowInvocationQuery()
      modifies this`slowInvocationStatusHandle
      ensures slowInvocationStatusHandle == ProbeHandle(slowInvocationTimeout, isCleaningUp)
    {
      if slowInvocationTimeout > 0 && !isCleaningUp {
        slowInvocationStatusHandle := Scheduled;
      } else {
        slowInvocationStatusHandle := NoTimer;
      }
    }

    /** `_unscheduleSlowInvocationQuery`: clears whatever handle is set. */
    method UnscheduleSlowInvocationQuery()
      modifies this`slowInvocationStatusHandle
      ensures slowInvocationStatusHandle == NoTimer
    {
      if slowInvocationStatusHandle != NoTimer {
        slowInvocationStatusHandle := NoTimer;
      }
    }

    /** `_unscheduleAppTermination`. */
    method UnscheduleAppTermination()
      modifies this`appTerminationHandle
      ensures appTerminationHandle == NoTimer
    {
      if appTerminationHandle != NoTimer {
        appTerminationHandle := NoTimer;
      }
    }

    /** Replaces both barriers with fresh, unresolved ones. */
    method ResetBarriers()
      requires WaitersConsistent(waiters, connectedGeneration, isWaitingForAppConnect)
      modifies this`connected, this`connectedGeneration, this`ready, this`readyGeneration
      ensures WaitersConsistent(waiters, connectedGeneration, isWaitingForAppConnect)
      ensures !connected && connectedGeneration == old(connectedGeneration) + 1
      ensures !ready && readyGeneration == old(readyGeneration) + 1
    {
      connected, connectedGeneration := false, connectedGeneration + 1;
      ready, readyGeneration := false, readyGeneration + 1;
    }

    /**
     * `sendAction`: the message gets the next id; a monitored action arms the
     * probe before it is sent and clears it once it settles; an action with
     * no reply yet stays in the in-flight table.
     */
    method SendAction(action: Action, reply: Reply) returns (o: Outcome)
      requires Valid()
      modifies this`sent, this`inFlight, this`slowInvocationStatusHandle
      ensures Valid()
      ensures sent == old(sent) + [Message(|old(sent)|, action)]
      ensures reply.Answered? ==> o == Settle(reply.answer) && inFlight == old(inFlight)
      ensures reply.NoReply? ==>
        o == Pending(|old(sent)|) && inFlight == old(inFlight)[|old(sent)| := Message(|old(sent)|, action)]
      ensures slowInvocationStatusHandle ==
        if !IsMonitored(action) then old(slowInvocationStatusHandle)
        else if reply.Answered? then NoTimer
        else ProbeHandle(slowInvocationTimeout, isCleaningUp)
    {
      var msg := Message(|sent|, action);
      if IsMonitored(action) {
        ScheduleSlowInvocationQuery();
      }
      sent := sent + [msg];
      match reply
      case NoReply =>
        inFlight := inFlight[msg.messageId := msg];
        o := Pending(msg.messageId);
      case Answered(a) =>
        o := Settle(a);
        if IsMonitored(action) {
          UnscheduleSlowInvocationQuery();
        }
    }

    /**
     * The tail of the probe's timer callback once its status query settled:
     * a status is logged and re-arms the probe, a failure clears the handle
     * for good.
     */
    method AfterStatusQuery(o: Outcome)
      requires !o.Pending?
      modifies this`log, this`slowInvocationStatusHandle
      ensures o.Done? ==> (log == old(log) + [AppStatus(o.payload)]
        && slowInvocationStatusHandle == ProbeHandle(slowInvocationTimeout, isCleaningUp))
      ensures o.Threw? ==> log == old(log) && slowInvocationStatusHandle == NoTimer
    {
      if o.Done? {
        log := log + [AppStatus(o.payload)];
        ScheduleSlowInvocationQuery();
      } else {
        slowInvocationStatusHandle := NoTimer;
      }
    }

    /** The probe's timer fires: it sends an unmonitored CurrentStatus query. */
    method FireSlowInvocationQuery(reply: Reply)
      requires Valid() && slowInvocationStatusHandle == Scheduled
      modifies this`sent, this`inFlight, this`statusQueries, this`slowInvocationStatusHandle, this`log
      ensures Valid()
      ensures sent == old(sent) + [Message(|old(sent)|, CurrentStatus)]
      ensures reply.NoReply? ==>
        && inFlight == old(inFlight)[|old(sent)| := Message(|old(sent)|, CurrentStatus)]
        && statusQueries == old(statusQueries) + {|old(sent)|}
        && slowInvocationStatusHandle == Elapsed
        && log == old(log)
      ensures reply.Answered? && reply.answer.Replied? ==>
        && inFlight == old(inFlight) && statusQueries == old(statusQueries)
        && slowInvocationStatusHandle == ProbeHandle(slowInvocationTimeout, isCleaningUp)
        && log == old(log) + [AppStatus(reply.answer.payload)]
      ensures reply.Answered? && !reply.answer.Replied? ==>
        && inFlight == old(inFlight) && statusQueries == old(statusQueries)
        && slowInvocationStatusHandle == NoTimer
        && log == old(log)
    {
      slowInvocationStatusHandle := Elapsed;
      var o := SendAction(CurrentStatus, reply);
      if o.Pending? {
        statusQueries := statusQueries + {o.messageId};
      } else {
        AfterStatusQuery(o);
      }
    }

    /**
     * The reply to an in-flight request arrives. Its awaiting caller resumes:
     * a monitored action clears the probe; a failed Invoke marks the run as
     * unsuccessful (`execute`'s catch); a probe's status query re-arms or
     * stops the probe.
     */
    method Respond(id: nat, answer: Answer) returns (o: Outcome)
      requires Valid() && id in inFlight
      modifies this`inFlight, this`statusQueries, this`successfulTestRun,
        this`slowInvocationStatusHandle, this`log
      ensures Valid()
      ensures o == Settle(answer)
      ensures inFlight == old(inFlight) - {id}
      ensures statusQueries == old(statusQueries) - {id}
      ensures successfulTestRun == (old(successfulTestRun) && !(old(inFlight)[id].action.Invoke? && o.Threw?))
      ensures slowInvocationStatusHandle ==
        if id in old(statusQueries) then (if o.Done? then ProbeHandle(slowInvocationTimeout, isCleaningUp) else NoTimer)
        else if IsMonitored(old(inFlight)[id].action) then NoTimer
        else old(slowInvocationStatusHandle)
      ensures log == if id in old(statusQueries) && o.Done? then old(log) + [AppStatus(o.payload)] else old(log)
    {
      var action, wasStatusQuery := Forget(id);
      o := Settle(answer);
      if IsMonitored(action) {
        UnscheduleSlowInvocationQuery();
      }
      if action.Invoke? && o.Threw? {
        successfulTestRun := false;
      }
      if wasStatusQuery {
        AfterStatusQuery(o);
      }
    }

    /** The socket drops a request whose reply arrived from its in-flight table. */
    method Forget(id: nat) returns (action: Action, wasStatusQuery: bool)
      requires Valid() && id in inFlight
      modifies this`inFlight, this`statusQueries
      ensures Valid()
      ensures action == old(inFlight)[id].action && wasStatusQuery == (id in old(statusQueries))
      ensures inFlight == old(inFlight) - {id} && statusQueries == old(statusQueries) - {id}
    {
      action := inFlight[id].action;
      wasStatusQuery := id in statusQueries;
      inFlight := inFlight - {id};
      statusQueries := statusQueries - {id};
    }

    /**
     * `connect`: opens the socket and logs in; the connected barrier is
     * resolved only when the Login reply says the app is connected. With no
     * reply yet the Login stays in flight and `connect` stays pending.
     */
    method Connect(openSucceeds: bool, login: Reply) returns (c: Completion)
      requires Valid()
      modifies this`socketOpen, this`sent, this`inFlight, this`slowInvocationStatusHandle, this`connected
      ensures Valid()
      ensures !openSucceeds ==>
        && c == Raised(SocketOpenFailed) && sent == old(sent) && inFlight == old(inFlight)
        && socketOpen == old(socketOpen) && connected == old(connected)
      ensures openSucceeds ==>
        && socketOpen
        && sent == old(sent) + [Message(|old(sent)|, Login(sessionId))]
        && inFlight == AfterSend(old(inFlight), |old(sent)|, Login(sessionId), login)
        && connected == (old(connected) || (Succeeded(login) && login.answer.payload.appConnected))
        && c == CompletionOf(login)
      ensures slowInvocationStatusHandle == old(slowInvocationStatusHandle)
    {
      if !openSucceeds {
        return Raised(SocketOpenFailed);
      }
      socketOpen := true;
      var o := SendAction(Login(sessionId), login);
      if o.Done? {
        if o.payload.appConnected {
          connected := true;
        }
        c := Completed;
      } else if o.Threw? {
        c := Raised(o.error);
      } else {
        c := Awaiting;
      }
    }

    /**
     * `cleanup`: marks the client as cleaning up and clears the probe; only
     * when connected does it send Cleanup with the run's success flag and,
     * once that succeeds, reset both barriers; the socket is closed once the
     * Cleanup exchange settled, whatever its outcome.
     */
    method Cleanup(reply: Reply) returns (c: Completion)
      requires Valid()
      modifies this`isCleaningUp, this`socketOpen, this`sent, this`inFlight, this`slowInvocationStatusHandle,
        this`connected, this`connectedGeneration, this`ready, this`readyGeneration
      ensures Valid()
      ensures isCleaningUp && slowInvocationStatusHandle == NoTimer
      ensures socketOpen == (c == Awaiting && old(socketOpen))
      ensures old(IsConnected()) ==>
        && sent == old(sent) + [Message(|old(sent)|, Action.Cleanup(old(successfulTestRun)))]
        && inFlight == AfterSend(old(inFlight), |old(sent)|, Action.Cleanup(old(successfulTestRun)), reply)
        && c == CompletionOf(reply)
        && (Succeeded(reply) ==> (!connected && !ready
              && connectedGeneration == old(connectedGeneration) + 1 && readyGeneration == old(readyGeneration) + 1))
        && (!Succeeded(reply) ==> (connected == old(connected) && ready == old(ready)
              && connectedGeneration == old(connectedGeneration) && readyGeneration == old(readyGeneration)))
      ensures !old(IsConnected()) ==> (c == Completed && sent == old(sent) && inFlight == old(inFlight)
        && connected == old(connected) && ready == old(ready)
        && connectedGeneration == old(connectedGeneration) && readyGeneration == old(readyGeneration))
    {
      var wasConnected := IsConnected();
      isCleaningUp := true;
      UnscheduleSlowInvocationQuery();
      c := Completed;
      if wasConnected {
        c := CleanupExchange(reply);
      }
      if c != Awaiting {
        socketOpen := false;
      }
    }

    /** The Cleanup request with the run's success flag; its success replaces both barriers. */
    method CleanupExchange(reply: Reply) returns (c: Completion)
      requires Valid() && isCleaningUp
      modifies this`sent, this`inFlight, this`slowInvocationStatusHandle,
        this`connected, this`connectedGeneration, this`ready, this`readyGeneration
      ensures Valid()
      ensures sent == old(sent) + [Message(|old(sent)|, Action.Cleanup(successfulTestRun))]
      ensures inFlight == AfterSend(old(inFlight), |old(sent)|, Action.Cleanup(successfulTestRun), reply)
      ensures slowInvocationStatusHandle == NoTimer
      ensures c == CompletionOf(reply)
      ensures Succeeded(reply) ==> (!connected && !ready
        && connectedGeneration == old(connectedGeneration) + 1 && readyGeneration == old(readyGeneration) + 1)
      ensures !Succeeded(reply) ==> (connected == old(connected) && ready == old(ready)
        && connectedGeneration == old(connectedGeneration) && readyGeneration == old(readyGeneration))
    {
      var o := SendAction(Action.Cleanup(successfulTestRun), reply);
      if o.Done? {
        ResetBarriers();
        c := Completed;
      } else if o.Threw? {
        c := Raised(o.error);
      } else {
        c := Awaiting;
      }
    }

    /** `execute`: sends an Invoke; a failure marks the run as unsuccessful and is rethrown. */
    method Execute(invocation: string, reply: Reply) returns (o: Outcome)
      requires Valid()
      modifies this`sent, this`inFlight, this`slowInvocationStatusHandle, this`successfulTestRun
      ensures Valid()
      ensures sent == old(sent) + [Message(|old(sent)|, Invoke(invocation))]
      ensures reply.Answered? ==> o == Settle(reply.answer) && inFlight == old(inFlight)
      ensures reply.NoReply? ==> o == Pending(|old(sent)|) && |old(sent)| in inFlight
      ensures successfulTestRun == (old(successfulTestRun) && !o.Threw?)
    {
      o := SendAction(Invoke(invocation), reply);
      if o.Threw? {
        successfulTestRun := false;
      }
    }

    /** The second half of `waitUntilReady`: a Ready probe unless the app already said it is ready. */
    method ReadyStep(reply: Reply) returns (c: Completion)
      requires Valid()
      modifies this`sent, this`inFlight, this`slowInvocationStatusHandle, this`ready
      ensures Valid()
      ensures old(ready) ==> (c == Completed && ready && sent == old(sent) && inFlight == old(inFlight)
        && slowInvocationStatusHandle == old(slowInvocationStatusHandle))
      ensures !old(ready) ==>
        && sent == old(sent) + [Message(|old(sent)|, Ready)]
        && inFlight == AfterSend(old(inFlight), |old(sent)|, Ready, reply)
        && ready == Succeeded(reply)
        && c == CompletionOf(reply)
        && slowInvocationStatusHandle == SettledProbe(slowInvocationTimeout, isCleaningUp, reply)
    {
      c := Completed;
      if !ready {
        var o := SendAction(Ready, reply);
        if o.Done? {
          ready := true;
        } else if o.Threw? {
          c := Raised(o.error);
        } else {
          c := Awaiting;
        }
      }
    }

    /**
     * `waitUntilReady`: when the connected barrier is not resolved the call
     * suspends, with the waiting-for-connect flag set, on the barrier of the
     * current generation; otherwise the flag ends cleared and the Ready step runs.
     */
    method WaitUntilReady(reply: Reply) returns (c: Completion)
      requires Valid()
      modifies this`isWaitingForAppConnect, this`waiters, this`sent, this`inFlight,
        this`slowInvocationStatusHandle, this`ready
      ensures Valid()
      ensures !old(connected) ==> (c == Awaiting && isWaitingForAppConnect
        && waiters == old(waiters) + multiset{old(connectedGeneration)}
        && sent == old(sent) && inFlight == old(inFlight) && ready == old(ready)
        && slowInvocationStatusHandle == old(slowInvocationStatusHandle))
      ensures old(connected) ==> (!isWaitingForAppConnect && waiters == old(waiters)
        && (old(ready) ==> c == Completed && sent == old(sent) && inFlight == old(inFlight))
        && (!old(ready) ==>
              && sent == old(sent) + [Message(|old(sent)|, Ready)]
              && inFlight == AfterSend(old(inFlight), |old(sent)|, Ready, reply)
              && ready == Succeeded(reply)
              && c == CompletionOf(reply)))
    {
      isWaitingForAppConnect := true;
      if !connected {
        waiters := waiters + multiset{connectedGeneration};
        return Awaiting;
      }
      isWaitingForAppConnect := false;
      c := ReadyStep(reply);
    }

    /**
     * A suspended `waitUntilReady` resumes once the barrier generation it
     * awaits is resolved: its finally clears the flag, then the Ready step runs.
     * A waiter of a replaced generation can never resume.
     */
    method ResumeWaitUntilReady(reply: Reply) returns (c: Completion)
      requires Valid() && connected && connectedGeneration in waiters
      modifies this`isWaitingForAppConnect, this`waiters, this`sent, this`inFlight,
        this`slowInvocationStatusHandle, this`ready
      ensures Valid()
      ensures !isWaitingForAppConnect
      ensures waiters == old(waiters) - multiset{old(connectedGeneration)}
      ensures old(ready) ==> c == Completed && sent == old(sent) && inFlight == old(inFlight)
      ensures !old(ready) ==> (ready == Succeeded(reply)
        && sent == old(sent) + [Message(|old(sent)|, Ready)]
        && inFlight == AfterSend(old(inFlight), |old(sent)|, Ready, reply)
        && c == CompletionOf(reply))
    {
      waiters := waiters - multiset{connectedGeneration};
      isWaitingForAppConnect := false;
      c := ReadyStep(reply);
    }

    /** `reloadReactNative`: a fresh ready barrier, resolved once the reload succeeds. */
    method ReloadReactNative(reply: Reply) returns (c: Completion)
      requires Valid()
      modifies this`sent, this`inFlight, this`slowInvocationStatusHandle, this`ready, this`readyGeneration
      ensures Valid()
      ensures sent == old(sent) + [Message(|old(sent)|, Action.ReloadReactNative)]
      ensures inFlight == AfterSend(old(inFlight), |old(sent)|, Action.ReloadReactNative, reply)
      ensures readyGeneration == old(readyGeneration) + 1
      ensures ready == Succeeded(reply)
      ensures c == CompletionOf(reply)
      ensures slowInvocationStatusHandle == SettledProbe(slowInvocationTimeout, isCleaningUp, reply)
    {
      ready, readyGeneration := false, readyGeneration + 1;
      var o := SendAction(Action.ReloadReactNative, reply);
      if o.Done? {
        ready := true;
        c := Completed;
      } else if o.Threw? {
        c := Raised(o.error);
      } else {
        c := Awaiting;
      }
    }

    /**
     * `dumpPendingRequests`: reports an unreachable app while a
     * `waitUntilReady` awaits the connection, then lists the in-flight
     * requests that are not status queries; with none it returns and leaves
     * the table alone, otherwise it warns once and empties the table.
     */
    method DumpPendingRequests(testName: Option<string>) returns (messages: seq<Message>)
      requires Valid()
      modifies this`log, this`inFlight, this`statusQueries
      ensures Valid()
      ensures messages == PendingListing(old(inFlight), |sent|)
      ensures var unreachable := if isWaitingForAppConnect then [AppUnreachable] else [];
        if messages == [] then
          log == old(log) + unreachable && inFlight == old(inFlight) && statusQueries == old(statusQueries)
        else
          log == old(log) + unreachable + [PendingRequests(messages, testName)]
          && inFlight == map[] && statusQueries == {}
    {
      if isWaitingForAppConnect {
        log := log + [AppUnreachable];
      }
      messages := [];
      var id := 0;
      while id < |sent|
        invariant 0 <= id <= |sent|
        invariant messages == PendingListing(inFlight, id)
      {
        if id in inFlight && !inFlight[id].action.CurrentStatus? {
          messages := messages + [inFlight[id]];
        }
        id := id + 1;
      }
      if messages == [] {
        return;
      }
      log := log + [PendingRequests(messages, testName)];
      inFlight := map[];
      statusQueries := {};
    }

    /** `_onAppConnected`. */
    method OnAppConnected()
      modifies this`connected
      ensures connected
    {
      connected := true;
    }

    /** `_onAppReady`. */
    method OnAppReady()
      modifies this`ready
      ensures ready
    {
      ready := true;
    }

    /** `_onAppUnresponsive`: a warning carrying the thread dump. */
    method OnAppUnresponsive(threadDump: string)
      modifies this`log
      ensures log == old(log) + [AppNonresponsive(threadDump)]
    {
      log := log + [AppNonresponsive(threadDump)];
    }

    /** `_onUnhandledServerError`: logged, whether or not the message carries an error. */
    method OnUnhandledServerError(error: Option<string>)
      modifies this`log
      ensures log == old(log) + [UnhandledServerError(error)]
    {
      log := log + [UnhandledServerError(error)];
    }

    /**
     * `_onBeforeAppCrash`: stores the crash with the app's error details,
     * clears the probe, replaces both barriers and arms app termination.
     */
    method OnBeforeAppCrash(errorDetails: string)
      requires Valid()
      modifies this`pendingAppCrash, this`slowInvocationStatusHandle, this`appTerminationHandle,
        this`connected, this`connectedGeneration, this`ready, this`readyGeneration
      ensures Valid()
      ensures pendingAppCrash == Some(errorDetails)
      ensures slowInvocationStatusHandle == NoTimer && appTerminationHandle == Scheduled
      ensures !connected && connectedGeneration == old(connectedGeneration) + 1
      ensures !ready && readyGeneration == old(readyGeneration) + 1
    {
      pendingAppCrash := Some(errorDetails);
      UnscheduleSlowInvocationQuery();
      ResetBarriers();
      appTerminationHandle := Scheduled;
    }

    /**
     * `_onAppDisconnected`: clears both timers, replaces both barriers and
     * rejects every in-flight request.
     */
    method OnAppDisconnected() returns (rejected: map<nat, ClientError>)
      requires Valid()
      modifies this`slowInvocationStatusHandle, this`appTerminationHandle,
        this`connected, this`connectedGeneration, this`ready, this`readyGeneration,
        this`pendingAppCrash, this`inFlight, this`statusQueries, this`successfulTestRun
      ensures Valid()
      ensures rejected.Keys == old(inFlight).Keys
      ensures forall id :: id in rejected ==>
        rejected[id] == if old(pendingAppCrash).Some? then AppCrashed(old(pendingAppCrash).value) else AppDisconnected
      ensures successfulTestRun == (old(successfulTestRun) && !InvokeInFlight(old(inFlight)))
      ensures slowInvocationStatusHandle == NoTimer && appTerminationHandle == NoTimer
      ensures !connected && connectedGeneration == old(connectedGeneration) + 1
      ensures !ready && readyGeneration == old(readyGeneration) + 1
      ensures pendingAppCrash == None && inFlight == map[] && statusQueries == {}
    {
      ClearTimersAndBarriers();
      rejected := RejectInFlight();
    }

    /** The first half of `_onAppDisconnected`: no timer left, both barriers replaced. */
    method ClearTimersAndBarriers()
      requires WaitersConsistent(waiters, connectedGeneration, isWaitingForAppConnect)
      modifies this`slowInvocationStatusHandle, this`appTerminationHandle,
        this`connected, this`connectedGeneration, this`ready, this`readyGeneration
      ensures WaitersConsistent(waiters, connectedGeneration, isWaitingForAppConnect)
      ensures slowInvocationStatusHandle == NoTimer && appTerminationHandle == NoTimer
      ensures !connected && connectedGeneration == old(connectedGeneration) + 1
      ensures !ready && readyGeneration == old(readyGeneration) + 1
    {
      UnscheduleSlowInvocationQuery();
      UnscheduleAppTermination();
      ResetBarriers();
    }

    /**
     * Every in-flight request is rejected, with the stored crash when there
     * is one (which is then cleared) and with a disconnect error otherwise.
     * The rejected callers resume: a rejected Invoke marks the run as
     * unsuccessful.
     */
    method RejectInFlight() returns (rejected: map<nat, ClientError>)
      modifies this`pendingAppCrash, this`inFlight, this`statusQueries, this`successfulTestRun
      ensures rejected.Keys == old(inFlight).Keys
      ensures forall id :: id in rejected ==>
        rejected[id] == if old(pendingAppCrash).Some? then AppCrashed(old(pendingAppCrash).value) else AppDisconnected
      ensures successfulTestRun == (old(successfulTestRun) && !InvokeInFlight(old(inFlight)))
      ensures pendingAppCrash == None && inFlight == map[] && statusQueries == {}
    {
      var error := if pendingAppCrash.Some? then AppCrashed(pendingAppCrash.value) else AppDisconnected;
      rejected := map id | id in inFlight :: error;
      successfulTestRun := successfulTestRun && !InvokeInFlight(inFlight);
      pendingAppCrash, inFlight, statusQueries := None, map[], {};
    }

    /** The delayed termination fires: the app is asked to terminate; a failure is only logged. */
    method FireAppTermination(failure: Option<string>)
      requires appTerminationHandle == Scheduled
      modifies this`appTerminationHandle, this`log
      ensures appTerminationHandle == Elapsed
      ensures log == old(log) + [TerminateAppRequested]
        + (if failure.Some? then [TerminateAppFailed(failure.value)] else [])
    {
      appTerminationHandle := Elapsed;
      log := log + [TerminateAppRequested];
      if failure.Some? {
        log := log + [TerminateAppFailed(failure.value)];
      }
    }
  }

  /**
   * A crash followed by a disconnect rejects every request that was in
   * flight at crash time, each with the crash's details, and leaves neither
   * a crash nor a request behind.
   */
  method CrashThenDisconnect(c: Client, errorDetails: string) returns (rejected: map<nat, ClientError>)
    requires c.Valid()
    modifies c
    ensures c.Valid()
    ensures rejected.Keys == old(c.inFlight).Keys
    ensures forall id :: id in rejected ==> rejected[id] == AppCrashed(errorDetails)
    ensures c.pendingAppCrash == None && c.inFlight == map[]
    ensures !c.IsConnected() && !c.ready && c.appTerminationHandle == NoTimer
  {
    c.OnBeforeAppCrash(errorDetails);
    rejected := c.OnAppDisconnected();
  }

  /**
   * A probe whose status query succeeds keeps polling while a monitored
   * action is awaited, and the action settling clears it.
   */
  method SlowActionIsPolled(c: Client, action: Action, status: Payload, answer: Answer)
    requires c.Valid() && IsMonitored(action) && c.slowInvocationTimeout > 0 && !c.isCleaningUp
    modifies c
    ensures c.Valid()
    ensures c.slowInvocationStatusHandle == NoTimer
    ensures c.log == old(c.log) + [AppStatus(status)]
    ensures c.inFlight == old(c.inFlight)
  {
    var o := c.SendAction(action, NoReply);
    c.FireSlowInvocationQuery(Answered(Replied(status)));
    var r := c.Respond(o.messageId, answer);
  }

  /**
   * The app never acknowledges the Login: `connect` stays pending, the
   * connected barrier stays unresolved, `waitUntilReady` suspends, and a
   * dump of pending requests reports the app as unreachable and lists the
   * Login.
   */
  method UnansweredLogin(c: Client, testName: Option<string>) returns (connect: Completion, wait: Completion,
                                                                       listed: seq<Message>)
    requires c.Valid() && !c.connected
    modifies c
    ensures connect == Awaiting && wait == Awaiting && !c.connected && c.isWaitingForAppConnect
    ensures Message(|old(c.sent)|, Login(c.sessionId)) in listed
    ensures AppUnreachable in c.log
  {
    connect := c.Connect(true, NoReply);
    wait := c.WaitUntilReady(NoReply);
    ghost var login := Message(|old(c.sent)|, Login(c.sessionId));
    assert c.inFlight[login.messageId] == login;
    PendingListingContents(c.inFlight, |c.sent|, login);
    listed := c.DumpPendingRequests(testName);
    assert c.log[|old(c.log)|] == AppUnreachable;
  }
}
