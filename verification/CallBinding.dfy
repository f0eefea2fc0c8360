/**
 Calls and replies on one handshaken connection behind the broker
 (crates/tinybus/src/connection.rs with crates/tinybus/src/broker.rs). Any number
 of concurrent calls, the writer and reader tasks, the broker and arbitrary
 other peers take turns; every reply carries in the model who really sent it.
 */
module CallBinding {
  import opened Wrappers
  import opened Bus

  // ---------------------------------------------------------------- the acceptance rule

  /** The recorded half of PendingReply. */
  datatype Waiter = Waiter(expected: Option<BusName>, busControl: Bit, confidential: Bit, unverifiedDirect: Bit)

  /** PendingReply::accepts. */
  predicate Accepts(w: Waiter, reply: Message, brokered: bool) {
    var fromBus := reply.sender == Some(BusItself);
    && (if w.busControl.Yes? then reply.sender == None || fromBus
        else if w.expected.Some? then
          || reply.sender == w.expected
          || (reply.kind == ErrorReply && fromBus)
          || (w.unverifiedDirect.Yes? && !brokered && reply.sender == None)
        else !brokered)
    && (reply.kind == ErrorReply || w.confidential.No? || reply.confidential.Yes?)
  }

  /** Who really produced a delivered message. */
  datatype Origin = FromPeer(id: nat) | FromBroker | FromWriter

  datatype Delivery = Delivery(message: Message, origin: Origin)

  /** A delivery the broker can have made: stamped with its sender's name, or the bus's own. */
  predicate Stamped(d: Delivery) {
    match d.origin
    case FromPeer(id) => d.message.sender == Some(Unique(id))
    case FromBroker => d.message.sender == None || d.message.sender == Some(BusItself)
    case FromWriter => false
  }

  /** A reply whose sender the waiter may rely on. */
  predicate Genuine(w: Waiter, d: Delivery) {
    d.message.kind == MethodReturn ==>
      && (if w.busControl.Yes? then d.origin == FromBroker
          else d.origin.FromPeer? && w.expected == Some(Unique(d.origin.id)))
      && (w.confidential.Yes? ==> d.message.confidential.Yes?)
  }

  predicate ExpectsPeer(w: Waiter) {
    w.expected.Some? ==> w.expected.value.Unique?
  }

  /**
   The acceptance rule is exact on what a broker delivers: of successful replies
   it takes those of the bound peer, or of the broker for a bus call, confidential
   if the call was, and no other. An error may also come from the broker.
   */
  lemma AcceptsGenuine(w: Waiter, d: Delivery)
    requires Stamped(d) && ExpectsPeer(w)
    ensures d.message.kind == MethodReturn ==> (Accepts(w, d.message, true) <==> Genuine(w, d))
    ensures Accepts(w, d.message, true) ==>
              || d.origin == FromBroker
              || (w.busControl.No? && d.origin.FromPeer? && w.expected == Some(Unique(d.origin.id)))
  {
  }

  // ---------------------------------------------------------------- the connection

  datatype Request = Request(destination: Option<BusName>, expected: Option<BusName>, confidential: Bit)

  /** One wait for one reply: its serial, what was recorded, and how far its caller has come. */
  datatype Leg = Leg(serial: nat, waiter: Waiter, stage: Stage)

  datatype Stage = Fresh | Registered | Waiting | Forgetting

  datatype Phase =
    | Unresolved                       // the destination is a well-known name
    | Asking(leg: Leg)                 // inside the nested ResolveCallTarget call
    | Bound(expected: Option<BusName>) // about to take the call's own serial
    | Calling(leg: Leg)
    | Returned(reply: Option<Delivery>) // a successful reply, or an error

  /** `lookup` and `own` are the serials of the negotiation and of the call, `namer` answered the former. */
  datatype Call = Call(
    request: Request,
    phase: Phase,
    bound: Option<BusName>,
    lookup: Option<nat>,
    namer: Option<Origin>,
    own: Option<nat>)

  /** The oneshot channel of one serial. */
  datatype Slot = Empty | Filled(delivery: Delivery) | Closed

  /** `owner` and `sent` are history: which call took a serial, and what was queued under it. */
  datatype Connection = Connection(
    unique: nat,
    serial: nat,
    pending: map<nat, Waiter>,
    slots: map<nat, Slot>,
    calls: map<nat, Call>,
    owner: map<nat, nat>,
    sent: map<nat, Message>,
    outbox: seq<Message>,
    writing: Bit,
    reading: Bit)

  /** The broker's table in one state of the run, and the next serial the connection would take there. */
  datatype Moment = Moment(router: Router, serial: nat)

  /** The connection, the broker's table, what is under way between them, and every moment so far. */
  datatype System = System(
    c: Connection, router: Router, wire: seq<Message>, inbox: seq<Delivery>, moments: seq<Moment>)

  function MomentOf(s: System): Moment {
    Moment(s.router, s.c.serial)
  }

  predicate IsBus(request: Request) {
    request.destination == Some(BusItself)
  }

  /** The wait of the nested bus call. */
  const LOOKUP_WAITER := Waiter(None, Yes, No, No)

  function OwnWaiter(request: Request, bound: Option<BusName>): Waiter {
    Waiter(bound, if IsBus(request) then Yes else No, request.confidential, No)
  }

  /** The nested bus call of the negotiation. */
  function LookupMessage(request: Request, serial: nat): Message {
    Message(MethodCall, serial, None, None, Some(BusItself), None, No, ResolveCallTarget,
            Name(if request.destination.Some? then request.destination.value else BusItself))
  }

  /** The call itself; a negotiated call carries its bound owner as a routing guard. */
  function OwnMessage(request: Request, bound: Option<BusName>, serial: nat): Message {
    Message(MethodCall, serial, None, None, request.destination,
            if NeedsLookup(request) then bound else request.expected,
            request.confidential, OtherMember, Opaque(0))
  }

  /** What a leg puts on the wire. */
  function Outbound(call: Call, leg: Leg): Message {
    if call.phase.Asking? then LookupMessage(call.request, leg.serial)
    else OwnMessage(call.request, call.bound, leg.serial)
  }

  predicate NeedsLookup(request: Request) {
    request.destination.Some? && request.destination.value.WellKnown?
  }

  /** Entry of call_raw_message on a connection that has completed its handshake. */
  function Entered(request: Request): Call {
    if request.destination == None || (request.expected.Some? && !request.expected.value.Unique?) then
      Call(request, Returned(None), None, None, None, None)  // refused by validation
    else match request.destination.value
      case BusItself => Call(request, Bound(None), None, None, None, None)
      case Unique(_) => Call(request, Bound(request.destination), request.destination, None, None, None)
      case WellKnown(_) => Call(request, Unresolved, None, None, None, None)
  }

  function LegOf(call: Call): Option<Leg> {
    match call.phase
    case Asking(leg) => Some(leg)
    case Calling(leg) => Some(leg)
    case _ => None
  }

  function WithStage(call: Call, stage: Stage): Call
    requires LegOf(call).Some?
  {
    match call.phase
    case Asking(leg) => call.(phase := Asking(leg.(stage := stage)))
    case Calling(leg) => call.(phase := Calling(leg.(stage := stage)))
  }

  // ---------------------------------------------------------------- steps of a call

  function SetCall(c: Connection, k: nat, call: Call): Connection {
    c.(calls := c.calls[k := call])
  }

  /** fetch_add on the serial counter. */
  function TakeSerial(c: Connection, k: nat): Connection
    requires k in c.calls
  {
    var call := c.calls[k];
    var taken := c.(serial := c.serial + 1, owner := c.owner[c.serial := k], slots := c.slots[c.serial := Empty]);
    match call.phase
    case Unresolved =>
      SetCall(taken, k, call.(phase := Asking(Leg(c.serial, LOOKUP_WAITER, Fresh)), lookup := Some(c.serial)))
    case Bound(expected) =>
      SetCall(taken, k, call.(phase := Calling(Leg(c.serial, OwnWaiter(call.request, expected), Fresh)),
                              own := Some(c.serial)))
    case _ => c
  }

  /** The pending map gains the waiter. */
  function Register(c: Connection, k: nat, leg: Leg): Connection
    requires k in c.calls && LegOf(c.calls[k]) == Some(leg)
  {
    SetCall(c.(pending := c.pending[leg.serial := leg.waiter]), k, WithStage(c.calls[k], Registered))
  }

  function Queue(c: Connection, m: Message): Connection {
    c.(outbox := c.outbox + [m], sent := c.sent[m.serial := m])
  }

  /** send, try_send and send_reply: any message takes the next serial, and is queued while the writer lives. */
  function SendOther(c: Connection, m: Message): Connection {
    var next := c.(serial := c.serial + 1);
    if c.writing.Yes? then Queue(next, m.(serial := c.serial)) else next
  }

  /** The message is queued for the writer; a writer that has ended refuses it. */
  function Enqueue(c: Connection, k: nat, leg: Leg): Connection
    requires k in c.calls && LegOf(c.calls[k]) == Some(leg)
  {
    if c.writing.Yes? then
      SetCall(Queue(c, Outbound(c.calls[k], leg)), k, WithStage(c.calls[k], Waiting))
    else SetCall(c, k, WithStage(c.calls[k], Forgetting))
  }

  /** The error paths remove the pending entry before they return. */
  function Forget(c: Connection, k: nat, leg: Leg): Connection
    requires k in c.calls
  {
    SetCall(c.(pending := c.pending - {leg.serial}), k, c.calls[k].(phase := Returned(None)))
  }

  /** What a call does with the answer of its leg. */
  function Conclude(call: Call, d: Delivery): Call {
    if d.message.kind != MethodReturn then call.(phase := Returned(None))
    else if call.phase.Calling? then call.(phase := Returned(Some(d)))
    else if !d.message.body.Name? || !d.message.body.name.Unique?
      || (call.request.expected.Some? && call.request.expected != Some(d.message.body.name)) then
      call.(phase := Returned(None))
    else
      var owner := Some(d.message.body.name);
      call.(phase := Bound(owner), bound := owner, namer := Some(d.origin))
  }

  function Finish(c: Connection, k: nat, leg: Leg): Connection
    requires k in c.calls
  {
    match (if leg.serial in c.slots then c.slots[leg.serial] else Empty)
    case Empty => c
    case Filled(d) => SetCall(c, k, Conclude(c.calls[k], d))
    case Closed => SetCall(c, k, c.calls[k].(phase := Returned(None)))
  }

  /** One step of call `k`; `expires` is the timer of its wait. */
  function CallStep(c: Connection, k: nat, expires: bool): Connection {
    if k !in c.calls then c
    else match LegOf(c.calls[k])
      case None => if c.calls[k].phase.Returned? then c else TakeSerial(c, k)
      case Some(leg) =>
        match leg.stage
        case Fresh => Register(c, k, leg)
        case Registered => Enqueue(c, k, leg)
        case Waiting => if expires then SetCall(c, k, WithStage(c.calls[k], Forgetting)) else Finish(c, k, leg)
        case Forgetting => Forget(c, k, leg)
  }

  // ---------------------------------------------------------------- the two tasks

  /** Remove the waiter of `serial` and complete its channel. */
  function Resolve(c: Connection, serial: nat, d: Delivery): Connection {
    c.(pending := c.pending - {serial}, slots := c.slots[serial := Filled(d)])
  }

  /** dispatch_loop on one delivery of a brokered link. */
  function Dispatch(c: Connection, d: Delivery): Connection {
    var m := d.message;
    if m.kind == MethodReturn || m.kind == ErrorReply then
      if m.replySerial.Some? && m.replySerial.value in c.pending
        && Accepts(c.pending[m.replySerial.value], m, true) then
        Resolve(c, m.replySerial.value, d)
      else c
    else c
  }

  /** The reader's last act: every registered waiter loses its channel. */
  function ReaderExit(c: Connection): Connection {
    c.(reading := No, pending := map[],
       slots := map s | s in c.slots :: if s in c.pending then Closed else c.slots[s])
  }

  datatype Sending = Sent | RefusedMessage | Broken

  /** refuse_call answers the waiting caller with the transport's refusal. */
  function RefuseCall(c: Connection, m: Message): Connection {
    if m.kind == MethodCall && m.serial in c.pending then
      Resolve(c, m.serial, Delivery(ReplyTo(m, ErrorReply, Opaque(0)), FromWriter))
    else c
  }

  // ---------------------------------------------------------------- the whole system

  datatype Event =
    | Begin(k: nat, request: Request)
    | Proceed(k: nat, expires: bool)
    | Send(message: Message)             // send, try_send or send_reply
    | Write(outcome: Sending)
    | BrokerReads(admitted: bool)
    | PeerSends(from: nat, message: Message, admitted: bool)
    | Lose                               // the broker's writer drops a refused message
    | Read
    | LinkLost
    | PeerAttaches
    | PeerDetaches(id: nat)
    | PeerClaims(id: nat, name: BusName)
    | PeerReleases(id: nat, name: BusName)

  /** Deliveries the routing of one message puts on the way to this connection. */
  function Towards(unique: nat, from: nat, routed: Routed): seq<Delivery> {
    match routed
    case ToPeer(id, m) => if id == unique then [Delivery(m, FromPeer(from))] else []
    case Answered(reply) => if from == unique then [Delivery(reply, FromBroker)] else []
    case Failed(reply) => if from == unique && reply.Some? then [Delivery(reply.value, FromBroker)] else []
    case Broadcast => []
  }

  function Next(s: System, e: Event): System {
    var s' := Change(s, e);
    s'.(moments := s.moments + [MomentOf(s')])
  }

  function Change(s: System, e: Event): System {
    match e
    case Begin(k, request) =>
      if k in s.c.calls then s else s.(c := SetCall(s.c, k, Entered(request)))
    case Proceed(k, expires) => s.(c := CallStep(s.c, k, expires))
    case Send(m) => s.(c := SendOther(s.c, m))
    case Write(outcome) =>
      if s.c.outbox == [] || s.c.writing.No? then s
      else
        var m := s.c.outbox[0];
        var c := s.c.(outbox := s.c.outbox[1..]);
        (match outcome
         case Sent => s.(c := c, wire := s.wire + [m])
         case RefusedMessage => s.(c := RefuseCall(c, m))
         case Broken => s.(c := c.(writing := No)))
    case BrokerReads(admitted) =>
      if s.wire == [] then s
      else
        s.(wire := s.wire[1..],
           inbox := s.inbox + Towards(s.c.unique, s.c.unique, Route(s.router, s.c.unique, s.wire[0], admitted)))
    case PeerSends(from, m, admitted) =>
      if from == s.c.unique then s
      else s.(inbox := s.inbox + Towards(s.c.unique, from, Route(s.router, from, m, admitted)))
    case Lose => if s.inbox == [] then s else s.(inbox := s.inbox[1..])
    case Read =>
      if s.inbox == [] || s.c.reading.No? then s
      else s.(c := Dispatch(s.c, s.inbox[0]), inbox := s.inbox[1..])
    case LinkLost => if s.c.reading.No? then s else s.(c := ReaderExit(s.c))
    case PeerAttaches => s.(router := Attach(s.router))
    case PeerDetaches(id) => s.(router := Detach(s.router, id))
    case PeerClaims(id, name) => s.(router := RequestName(s.router, id, name))
    case PeerReleases(id, name) => s.(router := ReleaseName(s.router, id, name))
  }

  // ---------------------------------------------------------------- the invariant

  /** At some moment with serial `after` taken and serial `before` still free the table gave `name` to `owner`. */
  ghost predicate OwnedBetween(moments: seq<Moment>, after: nat, before: nat, name: BusName, owner: BusName) {
    exists i :: 0 <= i < |moments| && OwnedAt(moments[i], after, before, name, owner)
  }

  predicate OwnedAt(moment: Moment, after: nat, before: nat, name: BusName, owner: BusName) {
    after < moment.serial <= before && OwnerOf(moment.router, name) == Some(owner)
  }

  /** A successful answer of the broker to a lookup names an owner of the name since the lookup was sent. */
  ghost predicate AnswersLookup(c: Connection, moments: seq<Moment>, d: Delivery) {
    d.origin == FromBroker && d.message.kind == MethodReturn ==>
      && d.message.replySerial.Some? && d.message.replySerial.value in c.sent
      && var m := c.sent[d.message.replySerial.value];
         m.member == ResolveCallTarget ==>
           && m.body.Name? && d.message.body.Name?
           && OwnedBetween(moments, d.message.replySerial.value, c.serial, m.body.name, d.message.body.name)
  }

  predicate LegFits(c: Connection, k: nat, call: Call, leg: Leg) {
    && leg.serial < c.serial
    && leg.serial in c.owner && c.owner[leg.serial] == k
    && leg.serial in c.slots && ExpectsPeer(leg.waiter)
    && (leg.stage == Fresh ==> leg.serial !in c.pending && c.slots[leg.serial] == Empty)
    && (leg.stage == Fresh || leg.stage == Registered ==> leg.serial !in c.sent)
    && (leg.stage == Waiting ==> leg.serial in c.sent)
    && (leg.serial in c.sent ==> c.sent[leg.serial] == Outbound(call, leg))
    && (leg.serial in c.pending ==> c.pending[leg.serial] == leg.waiter && c.slots[leg.serial] == Empty)
    && (c.slots[leg.serial].Filled? ==> Genuine(leg.waiter, c.slots[leg.serial].delivery))
  }

  /** What a finished call may hold as its answer. */
  predicate AnswerFits(call: Call, d: Delivery) {
    d.message.kind == MethodReturn && Genuine(OwnWaiter(call.request, call.bound), d)
  }

  ghost predicate CallFits(c: Connection, moments: seq<Moment>, k: nat, call: Call) {
    && (LegOf(call).Some? ==> LegFits(c, k, call, LegOf(call).value))
    && (call.phase.Asking? ==>
          && call.phase.leg.waiter == LOOKUP_WAITER && NeedsLookup(call.request)
          && call.lookup == Some(call.phase.leg.serial) && call.own == None)
    && (call.phase.Unresolved? ==> NeedsLookup(call.request) && call.own == None)
    && (call.phase.Calling? ==>
          && call.phase.leg.waiter == OwnWaiter(call.request, call.bound)
          && call.own == Some(call.phase.leg.serial))
    && (call.lookup.Some? && call.own.Some? ==> call.lookup.value < call.own.value)
    && (call.phase.Bound? ==> call.phase.expected == call.bound && call.own == None)
    && (call.phase.Bound? || call.own.Some? ==> BindingFits(moments, call, Limit(c, call)))
    && (call.phase.Returned? && call.phase.reply.Some? ==>
          AnswerFits(call, call.phase.reply.value) && call.own.Some?)
    && (call.lookup.Some? ==> call.lookup.value < c.serial)
    && (call.own.Some? ==> OwnFits(c, k, call))
  }

  /** What was queued under a call's own serial is that call. */
  predicate OwnFits(c: Connection, k: nat, call: Call)
    requires call.own.Some?
  {
    && call.own.value < c.serial && call.own.value in c.owner && c.owner[call.own.value] == k
    && (call.own.value in c.sent ==> c.sent[call.own.value] == OwnMessage(call.request, call.bound, call.own.value))
  }

  /** The serial before which the binding was made: the call's own, or the next one. */
  function Limit(c: Connection, call: Call): nat {
    if call.own.Some? then call.own.value else c.serial
  }

  /** How the binding came about: the caller's own unique name, or the broker's answer about that name. */
  ghost predicate BindingFits(moments: seq<Moment>, call: Call, limit: nat) {
    match call.request.destination
    case None => false
    case Some(BusItself) => call.bound == None
    case Some(Unique(_)) => call.bound == call.request.destination
    case Some(WellKnown(_)) =>
      && call.bound.Some? && call.bound.value.Unique? && call.namer == Some(FromBroker) && call.lookup.Some?
      && (call.request.expected.Some? ==> call.bound == call.request.expected)
      && OwnedBetween(moments, call.lookup.value, limit, call.request.destination.value, call.bound.value)
  }

  /** A registered serial belongs to the current leg of its call. */
  predicate PendingFits(c: Connection, serial: nat) {
    && serial in c.owner && c.owner[serial] in c.calls
    && LegOf(c.calls[c.owner[serial]]).Some?
    && LegOf(c.calls[c.owner[serial]]).value.serial == serial
    && LegOf(c.calls[c.owner[serial]]).value.stage != Fresh
  }

  /** A completed channel holds an answer to its own serial. */
  ghost predicate SlotFits(c: Connection, moments: seq<Moment>, serial: nat)
    requires serial in c.slots
  {
    c.slots[serial].Filled? ==>
      && AnswersLookup(c, moments, c.slots[serial].delivery)
      && c.slots[serial].delivery.message.replySerial == Some(serial)
  }

  ghost predicate ConnectionFits(c: Connection, moments: seq<Moment>) {
    && (forall k :: k in c.calls ==> CallFits(c, moments, k, c.calls[k]))
    && (forall serial :: serial in c.pending ==> PendingFits(c, serial))
    && (forall serial :: serial in c.owner ==> serial < c.serial)
    && (forall serial :: serial in c.sent ==> serial < c.serial)
    && (forall serial :: serial in c.slots ==> SlotFits(c, moments, serial))
    && c.slots.Keys <= c.owner.Keys
  }

  /** What is queued or on the wire was sent under its serial. */
  predicate UnderWay(c: Connection, messages: seq<Message>) {
    forall i :: 0 <= i < |messages| ==> messages[i].serial in c.sent && c.sent[messages[i].serial] == messages[i]
  }

  ghost predicate Valid(s: System) {
    && ConnectionFits(s.c, s.moments)
    && RouterFits(s.router) && s.moments != []
    && s.moments[|s.moments| - 1] == MomentOf(s)
    && UnderWay(s.c, s.c.outbox) && UnderWay(s.c, s.wire)
    && (forall i :: 0 <= i < |s.inbox| ==> Stamped(s.inbox[i]) && AnswersLookup(s.c, s.moments, s.inbox[i]))
  }

  // ---------------------------------------------------------------- preservation

  /** More moments and more messages under new serials take nothing back. */
  lemma AnswersMore(c: Connection, c': Connection, moments: seq<Moment>, more: seq<Moment>, d: Delivery)
    requires AnswersLookup(c, moments, d) && c.serial <= c'.serial
    requires forall s :: s in c.sent ==> s in c'.sent && c'.sent[s] == c.sent[s]
    ensures AnswersLookup(c', moments + more, d)
  {
    forall after, name, owner | OwnedBetween(moments, after, c.serial, name, owner)
      ensures OwnedBetween(moments + more, after, c'.serial, name, owner)
    {
      OwnedMore(moments, more, after, c.serial, c'.serial, name, owner);
    }
  }

  lemma OwnedMore(moments: seq<Moment>, more: seq<Moment>, after: nat, before: nat, later: nat,
                  name: BusName, owner: BusName)
    requires OwnedBetween(moments, after, before, name, owner) && before <= later
    ensures OwnedBetween(moments + more, after, later, name, owner)
  {
    var i :| 0 <= i < |moments| && OwnedAt(moments[i], after, before, name, owner);
    assert OwnedAt((moments + more)[i], after, later, name, owner);
  }

  /** What a completed channel says survives more messages under new serials. */
  lemma SlotKept(c: Connection, c': Connection, moments: seq<Moment>, serial: nat)
    requires serial in c.slots && SlotFits(c, moments, serial)
    requires serial in c'.slots && c'.slots[serial] == c.slots[serial] && c.serial <= c'.serial
    requires forall s :: s in c.sent ==> s in c'.sent && c'.sent[s] == c.sent[s]
    ensures SlotFits(c', moments, serial)
  {
    if c.slots[serial].Filled? {
      AnswersMore(c, c', moments, [], c.slots[serial].delivery);
      assert moments + [] == moments;
    }
  }

  /** A further table leaves every fact about the connection in place. */
  lemma MoreMoments(c: Connection, moments: seq<Moment>, moment: Moment)
    requires ConnectionFits(c, moments)
    ensures ConnectionFits(c, moments + [moment])
  {
    forall k | k in c.calls ensures CallFits(c, moments + [moment], k, c.calls[k]) {
      assert CallFits(c, moments, k, c.calls[k]);
      BindingMore(moments, [moment], c.calls[k], Limit(c, c.calls[k]), Limit(c, c.calls[k]));
    }
    forall serial | serial in c.slots ensures SlotFits(c, moments + [moment], serial) {
      assert SlotFits(c, moments, serial);
      if c.slots[serial].Filled? { AnswersMore(c, c, moments, [moment], c.slots[serial].delivery); }
    }
  }

  /** A binding stays explained. */
  lemma BindingMore(moments: seq<Moment>, more: seq<Moment>, call: Call, limit: nat, later: nat)
    requires limit <= later
    ensures BindingFits(moments, call, limit) ==> BindingFits(moments + more, call, later)
  {
    if NeedsLookup(call.request) && BindingFits(moments, call, limit) {
      OwnedMore(moments, more, call.lookup.value, limit, later, call.request.destination.value, call.bound.value);
    }
  }

  /** The part of a step other calls can see: nothing under their serials changes. */
  predicate Spares(c: Connection, c': Connection, k: nat) {
    && c.serial <= c'.serial
    && (forall s :: s in c.owner ==> s in c'.owner && c'.owner[s] == c.owner[s])
    && (forall s :: s in c.owner && c.owner[s] != k ==>
          && (s in c'.pending <==> s in c.pending) && (s in c.pending ==> c'.pending[s] == c.pending[s])
          && (s in c.slots ==> s in c'.slots && c'.slots[s] == c.slots[s])
          && (s in c'.sent <==> s in c.sent) && (s in c.sent ==> c'.sent[s] == c.sent[s]))
  }

  lemma OtherCallFits(c: Connection, c': Connection, moments: seq<Moment>, k: nat, other: nat, call: Call)
    requires CallFits(c, moments, other, call) && other != k && Spares(c, c', k)
    ensures CallFits(c', moments, other, call)
  {
    BindingMore(moments, [], call, Limit(c, call), Limit(c', call));
    assert moments + [] == moments;
  }

  /** The calls other than `k` after a step of call `k`. */
  lemma OthersFit(c: Connection, c': Connection, moments: seq<Moment>, k: nat)
    requires ConnectionFits(c, moments) && Spares(c, c', k)
    requires forall j :: j in c'.calls && j != k ==> j in c.calls && c'.calls[j] == c.calls[j]
    ensures forall j :: j in c'.calls && j != k ==> CallFits(c', moments, j, c'.calls[j])
  {
    forall j | j in c'.calls && j != k ensures CallFits(c', moments, j, c'.calls[j]) {
      assert CallFits(c, moments, j, c.calls[j]);
      OtherCallFits(c, c', moments, k, j, c.calls[j]);
    }
  }

  lemma SerialFits(c: Connection, moments: seq<Moment>, k: nat)
    requires ConnectionFits(c, moments) && k in c.calls && (c.calls[k].phase.Unresolved? || c.calls[k].phase.Bound?)
    ensures ConnectionFits(TakeSerial(c, k), moments)
  {
    var c' := TakeSerial(c, k);
    assert CallFits(c, moments, k, c.calls[k]);
    assert c.serial in c.pending ==> PendingFits(c, c.serial);
    TakenCallFits(c, moments, k);
    OthersFit(c, c', moments, k);
    SerialWaitsFit(c, moments, k);
  }

  lemma SerialWaitsFit(c: Connection, moments: seq<Moment>, k: nat)
    requires ConnectionFits(c, moments) && k in c.calls && (c.calls[k].phase.Unresolved? || c.calls[k].phase.Bound?)
    ensures var c' := TakeSerial(c, k);
      && (forall serial :: serial in c'.pending ==> PendingFits(c', serial))
      && (forall serial :: serial in c'.slots ==> SlotFits(c', moments, serial))
  {
    var c' := TakeSerial(c, k);
    forall serial | serial in c'.pending ensures PendingFits(c', serial) {
      assert PendingFits(c, serial);
    }
    forall serial | serial in c'.slots ensures SlotFits(c', moments, serial) {
      if serial != c.serial { SlotKept(c, c', moments, serial); }
    }
  }

  lemma TakenCallFits(c: Connection, moments: seq<Moment>, k: nat)
    requires ConnectionFits(c, moments) && k in c.calls && (c.calls[k].phase.Unresolved? || c.calls[k].phase.Bound?)
    requires c.serial !in c.pending
    ensures CallFits(TakeSerial(c, k), moments, k, TakeSerial(c, k).calls[k])
  {
    assert CallFits(c, moments, k, c.calls[k]);
    assert c.serial !in c.sent;
  }

  /** The connection after call `k` moved and at most the entries of its own serial changed. */
  lemma MoveFits(c: Connection, c': Connection, moments: seq<Moment>, k: nat)
    requires ConnectionFits(c, moments) && k in c.calls && LegOf(c.calls[k]).Some?
    requires c'.serial == c.serial && c'.owner == c.owner && c'.slots == c.slots && Spares(c, c', k)
    requires c'.calls.Keys == c.calls.Keys && (forall j :: j in c.calls && j != k ==> c'.calls[j] == c.calls[j])
    requires forall s :: s != LegOf(c.calls[k]).value.serial ==>
               (s in c'.pending <==> s in c.pending) && (s in c.pending ==> c'.pending[s] == c.pending[s])
    requires forall s :: s in c.sent ==> s in c'.sent && c'.sent[s] == c.sent[s]
    requires forall s :: s in c'.sent ==> s < c.serial
    requires CallFits(c', moments, k, c'.calls[k])
    requires LegOf(c.calls[k]).value.serial in c'.pending ==> PendingFits(c', LegOf(c.calls[k]).value.serial)
    ensures ConnectionFits(c', moments)
  {
    assert CallFits(c, moments, k, c.calls[k]);
    OthersFit(c, c', moments, k);
    forall serial | serial in c'.pending ensures PendingFits(c', serial) {
      if serial != LegOf(c.calls[k]).value.serial { assert PendingFits(c, serial); }
    }
    forall serial | serial in c'.slots ensures SlotFits(c', moments, serial) {
      SlotKept(c, c', moments, serial);
    }
  }

  lemma RegisterFits(c: Connection, moments: seq<Moment>, k: nat, leg: Leg)
    requires ConnectionFits(c, moments) && k in c.calls && LegOf(c.calls[k]) == Some(leg) && leg.stage == Fresh
    ensures ConnectionFits(Register(c, k, leg), moments)
  {
    RegisteredCallFits(c, moments, k, leg);
    MoveFits(c, Register(c, k, leg), moments, k);
  }

  lemma RegisteredCallFits(c: Connection, moments: seq<Moment>, k: nat, leg: Leg)
    requires ConnectionFits(c, moments) && k in c.calls && LegOf(c.calls[k]) == Some(leg) && leg.stage == Fresh
    ensures CallFits(Register(c, k, leg), moments, k, Register(c, k, leg).calls[k])
    ensures Spares(c, Register(c, k, leg), k) && PendingFits(Register(c, k, leg), leg.serial)
  {
    assert CallFits(c, moments, k, c.calls[k]);
  }

  lemma EnqueueSpares(c: Connection, moments: seq<Moment>, k: nat, leg: Leg)
    requires ConnectionFits(c, moments) && k in c.calls && LegOf(c.calls[k]) == Some(leg) && leg.stage == Registered
    ensures var c' := Enqueue(c, k, leg);
      && Spares(c, c', k)
      && (forall s :: s in c.sent ==> s in c'.sent && c'.sent[s] == c.sent[s])
      && (forall s :: s in c'.sent ==> s < c.serial)
  {
    assert CallFits(c, moments, k, c.calls[k]);
  }

  lemma EnqueueFits(c: Connection, moments: seq<Moment>, k: nat, leg: Leg)
    requires ConnectionFits(c, moments) && k in c.calls && LegOf(c.calls[k]) == Some(leg) && leg.stage == Registered
    ensures ConnectionFits(Enqueue(c, k, leg), moments)
  {
    EnqueuedCallFits(c, moments, k, leg);
    EnqueueSpares(c, moments, k, leg);
    if leg.serial in c.pending {
      assert PendingFits(c, leg.serial) && CallFits(c, moments, k, c.calls[k]);
      EnqueueKeepsPending(c, k, leg);
    }
    EnqueueFrame(c, k, leg);
    MoveFits(c, Enqueue(c, k, leg), moments, k);
  }

  lemma EnqueueFrame(c: Connection, k: nat, leg: Leg)
    requires k in c.calls && LegOf(c.calls[k]) == Some(leg) && leg.stage == Registered
    ensures var c' := Enqueue(c, k, leg);
      && c'.pending == c.pending && c'.serial == c.serial && c'.owner == c.owner && c'.slots == c.slots
      && c'.calls.Keys == c.calls.Keys && (forall j :: j in c.calls && j != k ==> c'.calls[j] == c.calls[j])
  {
  }

  lemma EnqueueKeepsPending(c: Connection, k: nat, leg: Leg)
    requires k in c.calls && LegOf(c.calls[k]) == Some(leg) && leg.stage == Registered
    requires PendingFits(c, leg.serial) && c.owner[leg.serial] == k
    ensures PendingFits(Enqueue(c, k, leg), leg.serial)
  {
  }

  lemma EnqueuedCallFits(c: Connection, moments: seq<Moment>, k: nat, leg: Leg)
    requires ConnectionFits(c, moments) && k in c.calls && LegOf(c.calls[k]) == Some(leg) && leg.stage == Registered
    ensures CallFits(Enqueue(c, k, leg), moments, k, Enqueue(c, k, leg).calls[k])
  {
    var (call, c') := (c.calls[k], Enqueue(c, k, leg));
    assert CallFits(c, moments, k, call);
    var moved := leg.(stage := if c.writing.Yes? then Waiting else Forgetting);
    assert LegOf(c'.calls[k]) == Some(moved) && Outbound(c'.calls[k], moved) == Outbound(call, leg);
    assert LegFits(c', k, c'.calls[k], moved);
    assert call.own.Some? ==> OwnFits(c', k, call);
  }

  /** The connection after nothing but call `k` itself moved. */
  lemma SetCallFits(c: Connection, moments: seq<Moment>, k: nat, leg: Leg, call: Call)
    requires ConnectionFits(c, moments) && k in c.calls && LegOf(c.calls[k]) == Some(leg)
    requires CallFits(SetCall(c, k, call), moments, k, call)
    requires leg.serial in c.pending ==>
               LegOf(call).Some? && LegOf(call).value.serial == leg.serial && LegOf(call).value.stage != Fresh
    ensures ConnectionFits(SetCall(c, k, call), moments)
  {
    var c' := SetCall(c, k, call);
    assert CallFits(c, moments, k, c.calls[k]);
    assert leg.serial in c.pending ==> PendingFits(c', leg.serial);
    MoveFits(c, c', moments, k);
  }

  lemma ExpireFits(c: Connection, moments: seq<Moment>, k: nat, leg: Leg)
    requires ConnectionFits(c, moments) && k in c.calls && LegOf(c.calls[k]) == Some(leg) && leg.stage == Waiting
    ensures ConnectionFits(SetCall(c, k, WithStage(c.calls[k], Forgetting)), moments)
  {
    assert CallFits(c, moments, k, c.calls[k]);
    SetCallFits(c, moments, k, leg, WithStage(c.calls[k], Forgetting));
  }

  lemma ForgetFits(c: Connection, moments: seq<Moment>, k: nat, leg: Leg)
    requires ConnectionFits(c, moments) && k in c.calls && LegOf(c.calls[k]) == Some(leg)
    ensures ConnectionFits(Forget(c, k, leg), moments)
  {
    ForgottenCallFits(c, moments, k, leg);
    MoveFits(c, Forget(c, k, leg), moments, k);
  }

  lemma ForgottenCallFits(c: Connection, moments: seq<Moment>, k: nat, leg: Leg)
    requires ConnectionFits(c, moments) && k in c.calls && LegOf(c.calls[k]) == Some(leg)
    ensures CallFits(Forget(c, k, leg), moments, k, Forget(c, k, leg).calls[k])
    ensures Spares(c, Forget(c, k, leg), k)
  {
    assert CallFits(c, moments, k, c.calls[k]);
  }

  lemma FinishFits(c: Connection, moments: seq<Moment>, k: nat, leg: Leg)
    requires ConnectionFits(c, moments) && k in c.calls && LegOf(c.calls[k]) == Some(leg) && leg.stage == Waiting
    ensures ConnectionFits(Finish(c, k, leg), moments)
  {
    assert CallFits(c, moments, k, c.calls[k]);
    if c.slots[leg.serial].Filled? {
      var d := c.slots[leg.serial].delivery;
      ConcludedCallFits(c, moments, k, leg, d);
      SetCallFits(c, moments, k, leg, Conclude(c.calls[k], d));
    } else if c.slots[leg.serial].Closed? {
      SetCallFits(c, moments, k, leg, c.calls[k].(phase := Returned(None)));
    }
  }

  lemma ConcludedCallFits(c: Connection, moments: seq<Moment>, k: nat, leg: Leg, d: Delivery)
    requires ConnectionFits(c, moments) && k in c.calls && LegOf(c.calls[k]) == Some(leg) && leg.stage == Waiting
    requires leg.serial in c.slots && c.slots[leg.serial] == Filled(d)
    ensures CallFits(SetCall(c, k, Conclude(c.calls[k], d)), moments, k, Conclude(c.calls[k], d))
  {
    assert CallFits(c, moments, k, c.calls[k]) && SlotFits(c, moments, leg.serial);
  }

  lemma CallStepFits(c: Connection, moments: seq<Moment>, k: nat, expires: bool)
    requires ConnectionFits(c, moments)
    ensures ConnectionFits(CallStep(c, k, expires), moments)
  {
    if k in c.calls {
      assert CallFits(c, moments, k, c.calls[k]);
      match LegOf(c.calls[k])
      case None => if !c.calls[k].phase.Returned? { SerialFits(c, moments, k); }
      case Some(leg) =>
        match leg.stage
        case Fresh => RegisterFits(c, moments, k, leg);
        case Registered => EnqueueFits(c, moments, k, leg);
        case Waiting => ExpireFits(c, moments, k, leg); FinishFits(c, moments, k, leg);
        case Forgetting => ForgetFits(c, moments, k, leg);
    }
  }

  /** The outbox and the open flags play no part in the invariant of the calls. */
  lemma OutboxFree(c: Connection, c': Connection, moments: seq<Moment>)
    requires ConnectionFits(c, moments)
    requires c' == c.(outbox := c'.outbox, writing := c'.writing, reading := c'.reading)
    ensures ConnectionFits(c', moments)
  {
    forall k | k in c'.calls ensures CallFits(c', moments, k, c'.calls[k]) {
      assert CallFits(c, moments, k, c.calls[k]);
    }
    forall serial | serial in c'.pending ensures PendingFits(c', serial) {
      assert PendingFits(c, serial);
    }
    forall serial | serial in c'.slots ensures SlotFits(c', moments, serial) {
      assert SlotFits(c, moments, serial);
    }
  }

  lemma ResolvedCallFits(c: Connection, moments: seq<Moment>, serial: nat, d: Delivery)
    requires ConnectionFits(c, moments) && serial in c.pending && Genuine(c.pending[serial], d)
    requires PendingFits(c, serial)
    ensures CallFits(Resolve(c, serial, d), moments, c.owner[serial], c.calls[c.owner[serial]])
    ensures Spares(c, Resolve(c, serial, d), c.owner[serial])
  {
    assert CallFits(c, moments, c.owner[serial], c.calls[c.owner[serial]]);
  }

  /** Completing a channel with an answer to its serial that its waiter may rely on. */
  lemma ResolveFits(c: Connection, moments: seq<Moment>, serial: nat, d: Delivery)
    requires ConnectionFits(c, moments) && serial in c.pending && Genuine(c.pending[serial], d)
    requires AnswersLookup(c, moments, d) && d.message.replySerial == Some(serial)
    ensures ConnectionFits(Resolve(c, serial, d), moments)
  {
    var c' := Resolve(c, serial, d);
    assert PendingFits(c, serial);
    var k := c.owner[serial];
    ResolvedCallFits(c, moments, serial, d);
    OthersFit(c, c', moments, k);
    forall s | s in c'.pending ensures PendingFits(c', s) {
      assert PendingFits(c, s);
    }
    forall s | s in c'.slots ensures SlotFits(c', moments, s) {
      if s != serial { assert SlotFits(c, moments, s); }
    }
  }

  lemma DispatchFits(c: Connection, moments: seq<Moment>, d: Delivery)
    requires ConnectionFits(c, moments) && Stamped(d) && AnswersLookup(c, moments, d)
    ensures ConnectionFits(Dispatch(c, d), moments)
  {
    if d.message.replySerial.Some? && d.message.replySerial.value in c.pending {
      var serial := d.message.replySerial.value;
      assert PendingFits(c, serial);
      assert CallFits(c, moments, c.owner[serial], c.calls[c.owner[serial]]);
      AcceptsGenuine(c.pending[serial], d);
      if Accepts(c.pending[serial], d.message, true) { ResolveFits(c, moments, serial, d); }
    }
  }

  lemma ExitFits(c: Connection, moments: seq<Moment>)
    requires ConnectionFits(c, moments)
    ensures ConnectionFits(ReaderExit(c), moments)
  {
    var c' := ReaderExit(c);
    forall k | k in c'.calls ensures CallFits(c', moments, k, c'.calls[k]) {
      assert CallFits(c, moments, k, c.calls[k]);
    }
    forall s | s in c'.slots ensures SlotFits(c', moments, s) {
      assert SlotFits(c, moments, s);
    }
  }

  lemma RefuseFits(c: Connection, moments: seq<Moment>, m: Message)
    requires ConnectionFits(c, moments)
    ensures ConnectionFits(RefuseCall(c, m), moments)
  {
    if m.kind == MethodCall && m.serial in c.pending {
      ResolveFits(c, moments, m.serial, Delivery(ReplyTo(m, ErrorReply, Opaque(0)), FromWriter));
    }
  }

  lemma BeginFits(c: Connection, moments: seq<Moment>, k: nat, request: Request)
    requires ConnectionFits(c, moments) && k !in c.calls
    ensures ConnectionFits(SetCall(c, k, Entered(request)), moments)
  {
    var c' := SetCall(c, k, Entered(request));
    forall other | other in c'.calls ensures CallFits(c', moments, other, c'.calls[other]) {
      if other != k {
        assert CallFits(c, moments, other, c.calls[other]);
        OtherCallFits(c, c', moments, k, other, c.calls[other]);
      }
    }
    forall serial | serial in c'.pending ensures PendingFits(c', serial) {
      assert PendingFits(c, serial);
    }
    forall s | s in c'.slots ensures SlotFits(c', moments, s) {
      assert SlotFits(c, moments, s);
    }
  }

  lemma SendCallFits(c: Connection, moments: seq<Moment>, m: Message, k: nat)
    requires ConnectionFits(c, moments) && k in c.calls
    ensures CallFits(SendOther(c, m), moments, k, c.calls[k])
  {
    assert CallFits(c, moments, k, c.calls[k]);
  }

  lemma SendFits(c: Connection, moments: seq<Moment>, m: Message)
    requires ConnectionFits(c, moments)
    ensures ConnectionFits(SendOther(c, m), moments)
  {
    SendCallsFit(c, moments, m);
    SendWaitsFit(c, moments, m);
  }

  lemma SendCallsFit(c: Connection, moments: seq<Moment>, m: Message)
    requires ConnectionFits(c, moments)
    ensures forall k :: k in c.calls ==> CallFits(SendOther(c, m), moments, k, c.calls[k])
  {
    forall k | k in c.calls ensures CallFits(SendOther(c, m), moments, k, c.calls[k]) {
      SendCallFits(c, moments, m, k);
    }
  }

  lemma SendWaitsFit(c: Connection, moments: seq<Moment>, m: Message)
    requires ConnectionFits(c, moments)
    ensures var c' := SendOther(c, m);
      && (forall serial :: serial in c'.pending ==> PendingFits(c', serial))
      && (forall serial :: serial in c'.slots ==> SlotFits(c', moments, serial))
  {
    var c' := SendOther(c, m);
    forall serial | serial in c'.pending ensures PendingFits(c', serial) {
      assert PendingFits(c, serial);
    }
    forall serial | serial in c'.slots ensures SlotFits(c', moments, serial) {
      SlotKept(c, c', moments, serial);
    }
  }

  /** What the routing of one message puts into the inbox is stamped, and true about the table. */
  lemma TowardsFits(c: Connection, moments: seq<Moment>, from: nat, r: Router, m: Message, admitted: bool)
    requires moments != [] && moments[|moments| - 1] == Moment(r, c.serial)
    requires forall serial :: serial in c.sent ==> serial < c.serial
    requires from == c.unique ==> m.serial in c.sent && c.sent[m.serial] == m
    ensures forall d :: d in Towards(c.unique, from, Route(r, from, m, admitted)) ==>
              Stamped(d) && AnswersLookup(c, moments, d)
  {
    var routed := Route(r, from, m, admitted);
    if routed.ToPeer? { StampIsSender(r, from, m, admitted); }
    BusAnswersAreMarked(r, from, m, admitted);
    if from == c.unique && routed.Answered? && routed.reply.kind == MethodReturn && m.member == ResolveCallTarget {
      LookupNamesOwner(r, from, m, admitted);
      var reply := routed.reply;
      assert OwnedAt(moments[|moments| - 1], m.serial, c.serial, m.body.name, reply.body.name);
    }
  }

  /** No step forgets or rewrites what was sent. */
  lemma SentKept(s: System, e: Event)
    requires Valid(s)
    ensures forall serial :: serial in s.c.sent ==>
              serial in Change(s, e).c.sent && Change(s, e).c.sent[serial] == s.c.sent[serial]
    ensures s.c.serial <= Change(s, e).c.serial
  {
    if e.Proceed? {
      ProceedKeepsSent(s.c, s.moments, e.k, e.expires);
    }
  }

  lemma ProceedKeepsSent(c: Connection, moments: seq<Moment>, k: nat, expires: bool)
    requires ConnectionFits(c, moments)
    ensures forall serial :: serial in c.sent ==>
              serial in CallStep(c, k, expires).sent && CallStep(c, k, expires).sent[serial] == c.sent[serial]
    ensures c.serial <= CallStep(c, k, expires).serial
  {
    if k in c.calls && LegOf(c.calls[k]).Some? && LegOf(c.calls[k]).value.stage == Registered {
      EnqueueSpares(c, moments, k, LegOf(c.calls[k]).value);
    }
  }

  lemma ChangeFits(s: System, e: Event)
    requires Valid(s)
    ensures ConnectionFits(Change(s, e).c, s.moments)
  {
    match e
    case Begin(k, request) => if k !in s.c.calls { BeginFits(s.c, s.moments, k, request); }
    case Proceed(k, expires) => CallStepFits(s.c, s.moments, k, expires);
    case Send(m) => SendFits(s.c, s.moments, m);
    case Write(outcome) =>
      if s.c.outbox != [] && s.c.writing.Yes? {
        var c := s.c.(outbox := s.c.outbox[1..]);
        OutboxFree(s.c, c, s.moments);
        RefuseFits(c, s.moments, s.c.outbox[0]);
        OutboxFree(c, c.(writing := No), s.moments);
      }
    case Read => if s.inbox != [] && s.c.reading.Yes? { DispatchFits(s.c, s.moments, s.inbox[0]); }
    case LinkLost => ExitFits(s.c, s.moments);
    case _ =>
  }

  lemma UnderWayFits(s: System, e: Event)
    requires Valid(s)
    ensures UnderWay(Change(s, e).c, Change(s, e).c.outbox) && UnderWay(Change(s, e).c, Change(s, e).wire)
  {
    SentKept(s, e);
    if e.Proceed? {
      UnderWayKept(s.c, CallStep(s.c, e.k, e.expires), s.wire);
      ProceedUnderWay(s.c, CallStep(s.c, e.k, e.expires), e.k, e.expires);
    } else {
      OtherUnderWay(s, e);
    }
  }

  lemma OtherUnderWay(s: System, e: Event)
    requires UnderWay(s.c, s.c.outbox) && UnderWay(s.c, s.wire) && !e.Proceed?
    requires forall serial :: serial in s.c.sent ==> serial < s.c.serial
    ensures UnderWay(Change(s, e).c, Change(s, e).c.outbox) && UnderWay(Change(s, e).c, Change(s, e).wire)
  {
    if e.Send? {
      UnderWayKept(s.c, SendOther(s.c, e.message), s.wire);
      UnderWayKept(s.c, SendOther(s.c, e.message), s.c.outbox);
    } else if e.Write? {
      WriteUnderWay(s, e.outcome);
    }
  }

  lemma WriteUnderWay(s: System, outcome: Sending)
    requires UnderWay(s.c, s.c.outbox) && UnderWay(s.c, s.wire)
    ensures var s' := Change(s, Write(outcome)); UnderWay(s'.c, s'.c.outbox) && UnderWay(s'.c, s'.wire)
  {
  }

  lemma UnderWayKept(c: Connection, c': Connection, messages: seq<Message>)
    requires UnderWay(c, messages)
    requires forall serial :: serial in c.sent ==> serial in c'.sent && c'.sent[serial] == c.sent[serial]
    ensures UnderWay(c', messages)
  {
  }

  lemma ProceedUnderWay(c: Connection, c': Connection, k: nat, expires: bool)
    requires UnderWay(c, c.outbox) && c' == CallStep(c, k, expires)
    requires forall serial :: serial in c.sent ==> serial in c'.sent && c'.sent[serial] == c.sent[serial]
    ensures UnderWay(c', c'.outbox)
  {
    CallStepQueues(c, k, expires);
    UnderWayKept(c, c', c.outbox);
  }

  /** A step of a call queues nothing, or one message that it records as sent. */
  lemma CallStepQueues(c: Connection, k: nat, expires: bool)
    ensures var c' := CallStep(c, k, expires);
            || (c'.outbox == c.outbox && c'.sent == c.sent)
            || exists m: Message :: c'.outbox == c.outbox + [m] && c'.sent == c.sent[m.serial := m]
  {
    if k in c.calls && LegOf(c.calls[k]).Some? {
      var leg := LegOf(c.calls[k]).value;
      if leg.stage == Registered && c.writing.Yes? {
        var m := Outbound(c.calls[k], leg);
        assert CallStep(c, k, expires).outbox == c.outbox + [m];
      }
    }
  }

  lemma InboxFits(s: System, e: Event)
    requires Valid(s)
    ensures forall i :: 0 <= i < |Change(s, e).inbox| ==>
              Stamped(Change(s, e).inbox[i]) && AnswersLookup(Change(s, e).c, s.moments, Change(s, e).inbox[i])
  {
    SentKept(s, e);
    var s' := Change(s, e);
    if e.BrokerReads? && s.wire != [] {
      TowardsFits(s.c, s.moments, s.c.unique, s.router, s.wire[0], e.admitted);
    }
    if e.PeerSends? && e.from != s.c.unique {
      TowardsFits(s.c, s.moments, e.from, s.router, e.message, e.admitted);
    }
    forall d | d in s.inbox ensures AnswersLookup(s'.c, s.moments, d) {
      AnswersMore(s.c, s'.c, s.moments, [], d);
      assert s.moments + [] == s.moments;
    }
  }

  lemma NextValid(s: System, e: Event)
    requires Valid(s)
    ensures Valid(Next(s, e))
  {
    var s' := Change(s, e);
    ChangeFits(s, e);
    UnderWayFits(s, e);
    InboxFits(s, e);
    RouterValid(s, e);
    var moment := MomentOf(s');
    MoreMoments(s'.c, s.moments, moment);
    forall i | 0 <= i < |s'.inbox| ensures AnswersLookup(s'.c, s.moments + [moment], s'.inbox[i]) {
      AnswersMore(s'.c, s'.c, s.moments, [moment], s'.inbox[i]);
    }
  }

  lemma RouterValid(s: System, e: Event)
    requires Valid(s)
    ensures RouterFits(Change(s, e).router)
  {
    match e
    case PeerAttaches => RouterSteps(s.router, 0, BusItself);
    case PeerDetaches(id) => RouterSteps(s.router, id, BusItself);
    case PeerClaims(id, name) => RouterSteps(s.router, id, name);
    case PeerReleases(id, name) => RouterSteps(s.router, id, name);
    case _ =>
  }

  // ---------------------------------------------------------------- runs

  /** Peer 1 has attached and completed its handshake. */
  function Start(): System {
    var router := Attach(NO_PEERS);
    System(Connection(1, 1, map[], map[], map[], map[], map[], [], Yes, Yes), router, [], [], [Moment(router, 1)])
  }

  function Run(s: System, events: seq<Event>): System
    decreases |events|
  {
    if events == [] then s else Run(Next(s, events[0]), events[1..])
  }

  ghost predicate Reachable(s: System) {
    exists events: seq<Event> :: s == Run(Start(), events)
  }

  lemma {:induction false} RunValid(s: System, events: seq<Event>)
    requires Valid(s)
    ensures Valid(Run(s, events))
    decreases |events|
  {
    if events != [] {
      NextValid(s, events[0]);
      RunValid(Next(s, events[0]), events[1..]);
    }
  }

  lemma ReachableValid(s: System)
    requires Reachable(s)
    ensures Valid(s)
  {
    var events: seq<Event> :| s == Run(Start(), events);
    RouterSteps(NO_PEERS, 0, BusItself);
    RunValid(Start(), events);
  }

  /** The recorded moments are those of the states the run went through. */
  lemma {:induction false} MomentsOfRun(s: System, events: seq<Event>, i: nat)
    requires i < |Run(s, events).moments|
    ensures |Run(s, events).moments| == |s.moments| + |events|
    ensures i < |s.moments| ==> Run(s, events).moments[i] == s.moments[i]
    ensures i >= |s.moments| ==>
              Run(s, events).moments[i] == MomentOf(Run(s, events[..i - |s.moments| + 1]))
    decreases |events|
  {
    if events != [] {
      var next := Next(s, events[0]);
      MomentsOfRun(next, events[1..], i);
      if i >= |s.moments| {
        var j := i - |s.moments| + 1;
        assert events[..j][0] == events[0] && events[..j][1..] == events[1..][..j - 1];
        if j == 1 { assert events[1..][..0] == []; }
      }
    }
  }

  // ---------------------------------------------------------------- what a caller can rely on

  /**
   End-to-end binding. A call that returns successfully was answered by exactly
   the peer it was bound to: the unique name the caller gave, or the owner the
   broker itself named. A call to the bus was answered by the broker itself, and
   a confidential call confidentially.
   */
  lemma ReplyIsFromBoundPeer(s: System, k: nat, d: Delivery)
    requires Reachable(s) && k in s.c.calls && s.c.calls[k].phase == Returned(Some(d))
    ensures d.message.kind == MethodReturn
    ensures s.c.calls[k].request.confidential.Yes? ==> d.message.confidential.Yes?
    ensures var call := s.c.calls[k];
      match call.request.destination
      case None => false
      case Some(BusItself) => d.origin == FromBroker
      case Some(Unique(id)) => d.origin == FromPeer(id)
      case Some(WellKnown(_)) =>
        && d.origin.FromPeer? && call.bound == Some(Unique(d.origin.id)) && call.namer == Some(FromBroker)
        && (call.request.expected.Some? ==> call.request.expected == Some(Unique(d.origin.id)))
  {
    ReachableValid(s);
    assert CallFits(s.c, s.moments, k, s.c.calls[k]);
  }

  /** The call has taken its own serial, to a destination given by name. */
  predicate CalledByName(s: System, k: nat) {
    k in s.c.calls && s.c.calls[k].own.Some? && NeedsLookup(s.c.calls[k].request)
  }

  lemma BoundWasOwned(s: System, k: nat)
    requires Reachable(s) && CalledByName(s, k)
    ensures var call := s.c.calls[k];
      && call.bound.Some? && call.lookup.Some?
      && OwnedBetween(s.moments, call.lookup.value, call.own.value,
                      call.request.destination.value, call.bound.value)
  {
    ReachableValid(s);
    assert CallFits(s.c, s.moments, k, s.c.calls[k]);
  }

  lemma OwnedInRun(s: System, events: seq<Event>, after: nat, before: nat, name: BusName, owner: BusName)
    returns (i: nat)
    requires s.moments == [Moment(s.router, s.c.serial)]
    requires OwnedBetween(Run(s, events).moments, after, before, name, owner)
    ensures i <= |events|
    ensures OwnedAt(MomentOf(Run(s, events[..i])), after, before, name, owner)
  {
    var j :| 0 <= j < |Run(s, events).moments| && OwnedAt(Run(s, events).moments[j], after, before, name, owner);
    MomentsOfRun(s, events, j);
    i := j;
    assert events[..0] == [];
  }

  /**
   A call by name is bound to a peer that owned that name while the call was being
   negotiated: in a state `i` of the same run in which the lookup had its serial and
   the call itself had not. A peer that had lost the name before the call asked for
   it, and did not regain it, is never the answer.
   */
  lemma BoundPeerOwnedName(events: seq<Event>, k: nat) returns (i: nat)
    requires CalledByName(Run(Start(), events), k)
    ensures i <= |events|
    ensures var (call, asked) := (Run(Start(), events).c.calls[k], Run(Start(), events[..i]));
      && call.bound.Some? && call.lookup.Some?
      && call.lookup.value < asked.c.serial <= call.own.value
      && OwnerOf(asked.router, call.request.destination.value) == call.bound
  {
    var s := Run(Start(), events);
    BoundWasOwned(s, k);
    var call := s.c.calls[k];
    i := OwnedInRun(Start(), events, call.lookup.value, call.own.value,
                    call.request.destination.value, call.bound.value);
  }

  /** What is queued or on the wire under a call's own serial can only reach the peer it is bound to. */
  lemma CallReachesOnlyBound(s: System, k: nat, m: Message, r: Router, admitted: bool)
    requires Reachable(s) && k in s.c.calls && s.c.calls[k].own == Some(m.serial)
    requires m in s.c.outbox + s.wire && RouterFits(r)
    requires Route(r, s.c.unique, m, admitted).ToPeer?
    ensures s.c.calls[k].bound == Some(Unique(Route(r, s.c.unique, m, admitted).id))
  {
    ReachableValid(s);
    var call := s.c.calls[k];
    assert CallFits(s.c, s.moments, k, call);
    assert m == OwnMessage(call.request, call.bound, m.serial);
    if call.bound.Some? {
      GuardedCallReachesOnlyBound(r, s.c.unique, m, admitted, call.bound.value.id);
    }
  }

  /** A reply takes its waiter out of the map exactly when the waiter accepts it; nothing else changes. */
  lemma RejectedReplyLeavesWaiter(c: Connection, d: Delivery, serial: nat)
    requires serial in c.pending
    ensures serial !in Dispatch(c, d).pending <==>
              && (d.message.kind == MethodReturn || d.message.kind == ErrorReply)
              && d.message.replySerial == Some(serial) && Accepts(c.pending[serial], d.message, true)
    ensures serial in Dispatch(c, d).pending ==>
              Dispatch(c, d).pending[serial] == c.pending[serial]
              && (serial in c.slots ==>
                    serial in Dispatch(c, d).slots && Dispatch(c, d).slots[serial] == c.slots[serial])
  {
  }

  /** Serials of different calls differ, and a negotiated call's serial follows its lookup's. */
  lemma SerialsDistinct(s: System, k: nat, j: nat)
    requires Reachable(s) && k in s.c.calls && j in s.c.calls
    ensures k != j && LegOf(s.c.calls[k]).Some? && LegOf(s.c.calls[j]).Some? ==>
              LegOf(s.c.calls[k]).value.serial != LegOf(s.c.calls[j]).value.serial
    ensures k != j && s.c.calls[k].own.Some? ==> s.c.calls[k].own != s.c.calls[j].own
    ensures s.c.calls[k].own.Some? && NeedsLookup(s.c.calls[k].request) ==>
              s.c.calls[k].lookup.Some? && s.c.calls[k].lookup.value < s.c.calls[k].own.value
  {
    ReachableValid(s);
    assert CallFits(s.c, s.moments, k, s.c.calls[k]) && CallFits(s.c, s.moments, j, s.c.calls[j]);
  }

  /** A call that has returned, however it ended, has no serial left in the pending map. */
  lemma ReturnedCallNotPending(s: System, k: nat, serial: nat)
    requires Reachable(s) && k in s.c.calls && s.c.calls[k].phase.Returned?
    ensures !(serial in s.c.pending && serial in s.c.owner && s.c.owner[serial] == k)
    ensures serial in s.c.pending ==> serial in s.c.owner && s.c.owner[serial] in s.c.calls
  {
    ReachableValid(s);
    assert serial in s.c.pending ==> PendingFits(s.c, serial);
  }

  /** Each wait resolves at most once: a completed channel is never written again. */
  lemma ResolvedOnce(s: System, e: Event, serial: nat)
    requires Reachable(s) && serial in s.c.slots && s.c.slots[serial] != Empty
    ensures serial in Next(s, e).c.slots && Next(s, e).c.slots[serial] == s.c.slots[serial]
  {
    ReachableValid(s);
    if serial in s.c.pending { PendingIsEmpty(s.c, s.moments, serial); }
    if e.Proceed? {
      CallStepSlots(s.c, e.k, e.expires);
    } else {
      OthersResolveOnce(s, e, serial);
    }
  }

  lemma OthersResolveOnce(s: System, e: Event, serial: nat)
    requires serial in s.c.slots && serial !in s.c.pending && !e.Proceed?
    ensures serial in Next(s, e).c.slots && Next(s, e).c.slots[serial] == s.c.slots[serial]
  {
  }

  /** A call's own steps only ever open the channel of the next serial. */
  lemma CallStepSlots(c: Connection, k: nat, expires: bool)
    ensures CallStep(c, k, expires).slots == c.slots || CallStep(c, k, expires).slots == c.slots[c.serial := Empty]
  {
    if k in c.calls && LegOf(c.calls[k]).Some? {
      assert CallStep(c, k, expires).slots == c.slots;
    }
  }

  /** A call that has returned stays as it is. */
  lemma ReturnedIsFinal(s: System, e: Event, k: nat)
    requires k in s.c.calls && s.c.calls[k].phase.Returned?
    ensures k in Next(s, e).c.calls && Next(s, e).c.calls[k] == s.c.calls[k]
  {
    match e
    case Proceed(j, expires) => CallStepKeepsReturned(s.c, j, expires, k);
    case _ =>
  }

  lemma CallStepKeepsReturned(c: Connection, j: nat, expires: bool, k: nat)
    requires k in c.calls && c.calls[k].phase.Returned?
    ensures k in CallStep(c, j, expires).calls && CallStep(c, j, expires).calls[k] == c.calls[k]
  {
    if j in c.calls && j != k && LegOf(c.calls[j]).Some? && LegOf(c.calls[j]).value.stage == Waiting {
      var leg := LegOf(c.calls[j]).value;
      assert k in Finish(c, j, leg).calls && Finish(c, j, leg).calls[k] == c.calls[k];
    }
  }

  lemma PendingIsEmpty(c: Connection, moments: seq<Moment>, serial: nat)
    requires ConnectionFits(c, moments) && serial in c.pending
    ensures serial in c.slots && c.slots[serial] == Empty
  {
    assert PendingFits(c, serial);
    assert CallFits(c, moments, c.owner[serial], c.calls[c.owner[serial]]);
  }

  /** When the link is lost every registered waiter is released, and nobody else is disturbed. */
  lemma LinkLossReleasesAll(s: System, serial: nat)
    requires Reachable(s) && s.c.reading.Yes?
    ensures Next(s, LinkLost).c.pending == map[]
    ensures serial in s.c.pending ==> serial in Next(s, LinkLost).c.slots && Next(s, LinkLost).c.slots[serial] == Closed
    ensures serial in s.c.slots && serial !in s.c.pending ==>
              serial in Next(s, LinkLost).c.slots && Next(s, LinkLost).c.slots[serial] == s.c.slots[serial]
  {
    ReachableValid(s);
    if serial in s.c.pending { PendingIsEmpty(s.c, s.moments, serial); }
  }
}
