/**
 Names, messages and the broker's routing decision
 (crates/tinybus/src/broker.rs, crates/tinybus/src/router.rs). The broker stamps
 every message a peer sends with the unique name it minted for that peer.
 */
module Bus {
  import opened Wrappers

  /** The bus's own name, a broker-minted unique name, or a claimed well-known name. */
  datatype BusName = BusItself | Unique(id: nat) | WellKnown(text: string)

  datatype Kind = MethodCall | MethodReturn | ErrorReply | Signal

  /** The part of a message the bus looks at: lookups carry a name, everything else is opaque. */
  datatype Body = Opaque(value: int) | Name(name: BusName)

  datatype Member = ResolveCallTarget | OtherMember

  datatype Message = Message(
    kind: Kind,
    serial: nat,
    replySerial: Option<nat>,
    sender: Option<BusName>,
    destination: Option<BusName>,
    expected: Option<BusName>,
    confidential: Bit,
    member: Member,
    body: Body)

  /** message.validate as far as routing depends on it. */
  predicate WellFormed(m: Message) {
    && (m.expected.Some? ==> m.kind == MethodCall && m.expected.value.Unique?)
    && (m.confidential.Yes? ==> m.kind != Signal && m.destination.Some?)
    && (m.kind == MethodCall ==> m.destination.Some?)
    && (m.kind == MethodReturn || m.kind == ErrorReply ==> m.replySerial.Some?)
  }

  /** method_return and error_reply address the caller the broker stamped. */
  function ReplyTo(call: Message, kind: Kind, body: Body): Message {
    Message(kind, 0, Some(call.serial), None, call.sender, None,
            if kind == MethodReturn then call.confidential else No, OtherMember, body)
  }

  // ---------------------------------------------------------------- the routing table

  /** Names to peer ids; ids start at 1 and are never reused. */
  datatype Router = Router(names: map<BusName, nat>, nextId: nat)

  const NO_PEERS := Router(map[], 0)

  ghost predicate RouterFits(r: Router) {
    && BusItself !in r.names
    && (forall id: nat :: Unique(id) in r.names ==> r.names[Unique(id)] == id && id <= r.nextId)
    && (forall name :: name in r.names ==> Unique(r.names[name]) in r.names)
  }

  function Attach(r: Router): (r': Router) {
    Router(r.names[Unique(r.nextId + 1) := r.nextId + 1], r.nextId + 1)
  }

  function Detach(r: Router, id: nat): Router {
    r.(names := map name | name in r.names && r.names[name] != id :: r.names[name])
  }

  predicate Attached(r: Router, id: nat) {
    Unique(id) in r.names
  }

  /** First writer wins; unique names and the bus's own name cannot be claimed. */
  function RequestName(r: Router, id: nat, name: BusName): Router {
    if Attached(r, id) && name.WellKnown? && name !in r.names then r.(names := r.names[name := id]) else r
  }

  function ReleaseName(r: Router, id: nat, name: BusName): Router {
    if name.WellKnown? && name in r.names && r.names[name] == id then
      r.(names := map other | other in r.names && other != name :: r.names[other])
    else r
  }

  function OwnerOf(r: Router, name: BusName): Option<BusName> {
    if name in r.names then Some(Unique(r.names[name])) else None
  }

  lemma RouterSteps(r: Router, id: nat, name: BusName)
    requires RouterFits(r)
    ensures RouterFits(Attach(r)) && !Attached(r, r.nextId + 1)
    ensures RouterFits(Detach(r, id)) && RouterFits(RequestName(r, id, name)) && RouterFits(ReleaseName(r, id, name))
  {
    assert forall other :: other in Detach(r, id).names ==> Unique(r.names[other]) in r.names;
  }

  // ---------------------------------------------------------------- routing one message

  /** What became of a message: queued for a peer, answered by the bus, or refused with an error. */
  datatype Routed =
    | ToPeer(id: nat, message: Message)
    | Answered(reply: Message)
    | Failed(error: Option<Message>)
    | Broadcast

  /** A call that could not be routed is answered in the bus's name. */
  function Failure(m: Message): Routed {
    Failed(if m.kind == MethodCall then Some(ReplyTo(m, ErrorReply, Opaque(0)).(sender := Some(BusItself)))
           else None)
  }

  /** The bus's own methods; only the lookup's answer matters to callers of other peers. */
  function BusReply(r: Router, m: Message, admitted: bool): Routed {
    var lookup := m.member == ResolveCallTarget;
    if !admitted || (lookup && !m.body.Name?) then Answered(ReplyTo(m, ErrorReply, Opaque(0)))
    else if lookup then
      (match OwnerOf(r, m.body.name)
       case Some(owner) => Answered(ReplyTo(m, MethodReturn, Name(owner)))
       case None => Answered(ReplyTo(m, ErrorReply, Opaque(0))))
    else Answered(ReplyTo(m, MethodReturn, m.body))
  }

  /**
   Broker::route. `sent` is what the peer put on its transport, `admitted` is
   the outcome of the attestation and module-availability checks.
   */
  function Route(r: Router, from: nat, sent: Message, admitted: bool): Routed {
    var m := sent.(sender := Some(Unique(from)));
    if !WellFormed(m) then Failure(sent)
    else if m.kind == Signal then Broadcast
    else if m.destination == None then Failure(sent)
    else if m.destination.value == BusItself then
      if !Attached(r, from) || (m.confidential.Yes? && m.kind == MethodCall) then Failure(sent)
      else BusReply(r, m, admitted)
    else
      var owner := OwnerOf(r, m.destination.value);
      if !Attached(r, from) || owner == None || (m.expected.Some? && owner != m.expected) || !admitted then
        Failure(sent)
      else ToPeer(owner.value.id, m)
  }

  /** What a peer receives carries its sender's minted name, whatever the sender wrote. */
  lemma StampIsSender(r: Router, from: nat, sent: Message, admitted: bool)
    requires Route(r, from, sent, admitted).ToPeer?
    ensures Route(r, from, sent, admitted).message.sender == Some(Unique(from))
    ensures Attached(r, from)
  {
  }

  /** The bus's own answers and refusals are unstamped or stamped with the bus's name. */
  lemma BusAnswersAreMarked(r: Router, from: nat, sent: Message, admitted: bool)
    ensures var routed := Route(r, from, sent, admitted);
      && (routed.Answered? ==> routed.reply.sender == None && routed.reply.replySerial == Some(sent.serial))
      && (routed.Failed? && routed.error.Some? ==>
            routed.error.value.sender == Some(BusItself) && routed.error.value.kind == ErrorReply)
  {
  }

  /** A call addressed to or guarded by a unique name reaches that peer or nobody. */
  lemma GuardedCallReachesOnlyBound(r: Router, from: nat, sent: Message, admitted: bool, bound: nat)
    requires RouterFits(r) && Route(r, from, sent, admitted).ToPeer?
    requires sent.destination == Some(Unique(bound)) || sent.expected == Some(Unique(bound))
    ensures Route(r, from, sent, admitted).id == bound
  {
  }

  /** A lookup answers the peer that owned the name when the broker handled it. */
  lemma LookupNamesOwner(r: Router, from: nat, sent: Message, admitted: bool)
    requires Route(r, from, sent, admitted).Answered? && sent.member == ResolveCallTarget
    requires Route(r, from, sent, admitted).reply.kind == MethodReturn
    ensures sent.body.Name? && OwnerOf(r, sent.body.name).Some?
    ensures Route(r, from, sent, admitted).reply.body == Name(OwnerOf(r, sent.body.name).value)
  {
  }
}
