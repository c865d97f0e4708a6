/**
 Firmware state that outlives one immediate reply: the shared remote request and the incremental
 signing operation. `None` results stand for the exceptions the source raises.
 */
module Leases {
  import opened Wire
  import opened Protocol

  // ----- Remote request -----

  datatype Kind = Login | Status | Trace | Telemetry | Binary | PathDiscovery | Anonymous

  datatype Remote =
    | Vacant
    | Held(owner: Option<int>, kind: Kind, command: Bytes, peer: Bytes, tag: nat, auth: nat,
           deadline: Option<Time>, tentative: bool)

  function Expire(r: Remote, now: Time): Remote {
    if r.Held? && r.deadline.Some? && now >= r.deadline.value then Vacant else r
  }

  function Classify(owner: int, c: Bytes): (r: Remote)
    requires Leasable(c)
    ensures r.Held? && r.owner == Some(owner) && r.command == c && r.deadline.None? && r.tentative
  {
    if c[0] == CMD_SEND_LOGIN then Held(Some(owner), Login, c, c[1..7], 0, 0, None, true)
    else if c[0] == CMD_SEND_STATUS_REQ then Held(Some(owner), Status, c, c[1..7], 0, 0, None, true)
    else if c[0] == CMD_SEND_TRACE_PATH then Held(Some(owner), Trace, c, [], U32(c, 1), U32(c, 5), None, true)
    else if c[0] == CMD_SEND_TELEMETRY_REQ then Held(Some(owner), Telemetry, c, c[4..10], 0, 0, None, true)
    else if c[0] == CMD_SEND_BINARY_REQ then Held(Some(owner), Binary, c, c[1..7], 0, 0, None, true)
    else if c[0] == CMD_SEND_PATH_DISCOVERY_REQ then Held(Some(owner), PathDiscovery, c, c[2..8], 0, 0, None, true)
    else Held(Some(owner), Anonymous, c, c[1..7], 0, 0, None, true)
  }

  /** A lease still carries what its command asked for; all but a trace learn their tag from SENT. */
  predicate Stems(r: Remote)
    requires r.Held?
  {
    && Leasable(r.command)
    && var k := Classify(0, r.command);
       r.kind == k.kind && r.peer == k.peer && r.auth == k.auth && (r.kind.Trace? ==> r.tag == k.tag)
  }

  datatype Reservation = Reserved | Conflict | Unfit

  function Reserve(r: Remote, owner: int, c: Bytes, now: Time): (Remote, Reservation) {
    var live := Expire(r, now);
    if live.Held? then (live, Conflict)
    else if !Leasable(c) then (live, Unfit)
    else (Classify(owner, c), Reserved)
  }

  function AcceptRemote(r: Remote, sent: Bytes, now: Time): Option<Remote> {
    if r.Held? && r.tentative && |sent| == 10 && sent[0] == RESP_SENT then
      Some(r.(tag := if r.kind.Trace? then r.tag else U32(sent, 2),
              deadline := Some(RetainedDeadline(now, U32(sent, 6))), tentative := false))
    else None
  }

  function Disown(r: Remote, deadline: Time): Option<Remote> {
    if r.Held? && r.tentative then Some(r.(owner := None, deadline := Some(deadline), tentative := false)) else None
  }

  function RemoteOwnerGone(r: Remote, id: int): Remote {
    if r.Held? && r.owner == Some(id) then r.(owner := None) else r
  }

  /** Long enough for the fields a match reads. */
  predicate Readable(kind: Kind, p: Bytes) {
    match kind
    case Login => Opcode(p) == PUSH_LOGIN_SUCCESS || Opcode(p) == PUSH_LOGIN_FAILURE ==> |p| >= 8
    case Status => Opcode(p) == PUSH_STATUS_RESPONSE ==> |p| >= 8
    case Telemetry => Opcode(p) == PUSH_TELEMETRY_RESPONSE ==> |p| >= 8
    case PathDiscovery => Opcode(p) == PUSH_PATH_DISCOVERY_RESPONSE ==> |p| >= 8
    case Binary | Anonymous => Opcode(p) == PUSH_BINARY_RESPONSE ==> |p| >= 6
    case Trace => Opcode(p) == PUSH_TRACE_DATA ==> |p| >= 12
  }

  predicate Matches(r: Remote, p: Bytes)
    requires r.Held? && Readable(r.kind, p)
  {
    match r.kind
    case Login => (Opcode(p) == PUSH_LOGIN_SUCCESS || Opcode(p) == PUSH_LOGIN_FAILURE) && p[2..8] == r.peer
    case Status => Opcode(p) == PUSH_STATUS_RESPONSE && p[2..8] == r.peer
    case Telemetry => Opcode(p) == PUSH_TELEMETRY_RESPONSE && p[2..8] == r.peer
    case PathDiscovery => Opcode(p) == PUSH_PATH_DISCOVERY_RESPONSE && p[2..8] == r.peer
    case Binary | Anonymous => Opcode(p) == PUSH_BINARY_RESPONSE && U32(p, 2) == r.tag
    case Trace => Opcode(p) == PUSH_TRACE_DATA && U32(p, 4) == r.tag && U32(p, 8) == r.auth
  }

  datatype MatchResult = NoMatch | Matched(owner: Option<int>, command: Bytes, tag: nat) | Unreadable

  function MatchPush(r: Remote, p: Bytes, now: Time): (Remote, MatchResult) {
    var live := Expire(r, now);
    if live.Vacant? || live.tentative then (live, NoMatch)
    else if !Readable(live.kind, p) then (live, Unreadable)
    else if Matches(live, p) then (Vacant, Matched(live.owner, live.command, live.tag))
    else (live, NoMatch)
  }

  // ----- Signing -----

  /** `chunks` is history: the sizes of the data commands accepted since the start. */
  datatype Signing =
    | Free
    | Busy(owner: int, limit: Option<nat>, accepted: nat, tentative: bool, last: Time,
           pending: Option<nat>, finishing: bool, chunks: seq<nat>)

  function ExpireSigning(g: Signing, now: Time, timeout: Time): Signing {
    if g.Busy? && now >= g.last + timeout then Free else g
  }

  function SigningOwnerGone(g: Signing, id: int): Signing {
    if g.Busy? && g.owner == id then Free else g
  }

  function StartSigning(g: Signing, id: int, now: Time, timeout: Time): (Signing, bool) {
    var live := ExpireSigning(g, now, timeout);
    if live.Busy? && live.owner != id then (live, false)
    else (Busy(id, None, 0, true, now, None, false, []), true)
  }

  function AcceptStart(g: Signing, p: Bytes, now: Time): Option<Signing> {
    if g.Busy? && g.tentative && |p| == 6 && p[0] == RESP_SIGN_START then
      Some(g.(limit := Some(U32(p, 2)), tentative := false, last := now))
    else None
  }

  /** No start was accepted and no chunk, though the operation may have ended or another begun. */
  ghost predicate NothingSigned(g: Signing, g': Signing) {
    || g'.Free? || (g'.tentative && g'.chunks == [])
    || (g.Busy? && g'.tentative == g.tentative && g'.owner == g.owner && g'.chunks == g.chunks)
  }

  predicate UsableBy(g: Signing, id: int) {
    g.Busy? && g.owner == id && !g.tentative && g.limit.Some? && g.pending.None? && !g.finishing
  }

  /** Admission of a data or finish command: a refusal reason, if refused. */
  function BeginData(g: Signing, id: int, c: Bytes, now: Time, timeout: Time): (Signing, Option<Byte>) {
    var live := ExpireSigning(g, now, timeout);
    if !UsableBy(live, id) then (live, Some(ERR_BAD_STATE))
    else if |c| - 1 > live.limit.value - live.accepted then (live, Some(ERR_TABLE_FULL))
    else (live.(pending := Some(if |c| == 0 then 0 else |c| - 1), last := now), None)
  }

  function BeginFinish(g: Signing, id: int, now: Time, timeout: Time): (Signing, Option<Byte>) {
    var live := ExpireSigning(g, now, timeout);
    if !UsableBy(live, id) then (live, Some(ERR_BAD_STATE))
    else (live.(finishing := true, last := now), None)
  }

  function DataResponse(g: Signing, p: Bytes, now: Time): Option<Signing> {
    if !g.Busy? || g.pending.None? || !IsScopeReply(p) then None
    else if p[0] == RESP_OK then
      Some(g.(pending := None, accepted := g.accepted + g.pending.value, last := now,
              chunks := g.chunks + [g.pending.value]))
    else if p[1] == ERR_BAD_STATE then Some(Free)
    else Some(g.(pending := None, last := now))
  }

  function FinishResponse(g: Signing, p: Bytes, now: Time): Option<Signing> {
    if !g.Busy? || !g.finishing then None
    else if |p| == 65 && p[0] == RESP_SIGNATURE then Some(Free)
    else if !(|p| == 2 && p[0] == RESP_ERR) then None
    else if p[1] == ERR_BAD_STATE then Some(Free)
    else Some(g.(finishing := false, last := now))
  }
}
