/**
 The companion protocol as the broker reads it: opcodes, command descriptors, and the rules
 that decide whether a reply belongs to a command and completes it. The command table is a
 parameter, so what is proved of the broker holds for every table meeting `TableOk`;
 `NativeTable` discharges that for the table of the repository.
 */
module Protocol {
  import opened Wire

  const MAX_PAYLOAD: nat := 176

  const CMD_SEND_TXT_MSG: Byte := 2
  const CMD_SYNC_NEXT_MESSAGE: Byte := 10
  const CMD_REBOOT: Byte := 19
  const CMD_DEVICE_QUERY: Byte := 22
  const CMD_EXPORT_PRIVATE_KEY: Byte := 23
  const CMD_IMPORT_PRIVATE_KEY: Byte := 24
  const CMD_SEND_LOGIN: Byte := 26
  const CMD_SEND_STATUS_REQ: Byte := 27
  const CMD_SIGN_START: Byte := 33
  const CMD_SIGN_DATA: Byte := 34
  const CMD_SIGN_FINISH: Byte := 35
  const CMD_SEND_TRACE_PATH: Byte := 36
  const CMD_SEND_TELEMETRY_REQ: Byte := 39
  const CMD_SEND_BINARY_REQ: Byte := 50
  const CMD_FACTORY_RESET: Byte := 51
  const CMD_SEND_PATH_DISCOVERY_REQ: Byte := 52
  const CMD_SET_FLOOD_SCOPE_KEY: Byte := 54
  const CMD_SEND_ANON_REQ: Byte := 57

  const RESP_OK: Byte := 0x00
  const RESP_ERR: Byte := 0x01
  const RESP_CONTACTS_START: Byte := 0x02
  const RESP_CONTACT: Byte := 0x03
  const RESP_END_OF_CONTACTS: Byte := 0x04
  const RESP_SELF_INFO: Byte := 0x05
  const RESP_SENT: Byte := 0x06
  const RESP_CONTACT_MESSAGE: Byte := 0x07
  const RESP_CHANNEL_MESSAGE: Byte := 0x08
  const RESP_NO_MORE_MESSAGES: Byte := 0x0a
  const RESP_DEVICE_INFO: Byte := 0x0d
  const RESP_DISABLED: Byte := 0x0f
  const RESP_CONTACT_MESSAGE_V3: Byte := 0x10
  const RESP_CHANNEL_MESSAGE_V3: Byte := 0x11
  const RESP_CHANNEL_INFO: Byte := 0x12
  const RESP_SIGN_START: Byte := 0x13
  const RESP_SIGNATURE: Byte := 0x14
  const RESP_STATS: Byte := 0x18
  const RESP_CHANNEL_DATA: Byte := 0x1b

  const PUSH_ADVERT: Byte := 0x80
  const PUSH_SEND_CONFIRMED: Byte := 0x82
  const PUSH_MSG_WAITING: Byte := 0x83
  const PUSH_LOGIN_SUCCESS: Byte := 0x85
  const PUSH_LOGIN_FAILURE: Byte := 0x86
  const PUSH_STATUS_RESPONSE: Byte := 0x87
  const PUSH_TRACE_DATA: Byte := 0x89
  const PUSH_TELEMETRY_RESPONSE: Byte := 0x8b
  const PUSH_BINARY_RESPONSE: Byte := 0x8c
  const PUSH_PATH_DISCOVERY_RESPONSE: Byte := 0x8d

  const ERR_UNSUPPORTED_CMD: Byte := 1
  const ERR_TABLE_FULL: Byte := 3
  const ERR_BAD_STATE: Byte := 4
  const ERR_ILLEGAL_ARG: Byte := 6

  const UPSTREAM_APP_TARGET: Byte := 14
  const MAX_EXPOSED_PROTOCOL_LEVEL: Byte := 14
  const DEVICE_INFO_SIZE: nat := 82

  /** SET_FLOOD_SCOPE_KEY mode zero without a key: the configured default scope. */
  const DEFAULT_SCOPE: Bytes := [CMD_SET_FLOOD_SCOPE_KEY, 0]
  const POP: Bytes := [CMD_SYNC_NEXT_MESSAGE]
  const OK: Bytes := [RESP_OK]
  const NO_MORE: Bytes := [RESP_NO_MORE_MESSAGES]
  const WAITING: Bytes := [PUSH_MSG_WAITING]
  const DISABLED: Bytes := [RESP_DISABLED]

  function Err(reason: Byte): Bytes {
    [RESP_ERR, reason]
  }

  datatype Grammar = Single | Contacts | Inbox | SelfTelemetry | Disconnecting

  datatype Descriptor = Descriptor(
    grammar: Grammar, success: set<Byte>, scopeSend: bool, remoteLease: bool, signing: bool,
    maintenance: bool, verifyIndex: bool, verifySubtype: bool)

  /** Command lookup, command layouts, and reply layouts of one protocol profile. */
  datatype Table = Table(
    descriptor: Bytes -> Option<Descriptor>, commandShape: Bytes -> bool, responseShape: Bytes -> bool)

  function Opcode(p: Bytes): int {
    if p == [] then -1 else p[0]
  }

  /** The native error reason for a malformed command, if it is malformed. */
  function CommandError(t: Table, p: Bytes): Option<Byte> {
    if t.descriptor(p).None? then Some(ERR_UNSUPPORTED_CMD)
    else if !t.commandShape(p) then Some(ERR_ILLEGAL_ARG)
    else None
  }

  predicate ValidCommand(t: Table, p: Bytes) {
    CommandError(t, p).None?
  }

  predicate PlainDm(c: Bytes) {
    |c| >= 2 && c[0] == CMD_SEND_TXT_MSG && c[1] == 0
  }

  /** The one command that is answered by a push-coded frame: telemetry of the companion itself. */
  predicate IsSelfRequest(c: Bytes) {
    |c| == 4 && c[0] == CMD_SEND_TELEMETRY_REQ
  }

  predicate IsPush(p: Bytes) {
    p != [] && p[0] >= PUSH_ADVERT
  }

  /** Whether `p` is an acceptable next reply to `command`; false is a protocol error. */
  predicate ValidResponse(t: Table, d: Descriptor, p: Bytes, command: Bytes, started: bool) {
    && 1 <= |p| <= MAX_PAYLOAD
    && if p[0] == RESP_ERR then |p| == 2 else
       && p[0] in d.success
       && t.responseShape(p)
       && (d.grammar.Contacts? ==>
             if started then p[0] == RESP_CONTACT || p[0] == RESP_END_OF_CONTACTS
             else p[0] == RESP_CONTACTS_START)
       && (p[0] == RESP_CHANNEL_INFO && d.verifyIndex ==> |p| > 1 && |command| > 1 && p[1] == command[1])
       && (p[0] == RESP_STATS && !(p[0] == RESP_CHANNEL_INFO && d.verifyIndex) && d.verifySubtype ==>
             |p| > 1 && |command| > 1 && p[1] == command[1])
  }

  /** Whether a valid reply ends the transaction; only the contacts stream has several replies. */
  predicate Completes(d: Descriptor, p: Bytes) {
    d.grammar.Contacts? ==> Opcode(p) == RESP_ERR || Opcode(p) == RESP_END_OF_CONTACTS
  }

  predicate IsScopeReply(p: Bytes) {
    p == OK || (|p| == 2 && p[0] == RESP_ERR)
  }

  /** The inbox results that carry a message. */
  predicate IsItem(t: Table, p: Bytes) {
    && p != []
    && t.responseShape(p)
    && p[0] in {RESP_CONTACT_MESSAGE, RESP_CHANNEL_MESSAGE, RESP_CONTACT_MESSAGE_V3, RESP_CHANNEL_MESSAGE_V3,
                RESP_CHANNEL_DATA}
  }

  /** DEVICE_QUERY always goes upstream with the mux's own application target. */
  function Forwarded(c: Bytes): Bytes {
    if |c| >= 2 && c[0] == CMD_DEVICE_QUERY then c[1 := UPSTREAM_APP_TARGET] else c
  }

  /** What a client sees of a reply: DEVICE_INFO is cut to its known record and capped level. */
  function Visible(p: Bytes): Bytes {
    if |p| >= DEVICE_INFO_SIZE && p[0] == RESP_DEVICE_INFO then
      p[..DEVICE_INFO_SIZE][1 := if p[1] < MAX_EXPOSED_PROTOCOL_LEVEL then p[1] else MAX_EXPOSED_PROTOCOL_LEVEL]
    else p
  }

  /** V3 inbox texts lose their three-byte reception prefix for clients that target older versions. */
  function Downgrade(p: Bytes, target: Byte): Bytes {
    if target >= 3 || |p| < 4 then p
    else if p[0] == RESP_CONTACT_MESSAGE_V3 then [RESP_CONTACT_MESSAGE] + p[4..]
    else if p[0] == RESP_CHANNEL_MESSAGE_V3 then [RESP_CHANNEL_MESSAGE] + p[4..]
    else p
  }

  // ----- What the broker relies on -----

  const PEER_RESULTS: set<Byte> := {PUSH_LOGIN_SUCCESS, PUSH_LOGIN_FAILURE, PUSH_STATUS_RESPONSE,
                                    PUSH_TELEMETRY_RESPONSE, PUSH_PATH_DISCOVERY_RESPONSE}

  /** Layout facts about replies and pushes. */
  ghost predicate ShapesOk(t: Table) {
    forall p | t.responseShape(p) ::
      && 1 <= |p| <= MAX_PAYLOAD
      && (p[0] == RESP_OK || p[0] == RESP_NO_MORE_MESSAGES ==> |p| == 1)
      && (p[0] == RESP_ERR ==> |p| == 2)
      && (p[0] == RESP_SENT ==> |p| == 10)
      && (p[0] == RESP_SIGN_START ==> |p| == 6)
      && (p[0] == RESP_SIGNATURE ==> |p| == 65)
      && (p[0] == PUSH_SEND_CONFIRMED ==> |p| == 9)
      && (p[0] in PEER_RESULTS ==> |p| >= 8)
      && (p[0] == PUSH_TRACE_DATA ==> |p| >= 12)
      && (p[0] == PUSH_BINARY_RESPONSE ==> |p| >= 6)
      && (p[0] == RESP_CONTACT_MESSAGE_V3 || p[0] == RESP_CHANNEL_MESSAGE_V3 ==> |p| >= 4)
  }

  /** Facts about one well-formed command and its descriptor. */
  ghost predicate CommandOk(t: Table, c: Bytes, d: Descriptor) {
    && c != []
    && (c[0] != CMD_SYNC_NEXT_MESSAGE ==> RESP_NO_MORE_MESSAGES !in d.success)
    && ((forall b | b in d.success :: b < PUSH_ADVERT) || (IsSelfRequest(c) && !d.grammar.Contacts?))
    && (d.maintenance ==> !d.scopeSend && !d.remoteLease && !d.signing && !PlainDm(c) && !d.grammar.Contacts?)
    && (d.remoteLease ==>
          && d.success == {RESP_SENT} && !d.signing && !PlainDm(c) && !d.grammar.Contacts?
          && c[0] !in {CMD_SIGN_START, CMD_SIGN_DATA, CMD_SIGN_FINISH})
    && (PlainDm(c) ==> d.success == {RESP_SENT} && !d.signing && !d.grammar.Contacts?)
    && (d.signing <==> c[0] in {CMD_SIGN_START, CMD_SIGN_DATA, CMD_SIGN_FINISH})
    && (d.signing ==> !d.scopeSend && !d.grammar.Contacts?)
    && (c[0] == CMD_SIGN_START ==> d.success == {RESP_SIGN_START})
    && (c[0] == CMD_SIGN_DATA ==> d.success == {RESP_OK} && |c| >= 2)
    && (c[0] == CMD_SIGN_FINISH ==> d.success == {RESP_SIGNATURE})
    && (c[0] == CMD_DEVICE_QUERY ==> |c| >= 2 && !d.grammar.Contacts?)
    && (c[0] == CMD_SYNC_NEXT_MESSAGE ==>
          && !d.scopeSend && !d.remoteLease && !d.signing && !d.maintenance && !d.grammar.Contacts?
          && d.success == {RESP_CONTACT_MESSAGE, RESP_CHANNEL_MESSAGE, RESP_NO_MORE_MESSAGES,
                           RESP_CONTACT_MESSAGE_V3, RESP_CHANNEL_MESSAGE_V3, RESP_CHANNEL_DATA})
  }

  ghost predicate TableOk(t: Table) {
    && ShapesOk(t)
    && ValidCommand(t, POP)
    && (forall c | ValidCommand(t, c) :: CommandOk(t, c, t.descriptor(c).value))
    && (forall c | ValidCommand(t, c) && t.descriptor(c).value.remoteLease :: Leasable(c))
  }

  /** The remote commands, long enough for the fields a lease reads from them. */
  predicate Leasable(c: Bytes) {
    && c != []
    && (|| (c[0] in {CMD_SEND_LOGIN, CMD_SEND_STATUS_REQ, CMD_SEND_BINARY_REQ, CMD_SEND_ANON_REQ} && |c| >= 7)
        || (c[0] == CMD_SEND_TRACE_PATH && |c| >= 11)
        || (c[0] == CMD_SEND_TELEMETRY_REQ && |c| != 4 && |c| >= 10)
        || (c[0] == CMD_SEND_PATH_DISCOVERY_REQ && |c| >= 8))
  }
}
