/** The native companion profile: its command table, and the layouts of commands and replies. */
module NativeTable {
  import opened Wire
  import opened Protocol

  const SCOPE_SENDS: set<Byte> := {2, 3, 26, 27, 50, 52, 57, 62}
  const REMOTE_LEASES: set<Byte> := {26, 27, 36, 50, 52, 57}
  const SIGNING_COMMANDS: set<Byte> := {CMD_SIGN_START, CMD_SIGN_DATA, CMD_SIGN_FINISH}
  const MAINTENANCE: set<Byte> := {CMD_REBOOT, CMD_IMPORT_PRIVATE_KEY, CMD_FACTORY_RESET}
  const ANSWERED_OK: set<Byte> :=
    {3, 6, 7, 8, 9, 11, 12, 13, 14, 15, 16, 18, 21, 25, 28, 29, 32, 34, 37, 38, 41, 51, 54, 55, 58, 61, 62, 63, 65}
  const ANSWERED_SENT: set<Byte> := {2, 26, 27, 36, 50, 52, 57}

  predicate IsCommand(op: Byte) {
    1 <= op <= 43 || 50 <= op <= 52 || 54 <= op <= 66
  }

  function Successes(op: Byte): set<Byte> {
    if op in ANSWERED_OK then {RESP_OK}
    else if op in ANSWERED_SENT then {RESP_SENT}
    else match op
         case 1 => {RESP_SELF_INFO}
         case 4 => {RESP_CONTACTS_START, RESP_CONTACT, RESP_END_OF_CONTACTS}
         case 5 => {0x09}
         case 10 => {RESP_CONTACT_MESSAGE, RESP_CHANNEL_MESSAGE, RESP_NO_MORE_MESSAGES, RESP_CONTACT_MESSAGE_V3,
                     RESP_CHANNEL_MESSAGE_V3, RESP_CHANNEL_DATA}
         case 17 => {0x0b}
         case 20 => {0x0c}
         case 22 => {RESP_DEVICE_INFO}
         case 23 => {0x0e, RESP_DISABLED}
         case 24 => {RESP_OK, RESP_DISABLED}
         case 30 => {RESP_CONTACT}
         case 31 => {RESP_CHANNEL_INFO}
         case 33 => {RESP_SIGN_START}
         case 35 => {RESP_SIGNATURE}
         case 39 => {PUSH_TELEMETRY_RESPONSE}
         case 40 => {0x15}
         case 42 => {0x16}
         case 43 => {0x17}
         case 56 => {RESP_STATS}
         case 59 => {0x19}
         case 60 => {0x1a}
         case 64 => {0x1c}
         case 66 => {0x1d}
         case _ => {}
  }

  function GrammarOf(op: Byte): Grammar {
    if op == 4 then Contacts
    else if op == CMD_SYNC_NEXT_MESSAGE then Inbox
    else if op == CMD_SEND_TELEMETRY_REQ then SelfTelemetry
    else if op == CMD_REBOOT || op == CMD_FACTORY_RESET then Disconnecting
    else Single
  }

  /** Telemetry is two commands told apart by length. */
  function Lookup(p: Bytes): Option<Descriptor> {
    if p == [] || !IsCommand(p[0]) then None
    else if p[0] == CMD_SEND_TELEMETRY_REQ && |p| != 4 then
      Some(Descriptor(Single, {RESP_SENT}, true, true, false, false, false, false))
    else
      var op := p[0];
      Some(Descriptor(GrammarOf(op), Successes(op), op in SCOPE_SENDS, op in REMOTE_LEASES, op in SIGNING_COMMANDS,
                      op in MAINTENANCE, op == 31, op == 56))
  }

  const MAX_PATH: nat := 64
  const NO_PATH: Byte := 0xff

  /** Byte length of an ordinary encoded path: six bits of hop count, two of hash width. */
  function PathBytes(encoded: Byte): Option<nat> {
    var count := encoded % 64;
    var width := encoded / 64 + 1;
    if width == 4 || count * width > MAX_PATH then None else Some(count * width)
  }

  function Width(flags: Byte): nat {
    match flags % 4
    case 0 => 1
    case 1 => 2
    case 2 => 4
    case _ => 8
  }

  predicate ChannelDataShape(p: Bytes) {
    && |p| >= 5
    && (p[2] == NO_PATH || PathBytes(p[2]).Some?)
    && 3 + (if p[2] == NO_PATH then 0 else PathBytes(p[2]).value) + 2 <= |p|
  }

  predicate DefaultScopeShape(p: Bytes) {
    |p| == 1 || (|p| == 48 && p[1] != 0 && 0 in p[1..32])
  }

  predicate CommandShape(p: Bytes) {
    && 1 <= |p| <= MAX_PAYLOAD
    && var n := |p|;
       match p[0]
       case 1 => n >= 8
       case 2 => n >= 14
       case 3 => n >= 7
       case 4 => n == 1 || n >= 5
       case 5 | 7 | 10 | 20 | 23 | 33 | 35 | 40 | 43 | 59 | 60 | 64 => n >= 1
       case 6 | 37 => n >= 5
       case 8 | 12 | 22 | 31 | 34 | 38 | 58 | 66 => n >= 2
       case 9 => (n == 136 || n == 144 || n == 147 || n >= 148) && (p[35] == NO_PATH || PathBytes(p[35]).Some?)
       case 11 => n >= 11
       case 13 | 15 | 16 | 26 | 27 | 28 | 29 | 30 => n >= 33
       case 14 => n == 9 || n >= 13
       case 17 => n == 1 || n >= 33
       case 18 => n >= 99
       case 19 => n == 7 && p[1..7] == [114, 101, 98, 111, 111, 116]
       case 21 => n >= 9
       case 24 => n >= 65
       case 25 => n >= 6 && p[1] < 0x40 && 2 + p[1] + 4 <= n
       case 32 => 50 <= n < 66
       case 36 => n > 10 && n - 10 < 171 && (n - 10) % Width(p[9]) == 0 && (n - 10) / Width(p[9]) <= MAX_PATH
       case 39 => n == 4 || n >= 36
       case 41 => n >= 4 && 58 in p[1..]
       case 42 | 50 | 57 => n >= 34
       case 51 => n == 6 && p[1..6] == [114, 101, 115, 101, 116]
       case 52 => n >= 34 && p[1] == 0
       case 54 => (n == 2 && p[1] <= 1) || (n == 18 && p[1] == 0)
       case 55 => n >= 2 && p[1] >= 0x80
       case 56 => n >= 2 && p[1] <= 2
       case 61 => n >= 3 && p[1] == 0 && p[2] < 3
       case 62 => ChannelDataShape(p)
       case 63 => DefaultScopeShape(p)
       case 65 => n >= 4
       case _ => false
  }

  predicate StatsShape(p: Bytes) {
    |p| >= 2 && ((p[1] == 0 && |p| == 11) || (p[1] == 1 && |p| == 14) || (p[1] == 2 && |p| == 30))
  }

  predicate TraceShape(p: Bytes) {
    && |p| >= 13
    && p[2] % Width(p[3]) == 0
    && p[2] / Width(p[3]) <= MAX_PATH && |p| == 12 + p[2] + p[2] / Width(p[3]) + 1
  }

  predicate AdvertPathShape(p: Bytes) {
    |p| >= 6 && PathBytes(p[5]).Some? && |p| == 6 + PathBytes(p[5]).value
  }

  predicate DiscoveryShape(p: Bytes) {
    && |p| >= 10 && PathBytes(p[8]).Some?
    && var cursor := 9 + PathBytes(p[8]).value;
       cursor < |p| && PathBytes(p[cursor]).Some? && cursor + 1 + PathBytes(p[cursor]).value == |p|
  }

  /** Signed text carries four more bytes. */
  predicate ContactTextShape(p: Bytes, base: nat, kind: nat)
    requires kind < base
  {
    |p| >= base && (p[kind] != 2 || |p| >= base + 4)
  }

  predicate ResponseShape(p: Bytes) {
    && 1 <= |p| <= MAX_PAYLOAD
    && var n := |p|;
       match p[0]
       case 0x00 | 0x0a | 0x0f => n == 1
       case 0x01 => n == 2
       case 0x02 | 0x04 | 0x09 => n == 5
       case 0x03 | 0x8a => n == 148
       case 0x05 => n >= 58
       case 0x06 => n == 10
       case 0x07 => ContactTextShape(p, 13, 8)
       case 0x08 => n >= 8
       case 0x0b => n >= 2
       case 0x0c => n == 11
       case 0x0d => n >= DEVICE_INFO_SIZE && p[1] >= 13
       case 0x1d | 0x15 => n >= 1
       case 0x0e | 0x14 => n == 65
       case 0x10 => ContactTextShape(p, 16, 11)
       case 0x11 => n >= 11
       case 0x12 => n == 50
       case 0x13 => n == 6
       case 0x16 => AdvertPathShape(p)
       case 0x17 => n == 9
       case 0x18 => StatsShape(p)
       case 0x19 => n == 3
       case 0x1a => (n - 1) % 8 == 0
       case 0x1b => n >= 9 && n - 9 == p[8] as int
       case 0x1c => n == 1 || n == 48
       case 0x80 | 0x81 | 0x8f => n == 33
       case 0x82 => n == 9
       case 0x84 | 0x8e => n >= 4
       case 0x88 => n >= 3
       case 0x83 | 0x90 => n == 1
       case 0x85 => n == 8 || n >= 14
       case 0x86 | 0x8b => n >= 8
       case 0x87 => n >= 9
       case 0x8d => DiscoveryShape(p)
       case 0x89 => TraceShape(p)
       case 0x8c => n >= 6
       case _ => p[0] >= PUSH_ADVERT
  }

  function Native(): Table {
    Table(Lookup, CommandShape, ResponseShape)
  }

  lemma NativeShapesOk()
    ensures ShapesOk(Native())
  {
    hide AdvertPathShape, StatsShape;
  }

  /** The remote commands are long enough for what a lease reads from them. */
  lemma NativeLeasable(c: Bytes)
    requires CommandShape(c) && Lookup(c).Some? && Lookup(c).value.remoteLease
    ensures Leasable(c)
  {
    hide ChannelDataShape, DefaultScopeShape, Successes, GrammarOf, Width, PathBytes;
  }

  lemma NativeSizes(c: Bytes)
    requires CommandShape(c)
    ensures c != [] && (c[0] == CMD_SIGN_DATA || c[0] == CMD_DEVICE_QUERY ==> |c| >= 2)
  {
    hide ChannelDataShape, DefaultScopeShape, Width, PathBytes;
  }

  lemma NativeFlags(c: Bytes)
    requires c != [] && Lookup(c).Some?
    ensures var d := Lookup(c).value;
            && (d.maintenance ==> !d.scopeSend && !d.remoteLease && !d.signing && !PlainDm(c) && !d.grammar.Contacts?)
            && (d.remoteLease || PlainDm(c) || d.signing ==> !d.grammar.Contacts?)
            && (d.remoteLease ==> !d.signing && !PlainDm(c))
            && (d.signing <==> c[0] in SIGNING_COMMANDS) && (d.signing ==> !d.scopeSend)
            && (c[0] == CMD_SYNC_NEXT_MESSAGE ==>
                  !d.scopeSend && !d.remoteLease && !d.signing && !d.maintenance && !d.grammar.Contacts?)
            && (c[0] == CMD_DEVICE_QUERY || IsSelfRequest(c) ==> !d.grammar.Contacts?)
  {
    hide Successes;
  }

  lemma NativeReplies(c: Bytes)
    requires c != [] && Lookup(c).Some?
    ensures var d := Lookup(c).value;
            && (c[0] != CMD_SYNC_NEXT_MESSAGE ==> RESP_NO_MORE_MESSAGES !in d.success)
            && ((forall b | b in d.success :: b < PUSH_ADVERT) || IsSelfRequest(c))
            && (d.remoteLease || PlainDm(c) ==> d.success == {RESP_SENT})
            && (c[0] == CMD_SIGN_START ==> d.success == {RESP_SIGN_START})
            && (c[0] == CMD_SIGN_DATA ==> d.success == {RESP_OK})
            && (c[0] == CMD_SIGN_FINISH ==> d.success == {RESP_SIGNATURE})
            && (c[0] == CMD_SYNC_NEXT_MESSAGE ==>
                  d.success ==
                    {RESP_CONTACT_MESSAGE, RESP_CHANNEL_MESSAGE, RESP_NO_MORE_MESSAGES, RESP_CONTACT_MESSAGE_V3,
                     RESP_CHANNEL_MESSAGE_V3, RESP_CHANNEL_DATA})
  {
    hide GrammarOf;
  }

  lemma NativeCommandOk(c: Bytes)
    requires ValidCommand(Native(), c)
    ensures CommandOk(Native(), c, Lookup(c).value)
    ensures Lookup(c).value.remoteLease ==> Leasable(c)
  {
    hide CommandShape, Leasable, Lookup;
    NativeSizes(c);
    if Lookup(c).value.remoteLease {
      NativeLeasable(c);
    }
    NativeFlags(c);
    NativeReplies(c);
  }

  /** All that is proved of the broker holds of it with the native profile. */
  lemma NativeTableIsOk()
    ensures TableOk(Native())
  {
    NativeShapesOk();
    forall c | ValidCommand(Native(), c)
      ensures CommandOk(Native(), c, Native().descriptor(c).value)
      ensures Native().descriptor(c).value.remoteLease ==> Leasable(c)
    {
      NativeCommandOk(c);
    }
    hide ShapesOk, CommandOk, Leasable;
    assert CommandShape(POP);
  }
}
