/** The logical identity of a received text: what stays the same over retries, paths and versions. */
module TextIdentity {
  import opened Wire
  import opened Protocol
  import opened NativeTable

  /** What identifies a received text. */
  datatype Text =
    | Direct(sender: Bytes, kind: Byte, stamp: nat, body: Bytes)
    | Channel(channel: Byte, kind: Byte, stamp: nat, body: Bytes)

  /** The text a legacy frame carries after its opcode and `skip` bytes of reception data. */
  function DirectAt(p: Bytes, skip: nat): Option<Text> {
    if |p| < 13 + skip then None
    else Some(Direct(p[1 + skip..7 + skip], p[8 + skip], U32(p, 9 + skip), p[13 + skip..]))
  }

  function ChannelAt(p: Bytes, skip: nat): Option<Text> {
    if |p| < 8 + skip then None
    else Some(Channel(p[1 + skip], p[3 + skip], U32(p, 4 + skip), p[8 + skip..]))
  }

  function TextOf(p: Bytes): Option<Text> {
    if p == [] then None
    else if p[0] == RESP_CONTACT_MESSAGE then DirectAt(p, 0)
    else if p[0] == RESP_CONTACT_MESSAGE_V3 then DirectAt(p, 3)
    else if p[0] == RESP_CHANNEL_MESSAGE then ChannelAt(p, 0)
    else if p[0] == RESP_CHANNEL_MESSAGE_V3 then ChannelAt(p, 3)
    else None
  }

  // ----- The identity string -----

  const DIGITS: string := "0123456789abcdef"

  function Hex(p: Bytes): string {
    if p == [] then "" else [DIGITS[p[0] / 16], DIGITS[p[0] % 16]] + Hex(p[1..])
  }

  function Decimal(n: nat): string {
    if n < 10 then [DIGITS[n]] else Decimal(n / 10) + [DIGITS[n % 10]]
  }

  function Render(t: Text): string {
    match t
    case Direct(sender, kind, stamp, body) =>
      "direct" + ":" + (Hex(sender) + ":" + (Decimal(kind) + ":" + (Decimal(stamp) + ":" + Hex(body))))
    case Channel(channel, kind, stamp, body) =>
      "channel" + ":" + (Decimal(channel) + ":" + (Decimal(kind) + ":" + (Decimal(stamp) + ":" + Hex(body))))
  }

  function Identity(p: Bytes): Option<string> {
    if TextOf(p).None? then None else Some(Render(TextOf(p).value))
  }

  // ----- Identities are injective -----

  lemma DigitsDiffer(i: nat, j: nat)
    requires i < 16 && j < 16 && DIGITS[i] == DIGITS[j]
    ensures i == j
  {
  }

  lemma DigitIsNoColon(i: nat)
    requires i < 16
    ensures DIGITS[i] != ':'
  {
  }

  lemma {:induction false} HexHasNoColon(p: Bytes)
    ensures ':' !in Hex(p)
  {
    if p != [] {
      HexHasNoColon(p[1..]);
      DigitIsNoColon(p[0] / 16);
      DigitIsNoColon(p[0] % 16);
    }
  }

  lemma {:induction false} DecimalHasNoColon(n: nat)
    ensures ':' !in Decimal(n)
  {
    if n < 10 {
      DigitIsNoColon(n);
    } else {
      DecimalHasNoColon(n / 10);
      DigitIsNoColon(n % 10);
    }
  }

  lemma {:induction false} HexIsInjective(p: Bytes, q: Bytes)
    requires Hex(p) == Hex(q)
    ensures p == q
    decreases |p|
  {
    if p != [] && q != [] {
      var x, y := Hex(p), Hex(q);
      assert x[0] == DIGITS[p[0] / 16] && y[0] == DIGITS[q[0] / 16] && x[1] == DIGITS[p[0] % 16]
             && y[1] == DIGITS[q[0] % 16];
      DigitsDiffer(p[0] / 16, q[0] / 16);
      DigitsDiffer(p[0] % 16, q[0] % 16);
      assert x[2..] == Hex(p[1..]) && y[2..] == Hex(q[1..]);
      HexIsInjective(p[1..], q[1..]);
      assert p == [p[0]] + p[1..] && q == [q[0]] + q[1..];
    }
  }

  lemma {:induction false} DecimalIsInjective(n: nat, m: nat)
    requires Decimal(n) == Decimal(m)
    ensures n == m
    decreases n
  {
    var x, y := Decimal(n), Decimal(m);
    assert x[|x| - 1] == DIGITS[n % 10] && y[|y| - 1] == DIGITS[m % 10];
    DigitsDiffer(n % 10, m % 10);
    assert |Decimal(n / 10)| >= 1 && |Decimal(m / 10)| >= 1;
    if n >= 10 && m >= 10 {
      assert x[..|x| - 1] == Decimal(n / 10) && y[..|y| - 1] == Decimal(m / 10);
      DecimalIsInjective(n / 10, m / 10);
    }
  }

  /** The first colon of a string tells its field and its rest apart. */
  lemma FieldsSplit(x: string, y: string, x': string, y': string)
    requires x + ":" + y == x' + ":" + y' && ':' !in x && ':' !in x'
    ensures x == x' && y == y'
  {
    var s := x + ":" + y;
    assert s[|x|] == ':' && s[|x'|] == ':';
    assert forall i | 0 <= i < |x| :: s[i] == x[i];
    assert forall i | 0 <= i < |x'| :: s[i] == x'[i];
    assert |x| == |x'|;
    assert x == s[..|x|] && x' == s[..|x'|];
    assert y == s[|x| + 1..] && y' == s[|x'| + 1..];
  }

  lemma TailIsInjective(kind: Byte, stamp: nat, body: Bytes, kind': Byte, stamp': nat, body': Bytes)
    requires Decimal(kind) + ":" + (Decimal(stamp) + ":" + Hex(body)) ==
             Decimal(kind') + ":" + (Decimal(stamp') + ":" + Hex(body'))
    ensures kind == kind' && stamp == stamp' && body == body'
  {
    DecimalHasNoColon(kind);
    DecimalHasNoColon(kind');
    DecimalHasNoColon(stamp);
    DecimalHasNoColon(stamp');
    hide Decimal, Hex;
    FieldsSplit(Decimal(kind), Decimal(stamp) + ":" + Hex(body), Decimal(kind'), Decimal(stamp') + ":" + Hex(body'));
    FieldsSplit(Decimal(stamp), Hex(body), Decimal(stamp'), Hex(body'));
    DecimalIsInjective(kind, kind');
    DecimalIsInjective(stamp, stamp');
    HexIsInjective(body, body');
  }

  /** Two texts have the same identity only if they agree in class, sender or channel, type, timestamp
      and body. */
  lemma IdentityIsInjective(a: Text, b: Text)
    requires Render(a) == Render(b)
    ensures a == b
  {
    hide Decimal, Hex;
    var na, nb := if a.Direct? then "direct" else "channel", if b.Direct? then "direct" else "channel";
    var fa := if a.Direct? then Hex(a.sender) else Decimal(a.channel);
    var fb := if b.Direct? then Hex(b.sender) else Decimal(b.channel);
    var ta := Decimal(a.kind) + ":" + (Decimal(a.stamp) + ":" + Hex(a.body));
    var tb := Decimal(b.kind) + ":" + (Decimal(b.stamp) + ":" + Hex(b.body));
    assert Render(a) == na + ":" + (fa + ":" + ta) && Render(b) == nb + ":" + (fb + ":" + tb);
    FieldsSplit(na, fa + ":" + ta, nb, fb + ":" + tb);
    assert a.Direct? == b.Direct? by {
      assert |"direct"| != |"channel"|;
    }
    if a.Direct? {
      HexHasNoColon(a.sender);
      HexHasNoColon(b.sender);
      FieldsSplit(fa, ta, fb, tb);
      HexIsInjective(a.sender, b.sender);
    } else {
      DecimalHasNoColon(a.channel);
      DecimalHasNoColon(b.channel);
      FieldsSplit(fa, ta, fb, tb);
      DecimalIsInjective(a.channel, b.channel);
    }
    TailIsInjective(a.kind, a.stamp, a.body, b.kind, b.stamp, b.body);
  }

  // ----- Downgrading -----

  lemma ShiftedU32(p: Bytes, q: Bytes, i: nat)
    requires |q| + 3 == |p| && i + 4 <= |q| && 1 <= i && (forall k | 1 <= k < |q| :: q[k] == p[k + 3])
    ensures U32(q, i) == U32(p, i + 3)
  {
  }

  /** Cutting a valid V3 text for an older client leaves a valid legacy text with the same identity,
      and changes nothing else. */
  lemma DowngradePreservesText(p: Bytes, target: Byte)
    requires ResponseShape(p)
    ensures var q := Downgrade(p, target);
            && ResponseShape(q)
            && TextOf(q) == TextOf(p) && Identity(q) == Identity(p)
            && (target >= 3 || p[0] !in {RESP_CONTACT_MESSAGE_V3, RESP_CHANNEL_MESSAGE_V3} ==> q == p)
            && (target < 3 ==> q[0] !in {RESP_CONTACT_MESSAGE_V3, RESP_CHANNEL_MESSAGE_V3})
  {
    var q := Downgrade(p, target);
    if q != p {
      assert forall k | 1 <= k < |q| :: q[k] == p[k + 3];
      if p[0] == RESP_CONTACT_MESSAGE_V3 {
        ShiftedU32(p, q, 9);
        assert q[1..7] == p[4..10] && q[13..] == p[16..];
      } else {
        ShiftedU32(p, q, 4);
        assert q[8..] == p[11..];
      }
      hide U32, Render;
    }
  }
}
