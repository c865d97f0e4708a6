/**
 The lease objects as the source keeps them, with fields updated in place. Each method is proved
 against the functions that the broker model uses.
 */
module LeaseObjects {
  import opened Wire
  import opened Protocol
  import opened Leases
  import opened AckRing

  // ----- The acknowledgement ring -----

  function CountPending(slots: seq<Option<Entry>>, now: Time): nat {
    if slots == [] then 0
    else CountPending(slots[..|slots| - 1], now) + (if Pending(slots[|slots| - 1], now) then 1 else 0)
  }

  lemma {:induction false} SomePending(slots: seq<Option<Entry>>, now: Time)
    ensures CountPending(slots, now) > 0 <==> exists i | 0 <= i < |slots| :: Pending(slots[i], now)
    decreases |slots|
  {
    if slots != [] {
      var n := |slots| - 1;
      SomePending(slots[..n], now);
      if CountPending(slots[..n], now) > 0 {
        var i :| 0 <= i < n && Pending(slots[..n][i], now);
        assert Pending(slots[i], now);
      }
      if i :| 0 <= i < |slots| && Pending(slots[i], now) {
        assert i < n ==> Pending(slots[..n][i], now);
      }
    }
  }

  class DmRing {
    const slots: array<Option<Entry>>
    var next: nat

    ghost predicate Valid()
      reads this, slots
    {
      slots.Length == CAPACITY && next < CAPACITY
    }

    ghost function View(): Ring
      reads this, slots
    {
      Ring(slots[..], next)
    }

    constructor ()
      ensures Valid() && fresh(slots) && View() == EmptyRing()
    {
      slots := new Option<Entry>[CAPACITY](i => None);
      next := 0;
      new;
      assert slots[..] == EmptyRing().slots;
    }

    method Available(now: Time) returns (free: bool)
      requires Valid()
      ensures free == FreeSlot(View(), now)
    {
      var entry := slots[next];
      free := entry.None? || entry.value.settled || now >= entry.value.deadline;
    }

    /** `ok` is false where the source raises: another payload, or no free slot for a real token. */
    method Accepted(sent: Bytes, now: Time) returns (ok: bool)
      requires Valid()
      modifies this, slots
      ensures Valid()
      ensures ok <==> |sent| == 10 && sent[0] == RESP_SENT && (U32(sent, 2) != 0 ==> FreeSlot(old(View()), now))
      ensures View() == if ok then Insert(old(View()), U32(sent, 2), RetainedDeadline(now, U32(sent, 6)))
                        else old(View())
    {
      if |sent| != 10 || sent[0] != RESP_SENT {
        return false;
      }
      var token := U32(sent, 2);
      if token == 0 {
        return true;
      }
      var free := Available(now);
      if !free {
        return false;
      }
      slots[next] := Some(Entry(token, RetainedDeadline(now, U32(sent, 6)), false));
      next := (next + 1) % CAPACITY;
      return true;
    }

    /** Settles every equal token. */
    method Confirm(push: Bytes) returns (matched: bool, ok: bool)
      requires Valid()
      modifies slots
      ensures Valid() && (ok <==> |push| == 9 && push[0] == PUSH_SEND_CONFIRMED)
      ensures View() == if ok then Settle(old(View()), U32(push, 1)) else old(View())
      ensures matched <==> ok && exists i | 0 <= i < CAPACITY ::
                old(slots[i]).Some? && !old(slots[i]).value.settled && old(slots[i]).value.token == U32(push, 1)
    {
      if |push| != 9 || push[0] != PUSH_SEND_CONFIRMED {
        return false, false;
      }
      var token := U32(push, 1);
      matched := false;
      for i := 0 to CAPACITY
        invariant forall k | 0 <= k < i :: slots[k] == SettleEntry(old(slots[k]), token)
        invariant forall k | i <= k < CAPACITY :: slots[k] == old(slots[k])
        invariant matched <==> exists k | 0 <= k < i ::
                    old(slots[k]).Some? && !old(slots[k]).value.settled && old(slots[k]).value.token == token
      {
        var entry := slots[i];
        if entry.Some? && !entry.value.settled && entry.value.token == token {
          slots[i] := Some(entry.value.(settled := true));
          matched := true;
        }
      }
      assert slots[..] == Settle(old(View()), token).slots;
      return matched, true;
    }

    method PendingCount(now: Time) returns (count: nat)
      requires Valid()
      ensures count == CountPending(slots[..], now)
      ensures count > 0 <==> AnyPending(View(), now)
    {
      count := 0;
      for i := 0 to CAPACITY
        invariant count == CountPending(slots[..i], now)
      {
        assert slots[..i + 1][..i] == slots[..i];
        if Pending(slots[i], now) {
          count := count + 1;
        }
      }
      assert slots[..CAPACITY] == slots[..];
      SomePending(slots[..], now);
    }
  }

  // ----- Quarantine -----

  class CompanionRadioState {
    const ring: DmRing
    var until: Option<Time>
    var cursorUncertain: bool

    ghost predicate Valid()
      reads this, ring, ring.slots
    {
      ring.Valid() && (cursorUncertain ==> until.Some?)
    }

    ghost function View(): Radio
      reads this, ring, ring.slots
    {
      Radio(ring.View(), until, cursorUncertain)
    }

    constructor ()
      ensures Valid() && fresh(ring) && fresh(ring.slots) && View() == FreshRadio()
    {
      ring := new DmRing();
      until := None;
      cursorUncertain := false;
    }

    /** Asking lifts a quarantine that is over. */
    method IsQuarantined(now: Time) returns (shut: bool)
      requires Valid()
      modifies this
      ensures Valid() && shut == Quarantined(old(View()), now) && View() == AfterCheck(old(View()), now)
    {
      if until.None? {
        return false;
      }
      if now < until.value {
        return true;
      }
      if cursorUncertain {
        var pending := ring.PendingCount(now);
        if pending > 0 {
          return true;
        }
      }
      until := None;
      cursorUncertain := false;
      return false;
    }

    method Impose(now: Time, duration: Time, cursor: bool) returns (deadline: Time)
      requires Valid()
      modifies this
      ensures Valid() && View() == Quarantine(old(View()), now, duration, cursor) && until == Some(deadline)
    {
      var bound := now + duration;
      if until.None? || bound > until.value {
        until := Some(bound);
      }
      cursorUncertain := cursorUncertain || cursor;
      return until.value;
    }
  }

  // ----- The remote request -----

  class RemoteLease {
    var owner: Option<int>
    var kind: Option<Kind>
    var command: Bytes
    var peer: Bytes
    var tag: nat
    var auth: nat
    var deadline: Option<Time>
    var tentative: bool

    ghost function View(): Remote
      reads this
    {
      if kind.None? then Vacant else Held(owner, kind.value, command, peer, tag, auth, deadline, tentative)
    }

    ghost predicate Valid()
      reads this
    {
      kind.None? ==> owner.None? && deadline.None? && !tentative
    }

    constructor ()
      ensures Valid() && View() == Vacant
    {
      owner, kind, command, peer, tag, auth, deadline, tentative := None, None, [], [], 0, 0, None, false;
    }

    method Reset()
      modifies this
      ensures Valid() && View() == Vacant
    {
      owner, kind, command, peer, tag, auth, deadline, tentative := None, None, [], [], 0, 0, None, false;
    }

    method ExpireAt(now: Time) returns (expired: bool)
      requires Valid()
      modifies this
      ensures Valid() && View() == Expire(old(View()), now) && (expired <==> View() != old(View()))
    {
      if deadline.None? || now < deadline.value {
        return false;
      }
      Reset();
      return true;
    }

    method ReserveFor(id: int, c: Bytes, now: Time) returns (result: Reservation)
      requires Valid()
      modifies this
      ensures Valid() && (View(), result) == Reserve(old(View()), id, c, now)
    {
      var expired := ExpireAt(now);
      if kind.Some? {
        return Conflict;
      }
      if !Leasable(c) {
        return Unfit;
      }
      var r := Classify(id, c);
      owner, kind, command, peer, tag, auth := r.owner, Some(r.kind), c, r.peer, r.tag, r.auth;
      deadline := None;
      tentative := true;
      return Reserved;
    }

    method Accepted(sent: Bytes, now: Time) returns (ok: bool)
      requires Valid()
      modifies this
      ensures Valid() && (ok <==> AcceptRemote(old(View()), sent, now).Some?)
      ensures View() == if ok then AcceptRemote(old(View()), sent, now).value else old(View())
    {
      if kind.None? || !tentative || |sent| != 10 || sent[0] != RESP_SENT {
        return false;
      }
      if kind.value != Trace {
        tag := U32(sent, 2);
      }
      deadline := Some(RetainedDeadline(now, U32(sent, 6)));
      tentative := false;
      return true;
    }

    method AcceptanceUnknown(bound: Time) returns (ok: bool)
      requires Valid()
      modifies this
      ensures Valid() && (ok <==> Disown(old(View()), bound).Some?)
      ensures View() == if ok then Disown(old(View()), bound).value else old(View())
    {
      if kind.None? || !tentative {
        return false;
      }
      owner := None;
      deadline := Some(bound);
      tentative := false;
      return true;
    }

    method OwnerGone(id: int)
      requires Valid()
      modifies this
      ensures Valid() && View() == RemoteOwnerGone(old(View()), id)
    {
      if owner == Some(id) {
        owner := None;
      }
    }

    /** A match releases the lease, whether or not its owner is still there. */
    method Match(push: Bytes, now: Time) returns (result: MatchResult)
      requires Valid()
      modifies this
      ensures Valid() && (View(), result) == MatchPush(old(View()), push, now)
    {
      var expired := ExpireAt(now);
      if kind.None? || tentative {
        return NoMatch;
      }
      if !Readable(kind.value, push) {
        return Unreadable;
      }
      var live := Held(owner, kind.value, command, peer, tag, auth, deadline, tentative);
      if !Matches(live, push) {
        return NoMatch;
      }
      result := Matched(owner, command, tag);
      Reset();
    }
  }

  // ----- Signing -----

  class SigningLease {
    const timeout: Time
    var owner: Option<int>
    var limit: Option<nat>
    var accepted: nat
    var tentative: bool
    var last: Time
    var pending: Option<nat>
    var finishing: bool
    ghost var chunks: seq<nat>

    ghost function View(): Signing
      reads this
    {
      if owner.None? then Free else Busy(owner.value, limit, accepted, tentative, last, pending, finishing, chunks)
    }

    /** A start that waits for its reply has nothing behind it, and there is always room for the chunk in
        flight. */
    ghost predicate Valid()
      reads this
    {
      && (owner.None? ==> !tentative && pending.None? && !finishing && limit.None?)
      && (tentative ==> accepted == 0 && pending.None? && limit.None?)
      && (limit.Some? ==> accepted + (if pending.Some? then pending.value else 0) <= limit.value)
    }

    constructor (timeout: Time)
      ensures Valid() && View() == Free && this.timeout == timeout
    {
      this.timeout := timeout;
      owner, limit, accepted, tentative, last, pending, finishing := None, None, 0, false, 0, None, false;
      chunks := [];
    }

    method Reset()
      modifies this
      ensures Valid() && View() == Free
    {
      owner, limit, accepted, tentative, last, pending, finishing := None, None, 0, false, 0, None, false;
      chunks := [];
    }

    method ExpireAt(now: Time) returns (expired: bool)
      requires Valid()
      modifies this
      ensures Valid() && View() == ExpireSigning(old(View()), now, timeout) && (expired <==> View() != old(View()))
    {
      if owner.None? || now < last + timeout {
        return false;
      }
      Reset();
      return true;
    }

    /** `raised` says that the source raises an exception: the command is not of that kind. */
    method Start(id: int, c: Bytes, now: Time) returns (ok: bool, raised: bool)
      requires Valid()
      modifies this
      ensures Valid() && (raised <==> |c| < 1 || c[0] != CMD_SIGN_START)
      ensures if raised then View() == old(View()) else (View(), ok) == StartSigning(old(View()), id, now, timeout)
    {
      if |c| < 1 || c[0] != CMD_SIGN_START {
        return false, true;
      }
      var expired := ExpireAt(now);
      if owner.Some? && owner.value != id {
        return false, false;
      }
      owner, limit, accepted, pending, finishing, tentative, last := Some(id), None, 0, None, false, true, now;
      chunks := [];
      return true, false;
    }

    method AcceptedStart(response: Bytes, now: Time) returns (ok: bool)
      requires Valid()
      modifies this
      ensures Valid() && (ok <==> AcceptStart(old(View()), response, now).Some?)
      ensures View() == if ok then AcceptStart(old(View()), response, now).value else old(View())
    {
      if owner.None? || !tentative || |response| != 6 || response[0] != RESP_SIGN_START {
        return false;
      }
      limit, tentative, last := Some(U32(response, 2)), false, now;
      return true;
    }

    predicate Usable(id: int)
      reads this
    {
      owner == Some(id) && !tentative && limit.Some? && pending.None? && !finishing
    }

    method StartData(id: int, c: Bytes, now: Time) returns (refusal: Option<Byte>, raised: bool)
      requires Valid()
      modifies this
      ensures Valid() && (raised <==> |c| < 2 || c[0] != CMD_SIGN_DATA)
      ensures if raised then View() == old(View()) else (View(), refusal) == BeginData(old(View()), id, c, now, timeout)
    {
      if |c| < 2 || c[0] != CMD_SIGN_DATA {
        return None, true;
      }
      var expired := ExpireAt(now);
      if !Usable(id) {
        return Some(ERR_BAD_STATE), false;
      }
      var bytes := |c| - 1;
      if bytes > limit.value - accepted {
        return Some(ERR_TABLE_FULL), false;
      }
      pending, last := Some(bytes), now;
      return None, false;
    }

    method StartFinish(id: int, c: Bytes, now: Time) returns (refusal: Option<Byte>, raised: bool)
      requires Valid()
      modifies this
      ensures Valid() && (raised <==> |c| < 1 || c[0] != CMD_SIGN_FINISH)
      ensures if raised then View() == old(View()) else (View(), refusal) == BeginFinish(old(View()), id, now, timeout)
    {
      if |c| < 1 || c[0] != CMD_SIGN_FINISH {
        return None, true;
      }
      var expired := ExpireAt(now);
      if !Usable(id) {
        return Some(ERR_BAD_STATE), false;
      }
      finishing, last := true, now;
      return None, false;
    }

    method DataAnswered(response: Bytes, now: Time) returns (ok: bool)
      requires Valid()
      modifies this
      ensures Valid() && (ok <==> DataResponse(old(View()), response, now).Some?)
      ensures View() == if ok then DataResponse(old(View()), response, now).value else old(View())
    {
      if pending.None? || !IsScopeReply(response) {
        return false;
      }
      var bytes := pending.value;
      if response[0] == RESP_OK {
        pending, accepted, last := None, accepted + bytes, now;
        chunks := chunks + [bytes];
      } else if response[1] == ERR_BAD_STATE {
        Reset();
      } else {
        pending, last := None, now;
      }
      return true;
    }

    method FinishAnswered(response: Bytes, now: Time) returns (ok: bool)
      requires Valid()
      modifies this
      ensures Valid() && (ok <==> FinishResponse(old(View()), response, now).Some?)
      ensures View() == if ok then FinishResponse(old(View()), response, now).value else old(View())
    {
      if !finishing {
        return false;
      }
      if |response| == 65 && response[0] == RESP_SIGNATURE {
        Reset();
        return true;
      }
      if |response| != 2 || response[0] != RESP_ERR {
        return false;
      }
      if response[1] == ERR_BAD_STATE {
        Reset();
      } else {
        finishing, last := false, now;
      }
      return true;
    }

    method OwnerGone(id: int)
      requires Valid()
      modifies this
      ensures Valid() && View() == SigningOwnerGone(old(View()), id)
    {
      if owner == Some(id) {
        Reset();
      }
    }
  }
}
