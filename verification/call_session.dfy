/** The `Call` value: identity fixed at construction, two mutable progress
    flags, and the derived strings. The UUID is sixteen bytes; its textual
    form is Foundation's `uuidString` (upper-case hex in 8-4-4-4-12 groups),
    which the call lower-cases. */
module CallSession {
  import opened Common
  import SendMessage

  type UserId = string

  type Uuid = u: seq<Byte> | |u| == 16 witness seq(16, _ => 0 as Byte)

  /** The opponent as far as the call needs it. */
  datatype UserItem = UserItem(userId: UserId, fullName: string)

  /** Seconds since the reference date. */
  type Date = real

  datatype Call = Call(
    uuid: Uuid,
    opponentUser: UserItem,
    isOutgoing: bool,
    connectedDate: Option<Date>,
    hasReceivedRemoteAnswer: bool)

  /** `init(uuid:opponentUser:isOutgoing:)`. */
  function NewCall(uuid: Uuid, opponentUser: UserItem, isOutgoing: bool): (c: Call)
    ensures c.uuid == uuid && c.opponentUser == opponentUser && c.isOutgoing == isOutgoing
    ensures c.connectedDate.None? && !c.hasReceivedRemoteAnswer
  {
    Call(uuid, opponentUser, isOutgoing, None, false)
  }

  /** The only writes a call accepts after construction. */
  datatype Update = SetConnectedDate(date: Option<Date>) | SetReceivedRemoteAnswer(received: bool)

  function ApplyUpdate(c: Call, u: Update): (d: Call)
    ensures d.uuid == c.uuid && d.opponentUser == c.opponentUser && d.isOutgoing == c.isOutgoing
    ensures u.SetConnectedDate? ==> d.connectedDate == u.date && d.hasReceivedRemoteAnswer == c.hasReceivedRemoteAnswer
    ensures u.SetReceivedRemoteAnswer? ==> d.hasReceivedRemoteAnswer == u.received && d.connectedDate == c.connectedDate
  {
    match u
    case SetConnectedDate(date) => c.(connectedDate := date)
    case SetReceivedRemoteAnswer(received) => c.(hasReceivedRemoteAnswer := received)
  }

  function ApplyUpdates(c: Call, us: seq<Update>): Call
    decreases |us|
  {
    if us == [] then c else ApplyUpdates(ApplyUpdate(c, us[0]), us[1..])
  }

  /** `raisedByUserId`: the local user raised an outgoing call, the opponent
      an incoming one. */
  function RaisedByUserId(c: Call, me: UserId): (r: UserId)
    ensures c.isOutgoing ==> r == me
    ensures !c.isOutgoing ==> r == c.opponentUser.userId
  {
    if c.isOutgoing then me else c.opponentUser.userId
  }

  /** `conversationId`: the DAO derives it from the two user ids; that
      derivation is a parameter. */
  function ConversationId(c: Call, me: UserId, makeConversationId: (UserId, UserId) -> string): string {
    makeConversationId(me, c.opponentUser.userId)
  }

  /** The call's conversation is the one the send service creates for the
      opponent when no conversation exists yet, so call messages and chat
      messages with that user share a conversation. */
  lemma ConversationIdIsSendConversation(c: Call, env: SendMessage.Env, message: SendMessage.Message, isBot: bool, silent: bool)
    requires env.account.Some? && SendMessage.NeedsConversation(env, message)
    ensures var r := SendMessage.Send(env, message, None, Some(SendMessage.Owner(c.opponentUser.userId, isBot)), false, silent);
      r.Handled? && r.created == Some(SendMessage.NewConversation(
        ConversationId(c, env.account.value.userId, env.makeConversationId), c.opponentUser.userId))
  {
  }

  /** However the progress flags change, the identity, and everything
      derived from it, stays what it was at construction. */
  lemma {:induction false} UpdatesKeepIdentity(c: Call, us: seq<Update>, me: UserId, makeConversationId: (UserId, UserId) -> string)
    ensures var d := ApplyUpdates(c, us);
      && d.uuid == c.uuid && d.opponentUser == c.opponentUser && d.isOutgoing == c.isOutgoing
      && UuidString(d) == UuidString(c)
      && RaisedByUserId(d, me) == RaisedByUserId(c, me)
      && ConversationId(d, me, makeConversationId) == ConversationId(c, me, makeConversationId)
    decreases |us|
  {
    if us != [] {
      UpdatesKeepIdentity(ApplyUpdate(c, us[0]), us[1..], me, makeConversationId);
    }
  }

  // ---------------------------------------------------------------------
  // Textual UUID

  const UpperDigits := "0123456789ABCDEF"
  const LowerDigits := "0123456789abcdef"

  /** A hyphen precedes bytes 4, 6, 8 and 10. */
  predicate GroupStart(i: nat) {
    i == 4 || i == 6 || i == 8 || i == 10
  }

  function HexPair(b: Byte, digits: string): string
    requires |digits| == 16
  {
    [digits[b as int / 16], digits[b as int % 16]]
  }

  /** Bytes `i..` in 8-4-4-4-12 form with the given digit alphabet. */
  function RenderFrom(u: seq<Byte>, i: nat, digits: string): (s: string)
    requires i <= |u| && |digits| == 16
    decreases |u| - i
  {
    if i == |u| then ""
    else (if GroupStart(i) then "-" else "") + HexPair(u[i], digits) + RenderFrom(u, i + 1, digits)
  }

  /** Foundation's `uuidString`. */
  function UppercaseForm(u: Uuid): string {
    RenderFrom(u, 0, UpperDigits)
  }

  function ToLower(ch: char): (r: char)
    ensures 'A' <= ch <= 'Z' ==> 'a' <= r <= 'z'
    ensures !('A' <= ch <= 'Z') ==> r == ch
  {
    if 'A' <= ch <= 'Z' then (ch as int - 'A' as int + 'a' as int) as char else ch
  }

  /** `lowercased()` on ASCII text. */
  function Lowercased(s: string): (r: string)
    ensures |r| == |s|
    ensures forall i :: 0 <= i < |s| ==> r[i] == ToLower(s[i])
  {
    seq(|s|, i requires 0 <= i < |s| => ToLower(s[i]))
  }

  /** `uuidString`: the lower-cased textual UUID, which is the same text as
      the rendering with lower-case digits, 36 characters long. */
  function UuidString(c: Call): (r: string)
    ensures r == RenderFrom(c.uuid, 0, LowerDigits)
    ensures |r| == 36
  {
    LowercasedRender(c.uuid, 0);
    RenderLength(c.uuid, 0, LowerDigits);
    Lowercased(UppercaseForm(c.uuid))
  }

  lemma LowercasedAppend(a: string, b: string)
    ensures Lowercased(a + b) == Lowercased(a) + Lowercased(b)
  {
  }

  lemma {:induction false} LowercasedRender(u: seq<Byte>, i: nat)
    requires i <= |u|
    ensures Lowercased(RenderFrom(u, i, UpperDigits)) == RenderFrom(u, i, LowerDigits)
    decreases |u| - i
  {
    if i < |u| {
      LowercasedRender(u, i + 1);
      var sep := if GroupStart(i) then "-" else "";
      LowercasedAppend(sep + HexPair(u[i], UpperDigits), RenderFrom(u, i + 1, UpperDigits));
      LowercasedAppend(sep, HexPair(u[i], UpperDigits));
      DigitParses(u[i] as int / 16);
      DigitParses(u[i] as int % 16);
      assert Lowercased(HexPair(u[i], UpperDigits)) == HexPair(u[i], LowerDigits);
    }
  }

  /** Hyphens still to come from byte `i` on. */
  function HyphensFrom(i: nat): nat {
    if i <= 4 then 4 else if i <= 6 then 3 else if i <= 8 then 2 else if i <= 10 then 1 else 0
  }

  lemma {:induction false} RenderLength(u: seq<Byte>, i: nat, digits: string)
    requires i <= |u| == 16 && |digits| == 16
    ensures |RenderFrom(u, i, digits)| == 2 * (16 - i) + HyphensFrom(i)
    decreases 16 - i
  {
    if i < 16 {
      RenderLength(u, i + 1, digits);
    }
  }

  /** Every character is a hyphen or one of the digits. */
  lemma {:induction false} RenderAlphabet(u: seq<Byte>, i: nat, digits: string)
    requires i <= |u| && |digits| == 16
    ensures forall k :: 0 <= k < |RenderFrom(u, i, digits)| ==> RenderFrom(u, i, digits)[k] == '-' || RenderFrom(u, i, digits)[k] in digits
    decreases |u| - i
  {
    if i < |u| {
      RenderAlphabet(u, i + 1, digits);
      var sep := if GroupStart(i) then "-" else "";
      var s := RenderFrom(u, i, digits);
      assert s == sep + HexPair(u[i], digits) + RenderFrom(u, i + 1, digits);
      forall k | 0 <= k < |s| ensures s[k] == '-' || s[k] in digits {
        if k >= |sep| + 2 {
          assert s[k] == RenderFrom(u, i + 1, digits)[k - |sep| - 2];
        }
      }
    }
  }

  /** The digit a lower-case hex character stands for. */
  function HexValue(ch: char): Option<nat> {
    if '0' <= ch <= '9' then Some(ch as int - '0' as int)
    else if 'a' <= ch <= 'f' then Some(ch as int - 'a' as int + 10)
    else None
  }

  /** Drops the hyphen expected before byte `i`. */
  function StripSeparator(s: string, i: nat): Option<string> {
    if !GroupStart(i) then Some(s)
    else if |s| > 0 && s[0] == '-' then Some(s[1..])
    else None
  }

  function ParseByte(hi: char, lo: char): Option<Byte> {
    match (HexValue(hi), HexValue(lo))
    case (Some(h), Some(l)) => if h * 16 + l < 256 then Some((h * 16 + l) as Byte) else None
    case _ => None
  }

  /** Reads the bytes from position `i` of a lower-case textual UUID. */
  function ParseFrom(s: string, i: nat): (r: Option<seq<Byte>>)
    requires i <= 16
    ensures r.Some? ==> |r.value| == 16 - i
    decreases 16 - i
  {
    if i == 16 then (if s == [] then Some([]) else None)
    else match StripSeparator(s, i)
      case None => None
      case Some(body) =>
        if |body| < 2 then None
        else match (ParseByte(body[0], body[1]), ParseFrom(body[2..], i + 1))
          case (Some(b), Some(rest)) => Some([b] + rest)
          case _ => None
  }

  /** A textual UUID in the form `uuidString` produces, back to its bytes. */
  function ParseUuid(s: string): (r: Option<Uuid>) {
    match ParseFrom(s, 0)
    case Some(bytes) => Some(bytes)
    case None => None
  }

  lemma DigitParses(n: nat)
    requires n < 16
    ensures HexValue(LowerDigits[n]) == Some(n)
    ensures ToLower(UpperDigits[n]) == LowerDigits[n]
  {
  }

  lemma HexPairParses(b: Byte)
    ensures |HexPair(b, LowerDigits)| == 2
    ensures ParseByte(HexPair(b, LowerDigits)[0], HexPair(b, LowerDigits)[1]) == Some(b)
  {
    DigitParses(b as int / 16);
    DigitParses(b as int % 16);
  }

  /** Reading one rendered byte. */
  lemma ParseStep(s: string, i: nat, b: Byte, rest: string)
    requires i < 16 && ParseFrom(rest, i + 1).Some?
    requires s == (if GroupStart(i) then "-" else "") + HexPair(b, LowerDigits) + rest
    ensures ParseFrom(s, i) == Some([b] + ParseFrom(rest, i + 1).value)
  {
    HexPairParses(b);
    var pair := HexPair(b, LowerDigits);
    var body := pair + rest;
    if GroupStart(i) {
      assert s == "-" + body;
      assert s[1..] == body;
    } else {
      assert s == body;
    }
    assert StripSeparator(s, i) == Some(body);
    assert body[0] == pair[0] && body[1] == pair[1];
    assert body[2..] == rest;
  }

  lemma {:induction false} ParseRender(u: Uuid, i: nat)
    requires i <= 16
    ensures ParseFrom(RenderFrom(u, i, LowerDigits), i) == Some(u[i..])
    decreases 16 - i
  {
    if i < 16 {
      ParseRender(u, i + 1);
      ParseStep(RenderFrom(u, i, LowerDigits), i, u[i], RenderFrom(u, i + 1, LowerDigits));
      assert u[i..] == [u[i]] + u[i + 1..];
    } else {
      assert u[i..] == [];
    }
  }

  /** `uuidString` is exactly 36 characters, contains no upper-case letter,
      and determines the UUID: it parses back to the call's bytes. */
  lemma UuidStringFaithful(c: Call)
    ensures |UuidString(c)| == 36
    ensures forall i :: 0 <= i < |UuidString(c)| ==> !('A' <= UuidString(c)[i] <= 'Z')
    ensures ParseUuid(UuidString(c)) == Some(c.uuid)
  {
    RenderAlphabet(c.uuid, 0, LowerDigits);
    ParseRender(c.uuid, 0);
    assert c.uuid[0..] == c.uuid;
  }

  lemma UuidStringInjective(c: Call, d: Call)
    requires UuidString(c) == UuidString(d)
    ensures c.uuid == d.uuid
  {
    UuidStringFaithful(c);
    UuidStringFaithful(d);
  }

  /** Lower-casing the string again changes nothing. */
  lemma UuidStringIsLowercase(c: Call)
    ensures Lowercased(UuidString(c)) == UuidString(c)
  {
    UuidStringFaithful(c);
  }
}
