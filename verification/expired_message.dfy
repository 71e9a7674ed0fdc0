/** The expiry record of a disappearing message. A message set to expire
    after more than a day gets an absolute deadline at creation, whether or
    not it has been read. The clock is a parameter. */
module ExpiredMessageModel {
  import opened Common

  const Int64Min := -0x8000_0000_0000_0000
  const Int64Max := 0x7fff_ffff_ffff_ffff

  newtype Int64 = x: int | Int64Min <= x <= Int64Max

  /** Seconds in a day: the threshold above which the deadline is fixed. */
  const OneDay: Int64 := 60 * 60 * 24

  datatype ExpiredMessage = ExpiredMessage(messageId: string, expireIn: Int64, expireAt: Option<Int64>)

  /** `Int64(_: Double)`: truncation toward zero. */
  function TruncateTowardZero(x: real): (n: int)
    ensures x >= 0.0 ==> n as real <= x < n as real + 1.0
    ensures x < 0.0 ==> n as real - 1.0 < x <= n as real
  {
    if x >= 0.0 then x.Floor else -((-x).Floor)
  }

  predicate FitsInt64(x: real) {
    Int64Min <= TruncateTowardZero(x) <= Int64Max
  }

  /** `init(messageId:expireIn:expireAt:)` at time `now` (seconds since
      1970). Converting the deadline traps when it does not fit in 64 bits,
      which the precondition rules out. */
  function NewExpiredMessage(messageId: string, expireIn: Int64, expireAt: Option<Int64>, now: real): (m: ExpiredMessage)
    requires expireAt.None? && expireIn > OneDay ==> FitsInt64(now + expireIn as real)
    ensures m.messageId == messageId && m.expireIn == expireIn
    ensures expireAt.Some? ==> m.expireAt == expireAt
    ensures expireAt.None? && expireIn <= OneDay ==> m.expireAt.None?
    ensures expireAt.None? && expireIn > OneDay ==> m.expireAt.Some?
    ensures expireAt.None? && expireIn > OneDay && now + expireIn as real >= 0.0 ==>
      m.expireAt.value as real <= now + expireIn as real < m.expireAt.value as real + 1.0
  {
    match expireAt
    case Some(_) => ExpiredMessage(messageId, expireIn, expireAt)
    case None =>
      if expireIn > OneDay then
        ExpiredMessage(messageId, expireIn, Some(TruncateTowardZero(now + expireIn as real) as Int64))
      else ExpiredMessage(messageId, expireIn, None)
  }

  /** A deadline fixed at creation is always more than a day away: at least
      `now + 86400` whole seconds (for a clock at or after 1970). */
  lemma DeadlineBeyondOneDay(messageId: string, expireIn: Int64, now: real)
    requires now >= 0.0 && expireIn > OneDay && FitsInt64(now + expireIn as real)
    ensures var m := NewExpiredMessage(messageId, expireIn, None, now);
      m.expireAt.Some? && m.expireAt.value as real >= now + OneDay as real
  {
    var m := NewExpiredMessage(messageId, expireIn, None, now);
    assert m.expireAt.value as real > now + expireIn as real - 1.0;
    assert expireIn as real >= OneDay as real + 1.0;
  }

  /** Exactly one day (and anything shorter) never fixes a deadline: such a
      message is deleted only once read. */
  lemma OneDayIsNotEnough(messageId: string, now: real)
    ensures NewExpiredMessage(messageId, OneDay, None, now).expireAt.None?
    ensures FitsInt64(now + (OneDay + 1) as real) ==> NewExpiredMessage(messageId, OneDay + 1, None, now).expireAt.Some?
  {
  }
}
