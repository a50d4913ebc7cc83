// The user score: what a late cancellation costs, what a venue gives back, and how a ban that has run out
// is lifted when the row is read rather than by a job.

module Score {
  import opened Domain

  const START := 100
  const LATE_WINDOW: int := 5 * HOUR
  const PENALTY := 20
  const BAN_FLOOR := 10
  const AFTER_BAN := 50

  /** The two stored columns of a user. */
  datatype Standing = Standing(score: int, bannedUntil: Option<Time>)

  function Fresh(): Standing { Standing(START, None) }

  function EffectiveScore(st: Standing, now: Time): int {
    if st.bannedUntil.Some? && st.bannedUntil.value <= now then AFTER_BAN else st.score
  }

  function ActiveBan(st: Standing, now: Time): Option<Time> {
    if st.bannedUntil.Some? && st.bannedUntil.value > now then st.bannedUntil else None
  }

  predicate Banned(st: Standing, now: Time) {
    ActiveBan(st, now).Some?
  }

  /** A calendar month is 28 to 31 days; which one is decided by the database's calendar. */
  predicate MonthAfter(now: Time, end: Time) {
    now + 28 * DAY <= end <= now + 31 * DAY
  }

  /**
   * Charged from the score as it stands; reaching the floor starts a fresh ban, anything above it clears an expired
   * one.
   */
  function Charge(st: Standing, now: Time, monthEnd: Time): Standing {
    var charged := EffectiveScore(st, now) - PENALTY;
    var next := if charged < 0 then 0 else charged;
    Standing(next, if next <= BAN_FLOOR then Some(monthEnd) else None)
  }

  /** Given back onto the score as it stands, capped at 100; rising above the floor ends any ban. */
  function GiveBack(st: Standing, penalty: nat, now: Time): Standing {
    var raised := EffectiveScore(st, now) + penalty;
    var next := if raised > 100 then 100 else raised;
    Standing(next, if next > BAN_FLOOR then None else ActiveBan(st, now))
  }

  /** What every stored row satisfies: a score in range, with a ban date exactly at or below the floor. */
  predicate Sound(st: Standing) {
    0 <= st.score <= 100 && (st.bannedUntil.Some? <==> st.score <= BAN_FLOOR)
  }

  /** At every instant, the exact end of a ban included, a read shows a ban iff it shows a score at the floor. */
  lemma BanIffFloor(st: Standing, now: Time)
    requires Sound(st)
    ensures Banned(st, now) <==> EffectiveScore(st, now) <= BAN_FLOOR
    ensures 0 <= EffectiveScore(st, now) <= 100
    ensures st.bannedUntil.Some? && now == st.bannedUntil.value ==>
      !Banned(st, now) && EffectiveScore(st, now) == AFTER_BAN
  {
  }

  lemma ChargeSound(st: Standing, now: Time, monthEnd: Time)
    requires Sound(st) && MonthAfter(now, monthEnd)
    ensures Sound(Charge(st, now, monthEnd))
    ensures Banned(Charge(st, now, monthEnd), now) <==> EffectiveScore(st, now) <= BAN_FLOOR + PENALTY
  {
  }

  lemma GiveBackSound(st: Standing, penalty: nat, now: Time)
    requires Sound(st) && penalty > 0
    ensures Sound(GiveBack(st, penalty, now))
    ensures EffectiveScore(GiveBack(st, penalty, now), now) >= EffectiveScore(st, now)
    ensures Banned(GiveBack(st, penalty, now), now) ==> Banned(st, now)
  {
  }
}
