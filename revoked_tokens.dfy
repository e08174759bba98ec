/**
 * `RevokedTokenService`: the store of revoked `(userId, expirationDate)` pairs
 * and the lazy sweep of expired ones, gated on the shared `nextTokenRemoval`
 * timestamp. The clock (`System.currentTimeMillis`) is the parameter `now`.
 */
module RevokedTokens {
  import opened Common

  /** `DbRevokedToken`. */
  datatype RevokedToken = RevokedToken(userId: Uuid, expirationDate: Int64)

  /** The part of the authenticated `UserContext` that identifies a token. */
  datatype UserContext = UserContext(userId: Uuid, expirationDate: Int64)

  function TokenOf(ctx: UserContext): RevokedToken {
    RevokedToken(ctx.userId, ctx.expirationDate)
  }

  /**
   * The rows the repository's `removeExpiredTokens` query keeps: those for which
   * `expired(row, now)` (the query's condition, not shown) is false, in order.
   */
  function RemoveExpired(rows: seq<RevokedToken>, now: Int64, expired: (RevokedToken, Int64) -> bool): (r: seq<RevokedToken>)
    ensures forall t :: t in r <==> t in rows && !expired(t, now)
    ensures multiset(r) <= multiset(rows)
    ensures forall t :: multiset(r)[t] == if expired(t, now) then 0 else multiset(rows)[t]
  {
    if |rows| == 0 then []
    else
      var rest := RemoveExpired(rows[1..], now, expired);
      assert rows == [rows[0]] + rows[1..];
      if expired(rows[0], now) then rest else [rows[0]] + rest
  }

  /** A sweep is due strictly after `nextTokenRemoval`. */
  predicate SweepDue(now: Int64, nextTokenRemoval: Int64) {
    now > nextTokenRemoval
  }

  class RevokedTokenService {
    /** The repository's rows. */
    var store: seq<RevokedToken>
    /** The static `nextTokenRemoval`: no sweep runs until the clock is past it. */
    var nextTokenRemoval: Int64
    /** `jwt.minimum-revoked-tokens-remove-interval`. */
    const revokedTokenInterval: Int64
    /** The condition of the repository's `removeExpiredTokens` query. */
    const expired: (RevokedToken, Int64) -> bool

    /** A service over the repository rows `rows`; `nextTokenRemoval` starts at 0. */
    constructor (rows: seq<RevokedToken>, interval: Int64, expired: (RevokedToken, Int64) -> bool)
      ensures store == rows && nextTokenRemoval == 0
      ensures revokedTokenInterval == interval && this.expired == expired
    {
      store := rows;
      nextTokenRemoval := 0;
      revokedTokenInterval := interval;
      this.expired := expired;
    }

    /** `isRevoked`: whether a row with exactly this user id and expiration date is stored. */
    function IsRevoked(ctx: UserContext): (r: bool)
      reads this
      ensures r <==> exists i :: 0 <= i < |store| && store[i].userId == ctx.userId && store[i].expirationDate == ctx.expirationDate
    {
      TokenOf(ctx) in store
    }

    /** `removeExpiredTokens`: when the clock is past `nextTokenRemoval`, move it on and sweep. */
    method RemoveExpiredTokens(now: Int64)
      modifies this
      ensures SweepDue(now, old(nextTokenRemoval)) ==>
        nextTokenRemoval == Wrap64(now + revokedTokenInterval) &&
        store == RemoveExpired(old(store), now, expired)
      ensures !SweepDue(now, old(nextTokenRemoval)) ==>
        nextTokenRemoval == old(nextTokenRemoval) && store == old(store)
    {
      if now > nextTokenRemoval {
        nextTokenRemoval := Wrap64(now + revokedTokenInterval);
        store := RemoveExpired(store, now, expired);
      }
    }

    /** `logout`: the sweep (when due), then the save of the revoked token. */
    method Logout(token: RevokedToken, now: Int64)
      modifies this
      ensures nextTokenRemoval ==
        if SweepDue(now, old(nextTokenRemoval)) then Wrap64(now + revokedTokenInterval) else old(nextTokenRemoval)
      ensures store ==
        (if SweepDue(now, old(nextTokenRemoval)) then RemoveExpired(old(store), now, expired) else old(store)) + [token]
      ensures IsRevoked(UserContext(token.userId, token.expirationDate))
      ensures forall ctx :: IsRevoked(ctx) <==>
        TokenOf(ctx) == token ||
        (old(IsRevoked(ctx)) && !(SweepDue(now, old(nextTokenRemoval)) && expired(TokenOf(ctx), now)))
    {
      RemoveExpiredTokens(now);
      store := store + [token];
    }
  }

  /** A fresh service sweeps on the first logout at a positive time. */
  method FirstLogoutSweeps(rows: seq<RevokedToken>, interval: Int64, expired: (RevokedToken, Int64) -> bool,
                           token: RevokedToken, now: Int64)
    returns (s: RevokedTokenService)
    requires now > 0
    ensures s.store == RemoveExpired(rows, now, expired) + [token]
    ensures s.nextTokenRemoval == Wrap64(now + interval)
  {
    s := new RevokedTokenService(rows, interval, expired);
    s.Logout(token, now);
  }

  /**
   * With a clock that does not go back, a second logout no later than the
   * `nextTokenRemoval` the first one set does not sweep: the second token is
   * simply appended. (When `now1 + interval` overflows a `long`, the wrapped
   * `nextTokenRemoval` is negative and the next logout at a positive time sweeps again.)
   */
  method SecondLogoutDoesNotSweep(s: RevokedTokenService, first: RevokedToken, second: RevokedToken,
                                  now1: Int64, now2: Int64)
    requires SweepDue(now1, s.nextTokenRemoval)
    requires now1 <= now2 && now2 <= now1 + s.revokedTokenInterval
    requires now1 + s.revokedTokenInterval < 0x8000_0000_0000_0000  // no long overflow
    modifies s
    ensures s.nextTokenRemoval == now1 + s.revokedTokenInterval
    ensures s.store == RemoveExpired(old(s.store), now1, s.expired) + [first, second]
    ensures s.IsRevoked(UserContext(first.userId, first.expirationDate))
    ensures s.IsRevoked(UserContext(second.userId, second.expirationDate))
  {
    s.Logout(first, now1);
    ghost var afterFirst := s.store;
    assert !SweepDue(now2, s.nextTokenRemoval);
    s.Logout(second, now2);
    assert s.store == afterFirst + [second];
  }
}
