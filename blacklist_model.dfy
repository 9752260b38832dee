/** The `BlackListToken` collection: revoked tokens, each with the time it was
    recorded, removed by MongoDB's TTL monitor once 24 hours have passed. */
module BlackListTokenModel {
  import opened Common

  /** `expires: 60 * 60 * 24` on `createdAt`, in seconds. */
  const TtlSeconds: int := 60 * 60 * 24

  /** A revocation document. */
  datatype BlackListToken = BlackListToken(token: string, createdAt: Time)

  /** The TTL index allows a record created at `createdAt` to be deleted at `now`. */
  predicate Evictable(createdAt: Time, now: Time)
  {
    createdAt + TtlSeconds <= now
  }

  class BlackList {
    /** token -> createdAt; a map, because `token` is a unique index. */
    var records: map<string, Time>
    /** The current time. One clock stands for both the Node process's
        `Date.now` (which stamps `createdAt` and which `jwt` reads) and the
        database server's clock (which the TTL monitor reads). */
    var clock: Time
    /** When each token was first recorded; never shrinks. */
    ghost var revokedAt: map<string, Time>

    /** Records hold non-empty tokens stamped no later than now, and a token
        once revoked keeps a record until its retention window has elapsed. */
    ghost predicate Valid()
      reads this
    {
      && (forall t :: t in records ==>
            t != "" && records[t] <= clock && t in revokedAt && revokedAt[t] <= records[t])
      && (forall t :: t in revokedAt ==> t in records || Evictable(revokedAt[t], clock))
    }

    constructor (start: Time)
      ensures Valid() && records == map[] && revokedAt == map[] && clock == start
    {
      records, clock := map[], start;
      revokedAt := map[];
    }

    /** `findOne({token})` is not null. */
    function FindOne(token: string): (found: bool)
      reads this
      requires Valid()
      ensures found ==> token != ""
      ensures found ==> token in revokedAt
    {
      token in records
    }

    /** `blackListTokenModel.create({token})`: `token` is required (neither
        null nor empty), unique, and `createdAt` defaults to the current time. */
    method Create(token: Option<string>) returns (r: Result<BlackListToken, DbError>)
      requires Valid()
      modifies this
      ensures Valid() && clock == old(clock)
      ensures !Truthy(token) ==> r == Err(ValidationError("token"))
      ensures Truthy(token) && token.value in old(records) ==> r == Err(DuplicateKey("token"))
      ensures r.Err? ==> records == old(records) && revokedAt == old(revokedAt)
      ensures Truthy(token) && token.value !in old(records) ==>
        && r == Ok(BlackListToken(token.value, clock))
        && records == old(records)[token.value := clock]
        && revokedAt == if token.value in old(revokedAt) then old(revokedAt) else old(revokedAt)[token.value := clock]
    {
      if !Truthy(token) {
        return Err(ValidationError("token"));
      }
      var t := token.value;
      if t in records {
        return Err(DuplicateKey("token"));
      }
      records := records[t := clock];
      if t !in revokedAt {
        revokedAt := revokedAt[t := clock];
      }
      r := Ok(BlackListToken(t, clock));
    }

    /** Time passes. */
    method Tick(dt: nat)
      requires Valid()
      modifies this
      ensures Valid()
      ensures clock == old(clock) + dt && records == old(records) && revokedAt == old(revokedAt)
    {
      clock := clock + dt;
    }

    /** One pass of the TTL monitor. Which due records it deletes is up to the
        database, so the candidates are a parameter; a record that is not yet
        due stays, whatever the candidates. */
    method Sweep(candidates: set<string>)
      requires Valid()
      modifies this
      ensures Valid() && clock == old(clock) && revokedAt == old(revokedAt)
      ensures forall t :: t in records <==>
        t in old(records) && !(t in candidates && Evictable(old(records)[t], clock))
      ensures forall t :: t in records ==> records[t] == old(records)[t]
    {
      records := map t | t in records && !(t in candidates && Evictable(records[t], clock)) :: records[t];
    }
  }
}
