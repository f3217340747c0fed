/**
 * Token.swift and TokenState.swift: a bearer credential with its lifetime, and the
 * three-way classification providers report. Time is whole seconds since the epoch.
 */
module Tokens {

  /** Seconds taken off a token's lifetime so that it is renewed before the server rejects it. */
  const ExpirationPadding: int := 60

  datatype Token = Token(token: string, expiresIn: int, retrievedOn: int) {
    function ExpiresOn(): int {
      retrievedOn + expiresIn
    }

    predicate IsValid(now: int) {
      now <= ExpiresOn() - ExpirationPadding
    }

    predicate IsExpired(now: int) {
      !IsValid(now)
    }
  }

  datatype TokenState = Valid(token: string) | Expired | Missing

  /** The lifetime arithmetic: expiry is retrieval plus lifetime; validity ends 60 s before, inclusively. */
  lemma ValidityWindow(t: Token, now: int)
    ensures t.ExpiresOn() == t.retrievedOn + t.expiresIn
    ensures t.IsValid(now) <==> now <= t.retrievedOn + t.expiresIn - 60
    ensures t.IsExpired(now) <==> !t.IsValid(now)
    ensures t.IsValid(t.ExpiresOn() - 60) && t.IsExpired(t.ExpiresOn() - 59)
  {
  }

  /** Validity only runs out: valid now means valid earlier, expired now means expired later. */
  lemma ValidityMonotone(t: Token, earlier: int, later: int)
    requires earlier <= later
    ensures t.IsValid(later) ==> t.IsValid(earlier)
    ensures t.IsExpired(earlier) ==> t.IsExpired(later)
  {
  }

  /** A token that lives less than the padding is expired the moment it is retrieved. */
  lemma ShortLivedTokenBornExpired(t: Token)
    requires t.expiresIn < ExpirationPadding
    ensures t.IsExpired(t.retrievedOn)
  {
  }
}
