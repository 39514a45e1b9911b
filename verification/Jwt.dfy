/** JwtHandler over an abstract signer: creating token pairs, reading ids back, refreshing. */
module Jwt {
  import opened Domain

  /** What is signed: the id claim and two instants in microseconds. */
  datatype Token = Token(id: Int32, issuedAt: int, expiresAt: int)

  /** The id claim of a verified payload: absent, not readable as an `int`, or there. */
  datatype Payload = NoId | UnreadableId | HasId(id: Int32)

  /** BadSignature is SignatureVerificationException, Malformed any other exception. */
  datatype Verdict = Verified(payload: Payload) | BadSignature | Malformed

  /** `verify` may depend on the time of the call: whether the library looks at the
      expiration is left open. */
  datatype Signer = Signer(sign: Token -> string, verify: (string, int) -> Verdict)

  /** What `findById` of the user storage does. */
  datatype Lookup = Known | Unknown | LookupThrew

  datatype Pair = Pair(auth: string, refresh: string)

  /** The two readings of the clock that one token takes. */
  datatype Clock = Clock(issued: int, base: int)

  const SECOND := 1_000_000
  const AUTH_LIFETIME := 15 * 60 * SECOND
  const REFRESH_LIFETIME := 7 * 24 * 60 * 60 * SECOND

  // ----- The handler -----

  function AuthToken(s: Signer, id: Int32, clock: Clock): string {
    s.sign(Token(id, clock.issued, clock.base + AUTH_LIFETIME))
  }

  function RefreshToken(s: Signer, id: Int32, clock: Clock): string {
    s.sign(Token(id, clock.issued, clock.base + REFRESH_LIFETIME))
  }

  function Create(s: Signer, id: Int32, forAuth: Clock, forRefresh: Clock): Pair {
    Pair(AuthToken(s, id, forAuth), RefreshToken(s, id, forRefresh))
  }

  datatype RetrieveResult = Retrieved(id: Int32) | NoIdInToken | UserNotFound | AuthTokenExpired | RetrieveThrew

  function Retrieve(s: Signer, users: Int32 -> Lookup, auth: string, now: int): RetrieveResult {
    match s.verify(auth, now)
    case BadSignature => AuthTokenExpired
    case Malformed => RetrieveThrew
    case Verified(NoId) => NoIdInToken
    case Verified(UnreadableId) => RetrieveThrew
    case Verified(HasId(id)) =>
      match users(id)
      case Known => Retrieved(id)
      case Unknown => UserNotFound
      case LookupThrew => RetrieveThrew
  }

  /** Exactly which answer each verdict leads to. */
  lemma RetrieveAnswersIff(s: Signer, users: Int32 -> Lookup, auth: string, now: int)
    ensures var verdict, r := s.verify(auth, now), Retrieve(s, users, auth, now);
            && (r == AuthTokenExpired <==> verdict == BadSignature)
            && (r == NoIdInToken <==> verdict == Verified(NoId))
            && (r == UserNotFound <==> exists id :: verdict == Verified(HasId(id)) && users(id) == Unknown)
            && (forall id :: r == Retrieved(id) <==> verdict == Verified(HasId(id)) && users(id) == Known)
            && (r == RetrieveThrew <==>
                  || verdict == Malformed || verdict == Verified(UnreadableId)
                  || exists id :: verdict == Verified(HasId(id)) && users(id) == LookupThrew)
  {
  }

  datatype RefreshResult = Refreshed(pair: Pair) | FailedToRefresh | RefreshTokenExpired | RefreshThrew

  /** What surrounds one refresh: the user storage, the moments of its two verifications, and
      the clock for a new token. */
  datatype Attempt = Attempt(users: Int32 -> Lookup, now: int, later: int, clock: Clock)

  /** Only a bad signature of the auth token turns to the refresh token, which is handed back
      as it came. */
  function Refresh(s: Signer, pair: Pair, at: Attempt): RefreshResult {
    match s.verify(pair.auth, at.now)
    case Malformed => RefreshThrew
    case Verified(NoId) => FailedToRefresh
    case Verified(UnreadableId) => RefreshThrew
    case Verified(HasId(id)) =>
      (match at.users(id)
       case Known => Refreshed(pair)
       case Unknown => FailedToRefresh
       case LookupThrew => RefreshThrew)
    case BadSignature =>
      match s.verify(pair.refresh, at.later)
      case BadSignature => RefreshTokenExpired
      case Malformed => RefreshThrew
      case Verified(NoId) => FailedToRefresh
      case Verified(UnreadableId) => RefreshThrew
      case Verified(HasId(id)) =>
        match at.users(id)
        case Known => Refreshed(Pair(AuthToken(s, id, at.clock), pair.refresh))
        case Unknown => FailedToRefresh
        case LookupThrew => RefreshThrew
  }

  /** The verdict a refresh goes by: the auth token's, unless its signature is bad. */
  function Deciding(s: Signer, pair: Pair, at: Attempt): Verdict {
    if s.verify(pair.auth, at.now) == BadSignature then s.verify(pair.refresh, at.later) else s.verify(pair.auth, at.now)
  }

  /** The auth token was refused, and the refresh token names a known user. */
  predicate Renews(s: Signer, pair: Pair, at: Attempt) {
    && s.verify(pair.auth, at.now) == BadSignature
    && s.verify(pair.refresh, at.later).Verified? && s.verify(pair.refresh, at.later).payload.HasId?
    && at.users(s.verify(pair.refresh, at.later).payload.id) == Known
  }

  /** Exactly which answer each refresh gets, for any signer: a pair whose auth token still
      verifies comes back as it was, and a new auth token, for a quarter of an hour and with
      the refresh token's id, is signed only when the old one was refused. */
  lemma RefreshAnswersIff(s: Signer, pair: Pair, at: Attempt)
    ensures var auth, deciding, r := s.verify(pair.auth, at.now), Deciding(s, pair, at), Refresh(s, pair, at);
            && (r.Refreshed? <==> exists id :: deciding == Verified(HasId(id)) && at.users(id) == Known)
            && (r.Refreshed? && auth.Verified? ==> r.pair == pair)
            && (r.Refreshed? && !auth.Verified? ==>
                  && Renews(s, pair, at)
                  && r.pair == Pair(s.sign(Token(s.verify(pair.refresh, at.later).payload.id, at.clock.issued, at.clock.base + 900_000_000)),
                                    pair.refresh))
            && (r == RefreshTokenExpired <==> auth == BadSignature && s.verify(pair.refresh, at.later) == BadSignature)
            && (r == FailedToRefresh <==>
                  deciding == Verified(NoId) || exists id :: deciding == Verified(HasId(id)) && at.users(id) == Unknown)
            && (r == RefreshThrew <==>
                  || deciding == Malformed || deciding == Verified(UnreadableId)
                  || exists id :: deciding == Verified(HasId(id)) && at.users(id) == LookupThrew)
  {
  }

  // ----- An honest signer -----

  /** It accepts only strings it signed, and returns their payload. */
  ghost predicate Honest(s: Signer) {
    && (forall x, now :: s.verify(x, now).Verified? ==> exists token :: s.sign(token) == x)
    && (forall token, now :: s.verify(s.sign(token), now).Verified? ==> s.verify(s.sign(token), now) == Verified(HasId(token.id)))
  }

  /** Whenever and before whatever user storage `auth` is presented, it is nobody else's. */
  ghost predicate Carries(s: Signer, x: string, id: Int32) {
    forall now :: s.verify(x, now).Verified? ==> s.verify(x, now) == Verified(HasId(id))
  }

  /** A verified string carries one id for good. */
  lemma VerifiedCarries(s: Signer, x: string, now: int)
    requires Honest(s) && s.verify(x, now).Verified?
    ensures s.verify(x, now).payload.HasId? && Carries(s, x, s.verify(x, now).payload.id)
  {
  }

  /** Reading back: what carries an id yields that id or an error. */
  lemma RetrieveYieldsOnly(s: Signer, x: string, id: Int32, users: Int32 -> Lookup, now: int)
    requires Carries(s, x, id)
    ensures Retrieve(s, users, x, now).Retrieved? <==> s.verify(x, now).Verified? && users(id) == Known
    ensures Retrieve(s, users, x, now).Retrieved? ==> Retrieve(s, users, x, now).id == id
  {
  }

  /** The id a refresh goes by: that of the first presented token that verifies. */
  function FirstVerified(s: Signer, pair: Pair, at: Attempt): Option<Int32> {
    match s.verify(pair.auth, at.now)
    case Verified(HasId(id)) => Some(id)
    case BadSignature => (match s.verify(pair.refresh, at.later) case Verified(HasId(id)) => Some(id) case _ => None)
    case _ => None
  }

  /** Whatever pair is presented, matching or mixed: a refresh succeeds exactly when one of
      its tokens verifies, the auth token having no worse than a bad signature, and names a
      known user; the refresh token comes back as it was; and the auth token handed out
      carries the id of the first token that verified. */
  lemma RefreshGoesByFirstVerified(s: Signer, pair: Pair, at: Attempt)
    requires Honest(s)
    ensures Refresh(s, pair, at).Refreshed? <==>
            FirstVerified(s, pair, at).Some? && at.users(FirstVerified(s, pair, at).value) == Known
    ensures Refresh(s, pair, at).Refreshed? ==>
              && Refresh(s, pair, at).pair.refresh == pair.refresh
              && Carries(s, Refresh(s, pair, at).pair.auth, FirstVerified(s, pair, at).value)
  {
  }

  // ----- Chains of refreshes -----

  /** A client that keeps its pair when a refresh fails. */
  function Chain(s: Signer, pair: Pair, attempts: seq<Attempt>): Pair {
    if attempts == [] then pair
    else
      var before := Chain(s, pair, attempts[..|attempts| - 1]);
      var result := Refresh(s, before, attempts[|attempts| - 1]);
      if result.Refreshed? then result.pair else before
  }

  /** One create and any number of refreshes: both tokens carry the original id, and the
      refresh token is the original one. */
  lemma {:induction false} ChainCarriesId(s: Signer, id: Int32, forAuth: Clock, forRefresh: Clock, attempts: seq<Attempt>)
    requires Honest(s)
    ensures var start := Create(s, id, forAuth, forRefresh);
            var last := Chain(s, start, attempts);
            && last.refresh == start.refresh
            && Carries(s, last.auth, id) && Carries(s, last.refresh, id)
  {
    if attempts != [] {
      var before, at := attempts[..|attempts| - 1], attempts[|attempts| - 1];
      ChainCarriesId(s, id, forAuth, forRefresh, before);
      RefreshGoesByFirstVerified(s, Chain(s, Create(s, id, forAuth, forRefresh), before), at);
    }
  }

  /** So an id read from any pair of the chain is the original one. */
  lemma ChainRetrievesId(s: Signer, id: Int32, forAuth: Clock, forRefresh: Clock, attempts: seq<Attempt>,
                         users: Int32 -> Lookup, now: int)
    requires Honest(s)
    ensures var last := Chain(s, Create(s, id, forAuth, forRefresh), attempts);
            Retrieve(s, users, last.auth, now).Retrieved? ==> Retrieve(s, users, last.auth, now).id == id
  {
    ChainCarriesId(s, id, forAuth, forRefresh, attempts);
    RetrieveYieldsOnly(s, Chain(s, Create(s, id, forAuth, forRefresh), attempts).auth, id, users, now);
  }

  /** The clock of the last attempt whose auth token was refused and whose refresh token was
      good; `first` if there was none. */
  function LastRenewal(s: Signer, start: Pair, attempts: seq<Attempt>, first: Clock): Clock {
    if attempts == [] then first
    else
      var before, at := attempts[..|attempts| - 1], attempts[|attempts| - 1];
      if Renews(s, Chain(s, start, before), at) then at.clock else LastRenewal(s, start, before, first)
  }

  /** The pair at the end of a chain: the auth token lives a quarter of an hour from the last
      attempt at which the one before it was refused, or from the create if none was; the
      refresh token keeps its first seven days. */
  lemma {:induction false} ChainKeepsLifetimes(s: Signer, id: Int32, forAuth: Clock, forRefresh: Clock, attempts: seq<Attempt>)
    requires Honest(s)
    ensures var start := Create(s, id, forAuth, forRefresh);
            var renewed := LastRenewal(s, start, attempts, forAuth);
            Chain(s, start, attempts) ==
            Pair(s.sign(Token(id, renewed.issued, renewed.base + 900_000_000)),
                 s.sign(Token(id, forRefresh.issued, forRefresh.base + 604_800_000_000)))
  {
    if attempts != [] {
      var before, at := attempts[..|attempts| - 1], attempts[|attempts| - 1];
      ChainKeepsLifetimes(s, id, forAuth, forRefresh, before);
      ChainCarriesId(s, id, forAuth, forRefresh, before);
      var pair := Chain(s, Create(s, id, forAuth, forRefresh), before);
      RefreshAnswersIff(s, pair, at);
      assert Carries(s, pair.refresh, id);
    }
  }

  // ----- Everybody's tokens together -----

  datatype Event =
    | Creating(id: Int32, forAuth: Clock, forRefresh: Clock)
    | Refreshing(pair: Pair, at: Attempt)

  /** The strings handed out so far. */
  function Issued(s: Signer, events: seq<Event>): set<string> {
    if events == [] then {}
    else
      var before, last := Issued(s, events[..|events| - 1]), events[|events| - 1];
      match last
      case Creating(id, forAuth, forRefresh) =>
        var pair := Create(s, id, forAuth, forRefresh);
        before + {pair.auth, pair.refresh}
      case Refreshing(pair, at) =>
        if Refresh(s, pair, at).Refreshed? && Refresh(s, pair, at).pair.auth != pair.auth
        then before + {Refresh(s, pair, at).pair.auth} else before
  }

  function CreatedIds(events: seq<Event>): set<Int32> {
    if events == [] then {}
    else
      var before, last := CreatedIds(events[..|events| - 1]), events[|events| - 1];
      if last.Creating? then before + {last.id} else before
  }

  /** Presented strings that verify had been handed out before. */
  ghost predicate Unforged(s: Signer, events: seq<Event>) {
    forall i :: 0 <= i < |events| && events[i].Refreshing? ==>
      var known, pair, at := Issued(s, events[..i]), events[i].pair, events[i].at;
      && (s.verify(pair.auth, at.now).Verified? ==> pair.auth in known)
      && (s.verify(pair.refresh, at.later).Verified? ==> pair.refresh in known)
  }

  /** Whatever pairs are presented by whomever, no refresh makes up an identity: every token
      ever handed out carries an id that some create was asked for. */
  lemma {:induction false} IdsComeFromCreates(s: Signer, events: seq<Event>, x: string)
    requires Honest(s) && Unforged(s, events) && x in Issued(s, events)
    ensures exists id :: id in CreatedIds(events) && Carries(s, x, id)
  {
    var before, last := events[..|events| - 1], events[|events| - 1];
    assert forall i :: 0 <= i < |before| ==> before[..i] == events[..i] && before[i] == events[i];
    assert Unforged(s, before);
    if x in Issued(s, before) {
      IdsComeFromCreates(s, before, x);
    } else if last.Creating? {
      assert Carries(s, x, last.id);
    } else {
      var source := last.pair.refresh;
      assert s.verify(source, last.at.later).Verified?;
      IdsComeFromCreates(s, before, source);
      RefreshGoesByFirstVerified(s, last.pair, last.at);
      VerifiedCarries(s, source, last.at.later);
    }
  }
}
