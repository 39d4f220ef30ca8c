/** One-shot tokens: password reset and email verification, and the life of a token over whole runs. */
module PasswordReset {
  import opened Wrappers
  import opened Calendar
  import opened Subscriptions
  import opened ApiKeys
  import opened Sums

  const HOUR: int := 3_600_000_000
  const RESET_TTL: int := HOUR
  const VERIFICATION_TTL: int := 24 * HOUR

  datatype Token = Token(user: UserId, tokenHash: string, expiresAt: Instant, usedAt: Option<Instant>) {
    predicate IsValid(now: Instant) {
      usedAt.None? && expiresAt > now
    }
  }

  /** What looking the email address up found. */
  datatype Account = Account(user: UserId, isActive: bool)

  datatype TokenError = InvalidToken | TokenHashTaken

  function FindToken(tokens: seq<Token>, tokenHash: string): (r: Option<nat>)
    ensures r.Some? ==> r.value < |tokens| && tokens[r.value].tokenHash == tokenHash
    ensures r.None? ==> forall i :: 0 <= i < |tokens| ==> tokens[i].tokenHash != tokenHash
  {
    if tokens == [] then None
    else
      var last, r := |tokens| - 1, FindToken(tokens[..|tokens| - 1], tokenHash);
      if r.Some? then r
      else if tokens[last].tokenHash == tokenHash then Some(last)
      else None
  }

  /** Every unused token of the user is marked used. */
  function UseAll(tokens: seq<Token>, user: UserId, at: Instant): (r: seq<Token>)
    ensures |r| == |tokens|
    ensures forall i :: 0 <= i < |tokens| ==>
              r[i] == if tokens[i].user == user && tokens[i].usedAt.None?
                      then tokens[i].(usedAt := Some(at)) else tokens[i]
  {
    if tokens == [] then []
    else
      var n := |tokens| - 1;
      UseAll(tokens[..n], user, at)
      + [if tokens[n].user == user && tokens[n].usedAt.None? then tokens[n].(usedAt := Some(at)) else tokens[n]]
  }

  function RequestReset(tokens: seq<Token>, account: Option<Account>, hash: Hash, plaintext: string, now: Instant): Result<seq<Token>, TokenError> {
    if account.None? || !account.value.isActive then Ok(tokens)
    else if FindToken(tokens, hash(plaintext)).Some? then Err(TokenHashTaken)
    else Ok(tokens + [Token(account.value.user, hash(plaintext), now + RESET_TTL, None)])
  }

  datatype Reset = Reset(tokens: seq<Token>, user: UserId, token: nat)

  /** Check at one clock reading, consume at the next, then use up the user's other tokens. */
  function ConfirmReset(tokens: seq<Token>, hash: Hash, plaintext: string, checkedAt: Instant, usedAt: Instant): Result<Reset, TokenError> {
    match FindToken(tokens, hash(plaintext))
    case None => Err(InvalidToken)
    case Some(i) =>
      if !tokens[i].IsValid(checkedAt) then Err(InvalidToken)
      else
        var consumed := tokens[i := tokens[i].(usedAt := Some(usedAt))];
        Ok(Reset(UseAll(consumed, tokens[i].user, usedAt), tokens[i].user, i))
  }

  function SendToken(tokens: seq<Token>, hash: Hash, user: UserId, plaintext: string, now: Instant): Result<seq<Token>, TokenError> {
    if FindToken(tokens, hash(plaintext)).Some? then Err(TokenHashTaken)
    else Ok(tokens + [Token(user, hash(plaintext), now + VERIFICATION_TTL, None)])
  }

  /** Unlike a reset, verification uses up only the token presented. */
  function ConfirmEmail(tokens: seq<Token>, hash: Hash, plaintext: string, checkedAt: Instant, usedAt: Instant): Result<Reset, TokenError> {
    match FindToken(tokens, hash(plaintext))
    case None => Err(InvalidToken)
    case Some(i) =>
      if !tokens[i].IsValid(checkedAt) then Err(InvalidToken)
      else Ok(Reset(tokens[i := tokens[i].(usedAt := Some(usedAt))], tokens[i].user, i))
  }

  class TokenService {
    const hash: Hash
    var resets: seq<Token>
    var verifications: seq<Token>
    var passwords: map<UserId, string>
    var verified: set<UserId>

    constructor (hash: Hash)
      ensures this.hash == hash && resets == [] && verifications == [] && passwords == map[] && verified == {}
    {
      this.hash, resets, verifications, passwords, verified := hash, [], [], map[], {};
    }

    method RequestPasswordReset(account: Option<Account>, plaintext: string, now: Instant) returns (r: Result<(), TokenError>)
      modifies this`resets
      ensures match RequestReset(old(resets), account, hash, plaintext, now)
              case Ok(after) => resets == after && r == Ok(())
              case Err(e) => resets == old(resets) && r == Err(e)
    {
      if account.None? || !account.value.isActive {
        return Ok(());
      }
      if FindToken(resets, hash(plaintext)).Some? {
        return Err(TokenHashTaken);
      }
      resets := resets + [Token(account.value.user, hash(plaintext), now + RESET_TTL, None)];
      return Ok(());
    }

    method ConfirmPasswordReset(plaintext: string, newPassword: string, checkedAt: Instant, usedAt: Instant) returns (r: Result<UserId, TokenError>)
      modifies this`resets, this`passwords
      ensures match ConfirmReset(old(resets), hash, plaintext, checkedAt, usedAt)
              case Ok(reset) => resets == reset.tokens && r == Ok(reset.user)
                                && passwords == old(passwords)[reset.user := newPassword]
              case Err(e) => resets == old(resets) && passwords == old(passwords) && r == Err(e)
    {
      var found := FindToken(resets, hash(plaintext));
      if found.None? || !resets[found.value].IsValid(checkedAt) {
        return Err(InvalidToken);
      }
      var user := resets[found.value].user;
      passwords := passwords[user := newPassword];
      resets := resets[found.value := resets[found.value].(usedAt := Some(usedAt))];
      resets := UseAll(resets, user, usedAt);
      return Ok(user);
    }

    method IssueVerification(user: UserId, plaintext: string, now: Instant) returns (r: Result<(), TokenError>)
      modifies this`verifications
      ensures match SendToken(old(verifications), hash, user, plaintext, now)
              case Ok(after) => verifications == after && r == Ok(())
              case Err(e) => verifications == old(verifications) && r == Err(e)
    {
      if FindToken(verifications, hash(plaintext)).Some? {
        return Err(TokenHashTaken);
      }
      verifications := verifications + [Token(user, hash(plaintext), now + VERIFICATION_TTL, None)];
      return Ok(());
    }

    method VerifyEmail(plaintext: string, checkedAt: Instant, usedAt: Instant) returns (r: Result<UserId, TokenError>)
      modifies this`verifications, this`verified
      ensures match ConfirmEmail(old(verifications), hash, plaintext, checkedAt, usedAt)
              case Ok(done) => verifications == done.tokens && verified == old(verified) + {done.user} && r == Ok(done.user)
              case Err(e) => verifications == old(verifications) && verified == old(verified) && r == Err(e)
    {
      var found := FindToken(verifications, hash(plaintext));
      if found.None? || !verifications[found.value].IsValid(checkedAt) {
        return Err(InvalidToken);
      }
      var token := verifications[found.value];
      verifications := verifications[found.value := token.(usedAt := Some(usedAt))];
      if token.user !in verified {
        verified := verified + {token.user};
      }
      return Ok(token.user);
    }
  }

  // ---- Whole runs ----------------------------------------------------------------------------

  /** The token table, and the successful confirms of the run so far. */
  datatype Resets = Resets(tokens: seq<Token>, wins: seq<Win>)

  datatype Win = Win(token: nat, user: UserId)

  datatype ResetOp =
    | Request(account: Option<Account>, plaintext: string, now: Instant)
    | Confirm(plaintext: string, checkedAt: Instant, usedAt: Instant)

  function ResetStep(hash: Hash, s: Resets, op: ResetOp): Resets {
    match op
    case Request(account, plaintext, now) =>
      (match RequestReset(s.tokens, account, hash, plaintext, now)
       case Ok(tokens) => s.(tokens := tokens)
       case Err(_) => s)
    case Confirm(plaintext, checkedAt, usedAt) =>
      (match ConfirmReset(s.tokens, hash, plaintext, checkedAt, usedAt)
       case Ok(reset) => Resets(reset.tokens, s.wins + [Win(reset.token, reset.user)])
       case Err(_) => s)
  }

  function ResetRun(hash: Hash, ops: seq<ResetOp>): Resets {
    if ops == [] then Resets([], [])
    else ResetStep(hash, ResetRun(hash, ops[..|ops| - 1]), ops[|ops| - 1])
  }

  function WonBy(user: UserId): Win -> nat {
    (w: Win) => if w.user == user then 1 else 0
  }

  function UsedOf(user: UserId): Token -> nat {
    (t: Token) => if t.user == user && t.usedAt.Some? then 1 else 0
  }

  function IssuedTo(user: UserId): Token -> nat {
    (t: Token) => if t.user == user then 1 else 0
  }

  ghost predicate ResetsSound(s: Resets) {
    && (forall k :: 0 <= k < |s.wins| ==>
          && s.wins[k].token < |s.tokens| && s.tokens[s.wins[k].token].user == s.wins[k].user
          && s.tokens[s.wins[k].token].usedAt.Some?)
    && (forall k, l :: 0 <= k < l < |s.wins| ==> s.wins[k].token != s.wins[l].token)
    && (forall user :: Total(s.wins, WonBy(user)) <= Total(s.tokens, UsedOf(user)))
  }

  /** Tokens keep their owner, and a used token stays used. */
  ghost predicate StaysUsed(tokens: seq<Token>, after: seq<Token>) {
    && |tokens| <= |after|
    && forall i :: 0 <= i < |tokens| ==>
         after[i].user == tokens[i].user && (tokens[i].usedAt.Some? ==> after[i] == tokens[i])
  }

  lemma {:induction false} MoreUsed(tokens: seq<Token>, after: seq<Token>, user: UserId)
    requires |tokens| == |after| && StaysUsed(tokens, after)
    ensures Total(tokens, UsedOf(user)) <= Total(after, UsedOf(user))
  {
    if tokens != [] {
      MoreUsed(tokens[..|tokens| - 1], after[..|tokens| - 1], user);
    }
  }

  /**
   A confirm succeeds exactly for a known, unused, unexpired token; it then leaves its user without
   an unused token and every other user's tokens as they were.
  */
  lemma ConfirmOutcome(tokens: seq<Token>, hash: Hash, plaintext: string, checkedAt: Instant, usedAt: Instant)
    ensures var res := ConfirmReset(tokens, hash, plaintext, checkedAt, usedAt);
            var found := FindToken(tokens, hash(plaintext));
            && (res.Ok? <==> found.Some? && tokens[found.value].usedAt.None? && checkedAt < tokens[found.value].expiresAt)
            && (res.Ok? ==>
                  && res.value.token == found.value && res.value.user == tokens[found.value].user
                  && |res.value.tokens| == |tokens| && StaysUsed(tokens, res.value.tokens)
                  && forall i :: 0 <= i < |tokens| ==>
                       if tokens[i].user == res.value.user then res.value.tokens[i].usedAt.Some?
                       else res.value.tokens[i] == tokens[i])
  {
  }

  lemma ConfirmSound(s: Resets, hash: Hash, plaintext: string, checkedAt: Instant, usedAt: Instant)
    requires ResetsSound(s) && ConfirmReset(s.tokens, hash, plaintext, checkedAt, usedAt).Ok?
    ensures var reset := ConfirmReset(s.tokens, hash, plaintext, checkedAt, usedAt).value;
            ResetsSound(Resets(reset.tokens, s.wins + [Win(reset.token, reset.user)]))
  {
    hide UseAll, FindToken, Total;
    ConfirmOutcome(s.tokens, hash, plaintext, checkedAt, usedAt);
    var reset := ConfirmReset(s.tokens, hash, plaintext, checkedAt, usedAt).value;
    var i := reset.token;
    var consumed := s.tokens[i := s.tokens[i].(usedAt := Some(usedAt))];
    forall user
      ensures Total(s.wins + [Win(i, reset.user)], WonBy(user)) <= Total(reset.tokens, UsedOf(user))
    {
      TotalAppend(s.wins, Win(i, reset.user), WonBy(user));
      TotalUpdate(s.tokens, i, consumed[i], UsedOf(user));
      MoreUsed(consumed, reset.tokens, user);
    }
  }

  lemma ResetStepSound(hash: Hash, s: Resets, op: ResetOp)
    requires ResetsSound(s)
    ensures ResetsSound(ResetStep(hash, s, op)) && StaysUsed(s.tokens, ResetStep(hash, s, op).tokens)
  {
    hide FindToken, ConfirmReset, Total;
    match op
    case Request(account, plaintext, now) =>
      var t := ResetStep(hash, s, op);
      if |t.tokens| > |s.tokens| {
        forall user
          ensures Total(t.wins, WonBy(user)) <= Total(t.tokens, UsedOf(user))
        {
          TotalAppend(s.tokens, t.tokens[|s.tokens|], UsedOf(user));
        }
      }
    case Confirm(plaintext, checkedAt, usedAt) =>
      if ConfirmReset(s.tokens, hash, plaintext, checkedAt, usedAt).Ok? {
        ConfirmSound(s, hash, plaintext, checkedAt, usedAt);
        ConfirmOutcome(s.tokens, hash, plaintext, checkedAt, usedAt);
      }
  }

  lemma {:induction false} ResetRunSound(hash: Hash, ops: seq<ResetOp>)
    ensures ResetsSound(ResetRun(hash, ops))
  {
    if ops == [] {
      forall user
        ensures Total(ResetRun(hash, ops).wins, WonBy(user)) <= Total(ResetRun(hash, ops).tokens, UsedOf(user))
      {
      }
    } else {
      ResetRunSound(hash, ops[..|ops| - 1]);
      ResetStepSound(hash, ResetRun(hash, ops[..|ops| - 1]), ops[|ops| - 1]);
    }
  }

  /** In a sequential run each token succeeds at most once, and a user's successes never exceed their tokens. */
  lemma EachTokenOnce(hash: Hash, ops: seq<ResetOp>, user: UserId)
    ensures var s := ResetRun(hash, ops);
            && (forall k, l :: 0 <= k < l < |s.wins| ==> s.wins[k].token != s.wins[l].token)
            && Total(s.wins, WonBy(user)) <= Total(s.tokens, IssuedTo(user))
  {
    ResetRunSound(hash, ops);
    TotalMonotone(ResetRun(hash, ops).tokens, UsedOf(user), IssuedTo(user));
  }

  lemma {:induction false} UsedForGood(hash: Hash, ops: seq<ResetOp>, more: seq<ResetOp>)
    ensures StaysUsed(ResetRun(hash, ops).tokens, ResetRun(hash, ops + more).tokens)
  {
    if more == [] {
      assert ops + more == ops;
    } else {
      var n := |more| - 1;
      assert (ops + more)[..|ops + more| - 1] == ops + more[..n];
      UsedForGood(hash, ops, more[..n]);
      ResetRunSound(hash, ops + more[..n]);
      ResetStepSound(hash, ResetRun(hash, ops + more[..n]), more[n]);
    }
  }

  /** After a successful confirm, no token the user held by then is valid at any later point or instant. */
  lemma NoneValidAfterConfirm(hash: Hash, ops: seq<ResetOp>, plaintext: string, checkedAt: Instant, usedAt: Instant,
                              more: seq<ResetOp>, i: nat, now: Instant)
    requires var tokens := ResetRun(hash, ops).tokens;
             var res := ConfirmReset(tokens, hash, plaintext, checkedAt, usedAt);
             res.Ok? && i < |tokens| && tokens[i].user == res.value.user
    ensures var later := ResetRun(hash, ops + [Confirm(plaintext, checkedAt, usedAt)] + more).tokens;
            i < |later| && !later[i].IsValid(now)
  {
    hide ConfirmReset;
    var confirm := Confirm(plaintext, checkedAt, usedAt);
    assert (ops + [confirm])[..|ops|] == ops;
    ConfirmOutcome(ResetRun(hash, ops).tokens, hash, plaintext, checkedAt, usedAt);
    UsedForGood(hash, ops + [confirm], more);
  }

  // ---- How long a reset token works ----------------------------------------------------------

  /** What a request stores: one token for an active account unless its hash is taken, and nothing otherwise. */
  lemma RequestOutcome(tokens: seq<Token>, account: Option<Account>, hash: Hash, plaintext: string, now: Instant)
    ensures RequestReset(tokens, account, hash, plaintext, now)
            == if account.None? || !account.value.isActive then Ok(tokens)
               else if exists i :: 0 <= i < |tokens| && tokens[i].tokenHash == hash(plaintext) then Err(TokenHashTaken)
               else Ok(tokens + [Token(account.value.user, hash(plaintext), now + 3_600_000_000, None)])
  {
  }

  /** The successes of a stretch of the run, `before` of which happened earlier, are none of the user's. */
  ghost predicate NoneWonBy(s: Resets, before: nat, user: UserId) {
    forall k :: before <= k < |s.wins| ==> s.wins[k].user != user
  }

  /** Token `i` is the first with its hash. */
  ghost predicate FirstWithHash(tokens: seq<Token>, i: nat) {
    i < |tokens| && forall j :: 0 <= j < |tokens| && j != i ==> tokens[j].tokenHash != tokens[i].tokenHash
  }

  lemma ResetStepKeeps(hash: Hash, s: Resets, op: ResetOp, i: nat)
    requires FirstWithHash(s.tokens, i)
    ensures var t := ResetStep(hash, s, op);
            && FirstWithHash(t.tokens, i) && t.tokens[i].tokenHash == s.tokens[i].tokenHash
            && s.wins <= t.wins
            && (NoneWonBy(t, |s.wins|, s.tokens[i].user) ==> t.tokens[i] == s.tokens[i])
  {
    var t := ResetStep(hash, s, op);
    if |t.wins| > |s.wins| {
      assert t.wins[|s.wins|] == t.wins[|t.wins| - 1];
    }
  }

  /** Until its user's next success, a token stays as it was issued. */
  lemma {:induction false} TokenWaits(hash: Hash, ops: seq<ResetOp>, more: seq<ResetOp>, i: nat)
    requires FirstWithHash(ResetRun(hash, ops).tokens, i)
    ensures var s, t := ResetRun(hash, ops), ResetRun(hash, ops + more);
            && FirstWithHash(t.tokens, i) && t.tokens[i].tokenHash == s.tokens[i].tokenHash
            && s.wins <= t.wins
            && (NoneWonBy(t, |s.wins|, s.tokens[i].user) ==> t.tokens[i] == s.tokens[i])
  {
    hide ResetStep;
    if more == [] {
      assert ops + more == ops;
    } else {
      var n := |more| - 1;
      assert (ops + more)[..|ops + more| - 1] == ops + more[..n];
      TokenWaits(hash, ops, more[..n], i);
      ResetStepKeeps(hash, ResetRun(hash, ops + more[..n]), more[n], i);
      StillNone(ResetRun(hash, ops), ResetRun(hash, ops + more[..n]), ResetRun(hash, ops + more), i);
    }
  }

  lemma StillNone(s: Resets, m: Resets, t: Resets, i: nat)
    requires s.wins <= m.wins <= t.wins && i < |s.tokens|
    ensures NoneWonBy(t, |s.wins|, s.tokens[i].user) ==>
              NoneWonBy(m, |s.wins|, s.tokens[i].user) && NoneWonBy(t, |m.wins|, s.tokens[i].user)
  {
  }

  /**
   After a request for an active account, and until that user's next success, the plaintext sent resets
   that user's password exactly when it is presented within the hour.
  */
  lemma ResetWorksForAnHour(hash: Hash, ops: seq<ResetOp>, user: UserId, plaintext: string, now: Instant, more: seq<ResetOp>,
                            checkedAt: Instant, usedAt: Instant)
    requires forall i :: 0 <= i < |ResetRun(hash, ops).tokens| ==> ResetRun(hash, ops).tokens[i].tokenHash != hash(plaintext)
    requires var request := Request(Some(Account(user, true)), plaintext, now);
             NoneWonBy(ResetRun(hash, ops + [request] + more), |ResetRun(hash, ops).wins|, user)
    ensures var request := Request(Some(Account(user, true)), plaintext, now);
            var res := ConfirmReset(ResetRun(hash, ops + [request] + more).tokens, hash, plaintext, checkedAt, usedAt);
            && (res.Ok? <==> checkedAt < now + 3_600_000_000)
            && (res.Ok? ==> res.value.user == user)
            && (res.Err? ==> res == Err(InvalidToken))
  {
    hide ResetRun;
    var request := Request(Some(Account(user, true)), plaintext, now);
    var s, t := ResetRun(hash, ops), ResetRun(hash, ops + [request] + more);
    RunThen(hash, ops, request);
    RequestOutcome(s.tokens, Some(Account(user, true)), hash, plaintext, now);
    TokenWaits(hash, ops + [request], more, |s.tokens|);
    assert FindToken(t.tokens, hash(plaintext)) == Some(|s.tokens|);
  }

  lemma RunThen(hash: Hash, ops: seq<ResetOp>, op: ResetOp)
    ensures ResetRun(hash, ops + [op]) == ResetStep(hash, ResetRun(hash, ops), op)
  {
    assert (ops + [op])[..|ops|] == ops;
  }

  // ---- Email verification --------------------------------------------------------------------

  /** `done` holds the verification tokens and the successful verifications of the run so far. */
  datatype Verifications = Verifications(done: Resets, verified: set<UserId>)

  datatype VerifyOp =
    | Send(user: UserId, plaintext: string, now: Instant)
    | Present(plaintext: string, checkedAt: Instant, usedAt: Instant)

  function VerifyStep(hash: Hash, s: Verifications, op: VerifyOp): Verifications {
    match op
    case Send(user, plaintext, now) =>
      (match SendToken(s.done.tokens, hash, user, plaintext, now)
       case Ok(tokens) => s.(done := s.done.(tokens := tokens))
       case Err(_) => s)
    case Present(plaintext, checkedAt, usedAt) =>
      (match ConfirmEmail(s.done.tokens, hash, plaintext, checkedAt, usedAt)
       case Ok(c) => Verifications(Resets(c.tokens, s.done.wins + [Win(c.token, c.user)]), s.verified + {c.user})
       case Err(_) => s)
  }

  function VerifyRun(hash: Hash, ops: seq<VerifyOp>): Verifications {
    if ops == [] then Verifications(Resets([], []), {})
    else VerifyStep(hash, VerifyRun(hash, ops[..|ops| - 1]), ops[|ops| - 1])
  }

  /** A verification succeeds exactly for a known, unused, unexpired token, and touches no other token. */
  lemma VerifyOutcome(tokens: seq<Token>, hash: Hash, plaintext: string, checkedAt: Instant, usedAt: Instant)
    ensures var res := ConfirmEmail(tokens, hash, plaintext, checkedAt, usedAt);
            var found := FindToken(tokens, hash(plaintext));
            && (res.Ok? <==> found.Some? && tokens[found.value].usedAt.None? && checkedAt < tokens[found.value].expiresAt)
            && (res.Ok? ==>
                  && res.value.token == found.value && res.value.user == tokens[found.value].user
                  && |res.value.tokens| == |tokens| && res.value.tokens[found.value].usedAt == Some(usedAt)
                  && StaysUsed(tokens, res.value.tokens)
                  && forall i :: 0 <= i < |tokens| && i != found.value ==> res.value.tokens[i] == tokens[i])
  {
  }

  lemma VerifyStepSound(hash: Hash, s: Verifications, op: VerifyOp)
    requires ResetsSound(s.done)
    ensures ResetsSound(VerifyStep(hash, s, op).done)
  {
    hide FindToken, Total;
    var t := VerifyStep(hash, s, op);
    forall user
      ensures Total(t.done.wins, WonBy(user)) <= Total(t.done.tokens, UsedOf(user))
    {
      match op
      case Send(_, _, _) =>
        if |t.done.tokens| > |s.done.tokens| {
          TotalAppend(s.done.tokens, t.done.tokens[|s.done.tokens|], UsedOf(user));
        }
      case Present(plaintext, checkedAt, usedAt) =>
        if ConfirmEmail(s.done.tokens, hash, plaintext, checkedAt, usedAt).Ok? {
          var c := ConfirmEmail(s.done.tokens, hash, plaintext, checkedAt, usedAt).value;
          TotalAppend(s.done.wins, Win(c.token, c.user), WonBy(user));
          TotalUpdate(s.done.tokens, c.token, c.tokens[c.token], UsedOf(user));
        }
    }
  }

  ghost predicate Verified(s: Verifications, user: UserId) {
    exists k :: 0 <= k < |s.done.wins| && s.done.wins[k].user == user
  }

  /**
   In a sequential run each verification token succeeds at most once, a user's successes never exceed
   the tokens sent to them, and the verified users are exactly those with a success.
  */
  lemma {:induction false} EachVerificationOnce(hash: Hash, ops: seq<VerifyOp>, user: UserId)
    ensures var s := VerifyRun(hash, ops);
            && ResetsSound(s.done)
            && (forall k, l :: 0 <= k < l < |s.done.wins| ==> s.done.wins[k].token != s.done.wins[l].token)
            && Total(s.done.wins, WonBy(user)) <= Total(s.done.tokens, IssuedTo(user))
            && (user in s.verified <==> Verified(s, user))
  {
    hide FindToken, Total;
    if ops == [] {
      forall u
        ensures Total<Win>([], WonBy(u)) <= Total<Token>([], UsedOf(u))
      {
        TotalZero([], WonBy(u));
      }
    } else {
      var n := |ops| - 1;
      EachVerificationOnce(hash, ops[..n], user);
      VerifyStepSound(hash, VerifyRun(hash, ops[..n]), ops[n]);
      VerifiedStep(hash, VerifyRun(hash, ops[..n]), ops[n], user);
    }
    TotalMonotone(VerifyRun(hash, ops).done.tokens, UsedOf(user), IssuedTo(user));
  }

  lemma VerifiedStep(hash: Hash, s: Verifications, op: VerifyOp, user: UserId)
    requires user in s.verified <==> Verified(s, user)
    ensures user in VerifyStep(hash, s, op).verified <==> Verified(VerifyStep(hash, s, op), user)
  {
    hide FindToken;
    var t := VerifyStep(hash, s, op);
    if Verified(s, user) {
      var k :| 0 <= k < |s.done.wins| && s.done.wins[k].user == user;
      assert t.done.wins[k].user == user;
    }
    if |t.done.wins| > |s.done.wins| {
      assert t.done.wins[|s.done.wins|].user in t.verified;
    }
  }

  /** A verified user is verified at every later point of the run. */
  lemma {:induction false} VerifiedForGood(hash: Hash, ops: seq<VerifyOp>, more: seq<VerifyOp>)
    ensures VerifyRun(hash, ops).verified <= VerifyRun(hash, ops + more).verified
  {
    if more == [] {
      assert ops + more == ops;
    } else {
      var n := |more| - 1;
      assert (ops + more)[..|ops + more| - 1] == ops + more[..n];
      VerifiedForGood(hash, ops, more[..n]);
    }
  }

  // ---- How long a verification token works ---------------------------------------------------

  /** What issuing stores: one token with a day to live, unless its hash is taken. */
  lemma SendOutcome(tokens: seq<Token>, hash: Hash, user: UserId, plaintext: string, now: Instant)
    ensures SendToken(tokens, hash, user, plaintext, now)
            == if exists i :: 0 <= i < |tokens| && tokens[i].tokenHash == hash(plaintext) then Err(TokenHashTaken)
               else Ok(tokens + [Token(user, hash(plaintext), now + 24 * 3_600_000_000, None)])
  {
  }

  /** The successes of a stretch of the run are not of this token. */
  ghost predicate NotPresented(s: Verifications, before: nat, i: nat) {
    forall k :: before <= k < |s.done.wins| ==> s.done.wins[k].token != i
  }

  lemma VerifyStepKeeps(hash: Hash, s: Verifications, op: VerifyOp, i: nat)
    requires FirstWithHash(s.done.tokens, i)
    ensures var t := VerifyStep(hash, s, op);
            && FirstWithHash(t.done.tokens, i) && t.done.tokens[i].tokenHash == s.done.tokens[i].tokenHash
            && s.done.wins <= t.done.wins
            && (NotPresented(t, |s.done.wins|, i) ==> t.done.tokens[i] == s.done.tokens[i])
  {
    var t := VerifyStep(hash, s, op);
    if |t.done.wins| > |s.done.wins| {
      assert t.done.wins[|s.done.wins|] == t.done.wins[|t.done.wins| - 1];
    }
  }

  lemma {:induction false} VerificationWaits(hash: Hash, ops: seq<VerifyOp>, more: seq<VerifyOp>, i: nat)
    requires FirstWithHash(VerifyRun(hash, ops).done.tokens, i)
    ensures var s, t := VerifyRun(hash, ops).done, VerifyRun(hash, ops + more).done;
            && FirstWithHash(t.tokens, i) && t.tokens[i].tokenHash == s.tokens[i].tokenHash
            && s.wins <= t.wins
            && (NotPresented(VerifyRun(hash, ops + more), |s.wins|, i) ==> t.tokens[i] == s.tokens[i])
  {
    hide VerifyStep, FirstWithHash;
    if more == [] {
      assert ops + more == ops;
    } else {
      var n := |more| - 1;
      assert (ops + more)[..|ops + more| - 1] == ops + more[..n];
      VerificationWaits(hash, ops, more[..n], i);
      VerifyStepKeeps(hash, VerifyRun(hash, ops + more[..n]), more[n], i);
      StillNotPresented(VerifyRun(hash, ops), VerifyRun(hash, ops + more[..n]), VerifyRun(hash, ops + more), i);
    }
  }

  lemma StillNotPresented(s: Verifications, m: Verifications, t: Verifications, i: nat)
    requires s.done.wins <= m.done.wins <= t.done.wins
    ensures NotPresented(t, |s.done.wins|, i) ==> NotPresented(m, |s.done.wins|, i) && NotPresented(t, |m.done.wins|, i)
  {
  }

  /** Until it succeeds, the plaintext sent verifies its user exactly when it is presented within 24 hours. */
  lemma VerificationWorksForADay(hash: Hash, ops: seq<VerifyOp>, user: UserId, plaintext: string, now: Instant, more: seq<VerifyOp>,
                                 checkedAt: Instant, usedAt: Instant)
    requires var tokens := VerifyRun(hash, ops).done.tokens;
             forall i :: 0 <= i < |tokens| ==> tokens[i].tokenHash != hash(plaintext)
    requires var s := VerifyRun(hash, ops).done;
             NotPresented(VerifyRun(hash, ops + [Send(user, plaintext, now)] + more), |s.wins|, |s.tokens|)
    ensures var tokens := VerifyRun(hash, ops + [Send(user, plaintext, now)] + more).done.tokens;
            var res := ConfirmEmail(tokens, hash, plaintext, checkedAt, usedAt);
            && (res.Ok? <==> checkedAt < now + 24 * 3_600_000_000)
            && (res.Ok? ==> res.value.user == user)
            && (res.Err? ==> res == Err(InvalidToken))
  {
    hide VerifyRun;
    var send := Send(user, plaintext, now);
    var s, t := VerifyRun(hash, ops), VerifyRun(hash, ops + [send] + more);
    VerifyThen(hash, ops, send);
    SendOutcome(s.done.tokens, hash, user, plaintext, now);
    VerificationWaits(hash, ops + [send], more, |s.done.tokens|);
    assert FindToken(t.done.tokens, hash(plaintext)) == Some(|s.done.tokens|);
  }

  lemma VerifyThen(hash: Hash, ops: seq<VerifyOp>, op: VerifyOp)
    ensures VerifyRun(hash, ops + [op]) == VerifyStep(hash, VerifyRun(hash, ops), op)
  {
    assert (ops + [op])[..|ops|] == ops;
  }
}
