/** API keys: issue, revoke, rotate and authenticate. The hash is a parameter, later assumed injective. */
module ApiKeys {
  import opened Wrappers
  import opened Calendar
  import opened Subscriptions
  import opened BillingService
  import opened Sums

  type Hash = string -> string

  const KEY_PREFIX := "sk_live_"
  const PREFIX_LEN := 12
  const NAME_MAX := 120

  datatype ApiKey = ApiKey(
    user: UserId, name: string, prefix: string, keyHash: string,
    lastUsedAt: Option<Instant>, revokedAt: Option<Instant>)
  {
    predicate IsActive() {
      revokedAt.None?
    }
  }

  datatype KeyError =
    | LimitReached(limit: nat, current: nat) | KeyNotFound | AlreadyRevoked | HashTaken

  // ---- Names and prefixes --------------------------------------------------------------------

  /** The characters that Python's `str.strip` removes, by code point. */
  predicate IsSpace(c: char) {
    var n := c as int;
    || 9 <= n <= 13 || 28 <= n <= 32 || n == 0x85 || n == 0xa0 || n == 0x1680
    || 0x2000 <= n <= 0x200a || n == 0x2028 || n == 0x2029 || n == 0x202f || n == 0x205f || n == 0x3000
  }

  predicate Blank(s: string) {
    forall c :: c in s ==> IsSpace(c)
  }

  function StripLeft(s: string): (r: string)
    ensures r == "" || !IsSpace(r[0])
    ensures s != "" && !IsSpace(s[0]) ==> r == s
  {
    if s != "" && IsSpace(s[0]) then StripLeft(s[1..]) else s
  }

  function StripRight(s: string): (r: string)
    ensures r <= s
    ensures r == "" || !IsSpace(r[|r| - 1])
    ensures s != "" ==> (r == s <==> !IsSpace(s[|s| - 1]))
    ensures s != "" && !IsSpace(s[0]) ==> r != ""
  {
    if s != "" && IsSpace(s[|s| - 1]) then StripRight(s[..|s| - 1]) else s
  }

  /** What is stripped is blank. */
  lemma {:induction false} StripLeftAt(s: string) returns (i: nat)
    ensures i <= |s| && StripLeft(s) == s[i..] && Blank(s[..i])
  {
    hide IsSpace;
    i := 0;
    if s != "" && IsSpace(s[0]) {
      var k := StripLeftAt(s[1..]);
      i := k + 1;
      assert s[..i] == [s[0]] + s[1..][..k] && s[i..] == s[1..][k..];
    }
  }

  lemma {:induction false} StripRightAt(s: string) returns (j: nat)
    ensures j <= |s| && StripRight(s) == s[..j] && Blank(s[j..])
  {
    hide IsSpace;
    j := |s|;
    if s != "" && IsSpace(s[|s| - 1]) {
      var n := |s| - 1;
      j := StripRightAt(s[..n]);
      assert s[j..] == s[..n][j..] + [s[n]] && s[..n][..j] == s[..j];
    }
  }

  function Truncate(s: string, n: nat): string {
    if |s| <= n then s else s[..n]
  }

  predicate WellNamed(name: string) {
    name != "" && |name| <= NAME_MAX && !IsSpace(name[0])
  }

  /** `name.strip()[:120] or "default"`. */
  function StoredName(name: string): (r: string)
    ensures WellNamed(r)
  {
    var cut := Truncate(StripRight(StripLeft(name)), NAME_MAX);
    FirstKept(StripLeft(name), NAME_MAX);
    if cut == "" then "default" else cut
  }

  lemma FirstKept(s: string, n: nat)
    requires s == "" || !IsSpace(s[0])
    ensures var cut := Truncate(StripRight(s), n); |cut| <= n && (cut == "" || !IsSpace(cut[0]))
  {
    hide IsSpace;
    assert StripRight(s) <= s;
  }

  /** `name[i..j]` is the name without the spaces around it; empty when there is nothing else. */
  predicate IsCore(name: string, i: nat, j: nat) {
    && i <= j <= |name| && Blank(name[..i]) && Blank(name[j..])
    && (i < j ==> !IsSpace(name[i]) && !IsSpace(name[j - 1]))
  }

  predicate StoredFrom(name: string, stored: string, i: nat, j: nat) {
    IsCore(name, i, j) && stored == if i == j then "default" else if j - i <= 120 then name[i..j] else name[i..i + 120]
  }

  ghost predicate IsStoredName(name: string, stored: string) {
    exists i: nat, j: nat :: StoredFrom(name, stored, i, j)
  }

  /** Stripping both sides leaves the core. */
  lemma StripsToCore(name: string) returns (i: nat, j: nat)
    ensures i <= j <= |name| && StripRight(StripLeft(name)) == name[i..j] && IsCore(name, i, j)
  {
    hide IsSpace, Blank;
    i := StripLeftAt(name);
    var left := name[i..];
    var k := StripRightAt(left);
    j := i + k;
    assert left[..k] == name[i..j] && left[k..] == name[j..];
    assert k > 0 ==> name[i] == left[0] && name[j - 1] == left[k - 1];
  }

  /** Every name is stored as the first 120 characters of its core, or as "default" when it has none. */
  lemma StoredNameIs(name: string)
    ensures IsStoredName(name, StoredName(name))
  {
    hide IsCore, StripLeft, StripRight;
    var i, j := StripsToCore(name);
    if j - i > 120 {
      assert name[i..j][..120] == name[i..i + 120];
    }
    assert StoredFrom(name, StoredName(name), i, j);
  }

  /** Storing a stored name again drops the spaces at its end, so it keeps exactly the names without any. */
  lemma RotationKeepsName(name: string)
    requires WellNamed(name)
    ensures StoredName(name) == StripRight(name)
    ensures StoredName(name) == name <==> !IsSpace(name[|name| - 1])
  {
    assert StripLeft(name) == name;
  }

  /** A name whose 120th character is followed by a cut word: storing it twice is not storing it once. */
  lemma NameCanShrink(word: string)
    requires |word| == NAME_MAX - 1 && word[0] == 'a' && word[NAME_MAX - 2] == 'a'
    ensures StoredName(word + " a") == word + " "
    ensures StoredName(StoredName(word + " a")) == word
  {
    assert !IsSpace('a') && IsSpace(' ');
    hide IsSpace, StripLeft, StripRight;
    assert StripLeft(word + " a") == word + " a" == StripRight(word + " a");
    assert (word + " a")[..NAME_MAX] == word + " ";
    assert StripLeft(word + " ") == word + " ";
    StripOne(word);
  }

  lemma StripOne(word: string)
    requires word != "" && !IsSpace(word[|word| - 1])
    ensures StripRight(word + " ") == word
  {
    assert IsSpace(' ');
    hide IsSpace;
    assert (word + " ")[..|word|] == word;
  }

  function SplitPrefix(plaintext: string): string {
    Truncate(plaintext, PREFIX_LEN)
  }

  // ---- The services as functions -------------------------------------------------------------

  function LiveFor(user: UserId): ApiKey -> nat {
    (k: ApiKey) => if k.user == user && k.IsActive() then 1 else 0
  }

  function ActiveKeys(keys: seq<ApiKey>, user: UserId): nat {
    Total(keys, LiveFor(user))
  }

  /** The plan limit in force, 1 without a subscription. */
  function KeyLimit(db: Db, user: UserId): nat {
    match ActiveRow(db.subs, user)
    case None => 1
    case Some(i) => db.subs[i].plan.maxApiKeys
  }

  predicate Stored(keys: seq<ApiKey>, keyHash: string) {
    exists k :: 0 <= k < |keys| && keys[k].keyHash == keyHash
  }

  function NewKey(hash: Hash, user: UserId, name: string, token: string): ApiKey {
    var plaintext := KEY_PREFIX + token;
    ApiKey(user, StoredName(name), SplitPrefix(plaintext), hash(plaintext), None, None)
  }

  function CreateKey(db: Db, keys: seq<ApiKey>, hash: Hash, user: UserId, name: string, token: string): Result<seq<ApiKey>, KeyError> {
    var limit, current := KeyLimit(db, user), ActiveKeys(keys, user);
    if current >= limit then Err(LimitReached(limit, current))
    else if Stored(keys, hash(KEY_PREFIX + token)) then Err(HashTaken)
    else Ok(keys + [NewKey(hash, user, name, token)])
  }

  function RevokeKey(keys: seq<ApiKey>, user: UserId, id: nat, now: Instant): Result<seq<ApiKey>, KeyError> {
    if id >= |keys| || keys[id].user != user then Err(KeyNotFound)
    else if !keys[id].IsActive() then Err(AlreadyRevoked)
    else Ok(keys[id := keys[id].(revokedAt := Some(now))])
  }

  function RotateKey(db: Db, keys: seq<ApiKey>, hash: Hash, user: UserId, id: nat, token: string, now: Instant): Result<seq<ApiKey>, KeyError> {
    match RevokeKey(keys, user, id, now)
    case Err(e) => Err(e)
    case Ok(revoked) => CreateKey(db, revoked, hash, user, keys[id].name, token)
  }

  // ---- Authentication ------------------------------------------------------------------------

  predicate Candidate(k: ApiKey, prefix: string) {
    k.prefix == prefix && k.IsActive()
  }

  /** Unrevoked keys with the prefix, newest first. */
  function Candidates(keys: seq<ApiKey>, prefix: string): (ids: seq<nat>)
    ensures forall j :: 0 <= j < |ids| ==> ids[j] < |keys| && Candidate(keys[ids[j]], prefix)
    ensures forall i :: 0 <= i < |keys| && Candidate(keys[i], prefix) ==> i in ids
  {
    if keys == [] then []
    else
      var last := |keys| - 1;
      (if Candidate(keys[last], prefix) then [last] else []) + Candidates(keys[..last], prefix)
  }

  /** The first of the candidates whose stored hash matches. */
  function FirstMatch(keys: seq<ApiKey>, ids: seq<nat>, keyHash: string): (r: Option<nat>)
    requires forall j :: 0 <= j < |ids| ==> ids[j] < |keys|
    ensures r.Some? ==> r.value in ids && r.value < |keys| && keys[r.value].keyHash == keyHash
    ensures r.None? ==> forall j :: 0 <= j < |ids| ==> keys[ids[j]].keyHash != keyHash
  {
    if ids == [] then None
    else if keys[ids[0]].keyHash == keyHash then Some(ids[0])
    else FirstMatch(keys, ids[1..], keyHash)
  }

  datatype AuthResult = NoCredentials | UserDisabled | InvalidKey | Accepted(user: UserId, id: nat)

  function Authenticate(keys: seq<ApiKey>, disabled: set<UserId>, hash: Hash, plaintext: string): AuthResult {
    if plaintext == "" then NoCredentials
    else
      match FirstMatch(keys, Candidates(keys, SplitPrefix(plaintext)), hash(plaintext))
      case None => InvalidKey
      case Some(i) => if keys[i].user in disabled then UserDisabled else Accepted(keys[i].user, i)
  }

  function MarkUsed(keys: seq<ApiKey>, r: AuthResult, now: Instant): seq<ApiKey> {
    if r.Accepted? && r.id < |keys| then keys[r.id := keys[r.id].(lastUsedAt := Some(now))] else keys
  }

  // ---- The services over a stored table ------------------------------------------------------

  class KeyService {
    const billing: Billing
    const hash: Hash
    var keys: seq<ApiKey>

    constructor (billing: Billing, hash: Hash)
      ensures this.billing == billing && this.hash == hash && keys == []
    {
      this.billing, this.hash, keys := billing, hash, [];
    }

    /** The issued plaintext is returned this once. */
    method Create(user: UserId, name: string, token: string) returns (r: Result<string, KeyError>)
      modifies this
      ensures match CreateKey(billing.View(), old(keys), hash, user, name, token)
              case Ok(after) => keys == after && r == Ok("sk_live_" + token)
              case Err(e) => keys == old(keys) && r == Err(e)
    {
      var sub := ActiveRow(billing.subs, user);
      var planMax := if sub.Some? then billing.subs[sub.value].plan.maxApiKeys else 1;
      var currentActive := ActiveKeys(keys, user);
      if currentActive >= planMax {
        return Err(LimitReached(planMax, currentActive));
      }
      var plaintext := KEY_PREFIX + token;
      if Stored(keys, hash(plaintext)) {
        return Err(HashTaken);
      }
      keys := keys + [ApiKey(user, StoredName(name), SplitPrefix(plaintext), hash(plaintext), None, None)];
      return Ok(plaintext);
    }

    method Revoke(user: UserId, id: nat, now: Instant) returns (r: Result<(), KeyError>)
      modifies this
      ensures match RevokeKey(old(keys), user, id, now)
              case Ok(after) => keys == after && r == Ok(())
              case Err(e) => keys == old(keys) && r == Err(e)
    {
      if id >= |keys| || keys[id].user != user {
        return Err(KeyNotFound);
      }
      if !keys[id].IsActive() {
        return Err(AlreadyRevoked);
      }
      keys := keys[id := keys[id].(revokedAt := Some(now))];
      return Ok(());
    }

    /** One transaction: when the replacement is refused the revocation is undone. */
    method Rotate(user: UserId, id: nat, token: string, now: Instant) returns (r: Result<string, KeyError>)
      modifies this
      ensures match RotateKey(billing.View(), old(keys), hash, user, id, token, now)
              case Ok(after) => keys == after && r == Ok("sk_live_" + token)
              case Err(e) => keys == old(keys) && r == Err(e)
    {
      var saved := keys;
      if id >= |keys| || keys[id].user != user {
        return Err(KeyNotFound);
      }
      if !keys[id].IsActive() {
        return Err(AlreadyRevoked);
      }
      var name := keys[id].name;
      keys := keys[id := keys[id].(revokedAt := Some(now))];
      r := Create(user, name, token);
      if r.Err? {
        keys := saved;
      }
    }

    /** `marks` is false when the swallowed update of `last_used_at` fails. */
    method Login(disabled: set<UserId>, plaintext: string, now: Instant, marks: bool) returns (r: AuthResult)
      modifies this
      ensures r == Authenticate(old(keys), disabled, hash, plaintext)
      ensures keys == if marks then MarkUsed(old(keys), r, now) else old(keys)
    {
      hide Candidates, SplitPrefix, Candidate;
      if plaintext == "" {
        return NoCredentials;
      }
      var providedHash := hash(plaintext);
      var candidates := Candidates(keys, SplitPrefix(plaintext));
      var j := 0;
      while j < |candidates|
        invariant 0 <= j <= |candidates| && keys == old(keys)
        invariant FirstMatch(keys, candidates, providedHash) == FirstMatch(keys, candidates[j..], providedHash)
      {
        var id := candidates[j];
        if keys[id].keyHash == providedHash {
          if keys[id].user in disabled {
            return UserDisabled;
          }
          r := Accepted(keys[id].user, id);
          if marks {
            keys := keys[id := keys[id].(lastUsedAt := Some(now))];
          }
          return;
        }
        assert candidates[j..][1..] == candidates[j + 1..];
        j := j + 1;
      }
      return InvalidKey;
    }
  }
}
