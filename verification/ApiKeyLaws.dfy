/** Whole runs of key operations and plan changes: lookup, acceptance, the key limit, and rotation. */
module ApiKeyLaws {
  import opened Wrappers
  import opened Calendar
  import opened Subscriptions
  import opened SubscriptionLaws
  import opened SequentialLaws
  import opened SweepLaws
  import opened ApiKeys
  import opened Sums

  /**
   The tables, and beside each key row what the run knows of it: the plaintext handed out and the
   user's key limit in force at that moment.
  */
  datatype World = World(db: Db, keys: seq<ApiKey>, issued: seq<string>, limits: seq<nat>)

  datatype KeyOp =
    | Bill(op: Op)
    | Issue(user: UserId, name: string, token: string)
    | Revoke(user: UserId, id: nat, now: Instant)
    | Rotate(user: UserId, id: nat, token: string, now: Instant)
    | Login(disabled: set<UserId>, plaintext: string, now: Instant)

  function Issued(w: World, user: UserId, token: string, r: Result<seq<ApiKey>, KeyError>): World {
    match r
    case Err(_) => w
    case Ok(keys) => World(w.db, keys, w.issued + [KEY_PREFIX + token], w.limits + [KeyLimit(w.db, user)])
  }

  function KeyStep(plans: Catalogue, hash: Hash, w: World, op: KeyOp): World {
    match op
    case Bill(o) => w.(db := Do(plans, w.db, o))
    case Issue(user, name, token) => Issued(w, user, token, CreateKey(w.db, w.keys, hash, user, name, token))
    case Revoke(user, id, now) =>
      (match RevokeKey(w.keys, user, id, now)
       case Err(_) => w
       case Ok(keys) => w.(keys := keys))
    case Rotate(user, id, token, now) =>
      Issued(w, user, token, RotateKey(w.db, w.keys, hash, user, id, token, now))
    case Login(disabled, plaintext, now) =>
      w.(keys := MarkUsed(w.keys, Authenticate(w.keys, disabled, hash, plaintext), now))
  }

  function KeyRun(plans: Catalogue, hash: Hash, ops: seq<KeyOp>): World {
    if ops == [] then World(Db([], []), [], [], [])
    else KeyStep(plans, hash, KeyRun(plans, hash, ops[..|ops| - 1]), ops[|ops| - 1])
  }

  ghost predicate Injective(hash: Hash) {
    forall a, b :: hash(a) == hash(b) ==> a == b
  }

  // ---- The invariant -------------------------------------------------------------------------

  predicate Genuine(k: ApiKey, plaintext: string, hash: Hash) {
    plaintext != "" && k.prefix == SplitPrefix(plaintext) && k.keyHash == hash(plaintext)
  }

  /** Rows match the plaintexts handed out, and no hash is stored twice. */
  ghost predicate RowsGenuine(w: World, hash: Hash) {
    && |w.keys| == |w.issued| == |w.limits|
    && (forall i :: 0 <= i < |w.keys| ==> Genuine(w.keys[i], w.issued[i], hash))
    && (forall i, j :: 0 <= i < j < |w.keys| ==> w.keys[i].keyHash != w.keys[j].keyHash)
  }

  /** Of a live key's owner, the live keys up to it fit the limit in force when it was created. */
  ghost predicate LimitsKept(w: World)
    requires |w.keys| == |w.limits|
  {
    forall i :: 0 <= i < |w.keys| && w.keys[i].IsActive() ==>
      ActiveKeys(w.keys[..i + 1], w.keys[i].user) <= w.limits[i]
  }

  ghost predicate NamesKept(keys: seq<ApiKey>) {
    forall i :: 0 <= i < |keys| ==> WellNamed(keys[i].name)
  }

  ghost predicate KeysSound(w: World, hash: Hash) {
    RowsGenuine(w, hash) && LimitsKept(w) && NamesKept(w.keys)
  }

  /** Same rows in the same order, and no key comes back to life. */
  ghost predicate OnlyRevokes(keys: seq<ApiKey>, after: seq<ApiKey>) {
    && |keys| <= |after|
    && forall i :: 0 <= i < |keys| ==>
         && after[i].user == keys[i].user && after[i].name == keys[i].name
         && after[i].prefix == keys[i].prefix && after[i].keyHash == keys[i].keyHash
         && (!keys[i].IsActive() ==> after[i].revokedAt == keys[i].revokedAt)
  }

  lemma {:induction false} FewerLive(keys: seq<ApiKey>, after: seq<ApiKey>, user: UserId)
    requires |keys| == |after| && OnlyRevokes(keys, after)
    ensures ActiveKeys(after, user) <= ActiveKeys(keys, user)
  {
    if keys != [] {
      var n := |keys| - 1;
      FewerLive(keys[..n], after[..n], user);
    }
  }

  lemma RevokedSound(w: World, after: seq<ApiKey>, hash: Hash)
    requires KeysSound(w, hash) && |after| == |w.keys| && OnlyRevokes(w.keys, after)
    ensures KeysSound(w.(keys := after), hash)
  {
    forall i | 0 <= i < |after| && after[i].IsActive()
      ensures ActiveKeys(after[..i + 1], after[i].user) <= w.limits[i]
    {
      FewerLive(w.keys[..i + 1], after[..i + 1], after[i].user);
    }
  }

  lemma IssuedSound(w: World, hash: Hash, user: UserId, name: string, token: string)
    requires KeysSound(w, hash) && CreateKey(w.db, w.keys, hash, user, name, token).Ok?
    ensures KeysSound(Issued(w, user, token, CreateKey(w.db, w.keys, hash, user, name, token)), hash)
  {
    hide StoredName;
    var t := Issued(w, user, token, CreateKey(w.db, w.keys, hash, user, name, token));
    var n := |w.keys|;
    forall i | 0 <= i < |t.keys| && t.keys[i].IsActive()
      ensures ActiveKeys(t.keys[..i + 1], t.keys[i].user) <= t.limits[i]
    {
      if i < n {
        assert t.keys[..i + 1] == w.keys[..i + 1];
      } else {
        assert t.keys[..i + 1] == w.keys + [t.keys[n]];
        TotalAppend(w.keys, t.keys[n], LiveFor(user));
      }
    }
  }

  lemma IssueSound(hash: Hash, w: World, user: UserId, name: string, token: string)
    requires KeysSound(w, hash) && CreateKey(w.db, w.keys, hash, user, name, token).Ok?
    ensures var t := Issued(w, user, token, CreateKey(w.db, w.keys, hash, user, name, token));
            KeysSound(t, hash) && OnlyRevokes(w.keys, t.keys)
  {
    hide CreateKey, KeyLimit, KeysSound;
    CreateAppends(w.db, w.keys, hash, user, name, token);
    IssuedSound(w, hash, user, name, token);
  }

  lemma RevokeSound(hash: Hash, w: World, user: UserId, id: nat, now: Instant)
    requires KeysSound(w, hash) && RevokeKey(w.keys, user, id, now).Ok?
    ensures var after := RevokeKey(w.keys, user, id, now).value;
            KeysSound(w.(keys := after), hash) && OnlyRevokes(w.keys, after)
  {
    hide KeysSound;
    RevokedSound(w, RevokeKey(w.keys, user, id, now).value, hash);
  }

  lemma RotateSound(hash: Hash, w: World, user: UserId, id: nat, token: string, now: Instant)
    requires KeysSound(w, hash) && RotateKey(w.db, w.keys, hash, user, id, token, now).Ok?
    ensures var t := Issued(w, user, token, RotateKey(w.db, w.keys, hash, user, id, token, now));
            KeysSound(t, hash) && OnlyRevokes(w.keys, t.keys)
  {
    hide CreateKey, KeysSound, KeyLimit;
    RevokeSound(hash, w, user, id, now);
    IssueSound(hash, w.(keys := RevokeKey(w.keys, user, id, now).value), user, w.keys[id].name, token);
  }

  lemma LoginSound(hash: Hash, w: World, r: AuthResult, now: Instant)
    requires KeysSound(w, hash)
    ensures KeysSound(w.(keys := MarkUsed(w.keys, r, now)), hash) && OnlyRevokes(w.keys, MarkUsed(w.keys, r, now))
  {
    hide KeysSound;
    RevokedSound(w, MarkUsed(w.keys, r, now), hash);
  }

  lemma StepSound(plans: Catalogue, hash: Hash, w: World, op: KeyOp)
    requires KeysSound(w, hash)
    ensures KeysSound(KeyStep(plans, hash, w, op), hash)
    ensures OnlyRevokes(w.keys, KeyStep(plans, hash, w, op).keys)
  {
    hide CreateKey, RevokeKey, RotateKey, Authenticate, MarkUsed, Do, KeyLimit;
    match op
    case Issue(user, name, token) =>
      if CreateKey(w.db, w.keys, hash, user, name, token).Ok? {
        IssueSound(hash, w, user, name, token);
      }
    case Revoke(user, id, now) =>
      if RevokeKey(w.keys, user, id, now).Ok? {
        RevokeSound(hash, w, user, id, now);
      }
    case Rotate(user, id, token, now) =>
      if RotateKey(w.db, w.keys, hash, user, id, token, now).Ok? {
        RotateSound(hash, w, user, id, token, now);
      }
    case Login(disabled, plaintext, now) =>
      LoginSound(hash, w, Authenticate(w.keys, disabled, hash, plaintext), now);
    case Bill(_) =>
  }

  lemma CreateAppends(db: Db, keys: seq<ApiKey>, hash: Hash, user: UserId, name: string, token: string)
    requires CreateKey(db, keys, hash, user, name, token).Ok?
    ensures CreateKey(db, keys, hash, user, name, token).value == keys + [NewKey(hash, user, name, token)]
  {
  }

  lemma {:induction false} RunKeysSound(plans: Catalogue, hash: Hash, ops: seq<KeyOp>)
    ensures KeysSound(KeyRun(plans, hash, ops), hash)
  {
    if ops != [] {
      RunKeysSound(plans, hash, ops[..|ops| - 1]);
      StepSound(plans, hash, KeyRun(plans, hash, ops[..|ops| - 1]), ops[|ops| - 1]);
    }
  }

  // ---- Lookup --------------------------------------------------------------------------------

  /** The reference: scan every unrevoked key by hash alone. */
  function ScanByHash(keys: seq<ApiKey>, keyHash: string): (r: Option<nat>)
    ensures r.Some? ==> r.value < |keys| && keys[r.value].IsActive() && keys[r.value].keyHash == keyHash
    ensures r.None? ==> forall i :: 0 <= i < |keys| && keys[i].IsActive() ==> keys[i].keyHash != keyHash
  {
    if keys == [] then None
    else
      var last := |keys| - 1;
      if keys[last].IsActive() && keys[last].keyHash == keyHash then Some(last) else ScanByHash(keys[..last], keyHash)
  }

  /** Looking up by the indexed prefix first finds the key that scanning all of them would. */
  lemma LookupRefinesScan(plans: Catalogue, hash: Hash, ops: seq<KeyOp>, plaintext: string)
    requires Injective(hash)
    ensures var keys := KeyRun(plans, hash, ops).keys;
            FirstMatch(keys, Candidates(keys, SplitPrefix(plaintext)), hash(plaintext))
            == ScanByHash(keys, hash(plaintext))
  {
    hide KeyRun;
    var w := KeyRun(plans, hash, ops);
    RunKeysSound(plans, hash, ops);
    MatchIsScan(w, hash, plaintext);
  }

  lemma MatchIsScan(w: World, hash: Hash, plaintext: string)
    requires Injective(hash) && RowsGenuine(w, hash)
    ensures FirstMatch(w.keys, Candidates(w.keys, SplitPrefix(plaintext)), hash(plaintext))
            == ScanByHash(w.keys, hash(plaintext))
  {
    hide FirstMatch, Candidates, ScanByHash, SplitPrefix;
    var scan := ScanByHash(w.keys, hash(plaintext));
    if scan.Some? {
      assert Genuine(w.keys[scan.value], w.issued[scan.value], hash);
      assert Candidate(w.keys[scan.value], SplitPrefix(plaintext));
    }
  }

  /** The plaintext was handed out for key `id`, which is not revoked. */
  predicate Unlocks(w: World, id: nat, plaintext: string) {
    id < |w.keys| && id < |w.issued| && w.issued[id] == plaintext && w.keys[id].revokedAt.None?
  }

  /**
   Every answer to a login, in any run: a plaintext handed out for an unrevoked key is accepted as that
   key and as its owner unless the owner is disabled, any other is invalid, and none means no credentials.
  */
  lemma AcceptedExactly(plans: Catalogue, hash: Hash, ops: seq<KeyOp>, disabled: set<UserId>, plaintext: string)
    requires Injective(hash)
    ensures var w := KeyRun(plans, hash, ops);
            var r := Authenticate(w.keys, disabled, hash, plaintext);
            && (r == NoCredentials <==> plaintext == "")
            && (r == InvalidKey <==> plaintext != "" && forall id: nat :: !Unlocks(w, id, plaintext))
            && (forall id: nat :: Unlocks(w, id, plaintext) ==>
                  r == if w.keys[id].user in disabled then UserDisabled else Accepted(w.keys[id].user, id))
  {
    hide KeyRun, FirstMatch, Candidates, ScanByHash, SplitPrefix;
    var w := KeyRun(plans, hash, ops);
    RunKeysSound(plans, hash, ops);
    MatchIsScan(w, hash, plaintext);
    var scan := ScanByHash(w.keys, hash(plaintext));
    if scan.Some? {
      assert Genuine(w.keys[scan.value], w.issued[scan.value], hash);
      assert Unlocks(w, scan.value, plaintext);
    }
    forall id: nat | Unlocks(w, id, plaintext)
      ensures plaintext != "" && scan == Some(id)
    {
      assert Genuine(w.keys[id], w.issued[id], hash);
    }
  }

  /** A login writes the time of use of the key it accepts, and nothing else of any key. */
  lemma LoginTouchesOnly(keys: seq<ApiKey>, disabled: set<UserId>, hash: Hash, plaintext: string, now: Instant)
    ensures var r := Authenticate(keys, disabled, hash, plaintext);
            var after := MarkUsed(keys, r, now);
            && |after| == |keys|
            && forall i :: 0 <= i < |keys| ==>
                 var k := keys[i];
                 after[i] == if r == Accepted(k.user, i)
                             then ApiKey(k.user, k.name, k.prefix, k.keyHash, Some(now), k.revokedAt) else k
  {
    hide FirstMatch, Candidates;
  }

  /** Once revoked, a key is revoked at every later point of every run. */
  lemma {:induction false} RevokedForGood(plans: Catalogue, hash: Hash, ops: seq<KeyOp>, more: seq<KeyOp>, id: nat)
    requires var keys := KeyRun(plans, hash, ops).keys; id < |keys| && !keys[id].IsActive()
    ensures var keys, later := KeyRun(plans, hash, ops).keys, KeyRun(plans, hash, ops + more).keys;
            id < |later| && later[id].revokedAt == keys[id].revokedAt
  {
    hide KeyStep, KeysSound;
    if more == [] {
      assert ops + more == ops;
    } else {
      var n := |more| - 1;
      assert (ops + more)[..|ops + more| - 1] == ops + more[..n];
      RevokedForGood(plans, hash, ops, more[..n], id);
      RunKeysSound(plans, hash, ops + more[..n]);
      StepSound(plans, hash, KeyRun(plans, hash, ops + more[..n]), more[n]);
    }
  }

  // ---- The limit -----------------------------------------------------------------------------

  /** The user's newest live key. */
  function NewestLive(keys: seq<ApiKey>, user: UserId): (r: Option<nat>)
    ensures r.Some? ==> r.value < |keys| && keys[r.value].user == user && keys[r.value].IsActive()
    ensures r.Some? ==> forall i :: r.value < i < |keys| ==> !(keys[i].user == user && keys[i].IsActive())
    ensures r.Some? ==> ActiveKeys(keys, user) == ActiveKeys(keys[..r.value + 1], user)
    ensures r.None? ==> ActiveKeys(keys, user) == 0
  {
    if keys == [] then None
    else
      var last := |keys| - 1;
      assert keys[..last + 1] == keys;
      if keys[last].user == user && keys[last].IsActive() then Some(last)
      else
        var r := NewestLive(keys[..last], user);
        assert r.Some? ==> keys[..last][..r.value + 1] == keys[..r.value + 1];
        r
  }

  /** The key limit in force: that of the plan of the user's ACTIVE row, or 1 without one. */
  ghost predicate InForce(subs: seq<Subscription>, user: UserId, limit: nat) {
    if exists i :: 0 <= i < |subs| && subs[i].user == user && subs[i].status == Active
    then exists i :: 0 <= i < |subs| && subs[i].user == user && subs[i].status == Active && subs[i].plan.maxApiKeys == limit
    else limit == 1
  }

  lemma LimitInForce(db: Db, user: UserId)
    ensures InForce(db.subs, user, KeyLimit(db, user))
    ensures OneActive(db.subs) ==> forall limit :: InForce(db.subs, user, limit) ==> limit == KeyLimit(db, user)
  {
  }

  /** The user's unrevoked keys. */
  function Live(keys: seq<ApiKey>, user: UserId): set<nat> {
    set i: nat | i < |keys| && keys[i].user == user && keys[i].revokedAt.None?
  }

  lemma {:induction false} LiveCount(keys: seq<ApiKey>, user: UserId)
    ensures ActiveKeys(keys, user) == |Live(keys, user)|
  {
    if keys != [] {
      var n := |keys| - 1;
      LiveCount(keys[..n], user);
      var mine := keys[n].user == user && keys[n].revokedAt.None?;
      assert Live(keys, user) == Live(keys[..n], user) + if mine then {n} else {};
    }
  }

  /** Key `id` was issued by the `n`-th operation of the run. */
  ghost predicate IssuedBy(plans: Catalogue, hash: Hash, ops: seq<KeyOp>, n: nat, id: nat) {
    && n < |ops| && (ops[n].Issue? || ops[n].Rotate?)
    && |KeyRun(plans, hash, ops[..n]).keys| == id && |KeyRun(plans, hash, ops[..n + 1]).keys| == id + 1
  }

  /** The limit recorded beside a key is the one in force when it was issued. */
  lemma {:induction false} LimitsRecorded(plans: Catalogue, hash: Hash, ops: seq<KeyOp>, id: nat)
    requires id < |KeyRun(plans, hash, ops).keys|
    ensures var w := KeyRun(plans, hash, ops);
            && |w.limits| == |w.keys|
            && exists n: nat :: IssuedBy(plans, hash, ops, n, id)
                           && InForce(KeyRun(plans, hash, ops[..n]).db.subs, w.keys[id].user, w.limits[id])
    decreases |ops|
  {
    hide KeyStep, KeyLimit, InForce, KeysSound;
    var n := |ops| - 1;
    var before, w := KeyRun(plans, hash, ops[..n]), KeyRun(plans, hash, ops);
    RunSizes(plans, hash, ops);
    RunSizes(plans, hash, ops[..n]);
    RunKeysSound(plans, hash, ops[..n]);
    StepSound(plans, hash, before, ops[n]);
    assert ops[..n + 1] == ops;
    if id < |before.keys| {
      LimitsRecorded(plans, hash, ops[..n], id);
      var m: nat :| IssuedBy(plans, hash, ops[..n], m, id)
               && InForce(KeyRun(plans, hash, ops[..n][..m]).db.subs, before.keys[id].user, before.limits[id]);
      assert ops[..n][..m] == ops[..m] && ops[..n][..m + 1] == ops[..m + 1];
      OldLimits(plans, hash, before, ops[n]);
      assert IssuedBy(plans, hash, ops, m, id);
    } else {
      NewLimit(plans, hash, before, ops[n]);
      assert IssuedBy(plans, hash, ops, n, id);
    }
  }

  lemma RunSizes(plans: Catalogue, hash: Hash, ops: seq<KeyOp>)
    ensures var w := KeyRun(plans, hash, ops); |w.keys| == |w.issued| == |w.limits|
  {
    hide KeyRun;
    RunKeysSound(plans, hash, ops);
  }

  lemma OldLimits(plans: Catalogue, hash: Hash, w: World, op: KeyOp)
    ensures w.limits <= KeyStep(plans, hash, w, op).limits
  {
    hide CreateKey, RevokeKey, RotateKey, Authenticate, MarkUsed, Do, KeyLimit;
  }

  /** An operation adds at most one key, and records the limit then in force for its owner. */
  lemma NewLimit(plans: Catalogue, hash: Hash, w: World, op: KeyOp)
    requires |w.keys| == |w.limits|
    requires |w.keys| < |KeyStep(plans, hash, w, op).keys|
    ensures var t := KeyStep(plans, hash, w, op);
            && (op.Issue? || op.Rotate?)
            && |t.keys| == |t.limits| == |w.keys| + 1
            && InForce(w.db.subs, t.keys[|w.keys|].user, t.limits[|w.keys|])
  {
    hide Authenticate, Do, KeyLimit, InForce, StoredName, ActiveKeys;
    LimitInForce(w.db, op.user);
  }

  /**
   Through upgrades, downgrades, cancellations and sweeps, a user never has more live keys than the
   limit in force when the newest of them was issued; without a subscription that limit is 1.
  */
  lemma CountWithinNewestLimit(plans: Catalogue, hash: Hash, ops: seq<KeyOp>, user: UserId)
    ensures var live := Live(KeyRun(plans, hash, ops).keys, user);
            live == {} ||
            exists id: nat, n: nat, limit: nat ::
              && id in live && (forall j :: j in live ==> j <= id)
              && IssuedBy(plans, hash, ops, n, id)
              && InForce(KeyRun(plans, hash, ops[..n]).db.subs, user, limit)
              && |live| <= limit
  {
    hide KeyRun, NewestLive, ActiveKeys, KeyStep, InForce;
    var w := KeyRun(plans, hash, ops);
    RunKeysSound(plans, hash, ops);
    LiveCount(w.keys, user);
    var newest := NewestLive(w.keys, user);
    if newest.Some? {
      var id := newest.value;
      LimitsRecorded(plans, hash, ops, id);
      var n: nat :| IssuedBy(plans, hash, ops, n, id)
               && InForce(KeyRun(plans, hash, ops[..n]).db.subs, w.keys[id].user, w.limits[id]);
      assert id in Live(w.keys, user) && forall j :: j in Live(w.keys, user) ==> j <= id;
      assert |Live(w.keys, user)| <= w.limits[id];
    } else {
      assert Live(w.keys, user) == {};
    }
  }

  /** Every service call, at whatever instants, keeps one ACTIVE row for each user with a row. */
  lemma DoKeepsOneActive(plans: Catalogue, db: Db, op: Op)
    requires OneActive(db.subs) && Covered(db.subs)
    ensures OneActive(Do(plans, db, op).subs) && Covered(Do(plans, db, op).subs)
  {
    hide Transact, OneActive, Covered, Charge, SweepRows;
    match op
    case OpEnroll(user, start) => EnrollKeepsOneActive(plans, db, user, start);
    case OpSubscribe(user, slug, at, start) =>
      if Subscribe(db, plans, user, slug, at, start).Ok? {
        var r := match ActiveRow(db.subs, user) case None => Nothing case Some(i) => Replace(i, at);
        Committed(db, r, user, plans[slug], plans[slug].durationDays > 0, start);
      }
    case OpCancel(user, at, start) =>
      if Cancel(db, plans, user, at, start).Ok? {
        Committed(db, CancelByUser(ActiveRow(db.subs, user).value, at), user, plans[FREE], false, start);
      }
    case OpSweep(now, at) => SweepOutcome(db, plans, now, at);
    case OpRecord(user, t) =>
      EnrollKeepsOneActive(plans, db, user, t.enroll);
      RequestKeepsRows(plans, db, user, t);
  }

  lemma EnrollKeepsOneActive(plans: Catalogue, db: Db, user: UserId, start: Instant)
    requires OneActive(db.subs) && Covered(db.subs)
    ensures var after := OrSame(db, Enroll(db, plans, user, start)); OneActive(after.subs) && Covered(after.subs)
  {
    hide Transact, OneActive, Covered;
    if Enroll(db, plans, user, start).Ok? {
      Committed(db, Nothing, user, plans[FREE], false, start);
    }
  }

  lemma RequestKeepsRows(plans: Catalogue, db: Db, user: UserId, t: Readings)
    ensures var after := RecordRequest(db, plans, user, t).db;
            after.subs == db.subs || after.subs == OrSame(db, Enroll(db, plans, user, t.enroll)).subs
  {
    hide Transact;
  }

  /** Key operations leave each user at most one ACTIVE row, so the limit in force is one number. */
  lemma {:induction false} RunOneActive(plans: Catalogue, hash: Hash, ops: seq<KeyOp>)
    ensures OneActive(KeyRun(plans, hash, ops).db.subs) && Covered(KeyRun(plans, hash, ops).db.subs)
  {
    hide Do, CreateKey, RevokeKey, RotateKey, Authenticate, MarkUsed, OneActive, Covered;
    if ops == [] {
      NobodySubscribed();
    } else {
      var before, op := KeyRun(plans, hash, ops[..|ops| - 1]), ops[|ops| - 1];
      RunOneActive(plans, hash, ops[..|ops| - 1]);
      if op.Bill? {
        DoKeepsOneActive(plans, before.db, op.op);
      }
    }
  }

  lemma NobodySubscribed()
    ensures OneActive([]) && Covered([])
  {
  }

  // ---- Issuing, revoking and rotating --------------------------------------------------------

  /** A fresh key row for the plaintext: its first twelve characters, its hash, and the stored form of the name. */
  ghost predicate IsNewKey(k: ApiKey, hash: Hash, user: UserId, name: string, plaintext: string) {
    && k.user == user && IsStoredName(name, k.name)
    && k.prefix == (if |plaintext| <= 12 then plaintext else plaintext[..12])
    && k.keyHash == hash(plaintext) && k.lastUsedAt.None? && k.revokedAt.None?
  }

  lemma NewKeyIs(hash: Hash, user: UserId, name: string, token: string)
    ensures IsNewKey(NewKey(hash, user, name, token), hash, user, name, "sk_live_" + token)
  {
    hide IsStoredName, StoredName;
    StoredNameIs(name);
  }

  /** A key is issued exactly when one more live key fits the limit in force and the hash is new; the count rises by one. */
  lemma CreateOutcome(db: Db, keys: seq<ApiKey>, hash: Hash, user: UserId, name: string, token: string, limit: nat)
    requires OneActive(db.subs) && InForce(db.subs, user, limit)
    ensures var res, live := CreateKey(db, keys, hash, user, name, token), |Live(keys, user)|;
            if live >= limit then res == Err(LimitReached(limit, live))
            else if exists k :: 0 <= k < |keys| && keys[k].keyHash == hash("sk_live_" + token) then res == Err(HashTaken)
            else
              && res.Ok? && |res.value| == |keys| + 1 && res.value[..|keys|] == keys
              && IsNewKey(res.value[|keys|], hash, user, name, "sk_live_" + token)
              && |Live(res.value, user)| == live + 1
              && forall other :: other != user ==> Live(res.value, other) == Live(keys, other)
  {
    hide KeyLimit, NewKey, InForce, ActiveKeys, IsStoredName;
    LimitInForce(db, user);
    LiveCount(keys, user);
    NewKeyIs(hash, user, name, token);
    var after := keys + [NewKey(hash, user, name, token)];
    assert Live(after, user) == Live(keys, user) + {|keys|};
    forall other | other != user
      ensures Live(after, other) == Live(keys, other)
    {
    }
  }

  /** A key is revoked exactly when it is its caller's and live; the count falls by one and no other key changes. */
  lemma RevokeOutcome(keys: seq<ApiKey>, user: UserId, id: nat, now: Instant)
    ensures var res := RevokeKey(keys, user, id, now);
            if id >= |keys| || keys[id].user != user then res == Err(KeyNotFound)
            else if keys[id].revokedAt.Some? then res == Err(AlreadyRevoked)
            else
              && res.Ok? && |res.value| == |keys|
              && res.value[id] == keys[id].(revokedAt := Some(now))
              && (forall i :: 0 <= i < |keys| && i != id ==> res.value[i] == keys[i])
              && id in Live(keys, user) && Live(res.value, user) == Live(keys, user) - {id}
              && forall other :: other != user ==> Live(res.value, other) == Live(keys, other)
  {
    if id < |keys| && keys[id].user == user && keys[id].IsActive() {
      var after := keys[id := keys[id].(revokedAt := Some(now))];
      forall other | other != user
        ensures Live(after, other) == Live(keys, other)
      {
      }
    }
  }

  /**
   Rotation of a live key goes through exactly when the user is not over the limit in force, the key
   rotated included, and the fresh hash is not taken; it then swaps one live key for another.
  */
  lemma RotateOutcome(db: Db, keys: seq<ApiKey>, hash: Hash, user: UserId, id: nat, token: string, now: Instant, limit: nat)
    requires OneActive(db.subs) && InForce(db.subs, user, limit)
    ensures var res, live := RotateKey(db, keys, hash, user, id, token, now), |Live(keys, user)|;
            if id >= |keys| || keys[id].user != user then res == Err(KeyNotFound)
            else if keys[id].revokedAt.Some? then res == Err(AlreadyRevoked)
            else if live > limit then res == Err(LimitReached(limit, live - 1))
            else if exists k :: 0 <= k < |keys| && keys[k].keyHash == hash("sk_live_" + token) then res == Err(HashTaken)
            else
              && res.Ok? && |res.value| == |keys| + 1
              && |Live(res.value, user)| == live
              && res.value[id] == keys[id].(revokedAt := Some(now))
              && (forall i :: 0 <= i < |keys| && i != id ==> res.value[i] == keys[i])
              && IsNewKey(res.value[|keys|], hash, user, keys[id].name, "sk_live_" + token)
  {
    hide KeyLimit, NewKey, InForce, CreateKey, Live, IsNewKey;
    RevokeOutcome(keys, user, id, now);
    if id < |keys| && keys[id].user == user && keys[id].IsActive() {
      var revoked := RevokeKey(keys, user, id, now).value;
      CreateOutcome(db, revoked, hash, user, keys[id].name, token, limit);
      SameHashes(keys, revoked, hash("sk_live_" + token));
    }
  }

  /** In every run a rotated key is named like the old one, less the spaces the old name ends in. */
  lemma RotatedName(plans: Catalogue, hash: Hash, ops: seq<KeyOp>, user: UserId, id: nat, token: string, now: Instant)
    requires var w := KeyRun(plans, hash, ops); RotateKey(w.db, w.keys, hash, user, id, token, now).Ok?
    ensures var w := KeyRun(plans, hash, ops);
            var after := RotateKey(w.db, w.keys, hash, user, id, token, now).value;
            && id < |w.keys| < |after|
            && after[|w.keys|].name == StripRight(w.keys[id].name)
            && w.keys[id].name != ""
            && (after[|w.keys|].name == w.keys[id].name <==> !IsSpace(w.keys[id].name[|w.keys[id].name| - 1]))
  {
    hide KeyRun, KeyLimit, StripRight, StoredName, ActiveKeys;
    var w := KeyRun(plans, hash, ops);
    RunKeysSound(plans, hash, ops);
    RotationKeepsName(w.keys[id].name);
  }

  lemma SameHashes(keys: seq<ApiKey>, after: seq<ApiKey>, keyHash: string)
    requires |keys| == |after| && forall i :: 0 <= i < |keys| ==> keys[i].keyHash == after[i].keyHash
    ensures Stored(keys, keyHash) == Stored(after, keyHash)
  {
    if Stored(keys, keyHash) {
      var k :| 0 <= k < |keys| && keys[k].keyHash == keyHash;
      assert after[k].keyHash == keyHash;
    }
    if Stored(after, keyHash) {
      var k :| 0 <= k < |after| && after[k].keyHash == keyHash;
      assert keys[k].keyHash == keyHash;
    }
  }
}
