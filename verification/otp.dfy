/** OtpService: one-time codes in Redis with resend cooldown, attempt ceilings and lockout. Times are milliseconds. */
module Otp {
  import opened Basics

  datatype Config = Config(ttlSeconds: int, cooldownSeconds: int, lockSeconds: int, maxVerify: int, maxResend: int)

  predicate Sensible(cfg: Config) {
    cfg.ttlSeconds > 0 && cfg.cooldownSeconds > 0 && cfg.lockSeconds > 0 && cfg.maxVerify > 0 && cfg.maxResend > 0
  }

  /** `createdAt` stands for the hashed code as well: it tells apart the codes sent to one account. */
  datatype OtpState = OtpState(createdAt: int, expiresAt: int, resendCount: int, verifyAttempts: int)

  /** A Redis value with its expiry; it can be read while `now < until`. */
  datatype Kept<T> = Kept(value: T, until: int)

  /** The three keys of one (purpose, identifier). */
  datatype Account = Account(state: Option<Kept<OtpState>>, cooldown: Option<Kept<()>>, lock: Option<Kept<()>>)

  datatype Reply = Sent | SentIfExists | Locked(retryAfter: int) | Cooling(retryAfter: int) | ResendCeiling
                 | InvalidOrExpired | TooManyAttempts | Accepted

  datatype Event =
    | SentCode(at: int, resendCount: int)
    | Compared(at: int, createdAt: int, ok: bool)
    | LockedOut(at: int)

  datatype Turn = Turn(after: Account, events: seq<Event>, reply: Reply)

  function Live<T>(k: Option<Kept<T>>, now: int): Option<T> {
    if k.Some? && now < k.value.until then Some(k.value.value) else None
  }

  function CeilSeconds(ms: int): (n: int)
    ensures (n - 1) * 1000 < ms <= n * 1000
  {
    if ms % 1000 == 0 then ms / 1000 else ms / 1000 + 1
  }

  /** What is left of the life of a code, for rewriting its key. */
  function RemainingTtl(s: OtpState, now: int): int { Max(1, CeilSeconds(s.expiresAt - now)) }

  function KeepFor<T>(value: T, now: int, seconds: int): Option<Kept<T>> { Some(Kept(value, now + seconds * 1000)) }

  function Send(cfg: Config, a: Account, now: int, known: bool): Turn {
    if !known then Turn(a, [], SentIfExists)
    else if Live(a.lock, now).Some? then Turn(a, [], Locked(a.lock.value.until - now))
    else if Live(a.cooldown, now).Some? then Turn(a, [], Cooling(a.cooldown.value.until - now))
    else
      var existing := Live(a.state, now);
      var resendCount := if existing.Some? then existing.value.resendCount else 0;
      if resendCount >= cfg.maxResend then Turn(a, [], ResendCeiling)
      else
        var s := OtpState(now, now + cfg.ttlSeconds * 1000, resendCount + 1, 0);
        Turn(a.(state := KeepFor(s, now, cfg.ttlSeconds), cooldown := KeepFor((), now, cfg.cooldownSeconds)),
             [SentCode(now, resendCount + 1)], Sent)
  }

  function Verify(cfg: Config, a: Account, now: int, matches: bool): Turn {
    var state := Live(a.state, now);
    if Live(a.lock, now).Some? then Turn(a, [], Locked(a.lock.value.until - now))
    else if state == None then Turn(a, [], InvalidOrExpired)
    else
      var s := state.value;
      if now > s.expiresAt then Turn(a.(state := None), [], InvalidOrExpired)
      else if s.verifyAttempts >= cfg.maxVerify then
        Turn(a.(lock := KeepFor((), now, cfg.lockSeconds)), [LockedOut(now)], TooManyAttempts)
      else if matches then Turn(a.(state := None), [Compared(now, s.createdAt, true)], Accepted)
      else if s.verifyAttempts + 1 >= cfg.maxVerify then
        Turn(a.(state := None, lock := KeepFor((), now, cfg.lockSeconds)),
             [Compared(now, s.createdAt, false), LockedOut(now)], TooManyAttempts)
      else
        Turn(a.(state := KeepFor(s.(verifyAttempts := s.verifyAttempts + 1), now, RemainingTtl(s, now))),
             [Compared(now, s.createdAt, false)], InvalidOrExpired)
  }

  // ----- the service

  datatype Purpose = Login | ForgotPassword | MobileVerify

  datatype KeyKind = StateKey | CooldownKey | LockKey

  datatype Key = Key(kind: KeyKind, purpose: Purpose, id: string)

  datatype Stored = State(state: OtpState) | Flag

  class OtpService {
    const cfg: Config
    var redis: map<Key, Kept<Stored>>

    constructor (cfg: Config)
      ensures this.cfg == cfg && redis == map[]
    {
      this.cfg, redis := cfg, map[];
    }

    ghost predicate Valid()
      reads this
    {
      forall k :: k in redis ==> (redis[k].value.State? <==> k.kind == StateKey)
    }

    /** Nothing happened to a key. */
    ghost predicate SameAt(before: map<Key, Kept<Stored>>, k: Key)
      reads this
    {
      (k in redis <==> k in before) && (k in redis ==> redis[k] == before[k])
    }

    function Flagged(kind: KeyKind, purpose: Purpose, id: string): Option<Kept<()>>
      reads this
    {
      var k := Key(kind, purpose, id);
      if k in redis then Some(Kept((), redis[k].until)) else None
    }

    function Otp(purpose: Purpose, id: string): Option<Kept<OtpState>>
      reads this
    {
      var k := Key(StateKey, purpose, id);
      if k in redis && redis[k].value.State? then Some(Kept(redis[k].value.state, redis[k].until)) else None
    }

    function View(purpose: Purpose, id: string): Account
      reads this
    {
      Account(Otp(purpose, id), Flagged(CooldownKey, purpose, id), Flagged(LockKey, purpose, id))
    }

    method Get(key: Key, now: int) returns (v: Option<Stored>)
      ensures v == if key in redis then Live(Some(redis[key]), now) else None
    {
      v := if key in redis && now < redis[key].until then Some(redis[key].value) else None;
    }

    method Set(key: Key, value: Stored, now: int, ttlSeconds: int)
      modifies this`redis
      ensures redis == old(redis)[key := Kept(value, now + ttlSeconds * 1000)]
    {
      redis := redis[key := Kept(value, now + ttlSeconds * 1000)];
    }

    method AssertNotLocked(purpose: Purpose, id: string, now: int) returns (refused: Option<Reply>)
      ensures var lock := View(purpose, id).lock;
              refused == if Live(lock, now).Some? then Some(Locked(lock.value.until - now)) else None
    {
      var locked := Get(Key(LockKey, purpose, id), now);
      refused := if locked.Some? then Some(Locked(redis[Key(LockKey, purpose, id)].until - now)) else None;
    }

    /** `known`: the account exists, or for mobile verification the number is well formed. */
    method SendOtp(purpose: Purpose, id: string, known: bool, now: int) returns (reply: Reply)
      requires Valid()
      modifies this`redis
      ensures Valid()
      ensures var t := Send(cfg, old(View(purpose, id)), now, known); View(purpose, id) == t.after && reply == t.reply
      ensures forall k: Key :: k.purpose != purpose || k.id != id ==> SameAt(old(redis), k)
    {
      if !known { return SentIfExists; }
      var refused := AssertNotLocked(purpose, id, now);
      if refused.Some? { return refused.value; }
      var cooling := Get(Key(CooldownKey, purpose, id), now);
      if cooling.Some? { return Cooling(redis[Key(CooldownKey, purpose, id)].until - now); }
      var existing := Get(Key(StateKey, purpose, id), now);
      var resendCount := if existing.Some? then existing.value.state.resendCount else 0;
      if resendCount >= cfg.maxResend { return ResendCeiling; }
      StoreCode(purpose, id, OtpState(now, now + cfg.ttlSeconds * 1000, resendCount + 1, 0), now);
      reply := Sent;
    }

    method StoreCode(purpose: Purpose, id: string, state: OtpState, now: int)
      requires Valid()
      modifies this`redis
      ensures Valid()
      ensures View(purpose, id) == old(View(purpose, id)).(state := KeepFor(state, now, cfg.ttlSeconds),
                                                          cooldown := KeepFor((), now, cfg.cooldownSeconds))
      ensures forall k: Key :: k.purpose != purpose || k.id != id ==> SameAt(old(redis), k)
    {
      Set(Key(StateKey, purpose, id), State(state), now, cfg.ttlSeconds);
      Set(Key(CooldownKey, purpose, id), Flag, now, cfg.cooldownSeconds);
    }

    method VerifyOtp(purpose: Purpose, id: string, matches: bool, now: int) returns (reply: Reply)
      requires Valid()
      modifies this`redis
      ensures Valid()
      ensures var t := Verify(cfg, old(View(purpose, id)), now, matches); View(purpose, id) == t.after && reply == t.reply
      ensures forall k: Key :: k.purpose != purpose || k.id != id ==> SameAt(old(redis), k)
    {
      var key, lockKey := Key(StateKey, purpose, id), Key(LockKey, purpose, id);
      var refused := AssertNotLocked(purpose, id, now);
      if refused.Some? { return refused.value; }
      var stored := Get(key, now);
      if stored.None? { return InvalidOrExpired; }
      var state := stored.value.state;
      if now > state.expiresAt {
        redis := redis - {key};
        return InvalidOrExpired;
      }
      if state.verifyAttempts >= cfg.maxVerify {
        Set(lockKey, Flag, now, cfg.lockSeconds);
        return TooManyAttempts;
      }
      if !matches {
        reply := RejectCode(purpose, id, state.(verifyAttempts := state.verifyAttempts + 1), now);
        return;
      }
      redis := redis - {key};
      reply := Accepted;
    }

    /** A wrong code: lock out, or write the new count back without extending the life of the key. */
    method RejectCode(purpose: Purpose, id: string, state: OtpState, now: int) returns (reply: Reply)
      requires Valid()
      modifies this`redis
      ensures Valid()
      ensures var a := old(View(purpose, id));
              if state.verifyAttempts >= cfg.maxVerify
              then reply == TooManyAttempts && View(purpose, id) == a.(state := None, lock := KeepFor((), now, cfg.lockSeconds))
              else reply == InvalidOrExpired && View(purpose, id) == a.(state := KeepFor(state, now, RemainingTtl(state, now)))
      ensures forall k: Key :: k.purpose != purpose || k.id != id ==> SameAt(old(redis), k)
    {
      if state.verifyAttempts >= cfg.maxVerify {
        Set(Key(LockKey, purpose, id), Flag, now, cfg.lockSeconds);
        redis := redis - {Key(StateKey, purpose, id)};
        return TooManyAttempts;
      }
      Set(Key(StateKey, purpose, id), State(state), now, RemainingTtl(state, now));
      reply := InvalidOrExpired;
    }
  }

  // ----- all runs of one account

  datatype Request = SendReq(at: int, known: bool) | VerifyReq(at: int, matches: bool)

  function Serve(cfg: Config, a: Account, r: Request): Turn {
    match r case SendReq(at, known) => Send(cfg, a, at, known) case VerifyReq(at, matches) => Verify(cfg, a, at, matches)
  }

  function AccountAfter(cfg: Config, run: seq<Request>): Account {
    if run == [] then Account(None, None, None)
    else Serve(cfg, AccountAfter(cfg, run[..|run| - 1]), run[|run| - 1]).after
  }

  function Log(cfg: Config, run: seq<Request>): seq<Event> {
    if run == [] then []
    else
      var before := run[..|run| - 1];
      Log(cfg, before) + Serve(cfg, AccountAfter(cfg, before), run[|run| - 1]).events
  }

  /** Requests are served one after the other. */
  predicate InOrder(run: seq<Request>) { forall i, j :: 0 <= i < j < |run| ==> run[i].at <= run[j].at }

  function LastSend(log: seq<Event>): (sent: Option<Event>)
    ensures sent.Some? ==> sent.value.SentCode?
  {
    if log == [] then None
    else if log[|log| - 1].SentCode? then Some(log[|log| - 1])
    else LastSend(log[..|log| - 1])
  }

  function LastLockout(log: seq<Event>): (locked: Option<Event>)
    ensures locked.Some? ==> locked.value.LockedOut?
  {
    if log == [] then None
    else if log[|log| - 1].LockedOut? then Some(log[|log| - 1])
    else LastLockout(log[..|log| - 1])
  }

  /** Wrong codes compared since a code was last sent to an account that had none. */
  function WrongSinceFresh(log: seq<Event>): nat {
    if log == [] then 0
    else
      var e, before := log[|log| - 1], log[..|log| - 1];
      if e.SentCode? && e.resendCount == 1 then 0
      else WrongSinceFresh(before) + if e.Compared? && !e.ok then 1 else 0
  }

  /** Whether the code last sent was used up, by a success or by a lockout. */
  predicate UsedUp(log: seq<Event>) {
    if log == [] || log[|log| - 1].SentCode? then false
    else log[|log| - 1].LockedOut? || log[|log| - 1].ok || UsedUp(log[..|log| - 1])
  }

  /** Wrong codes compared since a code was last sent. */
  function WrongSinceSend(log: seq<Event>): nat {
    if log == [] || log[|log| - 1].SentCode? then 0
    else WrongSinceSend(log[..|log| - 1]) + if log[|log| - 1].Compared? && !log[|log| - 1].ok then 1 else 0
  }

  function ExpiresAt(cfg: Config, log: seq<Event>): Option<int> {
    match LastSend(log) case None => None case Some(e) => Some(e.at + cfg.ttlSeconds * 1000)
  }

  /** The end of a key: that of the code, but for whole seconds, and at least one, from the last wrong code on. */
  function KeptUntil(cfg: Config, log: seq<Event>): Option<int> {
    if log == [] || UsedUp(log) || ExpiresAt(cfg, log) == None then None
    else
      var e, expiry := log[|log| - 1], ExpiresAt(cfg, log).value;
      Some(if e.SentCode? then expiry else e.at + Max(1000, (expiry - e.at + 999) / 1000 * 1000))
  }

  // ----- the invariant

  /** What may follow a log: sends a cooldown apart, nothing during a lockout, only the code last sent, unused and in time. */
  predicate MayFollow(cfg: Config, log: seq<Event>, e: Event) {
    var sent, locked := LastSend(log), LastLockout(log);
    && (e.SentCode? && sent.Some? ==> e.at >= sent.value.at + cfg.cooldownSeconds * 1000)
    && (locked.Some? ==> e.at >= locked.value.at + cfg.lockSeconds * 1000)
    && (e.Compared? ==>
          && sent.Some? && sent.value.at == e.createdAt && !UsedUp(log)
          && e.createdAt <= e.at <= e.createdAt + cfg.ttlSeconds * 1000)
  }

  predicate LogOk(cfg: Config, log: seq<Event>) {
    log == [] || (LogOk(cfg, log[..|log| - 1]) && MayFollow(cfg, log[..|log| - 1], log[|log| - 1]))
  }

  /** Counters in range, the key outliving the code by less than a second or just one, and the stored code the last sent. */
  predicate StateOk(cfg: Config, a: Account, log: seq<Event>, now: int) {
    a.state.Some? ==>
      var s := a.state.value.value;
      && 0 <= s.verifyAttempts < cfg.maxVerify && 1 <= s.resendCount <= cfg.maxResend
      && s.createdAt <= now && s.expiresAt == s.createdAt + cfg.ttlSeconds * 1000
      && s.expiresAt <= a.state.value.until <= s.expiresAt + 1000 && KeptUntil(cfg, log) == Some(a.state.value.until)
      && LastSend(log) == Some(SentCode(s.createdAt, s.resendCount))
      && !UsedUp(log) && s.verifyAttempts == WrongSinceSend(log)
  }

  predicate GatesOk(cfg: Config, a: Account, log: seq<Event>) {
    && a.cooldown == (match LastSend(log) case None => None case Some(e) => KeepFor((), e.at, cfg.cooldownSeconds))
    && a.lock == (match LastLockout(log) case None => None case Some(e) => KeepFor((), e.at, cfg.lockSeconds))
  }

  /** The wrong codes that `sends` codes can survive. */
  function Allowed(cfg: Config, sends: int): int {
    if sends <= 0 then 0 else Allowed(cfg, sends - 1) + cfg.maxVerify - 1
  }

  /** Each resend allows as many wrong codes as a code can survive; one more at the very end locks the account. */
  predicate WrongBounded(cfg: Config, a: Account, log: seq<Event>) {
    && WrongSinceFresh(log) <= Allowed(cfg, cfg.maxResend) + 1
    && (a.state.Some? ==>
          var s := a.state.value.value;
          WrongSinceFresh(log) <= Allowed(cfg, s.resendCount - 1) + s.verifyAttempts)
  }

  lemma {:induction false} AllowedGrows(cfg: Config, n: int, m: int)
    requires Sensible(cfg) && n <= m
    ensures Allowed(cfg, n) <= Allowed(cfg, m)
    decreases m - n
  {
    if n < m {
      AllowedGrows(cfg, n, m - 1);
    }
  }

  lemma {:induction false} AllowedIsProduct(cfg: Config, n: nat)
    ensures Allowed(cfg, n) == n * (cfg.maxVerify - 1)
  {
    if n > 0 {
      AllowedIsProduct(cfg, n - 1);
    }
  }

  /** A code that was sent and not used up stays stored as long as it can be entered. */
  predicate KeptOk(cfg: Config, a: Account, log: seq<Event>, now: int) {
    LastSend(log).Some? && !UsedUp(log) && now <= LastSend(log).value.at + cfg.ttlSeconds * 1000 ==> a.state.Some?
  }

  predicate Inv(cfg: Config, a: Account, log: seq<Event>, now: int) {
    StateOk(cfg, a, log, now) && KeptOk(cfg, a, log, now) && GatesOk(cfg, a, log) && WrongBounded(cfg, a, log) && LogOk(cfg, log)
  }

  lemma SendKeepsInv(cfg: Config, a: Account, log: seq<Event>, before: int, now: int, known: bool)
    requires Sensible(cfg) && Inv(cfg, a, log, before) && before <= now
    ensures var t := Send(cfg, a, now, known); Inv(cfg, t.after, log + t.events, now)
  {
    var t := Send(cfg, a, now, known);
    if t.events == [] {
      assert log + t.events == log;
    } else {
      var e := t.events[0];
      assert log + t.events == log + [e] && (log + [e])[..|log|] == log;
      AllowedGrows(cfg, 0, cfg.maxResend);
    }
  }

  /** What a comparison, or a lockout, does to what is read off the log. */
  lemma {:induction false} LogReads(log: seq<Event>, e: Event)
    requires !e.SentCode?
    ensures (log + [e])[..|log|] == log
    ensures LastSend(log + [e]) == LastSend(log)
    ensures LastLockout(log + [e]) == if e.LockedOut? then Some(e) else LastLockout(log)
    ensures UsedUp(log + [e]) <==> e.LockedOut? || e.ok || UsedUp(log)
    ensures WrongSinceSend(log + [e]) == WrongSinceSend(log) + if e.Compared? && !e.ok then 1 else 0
    ensures WrongSinceFresh(log + [e]) == WrongSinceFresh(log) + if e.Compared? && !e.ok then 1 else 0
  {
    assert (log + [e])[..|log|] == log;
  }

  lemma ComparisonKeepsInv(cfg: Config, a: Account, log: seq<Event>, before: int, now: int, matches: bool)
    requires Sensible(cfg) && Inv(cfg, a, log, before) && before <= now && |Verify(cfg, a, now, matches).events| == 1
    ensures var t := Verify(cfg, a, now, matches); Inv(cfg, t.after, log + t.events, now)
  {
    var t := Verify(cfg, a, now, matches);
    var e, s := t.events[0], a.state.value.value;
    LogReads(log, e);
    assert log + t.events == log + [e];
    AllowedGrows(cfg, s.resendCount - 1, cfg.maxResend - 1);
    AllowedGrows(cfg, cfg.maxResend - 1, cfg.maxResend);
  }

  lemma LockoutKeepsInv(cfg: Config, a: Account, log: seq<Event>, before: int, now: int, matches: bool)
    requires Sensible(cfg) && Inv(cfg, a, log, before) && before <= now && |Verify(cfg, a, now, matches).events| == 2
    ensures var t := Verify(cfg, a, now, matches); Inv(cfg, t.after, log + t.events, now)
  {
    var t := Verify(cfg, a, now, matches);
    var e, s := t.events[0], a.state.value.value;
    LogReads(log, e);
    LogReads(log + [e], t.events[1]);
    assert log + t.events == (log + [e]) + [t.events[1]];
    AllowedGrows(cfg, s.resendCount - 1, cfg.maxResend - 1);
  }

  lemma VerifyKeepsInv(cfg: Config, a: Account, log: seq<Event>, before: int, now: int, matches: bool)
    requires Sensible(cfg) && Inv(cfg, a, log, before) && before <= now
    ensures var t := Verify(cfg, a, now, matches); Inv(cfg, t.after, log + t.events, now)
  {
    var events := Verify(cfg, a, now, matches).events;
    if events == [] {
      assert log + events == log;
    } else if |events| == 1 {
      ComparisonKeepsInv(cfg, a, log, before, now, matches);
    } else {
      LockoutKeepsInv(cfg, a, log, before, now, matches);
    }
  }

  // ----- all runs

  lemma {:induction false} RunKeepsInv(cfg: Config, run: seq<Request>)
    requires Sensible(cfg) && InOrder(run)
    ensures run != [] ==> Inv(cfg, AccountAfter(cfg, run), Log(cfg, run), run[|run| - 1].at)
  {
    if run != [] {
      var before, r := run[..|run| - 1], run[|run| - 1];
      RunKeepsInv(cfg, before);
      if before == [] {
        EmptyInv(cfg, r.at);
      }
      var since := if before == [] then r.at else before[|before| - 1].at;
      match r
      case SendReq(at, known) => SendKeepsInv(cfg, AccountAfter(cfg, before), Log(cfg, before), since, at, known);
      case VerifyReq(at, ok) => VerifyKeepsInv(cfg, AccountAfter(cfg, before), Log(cfg, before), since, at, ok);
    }
  }

  lemma EmptyInv(cfg: Config, now: int)
    requires Sensible(cfg)
    ensures Inv(cfg, Account(None, None, None), [], now)
  {
    AllowedGrows(cfg, 0, cfg.maxResend);
  }

  /**
   In every run the stored counters stay below their ceilings, so that the ceiling test before the comparison never
   fires, and while an account keeps a live code at most maxResend * (maxVerify - 1) + 1 wrong codes are compared.
   */
  lemma {:induction false} WrongCodesBounded(cfg: Config, run: seq<Request>)
    requires Sensible(cfg) && InOrder(run)
    ensures WrongSinceFresh(Log(cfg, run)) <= cfg.maxResend * (cfg.maxVerify - 1) + 1
    ensures var a := AccountAfter(cfg, run);
            a.state.Some? ==>
              && 0 <= a.state.value.value.verifyAttempts < cfg.maxVerify
              && 1 <= a.state.value.value.resendCount <= cfg.maxResend
              && a.state.value.until <= a.state.value.value.expiresAt + 1000
  {
    RunKeepsInv(cfg, run);
    AllowedIsProduct(cfg, cfg.maxResend);
    if run == [] {
      EmptyInv(cfg, 0);
    }
  }

  lemma {:induction false} LogOkEverywhere(cfg: Config, log: seq<Event>, j: nat)
    requires LogOk(cfg, log) && j < |log|
    ensures LogOk(cfg, log[..j]) && MayFollow(cfg, log[..j], log[j])
  {
    if j < |log| - 1 {
      LogOkEverywhere(cfg, log[..|log| - 1], j);
      assert log[..|log| - 1][..j] == log[..j];
    }
  }

  lemma {:induction false} LastOnesAreLatest(cfg: Config, log: seq<Event>, i: nat)
    requires Sensible(cfg) && LogOk(cfg, log) && i < |log|
    ensures log[i].SentCode? ==> LastSend(log).Some? && LastSend(log).value.at >= log[i].at
    ensures log[i].LockedOut? ==> LastLockout(log).Some? && LastLockout(log).value.at >= log[i].at
    ensures log[i].Compared? && log[i].ok ==> LastSend(log).Some? && LastSend(log).value.at >= log[i].createdAt
                                              && (LastSend(log).value.at == log[i].createdAt ==> UsedUp(log))
  {
    if i < |log| - 1 {
      LastOnesAreLatest(cfg, log[..|log| - 1], i);
    }
  }

  /**
   In every run, sends are a cooldown apart, nothing is sent or compared during a lockout, a code is compared only
   within its life and only if it is the one last sent, and a code that was accepted is never compared again.
   */
  lemma {:induction false} EveryLogIsSafe(cfg: Config, run: seq<Request>, i: nat, j: nat)
    requires Sensible(cfg) && InOrder(run) && i < j < |Log(cfg, run)|
    ensures var log := Log(cfg, run);
            && (log[i].SentCode? && log[j].SentCode? ==> log[j].at >= log[i].at + cfg.cooldownSeconds * 1000)
            && (log[i].LockedOut? ==> log[j].at >= log[i].at + cfg.lockSeconds * 1000)
            && (log[j].Compared? ==>
                  && LastSend(log[..j]).Some? && LastSend(log[..j]).value.at == log[j].createdAt
                  && log[j].createdAt <= log[j].at <= log[j].createdAt + cfg.ttlSeconds * 1000)
            && (log[i].Compared? && log[i].ok && log[j].Compared? ==> log[j].createdAt != log[i].createdAt)
  {
    RunKeepsInv(cfg, run);
    var log := Log(cfg, run);
    LogOkEverywhere(cfg, log, j);
    LastOnesAreLatest(cfg, log[..j], i);
  }

  // ----- every answer, by what has happened before

  function LockedUntil(cfg: Config, log: seq<Event>): Option<int> {
    match LastLockout(log) case None => None case Some(e) => Some(e.at + cfg.lockSeconds * 1000)
  }

  function CoolingUntil(cfg: Config, log: seq<Event>): Option<int> {
    match LastSend(log) case None => None case Some(e) => Some(e.at + cfg.cooldownSeconds * 1000)
  }

  predicate Before(now: int, until: Option<int>) { until.Some? && now < until.value }

  /**
   A code was sent, was not used up, and is in its life; the millisecond at which it expires belongs to that only if a
   wrong code has prolonged the key.
   */
  predicate Enterable(cfg: Config, log: seq<Event>, now: int) {
    !UsedUp(log) && Before(now, KeptUntil(cfg, log)) && now <= ExpiresAt(cfg, log).value
  }

  datatype Answer = Answer(reply: Reply, events: seq<Event>)

  /** What a code entered at `now` is answered: accepted if it is the enterable one and no lockout is on. */
  function VerifyAnswer(cfg: Config, log: seq<Event>, matches: bool, now: int): Answer {
    if Before(now, LockedUntil(cfg, log)) then Answer(Locked(LockedUntil(cfg, log).value - now), [])
    else if !Enterable(cfg, log, now) then Answer(InvalidOrExpired, [])
    else
      var sent := LastSend(log).value.at;
      if matches then Answer(Accepted, [Compared(now, sent, true)])
      else if WrongSinceSend(log) + 1 >= cfg.maxVerify
      then Answer(TooManyAttempts, [Compared(now, sent, false), LockedOut(now)])
      else Answer(InvalidOrExpired, [Compared(now, sent, false)])
  }

  function SendAnswer(cfg: Config, log: seq<Event>, known: bool, now: int): Answer {
    var sends := if Enterable(cfg, log, now) then LastSend(log).value.resendCount else 0;
    if !known then Answer(SentIfExists, [])
    else if Before(now, LockedUntil(cfg, log)) then Answer(Locked(LockedUntil(cfg, log).value - now), [])
    else if Before(now, CoolingUntil(cfg, log)) then Answer(Cooling(CoolingUntil(cfg, log).value - now), [])
    else if sends >= cfg.maxResend then Answer(ResendCeiling, [])
    else Answer(Sent, [SentCode(now, sends + 1)])
  }

  lemma {:induction false} InvNow(cfg: Config, run: seq<Request>, now: int)
    requires Sensible(cfg) && InOrder(run) && (run != [] ==> run[|run| - 1].at <= now)
    ensures Inv(cfg, AccountAfter(cfg, run), Log(cfg, run), if run == [] then now else run[|run| - 1].at)
  {
    RunKeepsInv(cfg, run);
    if run == [] { EmptyInv(cfg, now); }
  }

  lemma GatesByLog(cfg: Config, a: Account, log: seq<Event>, now: int)
    requires GatesOk(cfg, a, log)
    ensures Live(a.lock, now).Some? <==> Before(now, LockedUntil(cfg, log))
    ensures Live(a.lock, now).Some? ==> Some(a.lock.value.until) == LockedUntil(cfg, log)
    ensures Live(a.cooldown, now).Some? <==> Before(now, CoolingUntil(cfg, log))
    ensures Live(a.cooldown, now).Some? ==> Some(a.cooldown.value.until) == CoolingUntil(cfg, log)
  {
  }

  lemma {:induction false} StateByLog(cfg: Config, a: Account, log: seq<Event>, before: int, now: int)
    requires Sensible(cfg) && StateOk(cfg, a, log, before) && KeptOk(cfg, a, log, before) && before <= now
    ensures Enterable(cfg, log, now) ==> Live(a.state, now).Some?
    ensures Live(a.state, now).Some? ==>
              var s := Live(a.state, now).value;
              && ExpiresAt(cfg, log) == Some(s.expiresAt) && Before(now, KeptUntil(cfg, log)) && !UsedUp(log)
              && LastSend(log) == Some(SentCode(s.createdAt, s.resendCount))
              && s.verifyAttempts == WrongSinceSend(log) < cfg.maxVerify
  {
  }

  lemma VerifyByLog(cfg: Config, a: Account, log: seq<Event>, before: int, matches: bool, now: int)
    requires Sensible(cfg) && StateOk(cfg, a, log, before) && KeptOk(cfg, a, log, before) && GatesOk(cfg, a, log) && before <= now
    ensures var t := Verify(cfg, a, now, matches); Answer(t.reply, t.events) == VerifyAnswer(cfg, log, matches, now)
  {
    GatesByLog(cfg, a, log, now);
    StateByLog(cfg, a, log, before, now);
  }

  lemma SendByLog(cfg: Config, a: Account, log: seq<Event>, before: int, known: bool, now: int)
    requires Sensible(cfg) && StateOk(cfg, a, log, before) && KeptOk(cfg, a, log, before) && GatesOk(cfg, a, log) && before <= now
    requires Before(now, KeptUntil(cfg, log)) ==> now <= ExpiresAt(cfg, log).value
    ensures var t := Send(cfg, a, now, known); Answer(t.reply, t.events) == SendAnswer(cfg, log, known, now)
  {
    GatesByLog(cfg, a, log, now);
    StateByLog(cfg, a, log, before, now);
  }

  /**
   In every run and at every time a code is accepted if and only if it is the one last sent, in its life, not used up,
   and no lockout is on; a wrong one locks out if and only if it is the last one the code allows. The log gets the
   comparison, if one is made, and the lockout it causes.
   */
  lemma {:induction false} VerifyAnswersExactly(cfg: Config, run: seq<Request>, matches: bool, now: int)
    requires Sensible(cfg) && InOrder(run) && (run != [] ==> run[|run| - 1].at <= now)
    ensures var t := Serve(cfg, AccountAfter(cfg, run), VerifyReq(now, matches));
            Answer(t.reply, t.events) == VerifyAnswer(cfg, Log(cfg, run), matches, now)
  {
    InvNow(cfg, run, now);
    VerifyByLog(cfg, AccountAfter(cfg, run), Log(cfg, run), if run == [] then now else run[|run| - 1].at, matches, now);
  }

  /**
   In every run, at every time but the rest of a second after its expiry in which a key is still there, a code is sent
   unless the account is unknown, locked out or cooling, or the code was sent as often as is allowed; a send after the
   code was used up or has expired counts as the first.
   */
  lemma {:induction false} SendAnswersExactly(cfg: Config, run: seq<Request>, known: bool, now: int)
    requires Sensible(cfg) && InOrder(run) && (run != [] ==> run[|run| - 1].at <= now)
    requires var log := Log(cfg, run); Before(now, KeptUntil(cfg, log)) ==> now <= ExpiresAt(cfg, log).value
    ensures var t := Serve(cfg, AccountAfter(cfg, run), SendReq(now, known));
            Answer(t.reply, t.events) == SendAnswer(cfg, Log(cfg, run), known, now)
  {
    InvNow(cfg, run, now);
    SendByLog(cfg, AccountAfter(cfg, run), Log(cfg, run), if run == [] then now else run[|run| - 1].at, known, now);
  }

  /**
   While a cooldown runs, a code that can still be entered exists if and only if the code last sent was not used up by
   a success or a lockout and its life is not over, which it cannot be unless the cooldown is configured to be longer.
   */
  lemma {:induction false} CoolingMeansLiveCodeUnlessUsed(cfg: Config, run: seq<Request>, now: int)
    requires Sensible(cfg) && InOrder(run)
    requires run != [] && run[|run| - 1].at <= now
    requires Live(AccountAfter(cfg, run).cooldown, now).Some?
    ensures var code, sent := Live(AccountAfter(cfg, run).state, now), LastSend(Log(cfg, run));
            && sent.Some?
            && (code.Some? && now < code.value.expiresAt
                <==> !UsedUp(Log(cfg, run)) && now < sent.value.at + cfg.ttlSeconds * 1000)
            && (cfg.cooldownSeconds <= cfg.ttlSeconds ==> now < sent.value.at + cfg.ttlSeconds * 1000)
  {
    RunKeepsInv(cfg, run);
  }

  /** So the promise that a cooldown implies a live code is not kept right after a successful entry. */
  lemma {:induction false} CoolingWithoutLiveCode(cfg: Config)
    requires Sensible(cfg)
    ensures var a := AccountAfter(cfg, [SendReq(0, true), VerifyReq(0, true)]); Live(a.cooldown, 0).Some? && a.state == None
  {
    var run := [SendReq(0, true), VerifyReq(0, true)];
    assert run[..1] == [SendReq(0, true)] && [SendReq(0, true)][..0] == [];
    assert AccountAfter(cfg, [SendReq(0, true)]) == Send(cfg, Account(None, None, None), 0, true).after;
    assert AccountAfter(cfg, run) == Verify(cfg, AccountAfter(cfg, run[..1]), 0, true).after;
  }
}
