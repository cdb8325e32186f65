/** Refreshing a Slurm token before it expires. Times and durations are in nanoseconds. */
module Token {
  import opened MathUtils
  import opened Options

  const SECOND: int := 1_000_000_000
  const MAX_INT32: int := 0x7fff_ffff
  const MAX_INT64: int := 0x7fff_ffff_ffff_ffff
  const MIN_INT64: int := -0x8000_0000_0000_0000

  type Duration = d: int | MIN_INT64 <= d <= MAX_INT64

  /** What Slurm takes for an infinite lifetime. */
  const SLURM_INFINITE: int := (MAX_INT32 - 1) * SECOND

  /** Two's complement negation. */
  function Negated(d: Duration): Duration { if d == MIN_INT64 then MIN_INT64 else -d }

  /** Integer division that truncates toward zero. */
  function TruncatedFifth(d: int): int { if d >= 0 then d / 5 else -((-d) / 5) }

  /** The exp claim of a token issued at a time: whole seconds. */
  function ExpiryAt(issued: int, lifetime: Duration): int {
    (issued + Clamp(lifetime, 0, SLURM_INFINITE)) / SECOND * SECOND
  }

  /** The refresh time uses the lifetime asked for, not the clamped one. */
  function RefreshTime(exp: int, lifetime: Duration): int {
    exp + TruncatedFifth(Negated(lifetime))
  }

  /** What the expiry is: whole seconds, less than one below issue time and lifetime, where a lifetime
      is at least nothing and at most what Slurm takes for infinite. */
  lemma ExpiryIs(issued: int, lifetime: Duration)
    ensures var exp := ExpiryAt(issued, lifetime);
            var used := if lifetime < 0 then 0
                        else if lifetime > 2_147_483_646_000_000_000 then 2_147_483_646_000_000_000
                        else lifetime;
            exp % 1_000_000_000 == 0 && issued + used - 1_000_000_000 < exp <= issued + used
  {
  }

  /** What the refresh time is: a fifth of the lifetime before the expiry. */
  lemma RefreshTimeIs(exp: int, lifetime: Duration)
    requires lifetime >= 0
    ensures 5 * (exp - RefreshTime(exp, lifetime)) <= lifetime < 5 * (exp - RefreshTime(exp, lifetime) + 1)
  {
  }

  // ---- A fresh token ----

  const THRESHOLD: int := 1_249_999_999

  ghost predicate FreshOk(issued: int, lifetime: Duration) {
    var exp := ExpiryAt(issued, lifetime);
    issued < RefreshTime(exp, lifetime) <= exp
  }

  lemma WholeSeconds(t: int)
    ensures t - SECOND < t / SECOND * SECOND <= t
    ensures t % SECOND == 0 ==> t / SECOND * SECOND == t
  {
  }

  /** From the threshold up a fresh token is not due, and not even within a fifth of its lifetime
      of expiring. */
  lemma FreshTokenFar(issued: int, lifetime: Duration)
    requires lifetime >= THRESHOLD
    ensures FreshOk(issued, lifetime) && ExpiryAt(issued, lifetime) > issued + lifetime / 5
  {
    WholeSeconds(issued + Clamp(lifetime, 0, SLURM_INFINITE));
  }

  /** An issue time that makes the expiry lose the most, or nothing, to whole seconds. */
  lemma TimeBeforeSecond(lifetime: Duration, lost: int) returns (issued: int)
    requires 0 <= lost < SECOND
    ensures ExpiryAt(issued, lifetime) == issued + Clamp(lifetime, 0, SLURM_INFINITE) - lost
  {
    var used := Clamp(lifetime, 0, SLURM_INFINITE);
    issued := lost - used;
    assert lost / SECOND == 0;
  }

  /** No fresh token is due, at any issue time, exactly from the threshold up. */
  lemma FreshTokenNeverDueIff(lifetime: Duration)
    ensures (forall issued :: FreshOk(issued, lifetime)) <==> lifetime >= THRESHOLD
  {
    if lifetime >= THRESHOLD {
      forall issued ensures FreshOk(issued, lifetime) { FreshTokenFar(issued, lifetime); }
    } else {
      var issued := TimeBeforeSecond(lifetime, SECOND - 1);
      assert !FreshOk(issued, lifetime);
    }
  }

  /** Every token is born expired exactly when the lifetime is not positive. */
  lemma BornExpiredIff(lifetime: Duration)
    ensures (forall issued :: ExpiryAt(issued, lifetime) <= issued) <==> lifetime <= 0
  {
    if lifetime <= 0 {
      forall issued ensures ExpiryAt(issued, lifetime) <= issued { WholeSeconds(issued); }
    } else {
      var issued := TimeBeforeSecond(lifetime, 0);
      assert ExpiryAt(issued, lifetime) > issued;
    }
  }

  // ---- Reconciles ----

  /** The clock of one reconcile: read for the requeue and again while the expiry is read for it, when a
      missing Secret is made, read by the refresh step and again while the expiry is read for that,
      when a token is signed, and at the end. */
  datatype Reconcile = Reconcile(
    first: int, firstRead: int, made: int, start: int, read: int, issued: int, end: int)
  {
    predicate InOrder() { first <= firstRead <= made <= start <= read <= issued <= end }
  }

  /** The stored token's expiry and when the Token object is next due in the work queue. A
      requeue that is not positive sets no timer; a rewritten Secret is an event. */
  datatype State = State(exp: int, ready: int)

  predicate Due(exp: int, lifetime: Duration, r: Reconcile) {
    exp <= r.read || RefreshTime(exp, lifetime) <= r.start
  }

  function Next(s: State, lifetime: Duration, r: Reconcile): State {
    if Due(s.exp, lifetime, r) then State(ExpiryAt(r.issued, lifetime), r.end)
    else State(s.exp, r.end + RefreshTime(s.exp, lifetime) - r.start)
  }

  function After(s: State, lifetime: Duration, run: seq<Reconcile>): State {
    if run == [] then s else Next(After(s, lifetime, run[..|run| - 1]), lifetime, run[|run| - 1])
  }

  /** A reconcile starts within delay of being due and takes no longer than work. */
  ghost predicate Prompt(s: State, r: Reconcile, delay: nat, work: nat) {
    s.ready <= r.first <= s.ready + delay && r.InOrder() && r.end <= r.first + work
  }

  ghost predicate PromptRun(s: State, lifetime: Duration, run: seq<Reconcile>, delay: nat, work: nat) {
    run == [] ||
    (PromptRun(s, lifetime, run[..|run| - 1], delay, work)
     && Prompt(After(s, lifetime, run[..|run| - 1]), run[|run| - 1], delay, work))
  }

  /** There is time for one more reconcile before the stored token expires. */
  ghost predicate Safe(s: State, delay: nat, work: nat) { s.ready + delay + work < s.exp }

  lemma SafeNext(s: State, lifetime: Duration, r: Reconcile, delay: nat, work: nat)
    requires lifetime >= THRESHOLD && delay + 2 * work < lifetime / 5
    requires Safe(s, delay, work) && Prompt(s, r, delay, work)
    ensures Safe(Next(s, lifetime, r), delay, work) && r.issued < s.exp && r.end < Next(s, lifetime, r).exp
  {
    FreshTokenFar(r.issued, lifetime);
  }

  lemma {:induction false} SafeAfter(s: State, lifetime: Duration, run: seq<Reconcile>, delay: nat, work: nat)
    requires lifetime >= THRESHOLD && delay + 2 * work < lifetime / 5
    requires Safe(s, delay, work) && PromptRun(s, lifetime, run, delay, work)
    ensures Safe(After(s, lifetime, run), delay, work)
  {
    if run != [] {
      var n := |run| - 1;
      SafeAfter(s, lifetime, run[..n], delay, work);
      SafeNext(After(s, lifetime, run[..n]), lifetime, run[n], delay, work);
    }
  }

  /** The token never expires: through every run of prompt reconciles, a token is still good when
      the next one replaces it, and when the next reconcile starts. */
  lemma TokenNeverExpires(s: State, lifetime: Duration, run: seq<Reconcile>, delay: nat, work: nat, k: nat)
    requires lifetime >= THRESHOLD && delay + 2 * work < lifetime / 5
    requires Safe(s, delay, work) && PromptRun(s, lifetime, run, delay, work) && k < |run|
    ensures var before := After(s, lifetime, run[..k]);
            run[k].read <= run[k].issued < before.exp && run[k].end < After(s, lifetime, run[..k + 1]).exp
  {
    PrefixPrompt(s, lifetime, run, delay, work, k + 1);
    assert run[..k + 1][..k] == run[..k];
    SafeAfter(s, lifetime, run[..k], delay, work);
    SafeNext(After(s, lifetime, run[..k]), lifetime, run[k], delay, work);
  }

  lemma {:induction false} PrefixPrompt(
    s: State, lifetime: Duration, run: seq<Reconcile>, delay: nat, work: nat, k: nat)
    requires PromptRun(s, lifetime, run, delay, work) && k <= |run|
    ensures PromptRun(s, lifetime, run[..k], delay, work)
  {
    if k == |run| {
      assert run[..k] == run;
    } else {
      PrefixPrompt(s, lifetime, run[..|run| - 1], delay, work, k);
      assert run[..|run| - 1][..k] == run[..k];
    }
  }

  /** A token found expired is replaced, whatever the lifetime. */
  lemma ExpiredIsReplaced(s: State, lifetime: Duration, r: Reconcile)
    requires s.exp <= r.read <= r.issued
    ensures Next(s, lifetime, r).exp == ExpiryAt(r.issued, lifetime)
    ensures lifetime >= THRESHOLD ==> Next(s, lifetime, r).exp > r.issued + lifetime / 5
  {
    if lifetime >= THRESHOLD { FreshTokenFar(r.issued, lifetime); }
  }

  /** Reconciles of one object do not overlap. */
  ghost predicate Ordered(from: int, run: seq<Reconcile>) {
    run == [] ||
    (var r, before := run[|run| - 1], run[..|run| - 1];
     Ordered(from, before) && (if before == [] then from else before[|before| - 1].end) <= r.first && r.InOrder())
  }

  /** A lifetime that is not positive makes every reconcile rewrite the Secret, forever. */
  lemma {:induction false} RewrittenForever(s: State, lifetime: Duration, run: seq<Reconcile>)
    requires lifetime <= 0 && s.exp <= s.ready && Ordered(s.ready, run)
    ensures After(s, lifetime, run).exp <= After(s, lifetime, run).ready
    ensures run != [] ==>
              After(s, lifetime, run) == State(ExpiryAt(run[|run| - 1].issued, lifetime), run[|run| - 1].end)
  {
    if run != [] {
      var n := |run| - 1;
      RewrittenForever(s, lifetime, run[..n]);
      BornExpiredIff(lifetime);
      assert ExpiryAt(run[n].issued, lifetime) <= run[n].issued;
    }
  }

  // ---- Every kind of Secret ----

  /** What the Secret holds: nothing yet, a text that is no token of ours, a token without exp, or one
      with it. */
  datatype Stored = Missing | Unreadable | NoExpiry | Holds(exp: int)

  /** The Secret, and when the Token object is next due; without a timer or an event, never. */
  datatype Full = Full(stored: Stored, ready: Option<int>)

  const RETRY: int := 30 * SECOND

  predicate Readable(s: Stored, now: int) { s.NoExpiry? || (s.Holds? && now < s.exp) }

  /** The expiry read off the Secret; a token without one expires when it is looked at. */
  function ExpiryRead(s: Stored, now: int): int
    requires Readable(s, now)
  {
    if s.NoExpiry? then now else s.exp
  }

  /** Whether the refresh step signs a new token. */
  predicate Reissues(s: Stored, lifetime: Duration, r: Reconcile) {
    || (s.Holds? && s.exp <= r.read)
    || (Readable(s, r.read) && RefreshTime(ExpiryRead(s, r.read), lifetime) <= r.start)
  }

  /** The requeue asked for at first, and the one the refresh step asks for; the smaller counts. */
  function FirstRequeue(s: Stored, lifetime: Duration, r: Reconcile): int {
    if Readable(s, r.firstRead) then RefreshTime(ExpiryRead(s, r.firstRead), lifetime) - r.first else RETRY
  }

  function Requeue(s: Stored, lifetime: Duration, refresh: bool, r: Reconcile): int {
    var first := FirstRequeue(s, lifetime, r);
    if refresh && Readable(s, r.read)
    then Min(first, RefreshTime(ExpiryRead(s, r.read), lifetime) - r.start) else first
  }

  /** One sync: create a missing Secret, then, if asked to, refresh. `seesOwn` says whether the Secret
      just created is already visible. */
  function SyncAll(f: Full, lifetime: Duration, refresh: bool, seesOwn: bool, r: Reconcile): (Full, bool) {
    var made := if f.stored.Missing? then Holds(ExpiryAt(r.made, lifetime)) else f.stored;
    if refresh && (made.Unreadable? || (f.stored.Missing? && !seesOwn)) then (Full(made, Some(r.end)), true)
    else if refresh && Reissues(made, lifetime, r) then
      (Full(Holds(ExpiryAt(r.issued, lifetime)), Some(r.end)), false)
    else if f.stored.Missing? then (Full(made, Some(r.end)), false)
    else
      var requeue := Requeue(made, lifetime, refresh, r);
      (Full(made, if requeue > 0 then Some(r.end + requeue) else None), false)
  }

  /** For a token with an expiry that is to be refreshed, a sync is the reconcile proved safe above. */
  lemma SyncIsNext(exp: int, ready: int, lifetime: Duration, seesOwn: bool, r: Reconcile)
    requires r.InOrder()
    ensures var t := Next(State(exp, ready), lifetime, r);
            SyncAll(Full(Holds(exp), Some(ready)), lifetime, true, seesOwn, r)
            == (Full(Holds(t.exp), Some(t.ready)), false)
  {
  }

  /** A missing Secret is made, refreshed or not, and from the threshold up its token is a fifth of the
      lifetime from expiring; not seeing it yet is an error only to the refresh. */
  lemma MissingIsMade(ready: Option<int>, lifetime: Duration, refresh: bool, seesOwn: bool, r: Reconcile)
    requires lifetime >= THRESHOLD && r.InOrder()
    ensures var (t, err) := SyncAll(Full(Missing, ready), lifetime, refresh, seesOwn, r);
            && (err <==> refresh && !seesOwn)
            && t.ready == Some(r.end) && t.stored.Holds? && t.stored.exp > r.made + lifetime / 5
  {
    FreshTokenFar(r.made, lifetime);
    FreshTokenFar(r.issued, lifetime);
  }

  /** A token that is neither due nor expired is left alone, and looked at again at its refresh time. */
  lemma NotDueIsLeft(exp: int, ready: Option<int>, lifetime: Duration, seesOwn: bool, r: Reconcile)
    requires r.InOrder() && r.read < exp && r.start < RefreshTime(exp, lifetime)
    ensures SyncAll(Full(Holds(exp), ready), lifetime, true, seesOwn, r)
         == (Full(Holds(exp), Some(r.end + (RefreshTime(exp, lifetime) - r.start))), false)
  {
  }

  /** A Secret that cannot be read is left alone: an error to the refresh, looked at again in thirty
      seconds without one. */
  lemma UnreadableIsLeft(ready: Option<int>, lifetime: Duration, refresh: bool, seesOwn: bool, r: Reconcile)
    ensures SyncAll(Full(Unreadable, ready), lifetime, refresh, seesOwn, r)
         == (Full(Unreadable, Some(if refresh then r.end else r.end + 30_000_000_000)), refresh)
  {
  }

  /** Exactly when a token without an expiry is replaced: reading it took no longer than a fifth of the
      lifetime, where a lifetime that cannot be negated counts as positive. */
  lemma NoExpiryReplacedIff(ready: Option<int>, lifetime: Duration, seesOwn: bool, r: Reconcile)
    requires r.InOrder()
    ensures SyncAll(Full(NoExpiry, ready), lifetime, true, seesOwn, r).0.stored.Holds? <==>
            || (lifetime >= 0 && r.read - r.start <= lifetime / 5)
            || (-5 < lifetime < 0 && r.read == r.start)
            || (lifetime == MIN_INT64 && r.read - r.start <= -MIN_INT64 / 5)
  {
  }

  /** A token that is not to be refreshed is never replaced, and exactly when its refresh time has come
      without its having expired, nothing wakes the Token up any more. */
  lemma UnrefreshedIsLeft(exp: int, ready: Option<int>, lifetime: Duration, seesOwn: bool, r: Reconcile)
    ensures var t := SyncAll(Full(Holds(exp), ready), lifetime, false, seesOwn, r).0;
            t.stored == Holds(exp) && (t.ready.None? <==> RefreshTime(exp, lifetime) <= r.first && r.firstRead < exp)
  {
  }

  /** The token's Secret and its place in the work queue. */
  class TokenSecret {
    var stored: Stored
    var ready: Option<int>

    ghost function Abs(): Full
      reads this
    {
      Full(stored, ready)
    }

    /** Sync of a Token: the requeue the store ends up with, the Secret step and the refresh step. */
    method Sync(lifetime: Duration, refresh: bool, seesOwn: bool, r: Reconcile) returns (err: bool)
      requires r.InOrder()
      modifies this
      ensures (Abs(), err) == SyncAll(old(Abs()), lifetime, refresh, seesOwn, r)
    {
      var requeue := FirstRequeue(stored, lifetime, r);
      var created := stored.Missing?;
      if created { stored := Holds(ExpiryAt(r.made, lifetime)); }
      if refresh {
        if stored.Unreadable? || (created && !seesOwn) {
          ready := Some(r.end);
          return true;
        }
        var refreshTime := r.start;
        if Readable(stored, r.read) {
          refreshTime := RefreshTime(ExpiryRead(stored, r.read), lifetime);
          requeue := Min(requeue, refreshTime - r.start);
        }
        if refreshTime <= r.start {
          stored := Holds(ExpiryAt(r.issued, lifetime));
          ready := Some(r.end);
          return false;
        }
      }
      ready := if created then Some(r.end) else if requeue > 0 then Some(r.end + requeue) else None;
      err := false;
    }
  }
}
