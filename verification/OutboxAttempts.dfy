/** Claims, attempts, retry delays and posts of a row over whole runs. */
module OutboxAttempts {
  import opened Common
  import opened Outbox
  import opened OutboxSystem
  import opened OutboxDelivery

  // -------------------------------------------------------------- exclusive claims

  ghost predicate ClaimsRow(s: Sys, a: Action, id: nat) {
    && a.Dispatcher? && a.step.Claim?
    && id in DueIds(s.rows, s.next, a.step.at, a.cfg.staleAfter, Max(1, Min(a.cfg.batch, 500)))
  }

  /** A mark of the row, by whichever dispatcher. */
  ghost predicate MarksRow(s: Sys, a: Action, id: nat) {
    && a.Dispatcher? && a.step.MarkHead? && a.step.written
    && a.d in s.dispatchers && s.dispatchers[a.d].Working? && s.dispatchers[a.d].queue != []
    && s.dispatchers[a.d].queue[0].id == id
  }

  /** Held by a claim made at `since` or later, or gone. */
  ghost predicate HeldSince(s: Sys, id: nat, since: int) {
    && id < s.next
    && (id in s.rows ==>
          s.rows[id].status == InProgress && s.rows[id].claimedAt.Some? && s.rows[id].claimedAt.value >= since)
  }

  lemma StaleIsEarlier(at: int, stale: i64, claimedAt: int)
    requires 0 <= at <= I64_MAX && claimedAt <= StaleBefore(at, stale)
    ensures at >= claimedAt + Max(1, stale)
  {
  }

  lemma ClaimTakesHold(s: Sys, a: Action, id: nat)
    requires IdsInv(s) && Enabled(s, a) && ClaimsRow(s, a, id)
    ensures HeldSince(Do(s, a), id, a.step.at)
  {
  }

  lemma HoldStays(s: Sys, a: Action, id: nat, since: int)
    requires IdsInv(s) && Enabled(s, a) && HeldSince(s, id, since) && !MarksRow(s, a, id)
    ensures HeldSince(Do(s, a), id, since)
  {
    hide DueIds, Floor, Delay, PurgeFloor, OldDelivered, OldFailed, OverCount, AllFailed, FailedAbove, BelowFloor,
      NextAttemptAfter, Since, Handled, StaleBefore;
    if a.InsertEvents? {
      InsertedRows(s.rows, s.next, a.events);
    } else if a.Dispatcher? && a.step.Claim? && ClaimsRow(s, a, id) {
      StaleIsEarlier(a.step.at, a.cfg.staleAfter, s.rows[id].claimedAt.value);
    }
  }

  lemma {:induction false} HoldLasts(states: seq<Sys>, acts: seq<Action>, i: nat, j: nat, id: nat)
    requires IsRun(states, acts) && i < j < |states| && ClaimsRow(states[i], acts[i], id)
    requires forall k :: i < k < j ==> !MarksRow(states[k], acts[k], id)
    ensures HeldSince(states[j], id, acts[i].step.at)
    decreases j
  {
    hide Do, Enabled, DueIds, MarksRow, HeldSince;
    IdsAlways(states, acts, j - 1);
    if j == i + 1 {
      ClaimTakesHold(states[i], acts[i], id);
    } else {
      HoldLasts(states, acts, i, j - 1, id);
      HoldStays(states[j - 1], acts[j - 1], id, acts[i].step.at);
    }
  }

  /** A row is handed to a second claimant only after its first claim was marked,
      or once the second claimant's stale window has passed. */
  lemma ClaimsAreExclusive(states: seq<Sys>, acts: seq<Action>, i: nat, j: nat, id: nat)
    requires IsRun(states, acts) && i < j < |acts|
    requires ClaimsRow(states[i], acts[i], id) && ClaimsRow(states[j], acts[j], id)
    requires forall k :: i < k < j ==> !MarksRow(states[k], acts[k], id)
    ensures acts[j].step.at >= acts[i].step.at + Max(1, acts[j].cfg.staleAfter)
  {
    hide Do, DueIds, StaleBefore;
    HoldLasts(states, acts, i, j, id);
    assert Enabled(states[j], acts[j]);
    StaleIsEarlier(acts[j].step.at, acts[j].cfg.staleAfter, states[j].rows[id].claimedAt.value);
  }

  // ------------------------------------------------------------------ retry delays

  lemma {:induction false} Pow2Grows(a: nat, b: nat)
    requires a <= b
    ensures 1 <= Pow2(a) <= Pow2(b)
    decreases b
  {
    if a < b {
      Pow2Grows(a, b - 1);
    } else if a > 0 {
      Pow2Grows(a - 1, b - 1);
    }
  }

  lemma DelaysGrow(cfg: DeliveryConfig, a: nat, b: nat)
    requires a <= b
    ensures Delay(cfg, a) <= Delay(cfg, b) <= cfg.retryMax
  {
    Pow2Grows(Exponent(a), Exponent(b));
    TimesGrows(cfg.retryBase, Pow2(Exponent(a)), Pow2(Exponent(b)));
  }

  lemma TimesGrows(base: nat, p: nat, q: nat)
    requires p <= q
    ensures base * p <= base * q
  {
  }

  /** The first delay is the base, each further one twice the last, all capped;
      the doubling stops after twenty times. */
  lemma DelaysDouble(cfg: DeliveryConfig, a: nat)
    requires a >= 1 && cfg.retryBase <= U64_MAX && cfg.retryMax <= U64_MAX
    ensures Delay(cfg, 1) == Min(cfg.retryBase, cfg.retryMax)
    ensures Delay(cfg, a + 1) == if a <= 20 then Min(2 * Delay(cfg, a), cfg.retryMax) else Delay(cfg, a)
  {
    if a <= 20 {
      var p := Pow2(a - 1);
      assert Exponent(a) == a - 1 && Exponent(a + 1) == a && Pow2(a) == 2 * p;
      assert cfg.retryBase * (2 * p) == 2 * (cfg.retryBase * p);
    }
  }

  /** Delays as added to the clock: never negative, never beyond retry_max, and
      never shorter than an earlier one. */
  ghost predicate DelaysBehave(cfg: DeliveryConfig) {
    && (forall a: nat :: 0 <= AsI64(Delay(cfg, a)) <= cfg.retryMax)
    && (forall a: nat, b: nat :: a <= b ==> AsI64(Delay(cfg, a)) <= AsI64(Delay(cfg, b)))
  }

  /** They behave exactly when the longest delay fits a signed 64-bit number;
      otherwise the cast makes it negative. */
  lemma DelaysBehaveExactlyWhenTheyFit(cfg: DeliveryConfig)
    requires cfg.retryMax <= U64_MAX
    ensures DelaysBehave(cfg) <==> Delay(cfg, 21) <= I64_MAX
  {
    hide Delay;
    forall a: nat
      ensures Delay(cfg, a) <= Delay(cfg, 21) && Delay(cfg, 21) <= cfg.retryMax
    {
      if a <= 21 {
        DelaysGrow(cfg, a, 21);
      } else {
        LongestDelay(cfg, a);
        DelaysGrow(cfg, 21, 21);
      }
    }
    forall a: nat, b: nat | a <= b
      ensures Delay(cfg, a) <= Delay(cfg, b)
    {
      DelaysGrow(cfg, a, b);
    }
    if Delay(cfg, 21) > I64_MAX {
      assert AsI64(Delay(cfg, 21)) < 0;
    }
  }

  lemma LongestDelay(cfg: DeliveryConfig, a: nat)
    requires a >= 21
    ensures Delay(cfg, a) == Delay(cfg, 21)
  {
  }
}
