/**
 * Unbounded histories of quota calls. A call first asks MaxOutputTokens for a quote
 * and later reserves it; any number of other calls, settlements and midnights may fall
 * in between, because every step names its own day.
 */
module QuotaRuns {
  import opened Basics
  import opened QuotaLedger

  /** availableOutputTokens: the smallest of the model limit and the remaining budgets. */
  function AvailableOutputTokens(modelLimit: int, remaining: seq<int>): (r: Result<int, Error>)
    ensures r.Ok? <==> modelLimit > 0 && forall k :: 0 <= k < |remaining| ==> remaining[k] > 0
    ensures r.Ok? ==> r.value <= modelLimit && forall k :: 0 <= k < |remaining| ==> r.value <= remaining[k]
    ensures r.Ok? ==> r.value > 0 && (r.value == modelLimit || r.value in remaining)
    ensures r.Err? ==> r.error == Exceeded
  {
    var available := Smallest(modelLimit, remaining);
    if available <= 0 then Err(Exceeded) else Ok(available)
  }

  function Smallest(first: int, rest: seq<int>): (m: int)
    ensures m <= first && forall k :: 0 <= k < |rest| ==> m <= rest[k]
    ensures m == first || m in rest
  {
    if rest == [] then first
    else Min(Smallest(first, rest[..|rest| - 1]), rest[|rest| - 1])
  }

  /** MaxOutputTokens: what the actor and the whole service may still spend on the given day. */
  function MaxOutputTokens(l: Ledger, p: Policy, actor: Actor, modelLimit: int, day: int): Result<int, Error>
  {
    if modelLimit <= 0 || actor.id == NIL || actor.kind.Unknown? then Err(Invalid)
    else if actor.kind.Guest? && actor.id !in l.guests then Err(Database)
    else
      var limit := if actor.kind.Guest? then p.guestTokens else p.userTokens;
      AvailableOutputTokens(modelLimit,
        [limit - Tokens(l, ActorBucket(actor, day)), p.globalTokens - Tokens(l, Daily(GlobalKey(day)))])
  }

  datatype Quote = Quote(actor: Actor, tokens: int)
  datatype System = System(ledger: Ledger, quotes: map<Id, Quote>)

  datatype Step =
    | CreateGuest(guest: Id, expiresAt: int)
    | AskQuote(call: Id, actor: Actor, modelLimit: int, today: int, policy: Policy)
    | ReserveQuote(call: Id, id: Id, day: int, now: int, policy: Policy)
    | SettleReservation(reservation: Reservation, actual: int)

  function Apply(s: System, step: Step): System
  {
    match step
    case CreateGuest(id, expiresAt) =>
      if id in s.ledger.guests then s
      else s.(ledger := s.ledger.(guests := s.ledger.guests[id := GuestRow(0, 0, false, expiresAt)]))
    case AskQuote(call, actor, modelLimit, today, policy) =>
      (match MaxOutputTokens(s.ledger, policy, actor, modelLimit, today)
       case Err(_) => s
       case Ok(tokens) => s.(quotes := s.quotes[call := Quote(actor, tokens)]))
    case ReserveQuote(call, id, day, now, policy) =>
      if call !in s.quotes then s
      else
        (match ReserveTx(s.ledger, policy, id, s.quotes[call].actor, s.quotes[call].tokens, day, now)
         case Err(_) => s
         case Ok(l) => s.(ledger := l))
    case SettleReservation(r, actual) =>
      match Settle(s.ledger, r, actual)
      case Err(_) => s
      case Ok(l) => s.(ledger := l)
  }

  function Continue(s: System, steps: seq<Step>): System
  {
    if steps == [] then s else Apply(Continue(s, steps[..|steps| - 1]), steps[|steps| - 1])
  }

  lemma ContinueTwo(s: System, a: Step, b: Step)
    ensures Continue(s, [a, b]) == Apply(Apply(s, a), b)
  {
    assert [a, b][..1] == [a] && [a][..0] == [];
    assert Continue(s, [a]) == Apply(Continue(s, []), a);
  }

  lemma ContinueThree(s: System, a: Step, b: Step, c: Step)
    ensures Continue(s, [a, b] + [c]) == Apply(Apply(Apply(s, a), b), c)
  {
    ContinueTwo(s, a, b);
    assert ([a, b] + [c])[..2] == [a, b];
  }

  const START: System := System(EMPTY, map[])

  function Run(steps: seq<Step>): System { Continue(START, steps) }

  // ----------------------------------------------------------- conservation

  predicate Sound(q: Quote) { q.tokens > 0 && !q.actor.kind.Unknown? }

  ghost predicate LedgerInv(s: System)
  {
    Conserved(s.ledger) && forall c :: c in s.quotes ==> Sound(s.quotes[c])
  }

  lemma CreateGuestConserves(l: Ledger, id: Id, row: GuestRow)
    requires Conserved(l) && id !in l.guests && row.prompts == 0 && row.tokens == 0
    ensures Conserved(l.(guests := l.guests[id := row]))
  {
    var l' := l.(guests := l.guests[id := row]);
    forall k | 0 <= k < |l.reservations| ensures RowOk(l', l.reservations[k]) {
      assert RowOk(l, l.reservations[k]);
    }
    forall b: Bucket
      ensures Tokens(l', b) == Owed(l.reservations, b) && Messages(l', b) == Charged(l.reservations, b)
    {
      assert Tokens(l', b) == Tokens(l, b) && Messages(l', b) == Messages(l, b);
    }
  }

  lemma ApplyConserves(s: System, step: Step)
    requires LedgerInv(s)
    ensures LedgerInv(Apply(s, step))
  {
    match step
    case CreateGuest(id, expiresAt) =>
      if id !in s.ledger.guests { CreateGuestConserves(s.ledger, id, GuestRow(0, 0, false, expiresAt)); }
    case AskQuote(_, _, _, _, _) =>
    case ReserveQuote(call, id, day, now, policy) =>
      if call in s.quotes
         && ReserveTx(s.ledger, policy, id, s.quotes[call].actor, s.quotes[call].tokens, day, now).Ok? {
        ReserveConserves(s.ledger, policy, id, s.quotes[call].actor, s.quotes[call].tokens, day, now);
      }
    case SettleReservation(r, actual) =>
      if Settle(s.ledger, r, actual).Ok? { SettleConserves(s.ledger, r, actual); }
  }

  lemma {:induction false} ContinueConserves(s: System, steps: seq<Step>)
    requires LedgerInv(s)
    ensures LedgerInv(Continue(s, steps))
  {
    if steps == [] {
    } else {
      ContinueConserves(s, steps[..|steps| - 1]);
      ApplyConserves(Continue(s, steps[..|steps| - 1]), steps[|steps| - 1]);
    }
  }

  /**
   * Ledger conservation: after any history, under any succession of policies and days, each
   * counter is exactly the sum of reserved (outstanding) or actual (settled) tokens over the
   * reservations that charged it, and each message counter is their number.
   */
  lemma HistoryConserves(steps: seq<Step>)
    ensures LedgerInv(Run(steps))
  {
    ContinueConserves(START, steps);
  }

  // ------------------------------------------- a reservation amid other traffic

  predicate Spares(step: Step, id: Id) { step.SettleReservation? ==> step.reservation.id != id }

  /** A row that a step may not touch: settled already, or spared by it. */
  lemma StepSpares(s: System, step: Step, i: nat)
    requires i < |s.ledger.reservations|
    requires Spares(step, s.ledger.reservations[i].id) || !s.ledger.reservations[i].status.Reserved?
    ensures i < |Apply(s, step).ledger.reservations|
    ensures Apply(s, step).ledger.reservations[i] == s.ledger.reservations[i]
  {
  }

  /** Only a settlement that names it touches a reservation, and a settled one not even that. */
  lemma {:induction false} ReservationSurvives(s: System, steps: seq<Step>, i: nat)
    requires i < |s.ledger.reservations|
    requires var row := s.ledger.reservations[i];
             !row.status.Reserved? || forall k :: 0 <= k < |steps| ==> Spares(steps[k], row.id)
    ensures var rows := Continue(s, steps).ledger.reservations; i < |rows| && rows[i] == s.ledger.reservations[i]
  {
    if steps == [] {
    } else {
      ReservationSurvives(s, steps[..|steps| - 1], i);
      StepSpares(Continue(s, steps[..|steps| - 1]), steps[|steps| - 1], i);
    }
  }

  /** The reservation that a caller holds. */
  predicate HeldBy(row: ReservationRow, r: Reservation)
  {
    row.status.Reserved? && row.id == r.id && row.actor == r.actor && row.reserved == r.reserved
  }

  /**
   * However much happens between a reservation and its settlement, the settlement succeeds for
   * every amount up to what was reserved, and moves exactly the counters the reservation charged.
   */
  lemma SettlesAmidTraffic(s: System, steps: seq<Step>, i: nat, r: Reservation, actual: int, b: Bucket)
    requires LedgerInv(s) && i < |s.ledger.reservations| && HeldBy(s.ledger.reservations[i], r)
    requires forall k :: 0 <= k < |steps| ==> Spares(steps[k], r.id)
    requires 0 <= actual <= r.reserved
    ensures var l := Continue(s, steps).ledger;
            var settled := Settle(l, r, actual);
            && settled.Ok? && Conserved(settled.value)
            && Tokens(settled.value, b) == Tokens(l, b)
               - (if Charges(s.ledger.reservations[i], b) then r.reserved - actual else 0)
            && Messages(settled.value, b) == Messages(l, b)
  {
    ReservationSurvives(s, steps, i);
    ContinueConserves(s, steps);
    var l := Continue(s, steps).ledger;
    assert Find(l.reservations, r.id) == Some(i);
    SettleRefunds(l, r, actual, i, b);
    SettleConserves(l, r, actual);
  }

  /** Once settled, a reservation is never charged or refunded again, whatever follows. */
  lemma SettledForGood(s: System, steps: seq<Step>, i: nat, r: Reservation, again: int)
    requires LedgerInv(s) && i < |s.ledger.reservations|
    requires s.ledger.reservations[i].id == r.id && !s.ledger.reservations[i].status.Reserved?
    requires 0 <= again <= r.reserved
    ensures var l := Continue(s, steps).ledger;
            && i < |l.reservations| && l.reservations[i] == s.ledger.reservations[i]
            && Settle(l, r, again) == Ok(l)
  {
    ReservationSurvives(s, steps, i);
    ContinueConserves(s, steps);
    assert Find(Continue(s, steps).ledger.reservations, r.id) == Some(i);
  }

  // ------------------------------------------------------------------- caps

  predicate LimitsPositive(p: Policy)
  {
    p.guestMessages >= 1 && p.guestTokens >= 1 && p.userMessages >= 1 && p.userTokens >= 1
    && p.globalMessages >= 1 && p.globalTokens >= 1
  }

  function MessageLimit(p: Policy, b: Bucket): int
  {
    match b
    case GuestAllowance(_) => p.guestMessages
    case Daily(key) => if key.scope.UserScope? then p.userMessages else p.globalMessages
  }

  function TokenLimit(p: Policy, b: Bucket): int
  {
    match b
    case GuestAllowance(_) => p.guestTokens
    case Daily(key) => if key.scope.UserScope? then p.userTokens else p.globalTokens
  }

  ghost predicate WithinCaps(l: Ledger, p: Policy)
  {
    forall b: Bucket :: Tokens(l, b) <= TokenLimit(p, b) && Messages(l, b) <= MessageLimit(p, b)
  }

  /** A quote never exceeds a whole day's budget, so it survives the unguarded insert arm. */
  predicate Affordable(q: Quote, p: Policy)
  {
    q.tokens <= TokenLimit(p, ActorBucket(q.actor, 0)) && q.tokens <= p.globalTokens
  }

  predicate UsesPolicy(step: Step, p: Policy)
  {
    (step.AskQuote? || step.ReserveQuote?) ==> step.policy == p
  }

  /**
   * Exactly when AddDailyUsage can leave a row above its limits: never on the update arm, and
   * on the insert arm exactly when the charge alone is too large.
   */
  lemma AddDailyUsageCap(daily: map<UsageKey, Usage>, key: UsageKey, tokens: int, messageLimit: int, tokenLimit: int)
    requires AddDailyUsage(daily, key, tokens, messageLimit, tokenLimit).Some?
    ensures var row := AddDailyUsage(daily, key, tokens, messageLimit, tokenLimit).value[key];
            (row.messages <= messageLimit && row.tokens <= tokenLimit)
            <==> (key in daily || (1 <= messageLimit && tokens <= tokenLimit))
  {
  }

  /** The insert arm in action: one reservation of 2 tokens under a limit of 1. */
  lemma InsertArmOvershoots(p: Policy)
    requires p.userTokens == 1 && p.globalTokens == 10 && p.concurrent == 1
    ensures var r := ReserveTx(EMPTY, p, 1, Actor(User, 7), 2, 0, 0);
            r.Ok? && Tokens(r.value, Daily(UsageKey(UserScope, 7, 0))) == 2
  {
  }

  lemma ReserveKeepsCaps(l: Ledger, p: Policy, id: Id, q: Quote, day: int, now: int)
    requires WithinCaps(l, p) && LimitsPositive(p) && Affordable(q, p) && Sound(q)
    requires ReserveTx(l, p, id, q.actor, q.tokens, day, now).Ok?
    ensures WithinCaps(ReserveTx(l, p, id, q.actor, q.tokens, day, now).value, p)
  {
    var l' := ReserveTx(l, p, id, q.actor, q.tokens, day, now).value;
    Int32Tightens(p.guestMessages);
    Int32Tightens(p.guestTokens);
    Int32Tightens(p.userMessages);
    Int32Tightens(p.globalMessages);
    forall b: Bucket ensures Tokens(l', b) <= TokenLimit(p, b) && Messages(l', b) <= MessageLimit(p, b) {
      assert Tokens(l, b) <= TokenLimit(p, b) && Messages(l, b) <= MessageLimit(p, b);
    }
  }

  lemma SettleKeepsCaps(l: Ledger, p: Policy, r: Reservation, actual: int)
    requires Conserved(l) && WithinCaps(l, p) && Settle(l, r, actual).Ok?
    ensures WithinCaps(Settle(l, r, actual).value, p)
  {
    var l' := Settle(l, r, actual).value;
    var i := Find(l.reservations, r.id).value;
    if l.reservations[i].status.Reserved? {
      forall b: Bucket ensures Tokens(l', b) <= TokenLimit(p, b) && Messages(l', b) <= MessageLimit(p, b) {
        SettleRefunds(l, r, actual, i, b);
        assert Tokens(l, b) <= TokenLimit(p, b) && Messages(l, b) <= MessageLimit(p, b);
      }
    }
  }

  lemma BalancesNonNegative(l: Ledger, b: Bucket)
    requires Conserved(l)
    ensures Tokens(l, b) >= 0
  {
    forall k | 0 <= k < |l.reservations| ensures Cost(l.reservations[k]) >= 0 {
      assert RowOk(l, l.reservations[k]);
    }
    OwedNonNegative(l.reservations, b);
    assert Tokens(l, b) == Owed(l.reservations, b);
  }

  lemma QuoteIsAffordable(l: Ledger, p: Policy, actor: Actor, modelLimit: int, day: int)
    requires Conserved(l) && MaxOutputTokens(l, p, actor, modelLimit, day).Ok?
    ensures var q := Quote(actor, MaxOutputTokens(l, p, actor, modelLimit, day).value);
            Affordable(q, p) && Sound(q) && q.tokens <= modelLimit
            && (modelLimit < TWO_TO_31 ==> Int32(q.tokens) == q.tokens)
  {
    var remaining := [TokenLimit(p, ActorBucket(actor, day)) - Tokens(l, ActorBucket(actor, day)),
                      p.globalTokens - Tokens(l, Daily(GlobalKey(day)))];
    var tokens := MaxOutputTokens(l, p, actor, modelLimit, day).value;
    BalancesNonNegative(l, ActorBucket(actor, day));
    BalancesNonNegative(l, Daily(GlobalKey(day)));
    assert tokens <= remaining[0] && tokens <= remaining[1];
  }

  /**
   * Caps hold: with one policy whose limits are at least 1, no guest, user-day or global-day
   * counter ever exceeds its token or message limit, whatever the interleaving and even when
   * midnight falls between a quote and its reservation.
   */
  lemma {:induction false} CapsHold(p: Policy, steps: seq<Step>)
    requires LimitsPositive(p)
    requires forall k :: 0 <= k < |steps| ==> UsesPolicy(steps[k], p)
    ensures WithinCaps(Run(steps).ledger, p)
    ensures forall c :: c in Run(steps).quotes ==> Affordable(Run(steps).quotes[c], p)
  {
    if steps == [] {
    } else {
      var before := steps[..|steps| - 1];
      var s, step := Run(before), steps[|steps| - 1];
      CapsHold(p, before);
      HistoryConserves(before);
      assert UsesPolicy(step, p);
      match step
      case CreateGuest(id, expiresAt) =>
        var l' := Apply(s, step).ledger;
        forall b: Bucket ensures Tokens(l', b) <= TokenLimit(p, b) && Messages(l', b) <= MessageLimit(p, b) {
          assert Tokens(s.ledger, b) <= TokenLimit(p, b) && Messages(s.ledger, b) <= MessageLimit(p, b);
        }
      case AskQuote(call, actor, modelLimit, today, policy) =>
        if MaxOutputTokens(s.ledger, p, actor, modelLimit, today).Ok? {
          QuoteIsAffordable(s.ledger, p, actor, modelLimit, today);
        }
      case ReserveQuote(call, id, day, now, policy) =>
        if call in s.quotes && ReserveTx(s.ledger, p, id, s.quotes[call].actor, s.quotes[call].tokens, day, now).Ok? {
          ReserveKeepsCaps(s.ledger, p, id, s.quotes[call], day, now);
        }
      case SettleReservation(r, actual) =>
        if Settle(s.ledger, r, actual).Ok? { SettleKeepsCaps(s.ledger, p, r, actual); }
    }
  }
}
