/**
 * What the quota calls answer and write, read off the rows of the tables: which quote is given,
 * when a charge is refused and with which error, which rows it changes, which day it falls on and
 * how long its lease shuts the next one out.
 */
module QuotaAnswers {
  import opened Basics
  import opened QuotaLedger
  import QR = QuotaRuns
  import QS = QuotaService
  import L = Leases

  // ---------------------------------------------------------------- quotes

  /** The tokens an actor has used: a guest in all, a user on this day. */
  function UsedBy(l: Ledger, actor: Actor, day: int): int
  {
    var key := UsageKey(UserScope, actor.id, day);
    if actor.kind.Guest? then (if actor.id in l.guests then l.guests[actor.id].tokens else 0)
    else if key in l.daily then l.daily[key].tokens
    else 0
  }

  /** The tokens everybody has used on this day. */
  function UsedByAll(l: Ledger, day: int): int
  {
    var key := UsageKey(GlobalScope, NIL, day);
    if key in l.daily then l.daily[key].tokens else 0
  }

  function TokenBudget(p: Policy, actor: Actor): int { if actor.kind.Guest? then p.guestTokens else p.userTokens }

  /** An answer of t tokens stays within the model's limit and within what both budgets have left. */
  predicate WithinBudgets(l: Ledger, p: Policy, actor: Actor, modelLimit: int, day: int, t: int)
  {
    && t <= modelLimit
    && UsedBy(l, actor, day) + t <= TokenBudget(p, actor)
    && UsedByAll(l, day) + t <= p.globalTokens
  }

  /**
   * Exactly when a quote is given: for a positive limit and a known actor whose own use and
   * everybody's use of the day are below their limits. Anything else has the error of its guard.
   */
  lemma QuotedIff(l: Ledger, p: Policy, actor: Actor, modelLimit: int, day: int)
    ensures var r := QR.MaxOutputTokens(l, p, actor, modelLimit, day);
            var asked := modelLimit > 0 && actor.id != NIL && !actor.kind.Unknown?;
            var known := actor.kind.User? || actor.id in l.guests;
            && (r == Err(Invalid) <==> !asked)
            && (r == Err(Database) <==> asked && !known)
            && (r == Err(Exceeded) <==>
                  asked && known
                  && (UsedBy(l, actor, day) >= TokenBudget(p, actor) || UsedByAll(l, day) >= p.globalTokens))
            && (r.Ok? <==>
                  asked && known
                  && UsedBy(l, actor, day) < TokenBudget(p, actor) && UsedByAll(l, day) < p.globalTokens)
  {
    var remaining := [TokenBudget(p, actor) - UsedBy(l, actor, day), p.globalTokens - UsedByAll(l, day)];
    assert QR.MaxOutputTokens(l, p, actor, modelLimit, day).Ok? ==> remaining[0] > 0 && remaining[1] > 0;
  }

  /** A quote is the largest answer within the budgets. */
  lemma QuoteIsLargest(l: Ledger, p: Policy, actor: Actor, modelLimit: int, day: int)
    requires QR.MaxOutputTokens(l, p, actor, modelLimit, day).Ok?
    ensures var quote := QR.MaxOutputTokens(l, p, actor, modelLimit, day).value;
            && 0 < quote
            && forall t :: WithinBudgets(l, p, actor, modelLimit, day, t) <==> t <= quote
  {
    var quote := QR.MaxOutputTokens(l, p, actor, modelLimit, day).value;
    var remaining := [TokenBudget(p, actor) - UsedBy(l, actor, day), p.globalTokens - UsedByAll(l, day)];
    assert QR.AvailableOutputTokens(modelLimit, remaining) == Ok(quote);
    assert quote <= remaining[0] && quote <= remaining[1];
  }

  // --------------------------------------------------------------- charges

  /** A day's row takes one message and these tokens, or does not exist yet. */
  predicate HasRoom(l: Ledger, key: UsageKey, tokens: int, messageLimit: int, tokenLimit: int)
  {
    key in l.daily ==> l.daily[key].messages + 1 <= messageLimit && l.daily[key].tokens + tokens <= tokenLimit
  }

  predicate IdTaken(l: Ledger, id: Id) { exists k :: 0 <= k < |l.reservations| && l.reservations[k].id == id }

  /** The outstanding reservations are the rows nobody has settled. */
  lemma {:induction false} OutstandingCounts(rows: seq<ReservationRow>)
    ensures Outstanding(rows) == |set k: nat | k < |rows| && rows[k].status.Reserved?|
  {
    var open := set k: nat | k < |rows| && rows[k].status.Reserved?;
    if rows == [] {
      assert open == {};
    } else {
      var n := |rows| - 1;
      var before := set k: nat | k < n && rows[..n][k].status.Reserved?;
      OutstandingCounts(rows[..n]);
      if rows[n].status.Reserved? {
        assert open == before + {n};
      } else {
        assert open == before;
      }
    }
  }

  /** What a charge to a user answers: too many outstanding, a row without room, or an id already taken. */
  lemma UserReserveAnswers(l: Ledger, p: Policy, id: Id, user: Id, tokens: int, day: int, now: int)
    ensures var r := ReserveTx(l, p, id, Actor(User, user), tokens, day, now);
            var busy := Outstanding(l.reservations) >= p.concurrent;
            var room := HasRoom(l, UsageKey(UserScope, user, day), tokens, Int32(p.userMessages), p.userTokens)
                        && HasRoom(l, UsageKey(GlobalScope, NIL, day), tokens, Int32(p.globalMessages), p.globalTokens);
            && (r == Err(Busy) <==> busy)
            && (r == Err(Exceeded) <==> !busy && !room)
            && (r == Err(Database) <==> !busy && room && IdTaken(l, id))
            && (r.Ok? <==> !busy && room && !IdTaken(l, id))
  {
  }

  /** A guest's row takes one prompt and these tokens under the policy narrowed to int32. */
  predicate GuestHasRoom(l: Ledger, p: Policy, guest: Id, tokens: int, now: int)
  {
    && guest in l.guests && !l.guests[guest].migrated && now < l.guests[guest].expiresAt
    && l.guests[guest].prompts < Int32(p.guestMessages) && l.guests[guest].tokens + tokens <= Int32(p.guestTokens)
  }

  /**
   * What a charge to a guest answers. The ceilings of 20 prompts and 10000 tokens are the table's
   * own: beyond them the statement fails instead of matching no row.
   */
  lemma GuestReserveAnswers(l: Ledger, p: Policy, id: Id, guest: Id, tokens: int, day: int, now: int)
    ensures var r := ReserveTx(l, p, id, Actor(Guest, guest), tokens, day, now);
            var busy, room := Outstanding(l.reservations) >= p.concurrent, GuestHasRoom(l, p, guest, tokens, now);
            var fits := room ==> l.guests[guest].prompts < 20 && l.guests[guest].tokens + tokens <= 10000;
            var day' := HasRoom(l, UsageKey(GlobalScope, NIL, day), tokens, Int32(p.globalMessages), p.globalTokens);
            && (r == Err(Busy) <==> busy)
            && (r == Err(Exceeded) <==> !busy && (!room || (fits && !day')))
            && (r == Err(Database) <==> !busy && room && (!fits || (day' && IdTaken(l, id))))
            && (r.Ok? <==> !busy && room && fits && day' && !IdTaken(l, id))
  {
  }

  /** A row once one message and these tokens are added to it, or to nothing. */
  function Plus(daily: map<UsageKey, Usage>, key: UsageKey, tokens: int): Usage
  {
    if key in daily then Usage(daily[key].messages + 1, daily[key].tokens + tokens) else Usage(1, tokens)
  }

  /** A granted charge writes the actor's row, everybody's row of the day and one reservation, and no other row. */
  lemma ReserveWrites(l: Ledger, p: Policy, id: Id, actor: Actor, tokens: int, day: int, now: int)
    requires !actor.kind.Unknown? && ReserveTx(l, p, id, actor, tokens, day, now).Ok?
    ensures var l' := ReserveTx(l, p, id, actor, tokens, day, now).value;
            var own, all := UsageKey(UserScope, actor.id, day), UsageKey(GlobalScope, NIL, day);
            && l'.reservations == l.reservations + [ReservationRow(id, actor, day, tokens, None, Reserved)]
            && (actor.kind.User? ==>
                  && l'.guests == l.guests
                  && l'.daily == l.daily[own := Plus(l.daily, own, tokens)][all := Plus(l.daily, all, tokens)])
            && (actor.kind.Guest? ==>
                  && l'.daily == l.daily[all := Plus(l.daily, all, tokens)]
                  && actor.id in l.guests
                  && var g := l.guests[actor.id];
                     l'.guests == l.guests[actor.id := g.(prompts := g.prompts + 1, tokens := g.tokens + tokens)])
  {
  }

  /**
   * A user's quote reserved on the same day, from the same tables, is never refused for tokens: the
   * charge fails only for too many outstanding, too many messages, or an id already taken.
   */
  lemma UserQuoteIsGranted(l: Ledger, p: Policy, user: Id, modelLimit: int, id: Id, day: int, now: int)
    requires QR.MaxOutputTokens(l, p, Actor(User, user), modelLimit, day).Ok?
    ensures var quote := QR.MaxOutputTokens(l, p, Actor(User, user), modelLimit, day).value;
            var own, all := UsageKey(UserScope, user, day), UsageKey(GlobalScope, NIL, day);
            ReserveTx(l, p, id, Actor(User, user), quote, day, now).Ok? <==>
              && Outstanding(l.reservations) < p.concurrent
              && (own in l.daily ==> l.daily[own].messages < Int32(p.userMessages))
              && (all in l.daily ==> l.daily[all].messages < Int32(p.globalMessages))
              && !IdTaken(l, id)
  {
    QuoteIsLargest(l, p, Actor(User, user), modelLimit, day);
    var quote := QR.MaxOutputTokens(l, p, Actor(User, user), modelLimit, day).value;
    assert WithinBudgets(l, p, Actor(User, user), modelLimit, day, quote);
    UserReserveAnswers(l, p, id, user, quote, day, now);
  }

  /**
   * A guest's quote can still meet the limits the quote does not look at: the table's ceiling of
   * 10000 tokens and, for a policy beyond an int32, the narrowed limit. Within both, it is never
   * refused for tokens.
   */
  lemma GuestQuoteIsGranted(l: Ledger, p: Policy, guest: Id, modelLimit: int, id: Id, day: int, now: int)
    requires QR.MaxOutputTokens(l, p, Actor(Guest, guest), modelLimit, day).Ok?
    ensures guest in l.guests
    ensures var quote := QR.MaxOutputTokens(l, p, Actor(Guest, guest), modelLimit, day).value;
            var g, all := l.guests[guest], UsageKey(GlobalScope, NIL, day);
            && (ReserveTx(l, p, id, Actor(Guest, guest), quote, day, now).Ok? <==>
                  && Outstanding(l.reservations) < p.concurrent
                  && !g.migrated && now < g.expiresAt && g.prompts < Int32(p.guestMessages) && g.prompts < 20
                  && g.tokens + quote <= 10000 && g.tokens + quote <= Int32(p.guestTokens)
                  && (all in l.daily ==> l.daily[all].messages < Int32(p.globalMessages))
                  && !IdTaken(l, id))
            && (-TWO_TO_31 <= p.guestTokens <= 10000 ==>
                  g.tokens + quote <= 10000 && g.tokens + quote <= Int32(p.guestTokens))
  {
    QuotedIff(l, p, Actor(Guest, guest), modelLimit, day);
    QuoteIsLargest(l, p, Actor(Guest, guest), modelLimit, day);
    var quote := QR.MaxOutputTokens(l, p, Actor(Guest, guest), modelLimit, day).value;
    assert WithinBudgets(l, p, Actor(Guest, guest), modelLimit, day, quote);
    GuestReserveAnswers(l, p, id, guest, quote, day, now);
    Int32Wraps(p.guestTokens);
  }

  // ----------------------------------------------------------- settlements

  predicate UniqueIds(l: Ledger)
  {
    forall i, j :: 0 <= i < j < |l.reservations| ==> l.reservations[i].id != l.reservations[j].id
  }

  /** What a settlement answers for the reservation in row i, and for an id without a row. */
  lemma SettleAnswers(l: Ledger, r: Reservation, actual: int, i: nat)
    requires UniqueIds(l) && i < |l.reservations| && l.reservations[i].id == r.id
    ensures var row := l.reservations[i];
            && (Settle(l, r, actual).Ok? <==>
                  0 <= actual <= r.reserved
                  && (row.status.Reserved? ==> row.actor == r.actor && row.reserved == r.reserved))
            && (Settle(l, r, actual).Err? ==> Settle(l, r, actual) == Err(Invalid))
            && (Settle(l, r, actual).Ok? && !row.status.Reserved? ==> Settle(l, r, actual) == Ok(l))
  {
    assert Find(l.reservations, r.id) == Some(i);
  }

  lemma SettleFindsNothing(l: Ledger, r: Reservation, actual: int)
    requires !IdTaken(l, r.id)
    ensures Settle(l, r, actual) == Err(Invalid)
  {
  }

  /** A row once these tokens are given back to it. */
  function Minus(row: Usage, tokens: int): Usage { row.(tokens := row.tokens - tokens) }

  /**
   * A settlement gives the unused tokens back to the rows of the day the reservation was made on,
   * or to the guest's row and that day's; it records the amount and changes no other row.
   */
  lemma SettleWrites(l: Ledger, r: Reservation, actual: int, i: nat)
    requires Conserved(l) && i < |l.reservations| && l.reservations[i].id == r.id
    requires var row := l.reservations[i]; row.status.Reserved? && row.actor == r.actor && row.reserved == r.reserved
    requires 0 <= actual <= r.reserved
    ensures var row, unused := l.reservations[i], r.reserved - actual;
            var own, all := UsageKey(UserScope, row.actor.id, row.day), UsageKey(GlobalScope, NIL, row.day);
            && Settle(l, r, actual).Ok?
            && var l' := Settle(l, r, actual).value;
            && l'.reservations == l.reservations[i := row.(actual := Some(actual),
                                                           status := if actual == 0 then Refunded else Committed)]
            && all in l.daily
            && (row.actor.kind.User? ==>
                  && own in l.daily && l'.guests == l.guests
                  && l'.daily == l.daily[own := Minus(l.daily[own], unused)][all := Minus(l.daily[all], unused)])
            && (row.actor.kind.Guest? ==>
                  && l'.daily == l.daily[all := Minus(l.daily[all], unused)]
                  && row.actor.id in l.guests
                  && var g := l.guests[row.actor.id];
                     l'.guests == l.guests[row.actor.id := g.(tokens := g.tokens - unused)])
  {
    var row := l.reservations[i];
    assert Find(l.reservations, r.id) == Some(i);
    assert RowOk(l, row);
    OwedPositiveMeansPresent(l, i);
    ClampNeverBites(l, i, actual, ActorBucket(row.actor, row.day));
    ClampNeverBites(l, i, actual, Daily(GlobalKey(row.day)));
  }

  // ------------------------------------------------------ the whole Reserve

  /** The day a call is charged to is the one its clock reads. */
  lemma ChargedDay(now: int)
    ensures 86400 * QS.UtcDay(now) <= now < 86400 * (QS.UtcDay(now) + 1)
  {
  }

  /**
   * What Reserve answers, guard by guard: bad arguments, the rate limit, a lease that cannot be
   * set, a lease held by someone else, and then the transaction on the day of `now`. A granted call
   * holds the actor's lease for its whole term; a refused one changes no table.
   */
  lemma ReserveAnswers(l: Ledger, leases: L.LeaseStore, p: Policy, actor: Actor, tokens: int, now: int,
                       withinRate: bool, id: Id, owner: Id, day: int)
    requires 86400 * day <= now < 86400 * (day + 1)
    ensures var (l', leases', r) := QS.ReserveOutcome(l, leases, p, actor, tokens, now, withinRate, id, owner);
            var bad := actor.kind.Unknown? || actor.id == NIL || tokens <= 0;
            var held := actor.id in leases && now < leases[actor.id].expiresAt;
            var tx := ReserveTx(l, p, id, actor, tokens, day, now);
            && (bad ==> r == Err(Invalid))
            && (!bad && !withinRate ==> r == Err(Exceeded))
            && (!bad && withinRate && p.leaseTtl <= 0 ==> r == Err(Database))
            && (!bad && withinRate && p.leaseTtl > 0 && held ==> r == Err(Busy))
            && (!bad && withinRate && p.leaseTtl > 0 && !held ==>
                  && (tx.Err? ==> r == Err(tx.error))
                  && (tx.Ok? ==>
                        && r == Ok(Reservation(id, actor, owner, day, tokens)) && l' == tx.value
                        && leases' == leases[actor.id := L.Lease(owner, now + p.leaseTtl)]))
            && (r.Err? ==> l' == l)
  {
    ChargedDay(now);
    assert QS.UtcDay(now) == day;
  }

  /**
   * How long a granted call shuts the actor's next one out: until its lease runs out, and not a
   * second longer. Without a settlement in between, the next call is busy before that, and from
   * then on it is answered by its own transaction.
   */
  lemma LeaseKeepsOut(l: Ledger, leases: L.LeaseStore, p: Policy, actor: Actor, tokens: int, now: int,
                      id: Id, owner: Id, again: int, later: int, id': Id, owner': Id)
    requires QS.ReserveOutcome(l, leases, p, actor, tokens, now, true, id, owner).2.Ok? && again > 0
    ensures var (l', leases', _) := QS.ReserveOutcome(l, leases, p, actor, tokens, now, true, id, owner);
            var r := QS.ReserveOutcome(l', leases', p, actor, again, later, true, id', owner').2;
            && (later < now + p.leaseTtl ==> r == Err(Busy))
            && (later >= now + p.leaseTtl ==>
                  var tx := ReserveTx(l', p, id', actor, again, QS.UtcDay(later), later);
                  (r.Ok? <==> tx.Ok?) && (tx.Err? ==> r == Err(tx.error)))
  {
  }
}
