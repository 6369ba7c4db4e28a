/**
 * The quota service as the program runs it: tables and leases updated statement by statement,
 * a failing transaction rolled back, and the lease given back by a deferred flag.
 */
module QuotaService {
  import opened Basics
  import opened QuotaLedger
  import opened QuotaRuns
  import opened Leases

  const SECONDS_PER_DAY: int := 86400

  function UtcDay(now: int): int { now / SECONDS_PER_DAY }

  /** Tables, leases and answer after one whole Reserve call. */
  function ReserveOutcome(l: Ledger, leases: LeaseStore, p: Policy, actor: Actor, tokens: int,
                          now: int, withinRate: bool, id: Id, owner: Id)
    : (Ledger, LeaseStore, Result<Reservation, Error>)
  {
    if actor.kind.Unknown? || actor.id == NIL || tokens <= 0 then (l, leases, Err(Invalid))
    else if !withinRate then (l, leases, Err(Exceeded))
    else if p.leaseTtl <= 0 then (l, leases, Err(Database))
    else
      match AcquireLease(leases, actor.id, owner, now, p.leaseTtl)
      case None => (l, leases, Err(Busy))
      case Some(held) =>
        match ReserveTx(l, p, id, actor, tokens, UtcDay(now), now)
        case Err(e) => (l, ReleaseLease(held, actor.id, owner, now), Err(e))
        case Ok(l') => (l', held, Ok(Reservation(id, actor, owner, UtcDay(now), tokens)))
  }

  /** A refused Reserve leaves the tables alone and holds no lease; a granted one holds exactly its own. */
  lemma ReserveIsAllOrNothing(l: Ledger, leases: LeaseStore, p: Policy, actor: Actor, tokens: int,
                              now: int, withinRate: bool, id: Id, owner: Id)
    requires forall a :: a in leases ==> leases[a].owner != owner
    ensures var (l', leases', r) := ReserveOutcome(l, leases, p, actor, tokens, now, withinRate, id, owner);
            && (r.Err? ==> l' == l && forall a :: Live(leases', a, now) <==> Live(leases, a, now))
            && (r.Err? ==> forall a :: Live(leases', a, now) ==> leases'[a] == leases[a])
            && (r.Ok? ==> Live(leases', actor.id, now) && leases'[actor.id].owner == owner
                          && !Live(leases, actor.id, now)
                          && forall a :: a != actor.id ==> (Live(leases', a, now) <==> Live(leases, a, now)))
  {
  }

  class Service {
    var daily: map<UsageKey, Usage>
    var guests: map<Id, GuestRow>
    var reservations: seq<ReservationRow>
    var leases: LeaseStore

    ghost function View(): Ledger reads this { Ledger(daily, guests, reservations) }

    constructor ()
      ensures View() == EMPTY && leases == map[]
    {
      daily, guests, reservations, leases := map[], map[], [], map[];
    }

    method ChargeUsage(key: UsageKey, tokens: int, messageLimit: int, tokenLimit: int) returns (ok: bool)
      modifies this`daily
      ensures ok <==> AddDailyUsage(old(daily), key, tokens, messageLimit, tokenLimit).Some?
      ensures daily == if ok then AddDailyUsage(old(daily), key, tokens, messageLimit, tokenLimit).value else old(daily)
    {
      if key !in daily {
        daily := daily[key := Usage(1, tokens)];
        return true;
      }
      ok := daily[key].messages + 1 <= messageLimit && daily[key].tokens + tokens <= tokenLimit;
      if ok {
        daily := daily[key := Usage(daily[key].messages + 1, daily[key].tokens + tokens)];
      }
    }

    method Refund(key: UsageKey, tokens: int)
      modifies this`daily
      ensures daily == AdjustDailyOutputUsage(old(daily), key, -tokens)
    {
      if key in daily {
        daily := daily[key := daily[key].(tokens := Max(daily[key].tokens - tokens, 0))];
      }
    }

    /** The closure of the Reserve transaction; on failure its partial writes are still in place. */
    method ReserveTransaction(p: Policy, id: Id, actor: Actor, tokens: int, day: int, now: int)
      returns (failure: Option<Error>)
      modifies this`daily, this`guests, this`reservations
      ensures failure.None? ==> ReserveTx(old(View()), p, id, actor, tokens, day, now) == Ok(View())
      ensures failure.Some? ==> ReserveTx(old(View()), p, id, actor, tokens, day, now) == Err(failure.value)
    {
      if Outstanding(reservations) >= p.concurrent {
        return Some(Busy);
      }
      if actor.kind.Guest? {
        var updated := IncrementGuestAllowance(guests, actor.id, tokens, now,
                                               Int32(p.guestMessages), Int32(p.guestTokens));
        if updated.Err? {
          return Some(updated.error);
        }
        guests := updated.value;
      } else {
        var charged := ChargeUsage(UsageKey(UserScope, actor.id, day), tokens, Int32(p.userMessages), p.userTokens);
        if !charged {
          return Some(Exceeded);
        }
      }
      var charged := ChargeUsage(GlobalKey(day), tokens, Int32(p.globalMessages), p.globalTokens);
      if !charged {
        return Some(Exceeded);
      }
      if Find(reservations, id).Some? {
        return Some(Database);
      }
      reservations := reservations + [ReservationRow(id, actor, day, tokens, None, Reserved)];
      failure := None;
    }

    method Reserve(p: Policy, actor: Actor, tokens: int, now: int, withinRate: bool, id: Id, owner: Id)
      returns (r: Result<Reservation, Error>)
      modifies this
      ensures (View(), leases, r) ==
              ReserveOutcome(old(View()), old(leases), p, actor, tokens, now, withinRate, id, owner)
    {
      if actor.kind.Unknown? || actor.id == NIL || tokens <= 0 {
        return Err(Invalid);
      }
      if !withinRate {
        return Err(Exceeded);
      }
      if p.leaseTtl <= 0 {
        return Err(Database);
      }
      var acquired := AcquireLease(leases, actor.id, owner, now, p.leaseTtl);
      if acquired.None? {
        return Err(Busy);
      }
      leases := acquired.value;
      var release := true;
      var day := UtcDay(now);
      var savedDaily, savedGuests, savedReservations := daily, guests, reservations;
      var failure := ReserveTransaction(p, id, actor, tokens, day, now);
      if failure.Some? {
        daily, guests, reservations := savedDaily, savedGuests, savedReservations;
        r := Err(failure.value);
      } else {
        release := false;
        r := Ok(Reservation(id, actor, owner, day, tokens));
      }
      if release {
        leases := ReleaseLease(leases, actor.id, owner, now);
      }
    }

    method SettleTransaction(r: Reservation, actual: int) returns (failure: Option<Error>)
      modifies this`daily, this`guests, this`reservations
      ensures failure.None? ==> SettleTx(old(View()), r, actual) == Ok(View())
      ensures failure.Some? ==> SettleTx(old(View()), r, actual) == Err(failure.value)
    {
      var found := Find(reservations, r.id);
      if found.None? {
        return Some(Invalid);
      }
      var row := reservations[found.value];
      if !row.status.Reserved? {
        return None;
      }
      if row.actor != r.actor || row.reserved != r.reserved {
        return Some(Invalid);
      }
      var refund := row.reserved - actual;
      if refund > 0 {
        if r.actor.kind.Guest? {
          guests := AdjustGuestOutputUsage(guests, r.actor.id, -refund);
        } else {
          Refund(UsageKey(UserScope, r.actor.id, row.day), refund);
        }
        Refund(GlobalKey(row.day), refund);
      }
      reservations := reservations[found.value := SettledRow(row, actual)];
      failure := None;
    }

    method SettleWithinTransaction(r: Reservation, actual: int) returns (result: Result<(), Error>)
      modifies this`daily, this`guests, this`reservations
      ensures QuotaLedger.Settle(old(View()), r, actual) ==
              (match result case Ok(_) => Ok(View()) case Err(e) => Err(e))
      ensures result.Err? ==> View() == old(View())
    {
      if actual < 0 || actual > r.reserved {
        return Err(Invalid);
      }
      var savedDaily, savedGuests, savedReservations := daily, guests, reservations;
      var failure := SettleTransaction(r, actual);
      if failure.Some? {
        daily, guests, reservations := savedDaily, savedGuests, savedReservations;
        return Err(failure.value);
      }
      result := Ok(());
    }

    /** The deferred release runs last, whatever became of the transaction. */
    method Settle(r: Reservation, actual: int, now: int) returns (result: Result<(), Error>)
      modifies this
      ensures QuotaLedger.Settle(old(View()), r, actual) ==
              (match result case Ok(_) => Ok(View()) case Err(e) => Err(e))
      ensures result.Err? ==> View() == old(View())
      ensures leases == ReleaseLease(old(leases), r.actor.id, r.owner, now)
    {
      result := SettleWithinTransaction(r, actual);
      leases := ReleaseLease(leases, r.actor.id, r.owner, now);
    }

    method MaxOutputTokens(p: Policy, actor: Actor, modelLimit: int, now: int) returns (r: Result<int, Error>)
      ensures r == QuotaRuns.MaxOutputTokens(View(), p, actor, modelLimit, UtcDay(now))
    {
      if modelLimit <= 0 || actor.id == NIL || actor.kind.Unknown? {
        return Err(Invalid);
      }
      var actorUsed, actorLimit := 0, p.userTokens;
      var key := UsageKey(UserScope, actor.id, UtcDay(now));
      if actor.kind.Guest? {
        if actor.id !in guests {
          return Err(Database);
        }
        actorUsed, actorLimit := guests[actor.id].tokens, p.guestTokens;
      } else if key in daily {
        actorUsed := daily[key].tokens;
      }
      var globalUsed := if GlobalKey(UtcDay(now)) in daily then daily[GlobalKey(UtcDay(now))].tokens else 0;
      r := LeastBudget(modelLimit, [actorLimit - actorUsed, p.globalTokens - globalUsed]);
    }
  }

  /** availableOutputTokens: one pass keeping the smallest budget seen so far. */
  method LeastBudget(modelLimit: int, remaining: seq<int>) returns (r: Result<int, Error>)
    ensures r == AvailableOutputTokens(modelLimit, remaining)
  {
    var available := modelLimit;
    for i := 0 to |remaining|
      invariant available == Smallest(modelLimit, remaining[..i])
    {
      assert remaining[..i + 1][..i] == remaining[..i];
      if remaining[i] < available {
        available := remaining[i];
      }
    }
    assert remaining[..|remaining|] == remaining;
    if available <= 0 {
      return Err(Exceeded);
    }
    r := Ok(available);
  }
}
