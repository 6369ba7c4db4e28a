/**
 * The quota tables (daily_usage, guest_sessions, quota_reservations) and the
 * transactions that change them. Every function here is one SQL statement or one
 * committed transaction; a transaction whose closure fails yields Err and no new tables.
 */
module QuotaLedger {
  import opened Basics

  datatype ActorType = Guest | User | Unknown
  datatype Actor = Actor(kind: ActorType, id: Id)

  datatype Policy = Policy(
    guestMessages: int, guestTokens: int,
    userMessages: int, userTokens: int,
    globalMessages: int, globalTokens: int,
    concurrent: int, leaseTtl: int)

  datatype Scope = UserScope | GlobalScope
  datatype UsageKey = UsageKey(scope: Scope, id: Id, day: int)
  datatype Usage = Usage(messages: int, tokens: int)
  datatype GuestRow = GuestRow(prompts: int, tokens: int, migrated: bool, expiresAt: int)

  datatype Status = Reserved | Committed | Refunded
  datatype ReservationRow = ReservationRow(
    id: Id, actor: Actor, day: int, reserved: int, actual: Option<int>, status: Status)

  /** What Reserve hands to its caller and Settle takes back. */
  datatype Reservation = Reservation(id: Id, actor: Actor, owner: Id, day: int, reserved: int)

  datatype Error = Invalid | Exceeded | Busy | Database

  datatype Ledger = Ledger(
    daily: map<UsageKey, Usage>, guests: map<Id, GuestRow>, reservations: seq<ReservationRow>)

  const EMPTY: Ledger := Ledger(map[], map[], [])

  // CHECK constraints on guest_sessions
  const GUEST_PROMPT_CEILING: int := 20
  const GUEST_TOKEN_CEILING: int := 10000

  // ---------------------------------------------------------------- statements

  /** INSERT .. ON CONFLICT DO UPDATE .. WHERE: the insert arm checks no limit. */
  function AddDailyUsage(daily: map<UsageKey, Usage>, key: UsageKey, tokens: int,
                         messageLimit: int, tokenLimit: int): Option<map<UsageKey, Usage>>
  {
    if key !in daily then Some(daily[key := Usage(1, tokens)])
    else
      var row := daily[key];
      if row.messages + 1 <= messageLimit && row.tokens + tokens <= tokenLimit
      then Some(daily[key := Usage(row.messages + 1, row.tokens + tokens)])
      else None
  }

  /** UPDATE .. SET output_tokens_used = GREATEST(output_tokens_used + delta, 0). */
  function AdjustDailyOutputUsage(daily: map<UsageKey, Usage>, key: UsageKey, delta: int): map<UsageKey, Usage>
  {
    if key !in daily then daily
    else daily[key := daily[key].(tokens := Max(daily[key].tokens + delta, 0))]
  }

  function IncrementGuestAllowance(guests: map<Id, GuestRow>, id: Id, tokens: int, now: int,
                                   messageLimit: int, tokenLimit: int): Result<map<Id, GuestRow>, Error>
  {
    if id !in guests || guests[id].migrated || guests[id].expiresAt <= now
       || guests[id].prompts >= messageLimit || guests[id].tokens + tokens > tokenLimit
    then Err(Exceeded)
    else if guests[id].prompts + 1 > GUEST_PROMPT_CEILING || guests[id].tokens + tokens > GUEST_TOKEN_CEILING
    then Err(Database)
    else Ok(guests[id := guests[id].(prompts := guests[id].prompts + 1, tokens := guests[id].tokens + tokens)])
  }

  function AdjustGuestOutputUsage(guests: map<Id, GuestRow>, id: Id, delta: int): map<Id, GuestRow>
  {
    if id !in guests then guests
    else guests[id := guests[id].(tokens := Max(guests[id].tokens + delta, 0))]
  }

  function Outstanding(rows: seq<ReservationRow>): nat
  {
    if rows == [] then 0
    else Outstanding(rows[..|rows| - 1]) + if rows[|rows| - 1].status.Reserved? then 1 else 0
  }

  function Find(rows: seq<ReservationRow>, id: Id): (i: Option<nat>)
    ensures i.Some? ==> i.value < |rows| && rows[i.value].id == id
    ensures i.None? ==> forall k :: 0 <= k < |rows| ==> rows[k].id != id
  {
    IndexOf(rows, (row: ReservationRow) => row.id == id)
  }

  // -------------------------------------------------------------- transactions

  function GlobalKey(day: int): UsageKey { UsageKey(GlobalScope, NIL, day) }

  function ChargeActor(l: Ledger, p: Policy, actor: Actor, tokens: int, day: int, now: int): Result<Ledger, Error>
  {
    if actor.kind.Guest? then
      match IncrementGuestAllowance(l.guests, actor.id, tokens, now, Int32(p.guestMessages), Int32(p.guestTokens))
      case Err(e) => Err(e)
      case Ok(guests) => Ok(l.(guests := guests))
    else
      match AddDailyUsage(l.daily, UsageKey(UserScope, actor.id, day), tokens, Int32(p.userMessages), p.userTokens)
      case None => Err(Exceeded)
      case Some(daily) => Ok(l.(daily := daily))
  }

  function ChargeGlobal(l: Ledger, p: Policy, tokens: int, day: int): Result<Ledger, Error>
  {
    match AddDailyUsage(l.daily, GlobalKey(day), tokens, Int32(p.globalMessages), p.globalTokens)
    case None => Err(Exceeded)
    case Some(daily) => Ok(l.(daily := daily))
  }

  function InsertReservation(l: Ledger, id: Id, actor: Actor, tokens: int, day: int): Result<Ledger, Error>
  {
    if Find(l.reservations, id).Some? then Err(Database)
    else Ok(l.(reservations := l.reservations + [ReservationRow(id, actor, day, tokens, None, Reserved)]))
  }

  /** The transaction inside Reserve. */
  function ReserveTx(l: Ledger, p: Policy, id: Id, actor: Actor, tokens: int, day: int, now: int): Result<Ledger, Error>
  {
    if Outstanding(l.reservations) >= p.concurrent then Err(Busy)
    else
      match ChargeActor(l, p, actor, tokens, day, now)
      case Err(e) => Err(e)
      case Ok(l1) =>
        match ChargeGlobal(l1, p, tokens, day)
        case Err(e) => Err(e)
        case Ok(l2) => InsertReservation(l2, id, actor, tokens, day)
  }

  function RefundActor(l: Ledger, row: ReservationRow, refund: int): Ledger
  {
    if row.actor.kind.Guest? then l.(guests := AdjustGuestOutputUsage(l.guests, row.actor.id, -refund))
    else l.(daily := AdjustDailyOutputUsage(l.daily, UsageKey(UserScope, row.actor.id, row.day), -refund))
  }

  function RefundGlobal(l: Ledger, row: ReservationRow, refund: int): Ledger
  {
    l.(daily := AdjustDailyOutputUsage(l.daily, GlobalKey(row.day), -refund))
  }

  function SettledRow(row: ReservationRow, actual: int): ReservationRow
  {
    row.(actual := Some(actual), status := if actual == 0 then Refunded else Committed)
  }

  /** The transaction inside Settle; the day refunded is the one stored in the row. */
  function SettleTx(l: Ledger, r: Reservation, actual: int): Result<Ledger, Error>
  {
    match Find(l.reservations, r.id)
    case None => Err(Invalid)
    case Some(i) =>
      var row := l.reservations[i];
      if !row.status.Reserved? then Ok(l)
      else if row.actor != r.actor || row.reserved != r.reserved then Err(Invalid)
      else
        var refund := row.reserved - actual;
        var l1 := if refund > 0 then RefundGlobal(RefundActor(l, row, refund), row, refund) else l;
        Ok(l1.(reservations := l.reservations[i := SettledRow(row, actual)]))
  }

  /** Settle as a whole, without the lease: the amount is checked first. */
  function Settle(l: Ledger, r: Reservation, actual: int): Result<Ledger, Error>
  {
    if actual < 0 || actual > r.reserved then Err(Invalid) else SettleTx(l, r, actual)
  }

  /** The tables after a Settle whose error, if any, the caller ignores. */
  function AfterSettle(l: Ledger, r: Reservation, actual: int): Ledger
  {
    match Settle(l, r, actual)
    case Ok(l') => l'
    case Err(_) => l
  }

  // ------------------------------------------------------- what a bucket holds

  /** A counter that reservations charge: a day's row, or a guest's lifetime allowance. */
  datatype Bucket = Daily(key: UsageKey) | GuestAllowance(id: Id)

  function ActorBucket(actor: Actor, day: int): Bucket
  {
    if actor.kind.Guest? then GuestAllowance(actor.id) else Daily(UsageKey(UserScope, actor.id, day))
  }

  predicate Charges(row: ReservationRow, b: Bucket)
  {
    b == ActorBucket(row.actor, row.day) || b == Daily(GlobalKey(row.day))
  }

  /** Reserved tokens while outstanding, actual tokens once settled. */
  function Cost(row: ReservationRow): int
  {
    if row.status.Reserved? || row.actual.None? then row.reserved else row.actual.value
  }

  function Owed(rows: seq<ReservationRow>, b: Bucket): int
  {
    if rows == [] then 0
    else Owed(rows[..|rows| - 1], b) + if Charges(rows[|rows| - 1], b) then Cost(rows[|rows| - 1]) else 0
  }

  function Charged(rows: seq<ReservationRow>, b: Bucket): nat
  {
    if rows == [] then 0
    else Charged(rows[..|rows| - 1], b) + if Charges(rows[|rows| - 1], b) then 1 else 0
  }

  function Tokens(l: Ledger, b: Bucket): int
  {
    match b
    case Daily(key) => if key in l.daily then l.daily[key].tokens else 0
    case GuestAllowance(id) => if id in l.guests then l.guests[id].tokens else 0
  }

  function Messages(l: Ledger, b: Bucket): int
  {
    match b
    case Daily(key) => if key in l.daily then l.daily[key].messages else 0
    case GuestAllowance(id) => if id in l.guests then l.guests[id].prompts else 0
  }

  predicate RowOk(l: Ledger, row: ReservationRow)
  {
    && row.reserved > 0
    && 0 <= Cost(row) <= row.reserved
    && (row.status.Reserved? <==> row.actual.None?)
    && !row.actor.kind.Unknown?
    && (row.actor.kind.Guest? ==> row.actor.id in l.guests)
  }

  /** Every counter is the sum over the reservations that charged it. */
  ghost predicate Balanced(l: Ledger)
  {
    forall b: Bucket ::
      Tokens(l, b) == Owed(l.reservations, b) && Messages(l, b) == Charged(l.reservations, b)
  }

  ghost predicate Conserved(l: Ledger)
  {
    && (forall i, j :: 0 <= i < j < |l.reservations| ==> l.reservations[i].id != l.reservations[j].id)
    && (forall i :: 0 <= i < |l.reservations| ==> RowOk(l, l.reservations[i]))
    && Balanced(l)
  }

  // ------------------------------------------------------------------ sums

  lemma {:induction false} UpdateSums(rows: seq<ReservationRow>, i: nat, row: ReservationRow, b: Bucket)
    requires i < |rows|
    requires row.actor == rows[i].actor && row.day == rows[i].day
    ensures Owed(rows[i := row], b) == Owed(rows, b) + if Charges(row, b) then Cost(row) - Cost(rows[i]) else 0
    ensures Charged(rows[i := row], b) == Charged(rows, b)
  {
    var n := |rows| - 1;
    if i == n {
      assert rows[i := row][..n] == rows[..n];
    } else {
      UpdateSums(rows[..n], i, row, b);
      assert rows[i := row][..n] == rows[..n][i := row];
    }
  }

  /** A bucket owes at least the cost of any one reservation that charged it. */
  lemma {:induction false} OwedAtLeast(rows: seq<ReservationRow>, i: nat, b: Bucket)
    requires i < |rows| && Charges(rows[i], b)
    requires forall k :: 0 <= k < |rows| ==> Cost(rows[k]) >= 0
    ensures Owed(rows, b) >= Cost(rows[i])
    decreases |rows|
  {
    var n := |rows| - 1;
    if i == n {
      OwedNonNegative(rows[..n], b);
    } else {
      OwedAtLeast(rows[..n], i, b);
    }
  }

  lemma {:induction false} OwedNonNegative(rows: seq<ReservationRow>, b: Bucket)
    requires forall k :: 0 <= k < |rows| ==> Cost(rows[k]) >= 0
    ensures Owed(rows, b) >= 0
  {
    if rows == [] {
    } else {
      OwedNonNegative(rows[..|rows| - 1], b);
    }
  }

  // ---------------------------------------------------------- conservation

  /** What a successful Reserve transaction does to every counter. */
  lemma ReserveCharges(l: Ledger, p: Policy, id: Id, actor: Actor, tokens: int, day: int, now: int, b: Bucket)
    requires ReserveTx(l, p, id, actor, tokens, day, now).Ok?
    requires !actor.kind.Unknown?
    ensures var l' := ReserveTx(l, p, id, actor, tokens, day, now).value;
            var row := ReservationRow(id, actor, day, tokens, None, Reserved);
            && l'.reservations == l.reservations + [row]
            && Tokens(l', b) == Tokens(l, b) + (if Charges(row, b) then tokens else 0)
            && Messages(l', b) == Messages(l, b) + (if Charges(row, b) then 1 else 0)
  {
  }

  lemma ReserveBalances(l: Ledger, p: Policy, id: Id, actor: Actor, tokens: int, day: int, now: int)
    requires Balanced(l) && !actor.kind.Unknown?
    requires ReserveTx(l, p, id, actor, tokens, day, now).Ok?
    ensures Balanced(ReserveTx(l, p, id, actor, tokens, day, now).value)
  {
    var l' := ReserveTx(l, p, id, actor, tokens, day, now).value;
    var row := ReservationRow(id, actor, day, tokens, None, Reserved);
    forall b: Bucket
      ensures Tokens(l', b) == Owed(l'.reservations, b) && Messages(l', b) == Charged(l'.reservations, b)
    {
      ReserveCharges(l, p, id, actor, tokens, day, now, b);
      assert (l.reservations + [row])[..|l.reservations|] == l.reservations;
    }
  }

  lemma ReserveKeepsRows(l: Ledger, p: Policy, id: Id, actor: Actor, tokens: int, day: int, now: int)
    requires forall i :: 0 <= i < |l.reservations| ==> RowOk(l, l.reservations[i])
    requires !actor.kind.Unknown? && tokens > 0 && ReserveTx(l, p, id, actor, tokens, day, now).Ok?
    ensures var l' := ReserveTx(l, p, id, actor, tokens, day, now).value;
            forall i :: 0 <= i < |l'.reservations| ==> RowOk(l', l'.reservations[i])
  {
    var l' := ReserveTx(l, p, id, actor, tokens, day, now).value;
    forall i | 0 <= i < |l'.reservations| ensures RowOk(l', l'.reservations[i]) {
      assert i < |l.reservations| ==> RowOk(l, l.reservations[i]);
    }
  }

  lemma ReserveConserves(l: Ledger, p: Policy, id: Id, actor: Actor, tokens: int, day: int, now: int)
    requires Conserved(l)
    requires !actor.kind.Unknown? && tokens > 0
    requires ReserveTx(l, p, id, actor, tokens, day, now).Ok?
    ensures Conserved(ReserveTx(l, p, id, actor, tokens, day, now).value)
  {
    ReserveBalances(l, p, id, actor, tokens, day, now);
    ReserveKeepsRows(l, p, id, actor, tokens, day, now);
    ReserveCharges(l, p, id, actor, tokens, day, now, Daily(GlobalKey(day)));
  }

  /** The refund GREATEST(.., 0) protects against a negative counter, but it never has to. */
  lemma ClampNeverBites(l: Ledger, i: nat, actual: int, b: Bucket)
    requires Conserved(l)
    requires i < |l.reservations| && l.reservations[i].status.Reserved? && Charges(l.reservations[i], b)
    requires 0 <= actual <= l.reservations[i].reserved
    ensures Tokens(l, b) - (l.reservations[i].reserved - actual) >= actual
  {
    forall k | 0 <= k < |l.reservations| ensures Cost(l.reservations[k]) >= 0 {
      assert RowOk(l, l.reservations[k]);
    }
    OwedAtLeast(l.reservations, i, b);
    assert Tokens(l, b) == Owed(l.reservations, b);
  }

  /** A settlement moves exactly the two counters its reservation charged, by exactly the unused tokens. */
  lemma SettleRefunds(l: Ledger, r: Reservation, actual: int, i: nat, b: Bucket)
    requires Conserved(l)
    requires Find(l.reservations, r.id) == Some(i)
    requires l.reservations[i].status.Reserved?
    requires l.reservations[i].actor == r.actor && l.reservations[i].reserved == r.reserved
    requires 0 <= actual <= r.reserved
    ensures SettleTx(l, r, actual).Ok?
    ensures var l' := SettleTx(l, r, actual).value;
            && Tokens(l', b) == Tokens(l, b) - (if Charges(l.reservations[i], b) then r.reserved - actual else 0)
            && Messages(l', b) == Messages(l, b)
            && l'.guests.Keys == l.guests.Keys
  {
    var row := l.reservations[i];
    assert RowOk(l, row);
    ClampNeverBites(l, i, actual, ActorBucket(row.actor, row.day));
    ClampNeverBites(l, i, actual, Daily(GlobalKey(row.day)));
    OwedPositiveMeansPresent(l, i);
  }

  /** The rows a reservation charged are there to be refunded. */
  lemma OwedPositiveMeansPresent(l: Ledger, i: nat)
    requires Conserved(l)
    requires i < |l.reservations| && l.reservations[i].status.Reserved?
    ensures forall b :: Charges(l.reservations[i], b) ==> Tokens(l, b) > 0
  {
    forall b | Charges(l.reservations[i], b) ensures Tokens(l, b) > 0 {
      assert RowOk(l, l.reservations[i]);
      ClampNeverBites(l, i, l.reservations[i].reserved, b);
    }
  }

  lemma SettleConserves(l: Ledger, r: Reservation, actual: int)
    requires Conserved(l)
    requires 0 <= actual <= r.reserved
    requires SettleTx(l, r, actual).Ok?
    ensures Conserved(SettleTx(l, r, actual).value)
  {
    var l' := SettleTx(l, r, actual).value;
    var i := Find(l.reservations, r.id).value;
    var row := l.reservations[i];
    if row.status.Reserved? {
      assert RowOk(l, row);
      forall b: Bucket
        ensures Tokens(l', b) == Owed(l'.reservations, b) && Messages(l', b) == Charged(l'.reservations, b)
      {
        SettleRefunds(l, r, actual, i, b);
        UpdateSums(l.reservations, i, SettledRow(row, actual), b);
      }
      forall k | 0 <= k < |l'.reservations| ensures RowOk(l', l'.reservations[k]) {
        assert RowOk(l, l.reservations[k]);
        SettleRefunds(l, r, actual, i, Daily(GlobalKey(0)));
      }
    }
  }

  // ------------------------------------------------------------- round trips

  /**
   * A reservation settled with `actual` tokens costs every counter it charged exactly those tokens
   * and one message, whatever was reserved; settled with zero it leaves every token counter as it was.
   */
  lemma ReserveThenSettle(l: Ledger, p: Policy, id: Id, actor: Actor, tokens: int, day: int, now: int,
                          owner: Id, actual: int)
    requires Conserved(l)
    requires !actor.kind.Unknown? && 0 <= actual <= tokens && tokens > 0
    requires ReserveTx(l, p, id, actor, tokens, day, now).Ok?
    ensures var l1 := ReserveTx(l, p, id, actor, tokens, day, now).value;
            var settled := Settle(l1, Reservation(id, actor, owner, day, tokens), actual);
            && Find(l1.reservations, id) == Some(|l.reservations|)
            && Outstanding(l1.reservations) == Outstanding(l.reservations) + 1
            && settled.Ok? && Conserved(settled.value)
            && Outstanding(settled.value.reservations) == Outstanding(l.reservations)
            && forall b ::
                 var hit := b == ActorBucket(actor, day) || b == Daily(GlobalKey(day));
                 && Tokens(settled.value, b) == Tokens(l, b) + (if hit then actual else 0)
                 && Messages(settled.value, b) == Messages(l, b) + (if hit then 1 else 0)
  {
    var row := ReservationRow(id, actor, day, tokens, None, Reserved);
    var l1 := ReserveTx(l, p, id, actor, tokens, day, now).value;
    var r := Reservation(id, actor, owner, day, tokens);
    ReserveConserves(l, p, id, actor, tokens, day, now);
    ReserveCharges(l, p, id, actor, tokens, day, now, Daily(GlobalKey(day)));
    var n := |l.reservations|;
    assert Find(l1.reservations, id) == Some(n);
    assert l1.reservations[..n] == l.reservations;
    SettleRefunds(l1, r, actual, n, Daily(GlobalKey(day)));
    SettleConserves(l1, r, actual);
    var l2 := SettleTx(l1, r, actual).value;
    assert l1.reservations[n := SettledRow(row, actual)][..n] == l.reservations;
    forall b ensures Tokens(l2, b) == Tokens(l, b) + (if Charges(row, b) then actual else 0)
                  && Messages(l2, b) == Messages(l, b) + (if Charges(row, b) then 1 else 0)
    {
      ReserveCharges(l, p, id, actor, tokens, day, now, b);
      SettleRefunds(l1, r, actual, n, b);
    }
  }

  /** The budget a bucket still has room for; a daily row that does not exist yet admits anything. */
  predicate Admits(l: Ledger, b: Bucket, tokens: int, messageLimit: int, tokenLimit: int)
  {
    (b.Daily? && b.key !in l.daily) || (Messages(l, b) + 1 <= messageLimit && Tokens(l, b) + tokens <= tokenLimit)
  }

  /** A guest row the allowance statement accepts at all. */
  predicate GuestUsable(l: Ledger, id: Id, now: int)
  {
    id in l.guests && !l.guests[id].migrated && now < l.guests[id].expiresAt
  }

  /**
   * Exactly when a Reserve transaction for a user succeeds: below the concurrency limit, both
   * buckets admit the charge, and the id is new. Then one more reservation is outstanding, within
   * the limit.
   */
  lemma UserReserveSucceedsIff(l: Ledger, p: Policy, id: Id, actor: Actor, tokens: int, day: int, now: int)
    requires actor.kind.User?
    ensures var r := ReserveTx(l, p, id, actor, tokens, day, now);
            && (r.Ok? <==>
                  && Outstanding(l.reservations) < p.concurrent
                  && Admits(l, ActorBucket(actor, day), tokens, Int32(p.userMessages), p.userTokens)
                  && Admits(l, Daily(GlobalKey(day)), tokens, Int32(p.globalMessages), p.globalTokens)
                  && forall k :: 0 <= k < |l.reservations| ==> l.reservations[k].id != id)
            && (r.Ok? ==> Outstanding(r.value.reservations) == Outstanding(l.reservations) + 1 <= p.concurrent)
  {
    ReserveAppends(l, p, id, actor, tokens, day, now);
  }

  /** The same for a guest, whose row must be live and whose counters also have fixed ceilings. */
  lemma GuestReserveSucceedsIff(l: Ledger, p: Policy, id: Id, actor: Actor, tokens: int, day: int, now: int)
    requires actor.kind.Guest?
    ensures var r := ReserveTx(l, p, id, actor, tokens, day, now);
            && (r.Ok? <==>
                  && Outstanding(l.reservations) < p.concurrent
                  && GuestUsable(l, actor.id, now)
                  && Admits(l, GuestAllowance(actor.id), tokens,
                            Min(Int32(p.guestMessages), GUEST_PROMPT_CEILING),
                            Min(Int32(p.guestTokens), GUEST_TOKEN_CEILING))
                  && Admits(l, Daily(GlobalKey(day)), tokens, Int32(p.globalMessages), p.globalTokens)
                  && forall k :: 0 <= k < |l.reservations| ==> l.reservations[k].id != id)
            && (r.Ok? ==> Outstanding(r.value.reservations) == Outstanding(l.reservations) + 1 <= p.concurrent)
  {
    ReserveAppends(l, p, id, actor, tokens, day, now);
  }

  lemma ReserveAppends(l: Ledger, p: Policy, id: Id, actor: Actor, tokens: int, day: int, now: int)
    ensures var r := ReserveTx(l, p, id, actor, tokens, day, now);
            r.Ok? ==> Outstanding(r.value.reservations) == Outstanding(l.reservations) + 1
  {
    var row := ReservationRow(id, actor, day, tokens, None, Reserved);
    assert (l.reservations + [row])[..|l.reservations|] == l.reservations;
  }

  /** What a settlement records: the amount, refunded exactly for zero, and no other row. */
  lemma SettleRecords(l: Ledger, r: Reservation, actual: int, i: nat)
    requires Find(l.reservations, r.id) == Some(i) && l.reservations[i].status.Reserved?
    requires Settle(l, r, actual).Ok?
    ensures var rows := Settle(l, r, actual).value.reservations;
            && |rows| == |l.reservations|
            && rows[i].actual == Some(actual) && rows[i].id == r.id && rows[i].actor == r.actor
            && rows[i].reserved == r.reserved && rows[i].day == l.reservations[i].day
            && (rows[i].status.Refunded? <==> actual == 0) && (rows[i].status.Committed? <==> actual > 0)
            && forall k :: 0 <= k < |rows| && k != i ==> rows[k] == l.reservations[k]
  {
  }

  /** A second settlement of the same reservation, with any amount, changes nothing. */
  lemma SettleIsIdempotent(l: Ledger, r: Reservation, first: int, second: int)
    requires Settle(l, r, first).Ok?
    ensures var l' := Settle(l, r, first).value;
            Settle(l', r, second) == if 0 <= second <= r.reserved then Ok(l') else Err(Invalid)
  {
    var l' := Settle(l, r, first).value;
    var i := Find(l.reservations, r.id).value;
    FindAfterUpdate(l.reservations, i, l'.reservations[i], r.id);
  }

  lemma {:induction false} FindAfterUpdate(rows: seq<ReservationRow>, i: nat, row: ReservationRow, id: Id)
    requires Find(rows, id) == Some(i) && row.id == id
    ensures Find(rows[i := row], id) == Some(i)
  {
    var n := |rows| - 1;
    if i == n {
    } else {
      assert rows[i := row][..n] == rows[..n][i := row];
      FindAfterUpdate(rows[..n], i, row, id);
    }
  }
}
