/**
 The persistent token ledger and the retry loop of the provider clients that share it.
 */
module TokenLedger {
  import opened Wrappers

  datatype Account = Account(limit: int, used: int, reserved: int)
  {
    function Remaining(): int { limit - used - reserved }

    /** Nothing is negative and what is used or reserved stays within the limit. */
    predicate Sound() { used >= 0 && reserved >= 0 && Remaining() >= 0 && limit > 0 }
  }

  datatype LedgerError =
    | InvalidAmount
    | BudgetExhausted
    | SettlementExceedsReservation
    | ReleaseExceedsReservation
    | DifferentLimit
    | ExceedsHardLimit
    | LimitLowered

  // ---------------------------------------------------------------- the operations

  function Reserved(a: Account, amount: int): Result<Account, LedgerError> {
    if amount < 0 then Failure(InvalidAmount)
    else if amount > a.Remaining() then Failure(BudgetExhausted)
    else Success(a.(reserved := a.reserved + amount))
  }

  function Settled(a: Account, reserved: int, actual: int): Result<Account, LedgerError> {
    if reserved < 0 || actual < 0 || actual > reserved then Failure(InvalidAmount)
    else if reserved > a.reserved then Failure(SettlementExceedsReservation)
    else Success(a.(reserved := a.reserved - reserved, used := a.used + actual))
  }

  function Released(a: Account, reserved: int): Result<Account, LedgerError> {
    if reserved < 0 then Failure(InvalidAmount)
    else if reserved > a.reserved then Failure(ReleaseExceedsReservation)
    else Success(a.(reserved := a.reserved - reserved))
  }

  /** Opening a ledger file, or starting one. */
  function Opened(file: Option<Account>, limit: int): Result<Account, LedgerError> {
    if limit <= 0 then Failure(InvalidAmount)
    else if file.None? then Success(Account(limit, 0, 0))
    else if file.value.limit != limit then Failure(DifferentLimit)
    else if file.value.Remaining() < 0 then Failure(ExceedsHardLimit)
    else Success(file.value)
  }

  /** Raising the limit of a file: it is opened with its own limit first. */
  function Raised(a: Account, limit: int): Result<Account, LedgerError> {
    if Opened(Some(a), a.limit).Failure? then Failure(Opened(Some(a), a.limit).error)
    else if limit < a.limit then Failure(LimitLowered)
    else if limit < a.used + a.reserved then Failure(ExceedsHardLimit)
    else Success(a.(limit := limit))
  }

  /** A reservation succeeds exactly while used, reserved and the new amount fit below the limit.
      Releasing it brings the account back, and settling it exactly for an amount between zero
      and the reservation adds that amount to what is used. */
  lemma ReserveThenSettle(a: Account, amount: int, actual: int)
    ensures Reserved(a, amount).Success? <==> amount >= 0 && a.used + a.reserved + amount <= a.limit
    ensures Reserved(a, amount).Success? && a.reserved >= 0 ==>
              && Reserved(a, amount).value.used == a.used && Reserved(a, amount).value.limit == a.limit
              && Released(Reserved(a, amount).value, amount) == Success(a)
              && (0 <= actual <= amount ==>
                    Settled(Reserved(a, amount).value, amount, actual) == Success(a.(used := a.used + actual)))
              && (!(0 <= actual <= amount) ==>
                    Settled(Reserved(a, amount).value, amount, actual) == Failure(InvalidAmount))
    ensures amount > a.reserved && amount >= 0 ==>
              && Released(a, amount) == Failure(ReleaseExceedsReservation)
              && (0 <= actual <= amount ==> Settled(a, amount, actual) == Failure(SettlementExceedsReservation))
  {
  }

  /** A raised file opens with the new limit and nothing else changed.  A file can be raised
      exactly to a limit that is no lower, if it is within its own, and opens with no other. */
  lemma RaiseThenOpen(a: Account, limit: int, other: int)
    ensures Raised(a, limit).Success? <==> 0 < a.limit <= limit && a.used + a.reserved <= a.limit
    ensures Raised(a, limit).Success? ==>
              (Opened(Some(Raised(a, limit).value), other) ==
               if other == limit then Success(Account(limit, a.used, a.reserved))
               else Failure(if other <= 0 then InvalidAmount else DifferentLimit))
    ensures other > 0 ==> Opened(None, other) == Success(Account(other, 0, 0))
  {
  }

  /** The ledger object; file is what lies on disk, which another program may have changed
      since the last write. */
  class Ledger {
    var limit: int
    var used: int
    var reserved: int
    var file: Option<Account>

    function Now(): Account
      reads this
    {
      Account(limit, used, reserved)
    }

    /** Opens the file, or starts a new one; on failure the object is of no use. */
    constructor (file: Option<Account>, limit: int)
      ensures Opened(file, limit).Success? ==>
                && Now() == Opened(file, limit).value
                && this.file == if file.Some? then file else Some(Now())
    {
      this.limit := limit;
      used := if file.Some? then file.value.used else 0;
      reserved := if file.Some? then file.value.reserved else 0;
      this.file := if file.Some? then file else Some(Account(limit, 0, 0));
    }

    method Persist()
      modifies this`file
      ensures file == Some(Now())
    {
      file := Some(Now());
    }

    method Reserve(amount: int) returns (r: Result<(), LedgerError>)
      modifies this
      ensures match Reserved(old(Now()), amount)
              case Success(a) => r == Success(()) && Now() == a
              case Failure(e) => r == Failure(e) && Now() == old(Now())
      ensures file == if amount < 0 then old(file) else Some(Now())
    {
      if amount < 0 { return Failure(InvalidAmount); }
      if amount > limit - used - reserved {
        Persist();
        return Failure(BudgetExhausted);
      }
      reserved := reserved + amount;
      Persist();
      r := Success(());
    }

    method Settle(amount: int, actual: int) returns (r: Result<(), LedgerError>)
      modifies this
      ensures match Settled(old(Now()), amount, actual)
              case Success(a) => r == Success(()) && Now() == a && file == Some(a)
              case Failure(e) => r == Failure(e) && Now() == old(Now()) && file == old(file)
    {
      if amount < 0 || actual < 0 || actual > amount { return Failure(InvalidAmount); }
      if amount > reserved { return Failure(SettlementExceedsReservation); }
      reserved := reserved - amount;
      used := used + actual;
      Persist();
      r := Success(());
    }

    method Release(amount: int) returns (r: Result<(), LedgerError>)
      modifies this
      ensures match Released(old(Now()), amount)
              case Success(a) => r == Success(()) && Now() == a && file == Some(a)
              case Failure(e) => r == Failure(e) && Now() == old(Now()) && file == old(file)
    {
      if amount < 0 { return Failure(InvalidAmount); }
      if amount > reserved { return Failure(ReleaseExceedsReservation); }
      reserved := reserved - amount;
      Persist();
      r := Success(());
    }
  }

  // ---------------------------------------------------------------- what a provider answers

  datatype Provider = DeepSeek | OpenAICompatible

  /** The token count in an error body: absent, a number, or something that is no number. */
  datatype Usage = NoUsage | Tokens(count: int) | Malformed

  datatype Reply =
    /** A completion.  readable says whether the rest of it could be processed and logged;
        when it could not, retryable says whether the error looked like a lost connection. */
    | Completion(total: Usage, readable: bool, retryable: bool)
    | Rejection(status: nat, uncharged: bool, usage: Usage)
    | Disconnect(retryable: bool)

  /** The status codes after which the client knows that nothing was charged. */
  predicate KnownUncharged(p: Provider, status: nat, uncharged: bool) {
    match p
    case DeepSeek => status in {401, 402, 403, 429}
    case OpenAICompatible => status in {400, 401, 402, 403, 404, 422, 429} || uncharged
  }

  predicate RetryableStatus(status: nat) { status == 429 || 500 <= status <= 599 }

  predicate RetryableReply(r: Reply) {
    match r
    case Completion(_, _, retryable) => retryable
    case Rejection(status, _, _) => RetryableStatus(status)
    case Disconnect(retryable) => retryable
  }

  function Least(a: int, b: int): int { if a < b then a else b }

  /** The completion is booked before anything can go wrong with it. */
  predicate BooksItself(r: Reply) {
    r.Completion? && (r.total.NoUsage? || (r.total.Tokens? && r.total.count >= 0))
  }

  function BookedTotal(p: Provider, r: Reply, reservation: nat): int
    requires BooksItself(r)
  {
    if r.total.NoUsage? || (p.OpenAICompatible? && r.total.count == 0) then reservation
    else Least(r.total.count, reservation)
  }

  /** What the ledger does with the reservation once the reply is in.  None means that the
      settlement itself raises, and the reservation stays. */
  function Booking(p: Provider, a: Account, reservation: nat, r: Reply): Option<Result<Account, LedgerError>> {
    if BooksItself(r) then Some(Settled(a, reservation, BookedTotal(p, r, reservation)))
    else if r.Rejection? && KnownUncharged(p, r.status, r.uncharged) then Some(Released(a, reservation))
    else if r.Rejection? && p.OpenAICompatible? && !r.usage.NoUsage? then
      if r.usage.Malformed? then None
      else Some(Settled(a, reservation, Least(r.usage.count, reservation)))
    else Some(Settled(a, reservation, reservation))
  }

  /** A rejection whose reported usage cannot be settled. */
  predicate Unsettleable(p: Provider, r: Reply) {
    && p.OpenAICompatible? && r.Rejection?
    && !KnownUncharged(p, r.status, r.uncharged)
    && (r.usage.Malformed? || (r.usage.Tokens? && r.usage.count < 0))
  }

  function ChargeOf(p: Provider, reservation: nat, r: Reply): (charge: nat)
    requires !Unsettleable(p, r)
    ensures charge <= reservation
  {
    if BooksItself(r) then BookedTotal(p, r, reservation)
    else if r.Rejection? && KnownUncharged(p, r.status, r.uncharged) then 0
    else if r.Rejection? && p.OpenAICompatible? && r.usage.Tokens? then Least(r.usage.count, reservation)
    else reservation
  }

  /** Booking a reply fails exactly when it is unsettleable, provided that the reservation is
      outstanding; otherwise it frees the whole reservation and charges at most as much. */
  lemma BookingFailsIff(p: Provider, a: Account, reservation: nat, r: Reply)
    requires a.Sound() && reservation <= a.reserved
    ensures Unsettleable(p, r) <==>
            Booking(p, a, reservation, r).None? || Booking(p, a, reservation, r).value.Failure?
    ensures !Unsettleable(p, r) ==>
              Booking(p, a, reservation, r) ==
              Some(Success(a.(reserved := a.reserved - reservation, used := a.used + ChargeOf(p, reservation, r))))
  {
  }

  /** What a reply costs, client by client: a completion its reported tokens, but never more than
      was reserved, and all of that when it reports none; a rejection nothing when its status or
      its body says so, and otherwise what it reports to the OpenAI-compatible client, or all of
      the reservation; a lost connection all of it. */
  predicate Costs(p: Provider, reservation: nat, r: Reply, n: int) {
    match r
    case Completion(Tokens(count), _, _) =>
      if 0 < count <= reservation then n == count
      else if count == 0 && p == DeepSeek then n == 0
      else n == reservation
    case Completion(_, _, _) => n == reservation
    case Disconnect(_) => n == reservation
    case Rejection(status, uncharged, usage) =>
      if p == DeepSeek then
        n == if status == 401 || status == 402 || status == 403 || status == 429 then 0 else reservation
      else if uncharged || 400 <= status <= 404 || status == 422 || status == 429 then n == 0
      else
        match usage
        case NoUsage => n == reservation
        case Tokens(count) => count >= 0 && n == if count <= reservation then count else reservation
        case Malformed => false
  }

  /** A reply has a cost exactly when it can be settled, and is charged that. */
  lemma ChargeIsCost(p: Provider, reservation: nat, r: Reply, n: int)
    ensures Costs(p, reservation, r, n) <==> !Unsettleable(p, r) && n == ChargeOf(p, reservation, r)
    ensures (exists m :: Costs(p, reservation, r, m)) <==> !Unsettleable(p, r)
  {
    if !Unsettleable(p, r) { assert Costs(p, reservation, r, ChargeOf(p, reservation, r)); }
  }

  /** Such a reply exists: a server error that reports a negative token count keeps the whole
      reservation outstanding for ever. */
  lemma NegativeUsageLeaks(a: Account)
    requires a.Sound() && a.reserved >= 10
    ensures var r := Rejection(500, false, Tokens(-1));
            Unsettleable(OpenAICompatible, r) && Booking(OpenAICompatible, a, 10, r) == Some(Failure(InvalidAmount))
  {
  }

  // ---------------------------------------------------------------- one call

  datatype Outcome =
    | Completed
    | OverBudget
    | PaymentRequired
    | CircuitOpen
    | NotRetryable
    | RetriesExhausted
    | SettlementFailed

  datatype Phase = Ready | InFlight | Finished(outcome: Outcome) | Lost(outstanding: bool)

  datatype Call = Call(provider: Provider, reservation: nat, maxRetries: nat, attempt: nat, charged: int, phase: Phase)

  /** Where a call goes after a reply that could be booked. */
  function AfterBooked(c: Call, r: Reply): Phase {
    if r.Completion? && r.readable && BooksItself(r) then Finished(Completed)
    else if r.Rejection? && r.status == 402 then Finished(PaymentRequired)
    else if r.Rejection? && (r.status == 401 || r.status == 403) then Finished(CircuitOpen)
    else if !Retries(c, r) then Finished(NotRetryable)
    else if c.attempt >= c.maxRetries then Finished(RetriesExhausted)
    else Ready
  }

  /** When a call ends, reply by reply: 402 and 401 or 403 end it at once with their own errors;
      429, a server error, a lost connection, or a completion that was booked and then looked
      like one, end it after the last attempt only; anything else that is not a booked and
      readable completion ends it at once. */
  lemma AfterEachReply(c: Call, status: nat, uncharged: bool, usage: Usage, readable: bool, lost: bool)
    ensures var again := if c.attempt < c.maxRetries then Ready else Finished(RetriesExhausted);
            && AfterBooked(c, Rejection(status, uncharged, usage)) ==
               (if status == 402 then Finished(PaymentRequired)
                else if status == 401 || status == 403 then Finished(CircuitOpen)
                else if status == 429 || 500 <= status < 600 then again
                else Finished(NotRetryable))
            && AfterBooked(c, Disconnect(lost)) == (if lost then again else Finished(NotRetryable))
            && AfterBooked(c, Completion(usage, readable, lost)) ==
               (if usage == Malformed || (usage.Tokens? && usage.count < 0) then Finished(NotRetryable)
                else if readable then Finished(Completed)
                else if lost then again else Finished(NotRetryable))
  {
  }

  /** An amount that could not be booked at once is an error of the client's own. */
  predicate Retries(c: Call, r: Reply) {
    RetryableReply(r) && (r.Completion? ==> BooksItself(r))
  }

  // ---------------------------------------------------------------- many calls at once

  /** The account in memory while a process is up, the account on disk, and every call ever
      started. */
  datatype Traffic = Traffic(memory: Option<Account>, file: Account, calls: seq<Call>)

  datatype Event =
    | Begin(provider: Provider, reservation: nat, maxRetries: nat)
    | Attempt(call: nat)
    | Answer(call: nat, reply: Reply)
    | Crash
    | Open(limit: int)
    | RaiseLimit(newLimit: int)

  predicate Possible(t: Traffic, e: Event) {
    match e
    case Begin(_, _, _) => t.memory.Some?
    case Attempt(k) => t.memory.Some? && k < |t.calls| && t.calls[k].phase == Ready
    case Answer(k, _) => t.memory.Some? && k < |t.calls| && t.calls[k].phase == InFlight
    case Crash => t.memory.Some?
    case Open(_) => t.memory.None?
    case RaiseLimit(_) => true
  }

  /** The account and the call after a reply.  When the booking raises, the call ends there. */
  function Answered(a: Account, c: Call, r: Reply): (Account, Call) {
    match Booking(c.provider, a, c.reservation, r)
    case Some(Success(booked)) =>
      var phase := AfterBooked(c, r);
      (booked, c.(charged := c.charged + (booked.used - a.used), phase := phase,
                  attempt := if phase == Ready then c.attempt + 1 else c.attempt))
    case _ => (a, c.(phase := Finished(SettlementFailed)))
  }

  function Abandoned(c: Call): Call {
    if c.phase.Ready? || c.phase.InFlight? then c.(phase := Lost(c.phase.InFlight?)) else c
  }

  function AllAbandoned(calls: seq<Call>): (r: seq<Call>)
    ensures |r| == |calls| && forall k :: 0 <= k < |r| ==> r[k] == Abandoned(calls[k])
  {
    seq(|calls|, k requires 0 <= k < |calls| => Abandoned(calls[k]))
  }

  /** An event after which the file holds what the process has in memory. */
  predicate Writes(t: Traffic, e: Event)
    requires Possible(t, e)
  {
    match e
    case Attempt(_) => true
    case Answer(k, reply) =>
      var booking := Booking(t.calls[k].provider, t.memory.value, t.calls[k].reservation, reply);
      booking.Some? && booking.value.Success?
    case _ => false
  }

  /** The limit is raised on disk, behind the back of a process that is up. */
  function Next(t: Traffic, e: Event): Traffic
    requires Possible(t, e)
  {
    match e
    case Begin(p, reservation, maxRetries) => t.(calls := t.calls + [Call(p, reservation, maxRetries, 0, 0, Ready)])
    case Attempt(k) =>
      (match Reserved(t.memory.value, t.calls[k].reservation)
       case Success(a) => Traffic(Some(a), a, t.calls[k := t.calls[k].(phase := InFlight)])
       case Failure(_) => Traffic(t.memory, t.memory.value, t.calls[k := t.calls[k].(phase := Finished(OverBudget))]))
    case Answer(k, reply) =>
      var (a, c) := Answered(t.memory.value, t.calls[k], reply);
      Traffic(Some(a), if Writes(t, e) then a else t.file, t.calls[k := c])
    case Crash => Traffic(None, t.file, AllAbandoned(t.calls))
    case Open(limit) =>
      (match Opened(Some(t.file), limit)
       case Success(a) => t.(memory := Some(a))
       case Failure(_) => t)
    case RaiseLimit(newLimit) =>
      (match Raised(t.file, newLimit)
       case Success(a) => t.(file := a)
       case Failure(_) => t)
  }

  /** What the ledger still holds for a call. */
  function Outstanding(c: Call): nat {
    if c.phase == InFlight || c.phase == Lost(true) || c.phase == Finished(SettlementFailed) then c.reservation else 0
  }

  function TotalOutstanding(calls: seq<Call>): nat {
    if calls == [] then 0 else TotalOutstanding(calls[..|calls| - 1]) + Outstanding(calls[|calls| - 1])
  }

  function TotalCharged(calls: seq<Call>): int {
    if calls == [] then 0 else TotalCharged(calls[..|calls| - 1]) + calls[|calls| - 1].charged
  }

  lemma {:induction false} OneCallChanges(calls: seq<Call>, k: nat, c: Call)
    requires k < |calls|
    ensures TotalOutstanding(calls[k := c]) == TotalOutstanding(calls) - Outstanding(calls[k]) + Outstanding(c)
    ensures TotalCharged(calls[k := c]) == TotalCharged(calls) - calls[k].charged + c.charged
  {
    var last := |calls| - 1;
    if k == last {
      assert calls[k := c][..last] == calls[..last];
    } else {
      assert calls[k := c][..last] == calls[..last][k := c];
      OneCallChanges(calls[..last], k, c);
    }
  }

  lemma {:induction false} AbandoningChangesNoTotal(calls: seq<Call>)
    ensures TotalOutstanding(AllAbandoned(calls)) == TotalOutstanding(calls)
    ensures TotalCharged(AllAbandoned(calls)) == TotalCharged(calls)
  {
    if calls != [] {
      var last := |calls| - 1;
      assert AllAbandoned(calls)[..last] == AllAbandoned(calls[..last]);
      AbandoningChangesNoTotal(calls[..last]);
    }
  }

  lemma {:induction false} OneOfTheOutstanding(calls: seq<Call>, k: nat)
    requires k < |calls|
    ensures Outstanding(calls[k]) <= TotalOutstanding(calls)
  {
    if k < |calls| - 1 { OneOfTheOutstanding(calls[..|calls| - 1], k); }
  }

  /** A call is charged at most its reservation for each attempt that was answered. */
  predicate FairlyCharged(c: Call) {
    && c.attempt <= c.maxRetries
    && c.charged <= (c.attempt + if c.phase.Finished? then 1 else 0) * c.reservation
  }

  /** The file is sound and accounts for every call, and so does the memory, whose limit may be
      the older and lower one. */
  predicate Balanced(t: Traffic) {
    && t.file.Sound()
    && t.file.reserved == TotalOutstanding(t.calls)
    && t.file.used == TotalCharged(t.calls)
    && (t.memory.Some? ==>
          && t.memory.value.Sound() && t.memory.value.limit <= t.file.limit
          && t.memory.value.reserved == t.file.reserved && t.memory.value.used == t.file.used)
    && forall k :: 0 <= k < |t.calls| ==> FairlyCharged(t.calls[k])
  }

  lemma AnswerKeepsCharge(a: Account, c: Call, r: Reply)
    requires a.Sound() && c.reservation <= a.reserved && FairlyCharged(c) && c.phase == InFlight
    ensures FairlyCharged(Answered(a, c, r).1)
    ensures Answered(a, c, r).0.Sound()
    ensures Answered(a, c, r).0.reserved == a.reserved - c.reservation + Outstanding(Answered(a, c, r).1)
    ensures Answered(a, c, r).0.used - a.used == Answered(a, c, r).1.charged - c.charged
    ensures Answered(a, c, r).1.phase == Finished(SettlementFailed) <==> Unsettleable(c.provider, r)
  {
    BookingFailsIff(c.provider, a, c.reservation, r);
    assert (c.attempt + 1) * c.reservation == c.attempt * c.reservation + c.reservation;
  }

  lemma AttemptKeepsCharge(c: Call)
    requires FairlyCharged(c) && c.phase == Ready
    ensures FairlyCharged(c.(phase := InFlight)) && FairlyCharged(c.(phase := Finished(OverBudget)))
  {
    assert (c.attempt + 1) * c.reservation == c.attempt * c.reservation + c.reservation;
  }

  lemma AttemptKeepsBalance(t: Traffic, k: nat)
    requires Balanced(t) && Possible(t, Attempt(k))
    ensures Balanced(Next(t, Attempt(k)))
  {
    hide FairlyCharged;
    var c := t.calls[k];
    AttemptKeepsCharge(c);
    OneCallChanges(t.calls, k, c.(phase := InFlight));
    OneCallChanges(t.calls, k, c.(phase := Finished(OverBudget)));
  }

  lemma AnswerKeepsBalance(t: Traffic, k: nat, reply: Reply)
    requires Balanced(t) && Possible(t, Answer(k, reply))
    ensures Balanced(Next(t, Answer(k, reply)))
  {
    OneOfTheOutstanding(t.calls, k);
    AnswerKeepsCharge(t.memory.value, t.calls[k], reply);
    OneCallChanges(t.calls, k, Answered(t.memory.value, t.calls[k], reply).1);
  }

  lemma StepKeepsBalance(t: Traffic, e: Event)
    requires Balanced(t) && Possible(t, e)
    ensures Balanced(Next(t, e))
  {
    match e
    case Begin(p, reservation, maxRetries) =>
      assert Next(t, e).calls[..|t.calls|] == t.calls;
    case Attempt(k) => AttemptKeepsBalance(t, k);
    case Answer(k, reply) => AnswerKeepsBalance(t, k, reply);
    case Crash => AbandoningChangesNoTotal(t.calls);
    case _ =>
  }

  /** Consecutive states. */
  ghost predicate IsPiece(states: seq<Traffic>, events: seq<Event>) {
    && |states| == |events| + 1
    && forall k :: 0 <= k < |events| ==> Possible(states[k], events[k]) && states[k + 1] == Next(states[k], events[k])
  }

  /** A history starts with a process that has just opened a new file. */
  ghost predicate IsHistory(states: seq<Traffic>, events: seq<Event>) {
    && IsPiece(states, events)
    && states[0].file.Sound() && states[0].file.used == states[0].file.reserved == 0
    && states[0].memory == Some(states[0].file) && states[0].calls == []
  }

  lemma {:induction false} PieceBalances(states: seq<Traffic>, events: seq<Event>, k: nat)
    requires IsPiece(states, events) && Balanced(states[0]) && k < |states|
    ensures Balanced(states[k])
    decreases k
  {
    if k > 0 {
      PieceBalances(states, events, k - 1);
      StepKeepsBalance(states[k - 1], events[k - 1]);
    }
  }

  /** For every interleaving of calls, replies, crashes, attempts to open the file with any
      limit, and limits raised on disk: in the file as in memory what is used and what is
      reserved never exceed the limit together, the reserved tokens are exactly those of calls
      in flight, of calls lost in flight and of failed settlements, the used tokens are exactly
      those charged, and no call is charged more than its reservation per attempt. */
  lemma EveryHistoryBalances(states: seq<Traffic>, events: seq<Event>, k: nat)
    requires IsHistory(states, events) && k < |states|
    ensures Balanced(states[k])
    ensures forall i :: 0 <= i < |states[k].calls| ==>
              states[k].calls[i].charged <= (states[k].calls[i].maxRetries + 1) * states[k].calls[i].reservation
  {
    PieceBalances(states, events, k);
    forall i | 0 <= i < |states[k].calls|
      ensures states[k].calls[i].charged <= (states[k].calls[i].maxRetries + 1) * states[k].calls[i].reservation
    {
      ChargesAreBounded(states[k].calls[i]);
    }
  }

  lemma ChargesAreBounded(c: Call)
    requires FairlyCharged(c)
    ensures c.charged <= (c.maxRetries + 1) * c.reservation
  {
    MoreAttempts(c.attempt + (if c.phase.Finished? then 1 else 0), c.maxRetries + 1, c.reservation);
  }

  /** In every history a reply leaves its reservation outstanding if and only if it is a
      rejection whose reported usage is negative or no number; every other settlement and
      every release succeeds. */
  lemma ReplyLeaksIff(states: seq<Traffic>, events: seq<Event>, k: nat)
    requires IsHistory(states, events) && k < |events| && events[k].Answer?
    ensures events[k].call < |states[k].calls| && events[k].call < |states[k + 1].calls|
    ensures states[k + 1].calls[events[k].call].phase == Finished(SettlementFailed) <==>
            Unsettleable(states[k].calls[events[k].call].provider, events[k].reply)
    ensures !Unsettleable(states[k].calls[events[k].call].provider, events[k].reply) ==>
              states[k + 1].file.reserved == states[k].file.reserved - states[k].calls[events[k].call].reservation
  {
    EveryHistoryBalances(states, events, k);
    var t, c := states[k], states[k].calls[events[k].call];
    OneOfTheOutstanding(t.calls, events[k].call);
    AnswerKeepsCharge(t.memory.value, c, events[k].reply);
  }

  // ---------------------------------------------------------------- raised limits

  predicate KeepsLimit(e: Event) { !e.Open? && !e.RaiseLimit? }

  lemma {:induction false} FileLimitIff(states: seq<Traffic>, events: seq<Event>, k: nat)
    requires IsPiece(states, events) && 1 <= k < |states|
    requires events[0].RaiseLimit? && states[0].memory.Some? && states[0].memory.value.limit < states[1].file.limit
    requires forall j :: 1 <= j < k ==> KeepsLimit(events[j])
    ensures states[k].memory.Some? ==> states[k].memory.value.limit == states[0].memory.value.limit
    ensures states[k].file.limit == if forall j :: 1 <= j < k ==> !Writes(states[j], events[j])
                                    then states[1].file.limit else states[0].memory.value.limit
    decreases k
  {
    if k > 1 { FileLimitIff(states, events, k - 1); }
  }

  /** A limit raised on disk while a process is up is there for the next one to open the file
      with, if and only if the process up has written nothing since. */
  lemma RaiseSurvivesIff(states: seq<Traffic>, events: seq<Event>, k: nat)
    requires IsPiece(states, events) && Balanced(states[0]) && 1 <= k < |states|
    requires events[0].RaiseLimit? && states[0].memory.Some? && states[0].memory.value.limit < events[0].newLimit
    requires Raised(states[0].file, events[0].newLimit).Success?
    requires forall j :: 1 <= j < k ==> KeepsLimit(events[j])
    ensures Opened(Some(states[k].file), events[0].newLimit).Success? <==>
            forall j :: 1 <= j < k ==> !Writes(states[j], events[j])
  {
    FileLimitIff(states, events, k);
    PieceBalances(states, events, k);
  }

  /** A history in which a raise is lost: while a process is up the limit is raised from 100 to
      200, the process reserves once more, and the file cannot be opened with 200. */
  lemma RaiseCanBeLost() returns (states: seq<Traffic>, events: seq<Event>)
    ensures IsHistory(states, events) && |states| == 4
    ensures events[0] == RaiseLimit(200) && Raised(states[0].file, 200).Success?
    ensures states[1].file.limit == 200 && states[3].file.limit == 100
    ensures Opened(Some(states[3].file), 200).Failure?
  {
    var t0 := Traffic(Some(Account(100, 0, 0)), Account(100, 0, 0), []);
    events := [RaiseLimit(200), Begin(DeepSeek, 10, 0), Attempt(0)];
    var t1 := Next(t0, events[0]);
    var t2 := Next(t1, events[1]);
    var t3 := Next(t2, events[2]);
    states := [t0, t1, t2, t3];
  }

  // ---------------------------------------------------------------- the retry loop

  /** Books one reply: a completion at once, anything else in the error handler.  False means
      that the handler itself raised. */
  method Book(ledger: Ledger, provider: Provider, reservation: nat, reply: Reply) returns (booked: bool)
    requires ledger.Now().Sound() && reservation <= ledger.reserved
    modifies ledger
    ensures booked <==> !Unsettleable(provider, reply)
    ensures booked ==> Costs(provider, reservation, reply, ledger.used - old(ledger.used))
    ensures booked ==>
              && ledger.Now() == old(ledger.Now()).(reserved := old(ledger.reserved) - reservation,
                                                   used := old(ledger.used) + ChargeOf(provider, reservation, reply))
              && ledger.file == Some(ledger.Now())
    ensures !booked ==> ledger.Now() == old(ledger.Now()) && ledger.file == old(ledger.file)
  {
    if !Unsettleable(provider, reply) {
      ChargeIsCost(provider, reservation, reply, ChargeOf(provider, reservation, reply));
    }
    var settled := false;
    if BooksItself(reply) {
      var _ := ledger.Settle(reservation, BookedTotal(provider, reply, reservation));
      settled := true;
    }
    if !settled {
      if reply.Rejection? && KnownUncharged(provider, reply.status, reply.uncharged) {
        var _ := ledger.Release(reservation);
      } else if reply.Rejection? && provider.OpenAICompatible? && !reply.usage.NoUsage? {
        if reply.usage.Malformed? { return false; }
        var r := ledger.Settle(reservation, Least(reply.usage.count, reservation));
        if r.Failure? { return false; }
      } else {
        var _ := ledger.Settle(reservation, reservation);
      }
    }
    booked := true;
  }

  /** The traffic shows what the ledger object and its file hold. */
  predicate Shows(t: Traffic, now: Account, file: Option<Account>) {
    t.memory == Some(now) && file == Some(t.file)
  }

  lemma SoundInMemory(t: Traffic)
    requires Balanced(t) && t.memory.Some?
    ensures t.memory.value.Sound() && t.memory.value.used == t.file.used && t.memory.value.reserved == t.file.reserved
    ensures t.memory.value.reserved == TotalOutstanding(t.calls) && t.memory.value.used == TotalCharged(t.calls)
  {
  }

  /** What happens while the process stays up. */
  predicate InProcess(e: Event) { !e.Crash? && !e.Open? }

  /** The next attempt of a call: it reserves, or ends over budget. */
  method PerformAttempt(ledger: Ledger, calls: seq<Call>, k: nat, ghost t: Traffic) returns (after: seq<Call>)
    requires Shows(t, ledger.Now(), ledger.file) && t.calls == calls && Possible(t, Attempt(k))
    modifies ledger
    ensures Shows(Next(t, Attempt(k)), ledger.Now(), ledger.file) && after == Next(t, Attempt(k)).calls
  {
    var reserved := ledger.Reserve(calls[k].reservation);
    after := calls[k := calls[k].(phase := if reserved.Success? then InFlight else Finished(OverBudget))];
  }

  /** The reply to a call: it is booked, and the call goes on or ends. */
  method PerformAnswer(ledger: Ledger, calls: seq<Call>, k: nat, reply: Reply, ghost t: Traffic)
    returns (after: seq<Call>)
    requires Shows(t, ledger.Now(), ledger.file) && t.calls == calls && Balanced(t) && Possible(t, Answer(k, reply))
    modifies ledger
    ensures Shows(Next(t, Answer(k, reply)), ledger.Now(), ledger.file)
    ensures after == Next(t, Answer(k, reply)).calls
  {
    hide FairlyCharged;
    var c := calls[k];
    OneOfTheOutstanding(calls, k);
    BookingFailsIff(c.provider, ledger.Now(), c.reservation, reply);
    var booked := Book(ledger, c.provider, c.reservation, reply);
    if booked {
      var phase := AfterBooked(c, reply);
      c := c.(charged := c.charged + ChargeOf(c.provider, c.reservation, reply), phase := phase,
              attempt := if phase == Ready then c.attempt + 1 else c.attempt);
    } else {
      c := c.(phase := Finished(SettlementFailed));
    }
    after := calls[k := c];
  }

  /** Carries out any event of any client on the shared ledger object: what happens to object,
      file and calls is the step of the history. */
  method Perform(ledger: Ledger, calls: seq<Call>, e: Event, ghost t: Traffic) returns (after: seq<Call>)
    requires Shows(t, ledger.Now(), ledger.file) && t.calls == calls && Balanced(t)
    requires Possible(t, e) && InProcess(e)
    modifies ledger
    ensures Shows(Next(t, e), ledger.Now(), ledger.file) && after == Next(t, e).calls
  {
    match e
    case Begin(p, reservation, maxRetries) => after := calls + [Call(p, reservation, maxRetries, 0, 0, Ready)];
    case Attempt(k) => after := PerformAttempt(ledger, calls, k, t);
    case Answer(k, reply) => after := PerformAnswer(ledger, calls, k, reply, t);
    case RaiseLimit(newLimit) =>
      after := calls;
      var raised := Raised(ledger.file.value, newLimit);
      if raised.Success? { ledger.file := Some(raised.value); }
  }

  /** An event of another call than mine. */
  predicate Foreign(e: Event, calls: seq<Call>, mine: nat) {
    match e
    case Attempt(k) => k != mine && k < |calls| && calls[k].phase == Ready
    case Answer(k, _) => k != mine && k < |calls| && calls[k].phase == InFlight
    case Crash => false
    case Open(_) => false
    case _ => true
  }

  /** What the other clients do meanwhile: the planned events that are possible, in order. */
  method Others(ledger: Ledger, calls: seq<Call>, plan: seq<Event>, mine: nat,
                ghost states: seq<Traffic>, ghost events: seq<Event>)
    returns (after: seq<Call>, ghost states': seq<Traffic>, ghost events': seq<Event>)
    requires IsPiece(states, events) && Balanced(states[|events|]) && states[|events|].calls == calls
    requires Shows(states[|events|], ledger.Now(), ledger.file) && mine < |calls|
    modifies ledger
    ensures IsPiece(states', events') && states'[0] == states[0] && Balanced(states'[|events'|])
    ensures states'[|events'|].calls == after && Shows(states'[|events'|], ledger.Now(), ledger.file)
    ensures mine < |after| && after[mine] == calls[mine]
    ensures plan == [] ==> after == calls && ledger.Now() == old(ledger.Now())
  {
    hide Balanced, Next;
    after, states', events' := calls, states, events;
    for i := 0 to |plan|
      invariant IsPiece(states', events') && states'[0] == states[0] && Balanced(states'[|events'|])
      invariant states'[|events'|].calls == after && Shows(states'[|events'|], ledger.Now(), ledger.file)
      invariant mine < |after| && after[mine] == calls[mine]
      invariant plan == [] ==> after == calls && ledger.Now() == old(ledger.Now())
    {
      if Foreign(plan[i], after, mine) {
        ForeignLeavesMine(states'[|events'|], plan[i], mine);
        after := Perform(ledger, after, plan[i], states'[|events'|]);
        states', events' := Step(states', events', plan[i]);
      }
    }
  }

  lemma ForeignLeavesMine(t: Traffic, e: Event, mine: nat)
    requires t.memory.Some? && Foreign(e, t.calls, mine) && mine < |t.calls|
    ensures Possible(t, e) && InProcess(e)
    ensures mine < |Next(t, e).calls| && Next(t, e).calls[mine] == t.calls[mine]
  {
  }

  // ---------------------------------------------------------------- one call among others

  /** What an attempt and its reply make of a call. */
  lemma AttemptOf(t: Traffic, k: nat)
    requires t.memory.Some? && k < |t.calls| && t.calls[k].phase == Ready
    ensures Possible(t, Attempt(k))
    ensures |Next(t, Attempt(k)).calls| == |t.calls|
    ensures Next(t, Attempt(k)).calls
            == t.calls[k := t.calls[k].(phase := Next(t, Attempt(k)).calls[k].phase)]
    ensures Next(t, Attempt(k)).calls[k].phase in {InFlight, Finished(OverBudget)}
  {
  }

  lemma AnswerOf(t: Traffic, k: nat, reply: Reply)
    requires Balanced(t) && t.memory.Some? && k < |t.calls| && t.calls[k].phase == InFlight
    ensures Possible(t, Answer(k, reply))
    ensures var c, t' := t.calls[k], Next(t, Answer(k, reply));
            && |t'.calls| == |t.calls| && t'.calls == t.calls[k := t'.calls[k]]
            && t'.calls[k] == if Unsettleable(c.provider, reply) then c.(phase := Finished(SettlementFailed))
                              else c.(charged := c.charged + ChargeOf(c.provider, c.reservation, reply),
                                      phase := AfterBooked(c, reply),
                                      attempt := if AfterBooked(c, reply) == Ready then c.attempt + 1 else c.attempt)
  {
    OneOfTheOutstanding(t.calls, k);
    BookingFailsIff(t.calls[k].provider, t.memory.value, t.calls[k].reservation, reply);
  }

  lemma AnswerFollows(c: Call, flying: Call, reply: Reply, c': Call)
    requires flying == c.(phase := InFlight)
    requires c' == if Unsettleable(c.provider, reply) then flying.(phase := Finished(SettlementFailed))
                   else flying.(charged := c.charged + ChargeOf(c.provider, c.reservation, reply),
                                phase := AfterBooked(flying, reply),
                                attempt := if AfterBooked(flying, reply) == Ready then c.attempt + 1 else c.attempt)
    ensures Follows(c, reply, c') && c'.phase != Finished(OverBudget)
  {
    if !Unsettleable(c.provider, reply) {
      ChargeIsCost(c.provider, c.reservation, reply, ChargeOf(c.provider, c.reservation, reply));
    }
  }

  lemma PhaseAfterBooking(c: Call, r: Reply)
    ensures AfterBooked(c, r) == Ready || AfterBooked(c, r).Finished?
    ensures AfterBooked(c, r) == Ready ==> c.attempt < c.maxRetries
    ensures AfterBooked(c, r) == Finished(Completed) ==> BooksItself(r) && r.readable
    ensures AfterBooked(c, r) != Finished(SettlementFailed)
  {
  }

  /** How one attempt ends that is answered with reply, unless it is refused for the budget. */
  predicate Follows(c: Call, reply: Reply, c': Call) {
    if c'.phase == Finished(OverBudget) then c'.charged == c.charged
    else if Unsettleable(c.provider, reply) then c'.phase == Finished(SettlementFailed) && c'.charged == c.charged
    else c'.phase == AfterBooked(c, reply) && Costs(c.provider, c.reservation, reply, c'.charged - c.charged)
  }

  /** One attempt of the call mine, with whatever the other clients do before it and before its
      reply. */
  method TryOnce(ledger: Ledger, calls: seq<Call>, mine: nat, reply: Reply, before: seq<Event>, meanwhile: seq<Event>,
                 ghost states: seq<Traffic>, ghost events: seq<Event>)
    returns (after: seq<Call>, ghost states': seq<Traffic>, ghost events': seq<Event>)
    requires IsPiece(states, events) && Balanced(states[|events|]) && states[|events|].calls == calls
    requires Shows(states[|events|], ledger.Now(), ledger.file) && mine < |calls| && calls[mine].phase == Ready
    modifies ledger
    ensures IsPiece(states', events') && states'[0] == states[0] && Balanced(states'[|events'|])
    ensures states'[|events'|].calls == after && Shows(states'[|events'|], ledger.Now(), ledger.file)
    ensures mine < |after| && (after[mine].phase == Ready || after[mine].phase.Finished?)
    ensures after[mine] == calls[mine].(
                             phase := after[mine].phase, charged := after[mine].charged,
                             attempt := calls[mine].attempt + if after[mine].phase == Ready then 1 else 0)
    ensures calls[mine].charged <= after[mine].charged <= calls[mine].charged + calls[mine].reservation
    ensures after[mine].phase == Ready ==> calls[mine].attempt < calls[mine].maxRetries
    ensures Follows(calls[mine], reply, after[mine])
    ensures before == meanwhile == [] ==> after == calls[mine := after[mine]]
  {
    hide Balanced, BooksItself, BookedTotal, Unsettleable, ChargeOf, AfterBooked, Costs, Next, Possible;
    after, states', events' := Others(ledger, calls, before, mine, states, events);
    AttemptOf(states'[|events'|], mine);
    after := PerformAttempt(ledger, after, mine, states'[|events'|]);
    states', events' := Step(states', events', Attempt(mine));
    if after[mine].phase.Finished? { return; }
    after, states', events' := Others(ledger, after, meanwhile, mine, states', events');
    AnswerOf(states'[|events'|], mine, reply);
    PhaseAfterBooking(after[mine], reply);
    ghost var flying := after[mine];
    after := PerformAnswer(ledger, after, mine, reply, states'[|events'|]);
    states', events' := Step(states', events', Answer(mine, reply));
    AnswerFollows(calls[mine], flying, reply, after[mine]);
  }

  function SumOf(costs: seq<int>): int {
    if costs == [] then 0 else SumOf(costs[..|costs| - 1]) + costs[|costs| - 1]
  }

  /** A call of which n attempts are over and whose next one is under way. */
  function Under(p: Provider, reservation: nat, maxRetries: nat, n: nat): Call {
    Call(p, reservation, maxRetries, n, 0, InFlight)
  }

  /** The call goes on after each of the replies 0 to n - 1 but the one that ends it: the last of
      these with the outcome, or the next one, which cannot be settled, or none, when the next
      attempt is over budget. */
  ghost predicate EndsAfter(p: Provider, reservation: nat, maxRetries: nat, replies: nat -> Reply, n: nat,
                            outcome: Outcome)
  {
    && n <= maxRetries + 1
    && (forall k :: 0 <= k < n - 1 ==> AfterBooked(Under(p, reservation, maxRetries, k), replies(k)) == Ready)
    && match outcome
       case OverBudget => GoesOn(p, reservation, maxRetries, replies, n)
       case SettlementFailed => GoesOn(p, reservation, maxRetries, replies, n) && Unsettleable(p, replies(n))
       case _ => n >= 1 && AfterBooked(Under(p, reservation, maxRetries, n - 1), replies(n - 1)) == Finished(outcome)
  }

  ghost predicate GoesOn(p: Provider, reservation: nat, maxRetries: nat, replies: nat -> Reply, n: nat) {
    n <= maxRetries && forall k :: 0 <= k < n ==> AfterBooked(Under(p, reservation, maxRetries, k), replies(k)) == Ready
  }

  /** One call on the shared ledger.  replies(k) is the answer to the attempt numbered k, and
      others(n) what the other clients do before the step numbered n of this call.  What happens
      is a piece of a history, from the state at the start to one in which the call has ended
      with the outcome and the charge, and nothing is reserved for it unless its settlement
      raised.  The charge is the sum of what the replies cost that it got.  If the other clients
      do nothing, the account changes by that alone. */
  method Complete(ledger: Ledger, calls: seq<Call>, provider: Provider, reservation: nat, maxRetries: nat,
                  replies: nat -> Reply, others: nat -> seq<Event>, ghost start: Traffic)
    returns (outcome: Outcome, charged: int, after: seq<Call>,
             ghost states: seq<Traffic>, ghost events: seq<Event>, ghost costs: seq<int>)
    requires Balanced(start) && start.calls == calls && Shows(start, ledger.Now(), ledger.file)
    modifies ledger
    ensures IsPiece(states, events) && states[0] == start && Balanced(states[|events|])
    ensures states[|events|].calls == after && Shows(states[|events|], ledger.Now(), ledger.file)
    ensures |calls| < |after|
            && after[|calls|] == Call(provider, reservation, maxRetries, after[|calls|].attempt, charged,
                                      Finished(outcome))
    ensures ledger.used + ledger.reserved <= ledger.limit
    ensures ledger.used == TotalCharged(after) && ledger.reserved == TotalOutstanding(after)
    ensures Outstanding(after[|calls|]) == if outcome == SettlementFailed then reservation else 0
    ensures 0 <= charged <= (maxRetries + 1) * reservation
    ensures charged == SumOf(costs)
    ensures forall k :: 0 <= k < |costs| ==> Costs(provider, reservation, replies(k), costs[k])
    ensures EndsAfter(provider, reservation, maxRetries, replies, |costs|, outcome)
    ensures (forall n :: others(n) == []) ==>
              && after[..|calls|] == calls && ledger.used == old(ledger.used) + charged
              && ledger.reserved == old(ledger.reserved) + (if outcome == SettlementFailed then reservation else 0)
  {
    hide Balanced, BooksItself, Unsettleable, Next, Possible, TotalOutstanding, TotalCharged, Costs, GoesOn, EndsAfter,
         Follows;
    SoundInMemory(start);
    var mine := |calls|;
    BeginOf(start, provider, reservation, maxRetries);
    after := Perform(ledger, calls, Begin(provider, reservation, maxRetries), start);
    states, events := Step([start], [], Begin(provider, reservation, maxRetries));
    costs := [];
    NoReplyYet(provider, reservation, maxRetries, replies);
    for attempt := 0 to maxRetries + 1
      invariant mine < |after| && |costs| == attempt <= maxRetries
      invariant GoesOn(provider, reservation, maxRetries, replies, attempt)
      invariant after[mine].charged == SumOf(costs)
      invariant forall k :: 0 <= k < |costs| ==> Costs(provider, reservation, replies(k), costs[k])
      invariant after[mine] == Call(provider, reservation, maxRetries, attempt, after[mine].charged, Ready)
      invariant 0 <= after[mine].charged <= attempt * reservation
      invariant IsPiece(states, events) && states[0] == start && Balanced(states[|events|])
      invariant states[|events|].calls == after && Shows(states[|events|], ledger.Now(), ledger.file)
      invariant (forall n :: others(n) == []) ==> after == calls + [after[mine]]
    {
      OneAttemptMore(attempt, maxRetries, reservation);
      ghost var before := after[mine];
      after, states, events := TryOnce(ledger, after, mine, replies(attempt), others(2 * attempt),
                                       others(2 * attempt + 1), states, events);
      costs := EndOfAttempt(before, after[mine], replies, costs);
      SoundInMemory(states[|events|]);
      if after[mine].phase.Finished? {
        outcome, charged := after[mine].phase.outcome, after[mine].charged;
        if forall n :: others(n) == [] {
          assert after == calls + [after[mine]];
          OneCallMore(start, states[|events|], after[mine]);
        }
        return;
      }
    }
    // The last attempt always ends the call.
    assert false;
  }

  /** What an attempt adds to the costs, and how the call ends if it does. */
  lemma EndOfAttempt(c: Call, c': Call, replies: nat -> Reply, costs: seq<int>) returns (costs': seq<int>)
    requires Follows(c, replies(c.attempt), c') && |costs| == c.attempt && c.charged == SumOf(costs)
    requires GoesOn(c.provider, c.reservation, c.maxRetries, replies, c.attempt)
    requires forall k :: 0 <= k < |costs| ==> Costs(c.provider, c.reservation, replies(k), costs[k])
    requires c'.phase == Ready || c'.phase.Finished?
    requires c'.phase == Ready ==> c.attempt < c.maxRetries
    ensures c'.charged == SumOf(costs')
    ensures forall k :: 0 <= k < |costs'| ==> Costs(c.provider, c.reservation, replies(k), costs'[k])
    ensures c'.phase == Ready ==>
              |costs'| == c.attempt + 1 && GoesOn(c.provider, c.reservation, c.maxRetries, replies, c.attempt + 1)
    ensures c'.phase.Finished? ==>
              EndsAfter(c.provider, c.reservation, c.maxRetries, replies, |costs'|, c'.phase.outcome)
  {
    hide Costs, Unsettleable, AfterBooked;
    var reply := replies(c.attempt);
    OnlyAttemptsCount(c, reply);
    PhaseAfterBooking(c, reply);
    costs' := costs;
    if c'.phase != Finished(OverBudget) && !Unsettleable(c.provider, reply) {
      costs' := costs + [c'.charged - c.charged];
      assert costs'[..|costs|] == costs;
    }
  }

  lemma OnlyAttemptsCount(c: Call, r: Reply)
    ensures AfterBooked(c, r) == AfterBooked(Under(c.provider, c.reservation, c.maxRetries, c.attempt), r)
  {
  }

  lemma NoReplyYet(p: Provider, reservation: nat, maxRetries: nat, replies: nat -> Reply)
    ensures GoesOn(p, reservation, maxRetries, replies, 0)
  {
  }

  lemma BeginOf(t: Traffic, p: Provider, reservation: nat, maxRetries: nat)
    requires t.memory.Some?
    ensures IsPiece([t], []) && Possible(t, Begin(p, reservation, maxRetries))
    ensures Next(t, Begin(p, reservation, maxRetries)).calls
            == t.calls + [Call(p, reservation, maxRetries, 0, 0, Ready)]
  {
  }

  /** One call more changes the account by what it holds and was charged. */
  lemma OneCallMore(start: Traffic, t: Traffic, c: Call)
    requires Balanced(start) && start.memory.Some? && Balanced(t) && t.memory.Some? && t.calls == start.calls + [c]
    ensures t.memory.value.reserved == start.memory.value.reserved + Outstanding(c)
    ensures t.memory.value.used == start.memory.value.used + c.charged
  {
    hide FairlyCharged;
    assert t.calls[..|start.calls|] == start.calls;
  }

  ghost method Step(states: seq<Traffic>, events: seq<Event>, e: Event)
    returns (states': seq<Traffic>, events': seq<Event>)
    requires IsPiece(states, events) && Possible(states[|events|], e) && Balanced(states[|events|])
    ensures IsPiece(states', events') && states'[0] == states[0]
    ensures |events'| == |events| + 1 && states'[|events'|] == Next(states[|events|], e)
    ensures Balanced(states'[|events'|])
  {
    states', events' := states + [Next(states[|events|], e)], events + [e];
    StepKeepsBalance(states[|events|], e);
  }

  lemma MoreAttempts(k: nat, n: nat, reservation: nat)
    requires k <= n
    ensures k * reservation <= n * reservation
  {
    assert n * reservation == k * reservation + (n - k) * reservation;
  }

  lemma OneAttemptMore(k: nat, n: nat, reservation: nat)
    requires k <= n
    ensures (k + 1) * reservation == k * reservation + reservation
    ensures (k + 1) * reservation <= (n + 1) * reservation
  {
    MoreAttempts(k + 1, n + 1, reservation);
  }
}
