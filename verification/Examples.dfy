/** Small concrete runs from a bare deployment, for the results that need one. */
module Examples {
  import opened Bounded
  import opened Results
  import opened StreamTypes
  import opened Storage
  import opened Vesting
  import opened Entrypoints

  const BARE: State := State(0, 0, 0, map[], 0, None, 0, map[], [])

  /** What a linear create with no fee configured leaves behind. */
  function Created(s: State, sender: Address, recipient: Address, token: Address, amount: i128, rate: i128): State
    requires s.counter < U64_MAX && 0 < amount <= Balance(s, token, sender)
    requires Balance(s, token, s.self) + amount <= I128_MAX
  {
    var stream := OpenStream(sender, recipient, token, rate, amount, s.now, Linear);
    s.(counter := s.counter + 1,
       records := s.records[s.counter + 1 := CurrentStream(stream)],
       balances := s.balances[(token, sender) := Balance(s, token, sender) - amount]
                             [(token, s.self) := Balance(s, token, s.self) + amount],
       log := s.log + [LogEntry(s.tx, StreamCreated(s.counter + 1, sender, recipient, rate, token, amount, s.now))])
  }

  lemma PlainCreate(s: State, sender: Address, recipient: Address, token: Address, amount: i128, duration: u64,
                    rate: i128)
    requires s.config == None && s.counter < U64_MAX && sender != s.self && duration != 0
    requires 0 < amount <= Balance(s, token, sender) && Balance(s, token, s.self) + amount <= I128_MAX
    requires rate == TruncDiv(amount, duration) && rate != 0
    ensures Exec(s, CallCreateLinear(sender, recipient, token, amount, duration))
         == (Created(s, sender, recipient, token, amount, rate), Number(s.counter + 1))
  {
    var (s1, id) := NextStreamId(s).value;
    var paid := Transfer(s1, token, sender, s.self, amount);
    assert paid.Ok? && TryLoadConfig(paid.value) == None;
    assert Deposit(s1, token, sender, amount, id) == Ok((paid.value, amount));
    TruncDivFits(amount, duration);
  }

  // ----- Two streams -----

  const SAMPLE: Stream := OpenStream(5, 7, 9, 10, 1000, 0, Linear)
  const FUND: Step := Mint(9, 5, 2000)
  const OPEN: Call := CallCreateLinear(5, 7, 9, 1000, 100)

  function Opening(id: u64): LogEntry {
    LogEntry(id, StreamCreated(id, 5, 7, 10, 9, 1000, 0))
  }

  function OneStream(): State {
    Run(BARE, [FUND] + [Invoke(1, OPEN)])
  }

  lemma OneStreamReached()
    ensures var s := OneStream();
            && s.self == 0 && s.now == 0 && s.config == None && s.counter == 1
            && s.records == map[1 := CurrentStream(SAMPLE)]
            && Balance(s, 9, 0) == 1000 && Balance(s, 9, 5) == 1000 && Balance(s, 9, 7) == 0
            && s.log == [Opening(1)]
  {
    assert [] + [FUND] == [FUND];
    RunSnoc(BARE, [], FUND);
    RunSnoc(BARE, [FUND], Invoke(1, OPEN));
    PlainCreate(Run(BARE, [FUND]).(tx := 1), 5, 7, 9, 1000, 100, 10);
  }

  /** Two streams of 10 a second, one opened in each of two transactions, ten
      seconds ago. */
  function TwoStreams(): State {
    Run(BARE, [FUND] + [Invoke(1, OPEN)] + [Invoke(2, OPEN)] + [Tick(10)])
  }

  lemma TwoStreamsReached()
    ensures var s := TwoStreams();
            && s.self == 0 && s.now == 10
            && s.records == map[1 := CurrentStream(SAMPLE), 2 := CurrentStream(SAMPLE)]
            && Balance(s, 9, 0) == 2000 && Balance(s, 9, 7) == 0
            && s.log == [Opening(1), Opening(2)]
  {
    OneStreamReached();
    var twice := [FUND] + [Invoke(1, OPEN)] + [Invoke(2, OPEN)];
    RunSnoc(BARE, [FUND] + [Invoke(1, OPEN)], Invoke(2, OPEN));
    PlainCreate(OneStream().(tx := 2), 5, 7, 9, 1000, 100, 10);
    var s := Run(BARE, twice);
    assert Balance(s, 9, 0) == 2000 && Balance(s, 9, 7) == 0 && s.log == [Opening(1), Opening(2)];
    RunSnoc(BARE, twice, Tick(10));
  }

  // ----- A top-up -----

  function ToppedUp(): State {
    Run(BARE, [FUND] + [Invoke(1, OPEN)] + [Invoke(2, CallTopUp(5, 1, 500))])
  }

  lemma TopUpExample(s: State)
    requires s.self == 0 && s.now <= 10 && s.config == None && TryLoadStream(s, 1) == Some(SAMPLE)
    requires Balance(s, 9, 5) == 1000 && Balance(s, 9, 0) == 1000
    ensures TopUpStream(s, 5, 1, 500).Ok?
    ensures var t := TopUpStream(s, 5, 1, 500).value.0;
            && t.log == s.log + [LogEntry(s.tx, StreamToppedUp(1, 5, 500, 1500, 150))]
            && TryLoadStream(t, 1) == Some(SAMPLE.(deposited := 1500))
  {
    var paid := Transfer(s, 9, 5, 0, 500);
    assert paid.Ok? && TryLoadConfig(paid.value) == None && paid.value.log == s.log;
    assert Deposit(s, 9, 5, 500, 1) == Ok((paid.value, 500));
    assert Funded(SAMPLE, 500, s.now) == Ok((SAMPLE.(deposited := 1500), 150));
  }

  lemma ToppedUpReached()
    ensures ToppedUp().log == [Opening(1)] + [LogEntry(2, StreamToppedUp(1, 5, 500, 1500, 150))]
    ensures TryLoadStream(ToppedUp(), 1) == Some(SAMPLE.(deposited := 1500))
  {
    OneStreamReached();
    TopUpExample(OneStream().(tx := 2));
    RunSnoc(BARE, [FUND] + [Invoke(1, OPEN)], Invoke(2, CallTopUp(5, 1, 500)));
  }

  /** The same ten seconds into the stream. */
  function ToppedUpLater(): State {
    Run(BARE, [FUND] + [Invoke(1, OPEN)] + [Tick(10)] + [Invoke(2, CallTopUp(5, 1, 500))])
  }

  lemma TenSecondsIn()
    ensures var s := Run(BARE, [FUND] + [Invoke(1, OPEN)] + [Tick(10)]);
            && s.self == 0 && s.now == 10 && s.config == None && TryLoadStream(s, 1) == Some(SAMPLE)
            && Balance(s, 9, 5) == 1000 && Balance(s, 9, 0) == 1000 && s.log == [Opening(1)]
  {
    OneStreamReached();
    RunSnoc(BARE, [FUND] + [Invoke(1, OPEN)], Tick(10));
    assert Balance(OneStream(), 9, 5) == 1000;
  }

  lemma ToppedUpLaterReached()
    ensures ToppedUpLater().log == [Opening(1)] + [LogEntry(2, StreamToppedUp(1, 5, 500, 1500, 150))]
    ensures TryLoadStream(ToppedUpLater(), 1) == Some(SAMPLE.(deposited := 1500)) && ToppedUpLater().now == 10
  {
    var steps := [FUND] + [Invoke(1, OPEN)] + [Tick(10)];
    TenSecondsIn();
    TopUpExample(Run(BARE, steps).(tx := 2));
    RunSnoc(BARE, steps, Invoke(2, CallTopUp(5, 1, 500)));
  }

  // ----- A hybrid stream drawn down second by second -----

  /** From its cliff on, a withdrawal every second, each in a transaction of its own. */
  function Drips(n: nat): seq<Step> {
    if n == 0 then [FUND] + [Invoke(1, OPEN_LUMP)] + [Tick(100)]
    else Drips(n - 1) + [Tick(1)] + [Invoke(n + 1, CallWithdraw(7, 1))]
  }

  function Dripped(n: nat): Stream
    requires n <= 400
  {
    if n == 0 then LUMP else LUMP.(withdrawn := 500 + n, lastUpdate := 100 + n)
  }

  ghost predicate DrippedState(s: State, n: nat)
    requires n <= 400
  {
    && s.self == 0 && s.now == 100 + n && TryLoadStream(s, 1) == Some(Dripped(n))
    && Balance(s, 9, 0) == 999 - Dripped(n).withdrawn && Balance(s, 9, 7) == Dripped(n).withdrawn
    && |s.log| == n + 1 && s.log[0].tx == 1 && s.log[0].event.HybridCliffCreated?
    && forall i :: 1 <= i <= n ==>
         s.log[i].tx == i + 1 && s.log[i].event.TokensWithdrawn? && s.log[i].event.id == 1
  }

  /** A withdrawal that does not finish the stream. */
  lemma DrawExample(s: State, a: Stream, b: Stream, amount: i128)
    requires s.self == 0 && TryLoadStream(s, 1) == Some(a)
    requires a.recipient == 7 && a.token == 9 && a.isActive && !a.paused
    requires Claimable(a, s.now) == amount > 0 && Credited(a, amount, s.now) == Ok(b) && b.status == Active
    requires Balance(s, 9, 0) >= amount && FitsI128(Balance(s, 9, 7) + amount)
    ensures Withdraw(s, 7, 1).Ok?
    ensures var t := Withdraw(s, 7, 1).value.0;
            && t.self == 0 && t.now == s.now && TryLoadStream(t, 1) == Some(b)
            && Balance(t, 9, 0) == Balance(s, 9, 0) - amount && Balance(t, 9, 7) == Balance(s, 9, 7) + amount
            && t.log == s.log + [LogEntry(s.tx, TokensWithdrawn(1, 7, amount, b.lastUpdate))]
  {
    var s1 := SaveStream(s, 1, b);
    assert Balance(s1, 9, 0) == Balance(s, 9, 0) && Balance(s1, 9, 7) == Balance(s, 9, 7);
    assert Transfer(s1, 9, 0, 7, amount).Ok?;
    TransferConserves(s1, 9, 0, 7, amount);
  }

  lemma DrawCall(s: State)
    requires Withdraw(s, 7, 1).Ok?
    ensures Exec(s, CallWithdraw(7, 1)).0 == Withdraw(s, 7, 1).value.0
  {
  }

  lemma DripRecord(n: nat)
    requires 1 <= n <= 400
    ensures var a, b := Dripped(n - 1), Dripped(n);
            var amount := b.withdrawn - a.withdrawn;
            && (amount == if n == 1 then 501 else 1)
            && Claimable(a, 100 + n) == amount && Credited(a, amount, 100 + n) == Ok(b)
  {
  }

  lemma DripDone(s: State, t: State, n: nat)
    requires 1 <= n <= 400 && DrippedState(s, n - 1)
    requires t.self == s.self && t.now == s.now + 1 && TryLoadStream(t, 1) == Some(Dripped(n))
    requires var amount := Dripped(n).withdrawn - Dripped(n - 1).withdrawn;
             && Balance(t, 9, 0) == Balance(s, 9, 0) - amount && Balance(t, 9, 7) == Balance(s, 9, 7) + amount
             && t.log == s.log + [LogEntry(n + 1, TokensWithdrawn(1, 7, amount, 100 + n))]
    ensures DrippedState(t, n)
  {
  }

  /** One more second and withdrawal. */
  lemma DripExample(s: State, n: nat)
    requires 1 <= n <= 400 && DrippedState(s, n - 1)
    ensures DrippedState(Advance(s.(now := s.now + 1), Invoke(n + 1, CallWithdraw(7, 1))), n)
  {
    var m := s.(now := s.now + 1, tx := n + 1);
    var a, b := Dripped(n - 1), Dripped(n);
    DripRecord(n);
    assert TryLoadStream(m, 1) == Some(a);
    assert Balance(m, 9, 0) == Balance(s, 9, 0) && Balance(m, 9, 7) == Balance(s, 9, 7);
    DrawExample(m, a, b, b.withdrawn - a.withdrawn);
    DrawCall(m);
    DripDone(s, Exec(m, CallWithdraw(7, 1)).0, n);
  }

  lemma DripsStart()
    ensures DrippedState(Run(BARE, Drips(0)), 0)
  {
    assert [] + [FUND] == [FUND];
    RunSnoc(BARE, [], FUND);
    RunSnoc(BARE, [FUND], Invoke(1, OPEN_LUMP));
    HybridCreateExample(Run(BARE, [FUND]).(tx := 1));
    RunSnoc(BARE, [FUND] + [Invoke(1, OPEN_LUMP)], Tick(100));
  }

  lemma OneSecond(s: State)
    requires s.now < U64_MAX
    ensures Advance(s, Tick(1)) == s.(now := s.now + 1)
  {
  }

  lemma DripOn(s: State, n: nat)
    requires 1 <= n <= 400 && DrippedState(s, n - 1)
    ensures DrippedState(Advance(Advance(s, Tick(1)), Invoke(n + 1, CallWithdraw(7, 1))), n)
  {
    OneSecond(s);
    DripExample(s, n);
  }

  lemma DripsUnfold(n: nat)
    requires 1 <= n
    ensures Run(BARE, Drips(n))
         == Advance(Advance(Run(BARE, Drips(n - 1)), Tick(1)), Invoke(n + 1, CallWithdraw(7, 1)))
  {
    RunSnoc(BARE, Drips(n - 1), Tick(1));
    RunSnoc(BARE, Drips(n - 1) + [Tick(1)], Invoke(n + 1, CallWithdraw(7, 1)));
  }

  ghost predicate DripsTo(n: nat) {
    n <= 400 && DrippedState(Run(BARE, Drips(n)), n)
  }

  lemma OneMoreDrip(n: nat)
    requires 1 <= n <= 400 && DripsTo(n - 1)
    ensures DripsTo(n)
  {
    DripsUnfold(n);
    DripOn(Run(BARE, Drips(n - 1)), n);
  }

  lemma {:induction false} DripsAllTheWay(n: nat)
    requires n <= 400
    ensures DripsTo(n)
    decreases n
  {
    if n == 0 {
      DripsStart();
    } else {
      DripsAllTheWay(n - 1);
      OneMoreDrip(n);
    }
  }

  lemma DripsReached(n: nat)
    requires n <= 400
    ensures DrippedState(Run(BARE, Drips(n)), n)
  {
    DripsAllTheWay(n);
  }

  // ----- A cancellation -----

  function OpenedThenCancelled(): State {
    Run(BARE, [FUND] + [Invoke(1, OPEN)] + [Invoke(2, CallCancel(5, 1))])
  }

  lemma CancelExample(s: State)
    requires s.self == 0 && s.now == 0 && TryLoadStream(s, 1) == Some(SAMPLE)
    requires Balance(s, 9, 5) == 1000 && Balance(s, 9, 0) == 1000
    ensures CancelStream(s, 5, 1).Ok?
    ensures var t := CancelStream(s, 5, 1).value.0;
            && t.log == s.log + [LogEntry(s.tx, StreamCancelled(1, 5, 7, 0, 1000))]
            && TryLoadStream(t, 1) == Some(CancelledStream(SAMPLE, 0))
  {
    var done := CancelledStream(SAMPLE, 0);
    assert Claimable(SAMPLE, 0) == 0 && done.withdrawn == 0;
    var s1 := SaveStream(s, 1, done);
    assert Balance(s1, 9, 0) == 1000 && Balance(s1, 9, 5) == 1000;
    var paid := Transfer(s1, 9, 0, 5, 1000);
    assert paid.Ok? && paid.value.log == s.log;
  }

  lemma OpenedThenCancelledReached()
    ensures OpenedThenCancelled().log == [Opening(1)] + [LogEntry(2, StreamCancelled(1, 5, 7, 0, 1000))]
    ensures TryLoadStream(OpenedThenCancelled(), 1) == Some(CancelledStream(SAMPLE, 0))
  {
    OneStreamReached();
    CancelExample(OneStream().(tx := 2));
    RunSnoc(BARE, [FUND] + [Invoke(1, OPEN)], Invoke(2, CallCancel(5, 1)));
  }

  // ----- A top-up of a hybrid stream before its cliff -----

  const LUMP: Stream := OpenStream(5, 7, 9, 1, 999, 0, HybridCliffLinear(100, 500))
  const OPEN_LUMP: Call := CallCreateHybrid(5, 7, 9, 999, 100, 500, 499)

  lemma HybridCreateExample(s: State)
    requires s.self == 0 && s.now == 0 && s.config == None && s.counter == 0
    requires Balance(s, 9, 5) == 2000 && Balance(s, 9, 0) == 0
    ensures var t := Exec(s, OPEN_LUMP).0;
            && t.self == 0 && t.now == 0 && t.config == None && TryLoadStream(t, 1) == Some(LUMP)
            && Balance(t, 9, 5) == 1001 && Balance(t, 9, 0) == 999 && Balance(t, 9, 7) == Balance(s, 9, 7)
            && t.log == s.log + [LogEntry(s.tx, HybridCliffCreated(1, 5, 7, 9, 999, 100, 500, 1))]
  {
    var (s1, id) := NextStreamId(s).value;
    var paid := Transfer(s1, 9, 5, 0, 999);
    assert paid.Ok? && TryLoadConfig(paid.value) == None;
    assert Deposit(s1, 9, 5, 999, id) == Ok((paid.value, 999)) && paid.value.log == s.log;
    assert TruncDiv(999 - 500, 499) == 1;
  }

  lemma HybridTopUpExample(s: State)
    requires s.self == 0 && s.now == 0 && s.config == None && TryLoadStream(s, 1) == Some(LUMP)
    requires Balance(s, 9, 5) == 1001 && Balance(s, 9, 0) == 999
    ensures TopUpStream(s, 5, 1, 1).Ok?
    ensures var t := TopUpStream(s, 5, 1, 1).value.0;
            && t.log == s.log + [LogEntry(s.tx, StreamToppedUp(1, 5, 1, 1000, 1000))]
            && TryLoadStream(t, 1) == Some(LUMP.(deposited := 1000))
  {
    var paid := Transfer(s, 9, 5, 0, 1);
    assert paid.Ok? && TryLoadConfig(paid.value) == None && paid.value.log == s.log;
    assert Deposit(s, 9, 5, 1, 1) == Ok((paid.value, 1));
    assert Funded(LUMP, 1, 0) == Ok((LUMP.(deposited := 1000), 1000));
  }

  function LumpOpened(): State {
    Run(BARE, [FUND] + [Invoke(1, OPEN_LUMP)])
  }

  /** The top-up step of a run: what it reports, and the record it leaves. */
  lemma LumpToppedUp()
    ensures var s := LumpOpened();
            var t := Advance(s, Invoke(2, CallTopUp(5, 1, 1)));
            && t.log == s.log + [LogEntry(2, StreamToppedUp(1, 5, 1, 1000, 1000))]
            && TryLoadStream(t, 1) == Some(LUMP.(deposited := 1000))
  {
    assert [] + [FUND] == [FUND];
    RunSnoc(BARE, [], FUND);
    RunSnoc(BARE, [FUND], Invoke(1, OPEN_LUMP));
    HybridCreateExample(Run(BARE, [FUND]).(tx := 1));
    HybridTopUpExample(LumpOpened().(tx := 2));
  }

  // ----- A very long stream, paused at once -----

  const LONG: i128 := 2 * TWO_POW_64 - 3
  const LONG_STREAM: Stream := PausedStream(OpenStream(5, 7, 9, 1, LONG, 0, Linear), 0)

  function LongPause(): State {
    Run(BARE, [Mint(9, 5, LONG)] + [Invoke(1, CallCreateLinear(5, 7, 9, LONG, U64_MAX))] + [Invoke(2, CallPause(5, 1))])
  }

  lemma LongOpened()
    ensures var s := Run(BARE, [Mint(9, 5, LONG)] + [Invoke(1, CallCreateLinear(5, 7, 9, LONG, U64_MAX))]);
            && s.self == 0 && s.now == 0
            && TryLoadStream(s, 1) == Some(OpenStream(5, 7, 9, 1, LONG, 0, Linear))
  {
    var fund := Mint(9, 5, LONG);
    assert [] + [fund] == [fund];
    RunSnoc(BARE, [], fund);
    RunSnoc(BARE, [fund], Invoke(1, CallCreateLinear(5, 7, 9, LONG, U64_MAX)));
    QuotientUnique(LONG, U64_MAX, 1);
    PlainCreate(Run(BARE, [fund]).(tx := 1), 5, 7, 9, LONG, U64_MAX, 1);
  }

  lemma PauseExample(s: State, a: Stream)
    requires s.self == 0 && TryLoadStream(s, 1) == Some(a) && a.sender == 5 && a.isActive && !a.paused
    ensures var t := Exec(s, CallPause(5, 1)).0;
            t.self == 0 && t.now == s.now && TryLoadStream(t, 1) == Some(PausedStream(a, s.now))
  {
  }

  lemma LongPauseReached()
    ensures LongPause().self == 0 && LongPause().now == 0
    ensures TryLoadStream(LongPause(), 1) == Some(LONG_STREAM)
  {
    var steps := [Mint(9, 5, LONG)] + [Invoke(1, CallCreateLinear(5, 7, 9, LONG, U64_MAX))];
    LongOpened();
    PauseExample(Run(BARE, steps).(tx := 2), OpenStream(5, 7, 9, 1, LONG, 0, Linear));
    RunSnoc(BARE, steps, Invoke(2, CallPause(5, 1)));
  }

  // ----- A stream that cannot be resumed -----

  const TRAPPED: Stream := PausedStream(OpenStream(5, 7, 9, 1, U64_MAX, 1, Linear), 1)
  const TRAP_STEPS: seq<Step> :=
    [Mint(9, 5, U64_MAX)] + [Tick(1)] + [Invoke(1, CallCreateLinear(5, 7, 9, U64_MAX, U64_MAX))]
    + [Invoke(2, CallPause(5, 1))]

  function TrappedPause(): State {
    Run(BARE, TRAP_STEPS)
  }

  lemma TrapOpened()
    ensures var s := Run(BARE, [Mint(9, 5, U64_MAX)] + [Tick(1)]
                               + [Invoke(1, CallCreateLinear(5, 7, 9, U64_MAX, U64_MAX))]);
            && s.self == 0 && s.now == 1
            && TryLoadStream(s, 1) == Some(OpenStream(5, 7, 9, 1, U64_MAX, 1, Linear))
  {
    var fund := Mint(9, 5, U64_MAX);
    assert [] + [fund] == [fund];
    RunSnoc(BARE, [], fund);
    RunSnoc(BARE, [fund], Tick(1));
    RunSnoc(BARE, [fund] + [Tick(1)], Invoke(1, CallCreateLinear(5, 7, 9, U64_MAX, U64_MAX)));
    QuotientUnique(U64_MAX, U64_MAX, 1);
    PlainCreate(Run(BARE, [fund] + [Tick(1)]).(tx := 1), 5, 7, 9, U64_MAX, U64_MAX, 1);
  }

  lemma TrappedPauseReached()
    ensures TrappedPause().self == 0 && TrappedPause().now == 1
    ensures TryLoadStream(TrappedPause(), 1) == Some(TRAPPED)
  {
    var steps := [Mint(9, 5, U64_MAX)] + [Tick(1)] + [Invoke(1, CallCreateLinear(5, 7, 9, U64_MAX, U64_MAX))];
    TrapOpened();
    PauseExample(Run(BARE, steps).(tx := 2), OpenStream(5, 7, 9, 1, U64_MAX, 1, Linear));
    RunSnoc(BARE, steps, Invoke(2, CallPause(5, 1)));
  }
}
