/** Records, schedules, events and limits of the streaming contract. */
module StreamTypes {
  import opened Bounded
  import opened Results

  type Address = nat
  type TxHash = nat

  /** Token balances: never negative and always an i128. */
  type Amount = x: int | 0 <= x <= I128_MAX

  const MAX_VESTING_STEPS := 12
  const MAX_BATCH_WITHDRAW := 30
  const MAX_FEE_RATE_BPS := 1000
  const BPS_DENOMINATOR := 10000
  const CURRENT_DATA_VERSION := 2

  datatype Status = Active | Paused | Cancelled | Completed

  datatype VestingStep = VestingStep(unlockTime: u64, unlockAmount: i128)

  datatype VestingSchedule =
    | Linear
    | StepTranches(steps: seq<VestingStep>)
    | HybridCliffLinear(cliffTime: u64, cliffAmount: i128)

  datatype Stream = Stream(
    sender: Address,
    recipient: Address,
    token: Address,
    ratePerSecond: i128,
    deposited: i128,
    withdrawn: i128,
    startTime: u64,
    lastUpdate: u64,
    isActive: bool,
    paused: bool,
    pausedAt: Option<u64>,
    status: Status,
    schedule: VestingSchedule)

  /** The record written before schedules existed. */
  datatype LegacyStream = LegacyStream(
    sender: Address,
    recipient: Address,
    token: Address,
    ratePerSecond: i128,
    deposited: i128,
    withdrawn: i128,
    startTime: u64,
    lastUpdate: u64,
    isActive: bool,
    paused: bool,
    pausedAt: Option<u64>,
    status: Status)

  datatype ProtocolConfig = ProtocolConfig(
    admin: Address,
    treasury: Address,
    feeRateBps: nat,
    isProtocolPaused: bool,
    emergencyGuardian: Option<Address>)

  datatype LegacyConfig = LegacyConfig(admin: Address, treasury: Address, feeRateBps: nat)

  datatype Event =
    | StreamCreated(id: u64, sender: Address, recipient: Address, rate: i128, token: Address,
                    deposited: i128, startTime: u64)
    | StepVestingCreated(id: u64, sender: Address, recipient: Address, token: Address,
                         deposited: i128, stepCount: nat, lastUnlockTime: u64)
    | HybridCliffCreated(id: u64, sender: Address, recipient: Address, token: Address,
                         deposited: i128, cliffTime: u64, cliffAmount: i128, rate: i128)
    | StreamToppedUp(id: u64, sender: Address, amount: i128, newDeposited: i128, newEndTime: u64)
    | TokensWithdrawn(id: u64, recipient: Address, amount: i128, timestamp: u64)
    | StreamCompleted(id: u64, recipient: Address, totalWithdrawn: i128)
    | StreamCancelled(id: u64, sender: Address, recipient: Address, amountWithdrawn: i128,
                      refundedAmount: i128)
    | StreamClosed(id: u64, closer: Address, timestamp: u64)
    | StreamPaused(id: u64, sender: Address, pausedTime: u64)
    | StreamResumed(id: u64, sender: Address, newEndTime: u64)
    | FeeCollected(id: u64, treasury: Address, feeAmount: i128, token: Address)
    | Initialized(admin: Address, treasury: Address, feeRateBps: nat)
    | FeeConfigUpdated(admin: Address, oldTreasury: Address, newTreasury: Address,
                       oldFeeRateBps: nat, newFeeRateBps: nat)
    | ProtocolPauseStatus(caller: Address, paused: bool, timestamp: u64)
    | StateMigrated(admin: Address, oldVersion: nat, newVersion: nat)

  /** An event together with the transaction that emitted it. */
  datatype LogEntry = LogEntry(tx: TxHash, event: Event)
}
