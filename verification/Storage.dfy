/** The contract's persistent state, the version-tolerant decoding of what is
    stored, and the token ledger the contract pays from. */
module Storage {
  import opened Bounded
  import opened Results
  import opened StreamTypes

  /** What a storage slot may hold: a 13-field record, the older 12-field one, or
      a value of any other shape, which no decoder accepts. */
  datatype StoredStream =
    | CurrentStream(stream: Stream)
    | OldStream(legacy: LegacyStream)
    | UnreadableStream

  datatype StoredConfig =
    | CurrentConfig(config: ProtocolConfig)
    | OldConfig(legacy: LegacyConfig)
    | UnreadableConfig

  type Ledger = map<(Address, Address), Amount>

  /** Everything a call can see or change: the executing ledger's timestamp and
      transaction, the store, the balances and the emitted events. */
  datatype State = State(
    self: Address,
    now: u64,
    tx: TxHash,
    records: map<u64, StoredStream>,
    counter: u64,
    config: Option<StoredConfig>,
    version: nat,
    balances: Ledger,
    log: seq<LogEntry>)

  // ----- Version-tolerant decoding -----

  function UpgradeLegacyStream(l: LegacyStream): Stream {
    Stream(l.sender, l.recipient, l.token, l.ratePerSecond, l.deposited, l.withdrawn,
           l.startTime, l.lastUpdate, l.isActive, l.paused, l.pausedAt, l.status, Linear)
  }

  function DecodeStream(r: StoredStream): Option<Stream> {
    match r
    case CurrentStream(stream) => Some(stream)
    case OldStream(legacy) => Some(UpgradeLegacyStream(legacy))
    case UnreadableStream => None
  }

  function DecodeConfig(r: StoredConfig): Option<ProtocolConfig> {
    match r
    case CurrentConfig(config) => Some(config)
    case OldConfig(l) => Some(ProtocolConfig(l.admin, l.treasury, l.feeRateBps, false, None))
    case UnreadableConfig => None
  }

  // ----- Reads -----

  function TryLoadStream(s: State, id: u64): Option<Stream> {
    if id in s.records then DecodeStream(s.records[id]) else None
  }

  function LoadStream(s: State, id: u64): Result<Stream> {
    match TryLoadStream(s, id)
    case Some(stream) => Ok(stream)
    case None => Err(StreamNotFound)
  }

  function TryLoadConfig(s: State): Option<ProtocolConfig> {
    match s.config
    case Some(r) => DecodeConfig(r)
    case None => None
  }

  function LoadConfig(s: State): Result<ProtocolConfig> {
    match TryLoadConfig(s)
    case Some(config) => Ok(config)
    case None => Err(NotInitialized)
  }

  // ----- Writes -----

  function SaveStream(s: State, id: u64, stream: Stream): State {
    s.(records := s.records[id := CurrentStream(stream)])
  }

  function RemoveStream(s: State, id: u64): State {
    s.(records := s.records - {id})
  }

  function SaveConfig(s: State, config: ProtocolConfig): State {
    s.(config := Some(CurrentConfig(config)))
  }

  /** Ids start at 1; the counter's own addition traps when it would overflow. */
  function NextStreamId(s: State): Result<(State, u64)> {
    if s.counter == U64_MAX then Err(HostTrap)
    else Ok((s.(counter := s.counter + 1), s.counter + 1))
  }

  function Emit(s: State, event: Event): State {
    s.(log := s.log + [LogEntry(s.tx, event)])
  }

  // ----- Token ledger -----

  function Balance(s: State, token: Address, who: Address): Amount {
    if (token, who) in s.balances then s.balances[(token, who)] else 0
  }

  /** A token transfer either moves exactly `amount` or aborts the whole call. */
  function Transfer(s: State, token: Address, from: Address, to: Address, amount: int): Result<State> {
    if amount < 0 || Balance(s, token, from) < amount then Err(HostTrap)
    else
      var debited := s.(balances := s.balances[(token, from) := Balance(s, token, from) - amount]);
      if Balance(debited, token, to) + amount > I128_MAX then Err(HostTrap)
      else Ok(debited.(balances := debited.balances[(token, to) := Balance(debited, token, to) + amount]))
  }

  /** A transfer conserves the token: what one side loses the other gains, no
      other balance moves, and nothing but the ledger changes. */
  lemma TransferConserves(s: State, token: Address, from: Address, to: Address, amount: int)
    requires Transfer(s, token, from, to, amount).Ok?
    ensures var t := Transfer(s, token, from, to, amount).value;
            && t == s.(balances := t.balances)
            && (forall k: Address, w: Address :: (k, w) != (token, from) && (k, w) != (token, to)
                  ==> Balance(t, k, w) == Balance(s, k, w))
            && (from == to ==> Balance(t, token, from) == Balance(s, token, from))
            && (from != to ==> (
                  && Balance(t, token, from) == Balance(s, token, from) - amount
                  && Balance(t, token, to) == Balance(s, token, to) + amount))
  {
  }
}
