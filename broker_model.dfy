/**
 * Broker-integration records exchanged with the backend. Field names keep
 * the backend's snake_case wire names, since renaming them into the
 * dashboard's own shapes is part of what the services do.
 */
module BrokerModel {
  import opened Wrappers

  /** The supported brokers; only Interactive Brokers today. */
  datatype BrokerType = Ibkr

  /** The wire value of a broker type. */
  function BrokerTypeName(b: BrokerType): (name: string)
    ensures name == "ibkr"
    ensures forall other: BrokerType :: BrokerTypeName(other) == name ==> other == b
  {
    match b
    case Ibkr => "ibkr"
  }

  /** Lifecycle status of a broker account. */
  datatype AccountStatus = Pending | Active | Error | Disconnected

  /** The wire value of a status, as the status display receives it. */
  function StatusName(s: AccountStatus): (name: string)
    ensures name in {"pending", "active", "error", "disconnected"}
  {
    match s
    case Pending => "pending"
    case Active => "active"
    case Error => "error"
    case Disconnected => "disconnected"
  }

  /** Request body of a connect call. */
  datatype BrokerAccountCreate = BrokerAccountCreate(
    broker: BrokerType,
    account_code: string,
    conn_host: string,
    conn_port: int,
    client_id: int)

  /** An account as the backend reports it. */
  datatype BrokerAccountResponse = BrokerAccountResponse(
    id: int,
    user_id: int,
    broker: BrokerType,
    account_code: string,
    conn_host: string,
    conn_port: int,
    client_id: int,
    status: AccountStatus,
    connected_at: Option<string>,
    created_at: string,
    updated_at: string)

  /** Response of a sync request. */
  datatype SyncResponse = SyncResponse(status: string, broker_account_id: int)

  /** A point-in-time quote. */
  datatype LiveQuote = LiveQuote(
    symbol: string,
    price: real,
    change: real,
    change_percent: real,
    timestamp: string)
}
