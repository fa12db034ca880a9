/**
 * The broker-connection view: a connection form with field validators,
 * submission through the broker service, and the status badge lookups.
 */
module BrokerPage {
  import opened Wrappers
  import opened Http
  import opened BrokerModel
  import opened BrokerGateway

  /**
   * The form's current values. A cleared number or selection input holds
   * no value at all, hence the options.
   */
  datatype ConnectionForm = ConnectionForm(
    broker: Option<BrokerType>,
    account_code: string,
    conn_host: string,
    conn_port: Option<int>,
    client_id: Option<int>)

  /** The values the form starts with and is reset to after a successful connect. */
  const DefaultForm := ConnectionForm(Some(Ibkr), "", "127.0.0.1", Some(7497), Some(1))

  const MinPort := 1000
  const MaxPort := 65535

  /** `Validators.min(m)`: an empty input passes, only a value below `m` fails. */
  predicate AtLeast(v: Option<int>, m: int) { v.None? || v.value >= m }

  /** `Validators.max(m)`: an empty input passes, only a value above `m` fails. */
  predicate AtMost(v: Option<int>, m: int) { v.None? || v.value <= m }

  /**
   * The form group is valid when every control passes its validators:
   * `required` on all five, `min(1000)`/`max(65535)` on the port and
   * `min(1)` on the client id.
   */
  predicate FormValid(f: ConnectionForm)
    ensures FormValid(f) <==>
              f.broker.Some? && f.account_code != "" && f.conn_host != "" &&
              f.conn_port.Some? && MinPort <= f.conn_port.value <= MaxPort &&
              f.client_id.Some? && f.client_id.value >= 1
  {
    f.broker.Some? && f.account_code != "" && f.conn_host != "" &&
    f.conn_port.Some? && AtLeast(f.conn_port, MinPort) && AtMost(f.conn_port, MaxPort) &&
    f.client_id.Some? && AtLeast(f.client_id, 1)
  }

  /** The request body built from a valid form; it meets the gateway's parameter constraints. */
  function ToCreate(f: ConnectionForm): (a: BrokerAccountCreate)
    requires FormValid(f)
    ensures a.account_code != "" && a.conn_host != ""
    ensures MinPort <= a.conn_port <= MaxPort && a.client_id >= 1
  {
    BrokerAccountCreate(f.broker.value, f.account_code, f.conn_host, f.conn_port.value, f.client_id.value)
  }

  /** The defaults are not submittable until an account code is entered; with one they are. */
  lemma DefaultFormNeedsAccountCode(code: string)
    ensures !FormValid(DefaultForm)
    ensures FormValid(DefaultForm.(account_code := code)) <==> code != ""
  {
  }

  /** A port outside [1000, 65535] makes the form invalid whatever the other fields hold. */
  lemma PortOutOfRangeInvalid(f: ConnectionForm)
    requires f.conn_port.Some? && (f.conn_port.value < MinPort || f.conn_port.value > MaxPort)
    ensures !FormValid(f)
  {
  }

  /** `statusMap[status] || 'status-unknown'`. */
  function GetStatusClass(status: string): (c: string)
    ensures status in {"active", "pending", "error", "disconnected"} ==> c == "status-" + status
    ensures status !in {"active", "pending", "error", "disconnected"} ==> c == "status-unknown"
  {
    var statusMap := map[
      "active" := "status-active",
      "pending" := "status-pending",
      "error" := "status-error",
      "disconnected" := "status-disconnected"];
    if status in statusMap && statusMap[status] != "" then statusMap[status] else "status-unknown"
  }

  /** `iconMap[status] || '?'`. */
  function GetStatusIcon(status: string): (icon: string)
    ensures status !in {"active", "pending", "error", "disconnected"} <==> icon == "?"
    ensures |icon| == 1
  {
    var iconMap := map[
      "active" := "\U{2713}",
      "pending" := "\U{23F3}",
      "error" := "\U{2717}",
      "disconnected" := "\U{25CB}"];
    if status in iconMap && iconMap[status] != "" then iconMap[status] else "?"
  }

  /** Every status an account can have gets its own badge class and a proper icon. */
  lemma KnownStatusesDisplayed(s: AccountStatus)
    ensures GetStatusClass(StatusName(s)) == "status-" + StatusName(s)
    ensures GetStatusIcon(StatusName(s)) != "?"
  {
  }

  class BrokerComponent {
    const brokerService: BrokerService
    var form: ConnectionForm
    var showForm: bool

    constructor (brokerService: BrokerService)
      ensures this.brokerService == brokerService
      ensures form == DefaultForm && !showForm
    {
      this.brokerService := brokerService;
      form := DefaultForm;
      showForm := false;
    }

    /** Reloads the account list when the view opens. */
    method NgOnInit(accounts: Outcome<seq<BrokerAccountResponse>>)
      modifies brokerService`brokerAccounts, brokerService`loading, brokerService`error
      ensures !brokerService.loading
      ensures accounts.Success? ==>
                brokerService.brokerAccounts == accounts.data && brokerService.error == old(brokerService.error)
      ensures accounts.Failure? ==>
                brokerService.brokerAccounts == old(brokerService.brokerAccounts) &&
                brokerService.error == Some(LoadFailed)
    {
      brokerService.LoadBrokerAccounts(accounts);
    }

    /** Opens or closes the form. */
    method ToggleForm()
      modifies this`showForm
      ensures showForm == !old(showForm)
    {
      showForm := !showForm;
    }

    /**
     * Submits the form. An invalid form makes no call and changes nothing;
     * a valid one is sent, and only a successful connect resets and hides
     * the form.
     */
    method OnSubmit(response: Outcome<BrokerAccountResponse>) returns (called: bool)
      modifies this`form, this`showForm, brokerService`brokerAccounts, brokerService`loading, brokerService`error
      ensures called == FormValid(old(form))
      ensures !called ==>
                form == old(form) && showForm == old(showForm) &&
                unchanged(brokerService)
      ensures called ==> !brokerService.loading
      ensures called && response.Success? ==>
                form == DefaultForm && !showForm &&
                brokerService.brokerAccounts == old(brokerService.brokerAccounts) + [response.data] &&
                brokerService.error == None
      ensures called && response.Failure? ==>
                form == old(form) && showForm == old(showForm) &&
                brokerService.brokerAccounts == old(brokerService.brokerAccounts) &&
                brokerService.error == Some(DetailOr(response.detail, ConnectFailed))
    {
      called := FormValid(form);
      if called {
        var result := brokerService.ConnectBroker(ToCreate(form), response);
        if result.Success? {
          form := DefaultForm;
          showForm := false;
        }
      }
    }

    /** Disconnects an account once the user has confirmed the dialog. */
    method Disconnect(account: BrokerAccountResponse, confirmed: bool, response: Outcome<()>)
      modifies brokerService`brokerAccounts, brokerService`loading, brokerService`error
      ensures !confirmed ==> unchanged(brokerService)
      ensures confirmed ==> !brokerService.loading
      ensures confirmed && response.Success? ==>
                brokerService.brokerAccounts == WithoutId(old(brokerService.brokerAccounts), account.id) &&
                brokerService.error == old(brokerService.error)
      ensures confirmed && response.Failure? ==>
                brokerService.brokerAccounts == old(brokerService.brokerAccounts) &&
                brokerService.error == Some(DisconnectFailed)
    {
      if confirmed {
        var _ := brokerService.DisconnectBroker(account.id, response);
      }
    }

    /** Requests a background sync of an account. */
    method SyncData(account: BrokerAccountResponse, response: Outcome<SyncResponse>)
      modifies brokerService`error
      ensures brokerService.error == if response.Success? then old(brokerService.error) else Some(SyncFailed)
    {
      var _ := brokerService.SyncBrokerData(account.id, response);
    }

    /** Whether any account is cached. */
    function HasAccounts(): (r: bool)
      reads brokerService
      ensures r <==> brokerService.brokerAccounts != []
      ensures brokerService.HasConnectedBroker() ==> r
    {
      |brokerService.brokerAccounts| > 0
    }
  }
}
