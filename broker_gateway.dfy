/**
 * The broker service: a client-side cache of the user's broker accounts
 * plus the `loading`, `error` and `liveQuote` state, each updated when a
 * backend call completes. A call and its completion are one step here; the
 * call's response is the `Outcome` argument.
 */
module BrokerGateway {
  import opened Wrappers
  import opened Http
  import opened BrokerModel
  import Seqs

  const ConnectFailed := "Failed to connect to broker"
  const LoadFailed := "Failed to load broker accounts"
  const DisconnectFailed := "Failed to disconnect broker"
  const SyncFailed := "Failed to sync broker data"

  predicate IsActive(a: BrokerAccountResponse) { a.status == Active }

  /** `accounts.some(acc => acc.status === 'active')`. */
  function AnyActive(accounts: seq<BrokerAccountResponse>): (r: bool)
    ensures r <==> exists k :: 0 <= k < |accounts| && accounts[k].status == Active
  {
    Seqs.Any(IsActive, accounts)
  }

  /** `accounts.filter(acc => acc.id !== id)`. */
  function WithoutId(accounts: seq<BrokerAccountResponse>, id: int): (r: seq<BrokerAccountResponse>)
    ensures forall a :: a in r <==> a in accounts && a.id != id
    ensures forall a :: multiset(r)[a] == if a.id != id then multiset(accounts)[a] else 0
    ensures Seqs.Subsequence(r, accounts)
    ensures (forall k :: 0 <= k < |accounts| ==> accounts[k].id != id) ==> r == accounts
  {
    var keep := (a: BrokerAccountResponse) => a.id != id;
    Seqs.FilterMembers(keep, accounts);
    Seqs.FilterCounts(keep, accounts);
    Seqs.FilterIsSubsequence(keep, accounts);
    Seqs.FilterKeepsAll(keep, accounts);
    Seqs.Filter(keep, accounts)
  }

  /** The quote recorded when a quote request fails. */
  function PlaceholderQuote(symbol: string, now: string): (q: LiveQuote)
    ensures q.symbol == symbol && q.timestamp == now
  {
    LiveQuote(symbol, 45230.50, 1250.30, 2.84, now)
  }

  class BrokerService {
    var brokerAccounts: seq<BrokerAccountResponse>
    var loading: bool
    var error: Option<string>
    var liveQuote: Option<LiveQuote>

    /** The service loads the account list as soon as it is created. */
    constructor (accounts: Outcome<seq<BrokerAccountResponse>>)
      ensures brokerAccounts == (if accounts.Success? then accounts.data else [])
      ensures error == (if accounts.Success? then None else Some(LoadFailed))
      ensures !loading && liveQuote == None
    {
      brokerAccounts := [];
      loading := false;
      error := None;
      liveQuote := None;
      new;
      LoadBrokerAccounts(accounts);
    }

    /** True iff some cached account is active. */
    function HasConnectedBroker(): (r: bool)
      reads this
      ensures r <==> exists k :: 0 <= k < |brokerAccounts| && brokerAccounts[k].status == Active
    {
      AnyActive(brokerAccounts)
    }

    /**
     * Connect a new account. `error` is cleared when the call starts; on
     * success the new account is appended after the existing ones, on
     * failure the list is kept and the server's detail is recorded.
     */
    method ConnectBroker(account: BrokerAccountCreate, response: Outcome<BrokerAccountResponse>)
      returns (result: Outcome<BrokerAccountResponse>)
      modifies this`brokerAccounts, this`loading, this`error
      ensures result == response
      ensures !loading
      ensures response.Success? ==> brokerAccounts == old(brokerAccounts) + [response.data] && error == None
      ensures response.Failure? ==>
                brokerAccounts == old(brokerAccounts) &&
                error == Some(DetailOr(response.detail, ConnectFailed))
    {
      loading := true;
      error := None;
      match response {
        case Success(created) =>
          brokerAccounts := brokerAccounts + [created];
          loading := false;
        case Failure(detail) =>
          error := Some(DetailOr(detail, ConnectFailed));
          loading := false;
      }
      result := response;
    }

    /**
     * Reload the account list: replaced wholesale on success. `error` is not
     * cleared when the call starts, so a success leaves an earlier message.
     */
    method LoadBrokerAccounts(accounts: Outcome<seq<BrokerAccountResponse>>)
      modifies this`brokerAccounts, this`loading, this`error
      ensures !loading
      ensures accounts.Success? ==> brokerAccounts == accounts.data && error == old(error)
      ensures accounts.Failure? ==> brokerAccounts == old(brokerAccounts) && error == Some(LoadFailed)
    {
      loading := true;
      match accounts {
        case Success(list) =>
          brokerAccounts := list;
          loading := false;
        case Failure(_) =>
          error := Some(LoadFailed);
          loading := false;
      }
    }

    /** Disconnect an account; on success every cached account with that id is dropped. */
    method DisconnectBroker(brokerAccountId: int, response: Outcome<()>) returns (result: Outcome<()>)
      modifies this`brokerAccounts, this`loading, this`error
      ensures result == response
      ensures !loading
      ensures response.Success? ==>
                brokerAccounts == WithoutId(old(brokerAccounts), brokerAccountId) && error == old(error)
      ensures response.Failure? ==> brokerAccounts == old(brokerAccounts) && error == Some(DisconnectFailed)
    {
      loading := true;
      match response {
        case Success(_) =>
          brokerAccounts := WithoutId(brokerAccounts, brokerAccountId);
          loading := false;
        case Failure(_) =>
          error := Some(DisconnectFailed);
          loading := false;
      }
      result := response;
    }

    /** Ask the backend to sync an account; only a failure changes state. */
    method SyncBrokerData(brokerAccountId: int, response: Outcome<SyncResponse>)
      returns (result: Outcome<SyncResponse>)
      modifies this`error
      ensures result == response
      ensures error == if response.Success? then old(error) else Some(SyncFailed)
    {
      if response.Failure? {
        error := Some(SyncFailed);
      }
      result := response;
    }

    /**
     * Fetch a quote. On failure a placeholder for the requested symbol is
     * still recorded, and the failure is passed on to the caller.
     */
    method GetLiveQuote(symbol: string, response: Outcome<LiveQuote>, now: string)
      returns (result: Outcome<LiveQuote>)
      modifies this`liveQuote
      ensures result == response
      ensures liveQuote == Some(if response.Success? then response.data else PlaceholderQuote(symbol, now))
    {
      match response {
        case Success(quote) =>
          liveQuote := Some(quote);
        case Failure(_) =>
          liveQuote := Some(PlaceholderQuote(symbol, now));
      }
      result := response;
    }
  }

  /** Connecting an account that is active makes the service report a connected broker. */
  lemma ConnectActiveConnects(before: seq<BrokerAccountResponse>, created: BrokerAccountResponse)
    requires created.status == Active
    ensures AnyActive(before + [created])
  {
    assert (before + [created])[|before|] == created;
  }

  /** Disconnecting never makes an unconnected service connected. */
  lemma {:induction false} DisconnectKeepsUnconnected(accounts: seq<BrokerAccountResponse>, id: int)
    requires !AnyActive(accounts)
    ensures !AnyActive(WithoutId(accounts, id))
  {
    var r := WithoutId(accounts, id);
    forall k | 0 <= k < |r|
      ensures r[k].status != Active
    {
      assert r[k] in r;
    }
  }
}
