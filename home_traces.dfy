/**
 * Sequences of user events on the page, run one at a time, and what holds
 * along every such sequence.
 */
module HomeTraces {
  import opened Wrappers
  import opened Campaigns
  import opened HomeState

  /** One user action, with the outcomes of the external calls it makes. */
  datatype Event =
    | ConnectClicked(requestOk: bool, accounts: seq<string>)
    | BalanceRequested(reading: Option<nat>)
    | DonateClicked(ledgerOk: bool, reading: Option<nat>)
    | DepositClicked(ledgerOk: bool, reading: Option<nat>)
    | WithdrawClicked(ledgerOk: bool, reading: Option<nat>)
    | ToggleClicked
    | ClearClicked
    | DonationTyped(value: string)
    | DepositTyped(value: string)
    | WithdrawTyped(value: string)
    | CampaignPicked(value: string)

  function Step(s: Snapshot, env: Env, e: Event): Snapshot {
    match e
    case ConnectClicked(ok, accounts) => ConnectAccount(s, ok, accounts)
    case BalanceRequested(reading) => GetBalance(s, env, reading)
    case DonateClicked(ok, reading) => Donate(s, env, ok, reading)
    case DepositClicked(ok, reading) => Deposit(s, env, ok, reading)
    case WithdrawClicked(ok, reading) => Withdraw(s, env, ok, reading)
    case ToggleClicked => ToggleBalanceVisibility(s)
    case ClearClicked => ClearNotifications(s)
    case DonationTyped(v) => EnterDonationAmount(s, v)
    case DepositTyped(v) => EnterDepositAmount(s, v)
    case WithdrawTyped(v) => EnterWithdrawAmount(s, v)
    case CampaignPicked(v) => SelectCampaign(s, v)
  }

  function Run(s: Snapshot, env: Env, events: seq<Event>): Snapshot
    decreases |events|
  {
    if events == [] then s else Run(Step(s, env, events[0]), env, events[1..])
  }

  /** The number of `atm.deposit` calls in a ledger log. */
  function Deposits(log: seq<LedgerCall>): nat {
    if log == [] then 0 else (if log[0].DepositTx? then 1 else 0) + Deposits(log[1..])
  }

  lemma {:induction false} DepositsAppend(a: seq<LedgerCall>, b: seq<LedgerCall>)
    ensures Deposits(a + b) == Deposits(a) + Deposits(b)
  {
    if a != [] {
      assert (a + b)[0] == a[0];
      assert (a + b)[1..] == a[1..] + b;
      DepositsAppend(a[1..], b);
    } else {
      assert a + b == b;
    }
  }

  /**
   * `t` is a later state of the same session as `s`: the donation history and
   * the ledger log only grow, binding and account are never lost, and every
   * added donation record is matched by an added `atm.deposit` call.
   */
  ghost predicate Extends(s: Snapshot, t: Snapshot) {
    && t.ethWallet == s.ethWallet
    && t.campaigns == s.campaigns
    && s.donations <= t.donations
    && s.ledger <= t.ledger
    && (s.atmBound ==> t.atmBound)
    && (s.account.Some? ==> t.account.Some?)
    && |t.donations| - |s.donations| <= Deposits(t.ledger) - Deposits(s.ledger)
  }

  lemma DepositThenQuery(a: int)
    ensures Deposits([DepositTx(a), BalanceQuery]) == 1
  {
    var l := [DepositTx(a), BalanceQuery];
    assert l[1..] == [BalanceQuery];
    assert l[1..][1..] == [];
    assert Deposits(l[1..][1..]) == 0;
    assert Deposits(l[1..]) == 0;
  }

  /** A step that only appends to the log and keeps the history extends the state. */
  lemma ExtendsByLog(s: Snapshot, t: Snapshot)
    requires s.ledger <= t.ledger && t.donations == s.donations
    requires t.ethWallet == s.ethWallet && t.campaigns == s.campaigns
    requires (s.atmBound ==> t.atmBound) && (s.account.Some? ==> t.account.Some?)
    ensures Extends(s, t)
  {
    var suffix := t.ledger[|s.ledger|..];
    assert t.ledger == s.ledger + suffix;
    DepositsAppend(s.ledger, suffix);
  }

  lemma DonateExtends(s: Snapshot, env: Env, ok: bool, reading: Option<nat>)
    requires Consistent(s)
    ensures Consistent(Donate(s, env, ok, reading)) && Extends(s, Donate(s, env, ok, reading))
  {
    var t := Donate(s, env, ok, reading);
    DonateKeepsConsistent(s, env, ok, reading);
    DonateRecordsMatchDeposits(s, env, ok, reading);
    if t.donations == s.donations {
      ExtendsByLog(s, t);
    } else {
      var a := t.donations[|s.donations|].amount;
      DepositsAppend(s.ledger, [DepositTx(a), BalanceQuery]);
      DepositThenQuery(a);
    }
  }

  lemma StepExtends(s: Snapshot, env: Env, e: Event)
    requires Consistent(s)
    ensures Consistent(Step(s, env, e)) && Extends(s, Step(s, env, e))
  {
    match e
    case DonateClicked(ok, reading) => DonateExtends(s, env, ok, reading);
    case DepositClicked(ok, reading) => ExtendsByLog(s, Deposit(s, env, ok, reading));
    case WithdrawClicked(ok, reading) => ExtendsByLog(s, Withdraw(s, env, ok, reading));
    case BalanceRequested(reading) => ExtendsByLog(s, GetBalance(s, env, reading));
    case ConnectClicked(ok, accounts) => ExtendsByLog(s, ConnectAccount(s, ok, accounts));
    case ToggleClicked => ExtendsByLog(s, ToggleBalanceVisibility(s));
    case ClearClicked => ExtendsByLog(s, ClearNotifications(s));
    case DonationTyped(v) => ExtendsByLog(s, EnterDonationAmount(s, v));
    case DepositTyped(v) => ExtendsByLog(s, EnterDepositAmount(s, v));
    case WithdrawTyped(v) => ExtendsByLog(s, EnterWithdrawAmount(s, v));
    case CampaignPicked(v) => ExtendsByLog(s, SelectCampaign(s, v));
  }

  lemma {:induction false} RunExtends(s: Snapshot, env: Env, events: seq<Event>)
    requires Consistent(s)
    ensures Consistent(Run(s, env, events)) && Extends(s, Run(s, env, events))
    decreases |events|
  {
    if events != [] {
      var next := Step(s, env, events[0]);
      StepExtends(s, env, events[0]);
      RunExtends(next, env, events[1..]);
    }
  }

  /** Without a wallet provider the page never binds the contract and never calls the ledger. */
  lemma {:induction false} NoWalletIsInert(s: Snapshot, env: Env, events: seq<Event>)
    requires !s.ethWallet && !s.atmBound
    ensures var t := Run(s, env, events);
            !t.atmBound && t.account == s.account && t.ledger == s.ledger &&
            t.donations == s.donations && t.balance == s.balance
    decreases |events|
  {
    if events != [] {
      NoWalletIsInert(Step(s, env, events[0]), env, events[1..]);
    }
  }

  // ---------------- Scenarios ----------------

  /** The page after connecting `address`, picking the option "1" and typing `amount`. */
  function PreparedDonation(address: string, amount: string): Snapshot {
    EnterDonationAmount(SelectCampaign(ConnectAccount(Initial(true), true, [address]), "1"), amount)
  }

  /** Donating "2" ether to campaign 1 records one donation and one notification. */
  lemma DonateTwoEtherScenario(env: Env, address: string, reading: Option<nat>)
    requires env.isAddress(address)
    requires env.parseEther("2") == Some(2 * OneEther)
    ensures var t := Donate(PreparedDonation(address, "2"), env, true, reading);
            && t.donations == [DonationRecord(1, "Save the Children", 2 * OneEther)]
            && t.notifications == [DonatedMessage(env, 2 * OneEther, "Save the Children")]
            && t.ledger == [DepositTx(2 * OneEther), BalanceQuery]
            && t.donationAmountInput == "" && t.donationError == ""
  {
    PickCampaignOne(PreparedDonation(address, "2"));
  }

  /** Donating "0.5" ether is refused before any ledger call. */
  lemma DonateHalfEtherScenario(env: Env, address: string, reading: Option<nat>, ok: bool)
    requires env.isAddress(address)
    requires env.parseEther("0.5") == Some(OneEther / 2)
    ensures var t := Donate(PreparedDonation(address, "0.5"), env, ok, reading);
            && t.donations == [] && t.notifications == [] && t.ledger == []
            && t.donationError == MinimumDonationError
  {
    PickCampaignOne(PreparedDonation(address, "0.5"));
  }

  lemma PickCampaignOne(s: Snapshot)
    requires s.campaigns == Catalog() && s.selectedCampaignId == Some("1")
    ensures !NoCampaignChosen(s)
    ensures ChosenCampaign(s) == Some(Campaign(1, "Save the Children", 100 * OneEther))
  {
    ParseIntOne();
    FindCampaignOne();
  }

  lemma ParseIntOne()
    ensures ParseInt("1") == Some(1)
  {
    assert "1" == DecimalString(1);
    ParseIntDecimalString(1);
  }

  lemma FindCampaignOne()
    ensures FindCampaign(Catalog(), Some(1)) == Some(Campaign(1, "Save the Children", 100 * OneEther))
  {
    CatalogLookup(1);
  }

  /** `connect()` without a wallet provider: nothing changes. */
  lemma ConnectWithoutWalletScenario(requestOk: bool, accounts: seq<string>)
    ensures ConnectAccount(Initial(false), requestOk, accounts) == Initial(false)
  {
  }

  /**
   * An accepted request with an empty account list still binds the contract,
   * yet the page stays unable to transact: a deposit right after is inert.
   */
  lemma EmptyAccountListBindsWithoutAccount(env: Env, ok: bool, reading: Option<nat>)
    ensures var t := ConnectAccount(Initial(true), true, []);
            t.atmBound && t.account.None? && !Ready(t, env) &&
            Deposit(t, env, ok, reading) == t
  {
  }
}
