/**
 * The donation page component itself: its `useState` fields as the fields of
 * a class, and its event handlers as methods that update them in place. Each
 * method is proved to leave the page in exactly the state that the matching
 * function of `HomeState` describes, so everything proved there about the
 * handlers holds of these methods.
 */
module HomePage {
  import opened Wrappers
  import opened Campaigns
  import opened HomeState

  class HomePage {
    /** The `ethers.utils` helpers the page calls. */
    const env: Env
    var ethWallet: bool
    var account: Option<string>
    var atmBound: bool
    var balance: Option<string>
    var donationAmountInput: string
    var depositAmountInput: string
    var withdrawAmountInput: string
    var donationError: string
    var isBalanceHidden: bool
    var notifications: seq<string>
    const campaigns: seq<Campaign>
    var donations: seq<DonationRecord>
    var selectedCampaignId: Option<string>
    /**
     * The calls sent to the ATM contract so far: an observation of the
     * page's traffic, not a field of the component.
     */
    ghost var ledger: seq<LedgerCall>

    ghost function Snap(): Snapshot
      reads this
    {
      Snapshot(ethWallet, account, atmBound, balance, donationAmountInput, depositAmountInput,
               withdrawAmountInput, donationError, isBalanceHidden, notifications, campaigns,
               donations, selectedCampaignId, ledger)
    }

    ghost predicate Valid()
      reads this
    {
      Consistent(Snap())
    }

    /** The page once mounted, with `walletPresent` telling whether `window.ethereum` was found. */
    constructor (env: Env, walletPresent: bool)
      ensures Valid() && this.env == env
      ensures Snap() == Initial(walletPresent)
    {
      this.env := env;
      ethWallet := walletPresent;
      account := None;
      atmBound := false;
      balance := None;
      donationAmountInput := "";
      depositAmountInput := "";
      withdrawAmountInput := "";
      donationError := "";
      isBalanceHidden := false;
      notifications := [];
      campaigns := Catalog();
      donations := [];
      selectedCampaignId := None;
      ledger := [];
    }

    method AddNotification(message: string)
      requires Valid()
      modifies this
      ensures Valid()
      ensures Snap() == HomeState.AddNotification(old(Snap()), message)
    {
      notifications := notifications + [message];
    }

    method ClearNotifications()
      requires Valid()
      modifies this
      ensures Valid()
      ensures Snap() == HomeState.ClearNotifications(old(Snap()))
    {
      notifications := [];
    }

    method ToggleBalanceVisibility()
      requires Valid()
      modifies this
      ensures Valid()
      ensures Snap() == HomeState.ToggleBalanceVisibility(old(Snap()))
    {
      isBalanceHidden := !isBalanceHidden;
    }

    /** `getBalance`; `reading` is the contract's answer, `None` if the query fails. */
    method GetBalance(reading: Option<nat>)
      requires Valid()
      modifies this
      ensures Valid()
      ensures Snap() == HomeState.GetBalance(old(Snap()), env, reading)
    {
      if atmBound {
        ledger := ledger + [BalanceQuery];
        if reading.Some? {
          balance := Some(env.formatEther(reading.value));
        }
      }
    }

    method HandleAccount(accounts: seq<string>)
      requires Valid()
      modifies this
      ensures Valid()
      ensures Snap() == HomeState.HandleAccount(old(Snap()), accounts)
    {
      if |accounts| > 0 {
        account := Some(accounts[0]);
      }
    }

    method GetATMContract()
      requires Valid()
      modifies this
      ensures Valid()
      ensures Snap() == HomeState.GetATMContract(old(Snap()))
    {
      atmBound := true;
    }

    /**
     * `connectAccount`; `walletMissing` says whether the "wallet is required"
     * alert was shown.
     */
    method ConnectAccount(requestOk: bool, accounts: seq<string>) returns (walletMissing: bool)
      requires Valid()
      modifies this
      ensures Valid()
      ensures walletMissing == !old(ethWallet)
      ensures Snap() == HomeState.ConnectAccount(old(Snap()), requestOk, accounts)
    {
      if !ethWallet {
        return true;
      }
      walletMissing := false;
      if !requestOk {
        return;
      }
      HandleAccount(accounts);
      GetATMContract();
    }

    method Deposit(ledgerOk: bool, reading: Option<nat>)
      requires Valid()
      modifies this
      ensures Valid()
      ensures Snap() == HomeState.Deposit(old(Snap()), env, ledgerOk, reading)
    {
      if !atmBound || account.None? || !env.isAddress(account.value) {
        return;
      }
      var parsed := env.parseEther(depositAmountInput);
      if parsed.None? {
        AddNotification(DepositFailed);
        return;
      }
      var amount := parsed.value;
      ledger := ledger + [DepositTx(amount)];
      if !ledgerOk {
        AddNotification(DepositFailed);
        return;
      }
      GetBalance(reading);
      depositAmountInput := "";
      AddNotification(DepositedMessage(env, amount));
    }

    method Withdraw(ledgerOk: bool, reading: Option<nat>)
      requires Valid()
      modifies this
      ensures Valid()
      ensures Snap() == HomeState.Withdraw(old(Snap()), env, ledgerOk, reading)
    {
      if !atmBound || account.None? || !env.isAddress(account.value) {
        return;
      }
      var parsed := env.parseEther(withdrawAmountInput);
      if parsed.None? {
        AddNotification(WithdrawalFailed);
        return;
      }
      var amount := parsed.value;
      ledger := ledger + [WithdrawTx(amount)];
      if !ledgerOk {
        AddNotification(WithdrawalFailed);
        return;
      }
      GetBalance(reading);
      withdrawAmountInput := "";
      AddNotification(WithdrawnMessage(env, amount));
    }

    method Donate(ledgerOk: bool, reading: Option<nat>)
      requires Valid()
      modifies this
      ensures Valid()
      ensures Snap() == HomeState.Donate(old(Snap()), env, ledgerOk, reading)
    {
      if !atmBound || account.None? || !env.isAddress(account.value) {
        return;
      }
      donationError := "";
      if selectedCampaignId.None? || selectedCampaignId.value == "" {
        donationError := SelectCampaignError;
        return;
      }
      var selected := FindCampaign(campaigns, ParseInt(selectedCampaignId.value));
      if selected.None? {
        donationError := InvalidCampaignError;
        return;
      }
      SendDonation(selected.value, ledgerOk, reading);
    }

    /**
     * The part of `donate` after its guard passed and the catalog campaign
     * `campaign` was found.
     */
    method SendDonation(campaign: Campaign, ledgerOk: bool, reading: Option<nat>)
      requires Valid() && Ready(Snap(), env) && campaign in campaigns
      modifies this
      ensures Valid()
      ensures Snap() == HomeState.SendDonation(old(Snap()), env, campaign, ledgerOk, reading)
    {
      var parsed := env.parseEther(donationAmountInput);
      if parsed.None? {
        AddNotification(DonationFailed);
        return;
      }
      var amount := parsed.value;
      if amount < OneEther {
        donationError := MinimumDonationError;
        return;
      }
      ledger := ledger + [DepositTx(amount)];
      if !ledgerOk {
        AddNotification(DonationFailed);
        return;
      }
      ghost var sent := Snap();
      GetBalance(reading);
      donationAmountInput := "";
      AppendRecordKeepsConsistent(Snap(), DonationRecord(campaign.id, campaign.name, amount), campaign);
      donations := donations + [DonationRecord(campaign.id, campaign.name, amount)];
      assert Snap() == HomeState.GetBalance(sent, env, reading).(donationAmountInput := "",
        donations := sent.donations + [DonationRecord(campaign.id, campaign.name, amount)]);
      AddNotification(DonatedMessage(env, amount, campaign.name));
    }

    method EnterDonationAmount(value: string)
      requires Valid()
      modifies this
      ensures Valid()
      ensures Snap() == HomeState.EnterDonationAmount(old(Snap()), value)
    {
      donationAmountInput := value;
    }

    method EnterDepositAmount(value: string)
      requires Valid()
      modifies this
      ensures Valid()
      ensures Snap() == HomeState.EnterDepositAmount(old(Snap()), value)
    {
      depositAmountInput := value;
    }

    method EnterWithdrawAmount(value: string)
      requires Valid()
      modifies this
      ensures Valid()
      ensures Snap() == HomeState.EnterWithdrawAmount(old(Snap()), value)
    {
      withdrawAmountInput := value;
    }

    method SelectCampaign(value: string)
      requires Valid()
      modifies this
      ensures Valid()
      ensures Snap() == HomeState.SelectCampaign(old(Snap()), value)
    {
      selectedCampaignId := Some(value);
    }
  }
}
