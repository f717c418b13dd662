/**
 * The state of the donation page as one value, and one transition function
 * per event handler of the page. Every function states in its `ensures` what
 * the handler promises: its guards, the order of its checks, which ledger
 * call it makes, and what it appends, clears or leaves alone.
 *
 * The wallet, the ATM contract and the `ethers` helpers are not code here:
 * the wallet's reply and the outcome of each ledger call are parameters, and
 * the three `ethers.utils` helpers the page uses are the fields of `Env`.
 */
module HomeState {
  import opened Wrappers
  import opened Campaigns

  /**
   * `ethers.utils.parseEther` (a decimal ether string to wei, `None` where it
   * throws; ethers accepts a leading minus sign, so the result may be
   * negative), `ethers.utils.formatEther` (wei to a decimal ether string)
   * and `ethers.utils.isAddress`.
   */
  datatype Env = Env(
    parseEther: string -> Option<int>,
    formatEther: int -> string,
    isAddress: string -> bool)

  /** One entry of the donation history; `name` is a snapshot of the campaign's name. */
  datatype DonationRecord = DonationRecord(id: int, name: string, amount: int)

  /** A call the page sends to the ATM contract: `atm.deposit`, `atm.withdraw`, `atm.getBalance`. */
  datatype LedgerCall = DepositTx(amount: int) | WithdrawTx(amount: int) | BalanceQuery

  /**
   * The component's state. `ethWallet` says whether a wallet provider is
   * held, `atmBound` whether the contract handle `atm` is set, `balance` is
   * the formatted balance last read ( `None` while `undefined`), and
   * `selectedCampaignId` is the select's value (`None` while `null`).
   * `campaigns` is the catalog, which no handler changes.
   * `ledger` is the sequence of calls sent to the contract so far.
   */
  datatype Snapshot = Snapshot(
    ethWallet: bool,
    account: Option<string>,
    atmBound: bool,
    balance: Option<string>,
    donationAmountInput: string,
    depositAmountInput: string,
    withdrawAmountInput: string,
    donationError: string,
    isBalanceHidden: bool,
    notifications: seq<string>,
    campaigns: seq<Campaign>,
    donations: seq<DonationRecord>,
    selectedCampaignId: Option<string>,
    ledger: seq<LedgerCall>)

  /** The state right after mounting, once the wallet provider has been looked for. */
  function Initial(walletPresent: bool): (s: Snapshot)
    ensures s.ethWallet == walletPresent && s.account.None? && !s.atmBound && s.balance.None?
    ensures s.notifications == [] && s.donations == [] && s.ledger == [] && s.campaigns == Catalog()
    ensures s.donationAmountInput == "" && s.depositAmountInput == "" && s.withdrawAmountInput == ""
    ensures s.donationError == "" && !s.isBalanceHidden && s.selectedCampaignId.None?
  {
    Snapshot(walletPresent, None, false, None, "", "", "", "", false, [], Catalog(), [], None, [])
  }

  const SelectCampaignError := "Please select a campaign to donate"
  const InvalidCampaignError := "Invalid campaign selected"
  const MinimumDonationError := "Donation amount must be at least 1 ETH"
  const DonationFailed := "Donation failed"
  const DepositFailed := "Deposit failed"
  const WithdrawalFailed := "Withdrawal failed"

  /** The success notification of `deposit`: never the failure message. */
  function DepositedMessage(env: Env, amount: int): (m: string)
    ensures |m| >= 14 && m[..10] == "Deposited " && m[|m| - 4..] == " ETH"
    ensures m != DepositFailed
  {
    "Deposited " + env.formatEther(amount) + " ETH"
  }

  /** The success notification of `withdraw`: never the failure message. */
  function WithdrawnMessage(env: Env, amount: int): (m: string)
    ensures |m| >= 14 && m[..10] == "Withdrawn " && m[|m| - 4..] == " ETH"
    ensures m != WithdrawalFailed
  {
    "Withdrawn " + env.formatEther(amount) + " ETH"
  }

  /** The success notification of `donate`: it ends with the campaign's name and is never the failure message. */
  function DonatedMessage(env: Env, amount: int, name: string): (m: string)
    ensures |m| >= 15 + |name| && m[..8] == "Donated " && m[|m| - |name|..] == name
    ensures m[|m| - |name| - 8..|m| - |name|] == " ETH to "
    ensures m != DonationFailed
  {
    "Donated " + env.formatEther(amount) + " ETH to " + name
  }

  /** The guard of all three ledger operations: the contract is bound and the account is an address. */
  predicate Ready(s: Snapshot, env: Env): (r: bool)
    ensures !s.atmBound ==> !r
    ensures s.account.None? ==> !r
    ensures s.atmBound && s.account.Some? ==> (r <==> env.isAddress(s.account.value))
  {
    s.atmBound && s.account.Some? && env.isAddress(s.account.value)
  }

  /** `!selectedCampaignId`: nothing has been selected, or the placeholder option (value `""`). */
  predicate NoCampaignChosen(s: Snapshot): (r: bool)
    ensures s.selectedCampaignId == None ==> r
    ensures s.selectedCampaignId == Some("") ==> r
    ensures s.selectedCampaignId.Some? && s.selectedCampaignId.value != "" ==> !r
  {
    s.selectedCampaignId.None? || s.selectedCampaignId.value == ""
  }

  /** The campaign the selection names, if any. */
  function ChosenCampaign(s: Snapshot): (r: Option<Campaign>)
    requires !NoCampaignChosen(s)
    ensures r.Some? ==> r.value in s.campaigns && Some(r.value.id) == ParseInt(s.selectedCampaignId.value)
    ensures r.None? <==> forall c | c in s.campaigns :: Some(c.id) != ParseInt(s.selectedCampaignId.value)
  {
    FindCampaign(s.campaigns, ParseInt(s.selectedCampaignId.value))
  }

  /** What `balance` becomes once a balance query returns `reading` (`None`: the query failed). */
  function AfterReading(old_balance: Option<string>, env: Env, reading: Option<nat>): Option<string> {
    if reading.Some? then Some(env.formatEther(reading.value)) else old_balance
  }

  /** Every donation record names a campaign of the catalog and is worth at least one ether. */
  ghost predicate Consistent(s: Snapshot) {
    forall k | 0 <= k < |s.donations| ::
      s.donations[k].amount >= OneEther &&
      exists c | c in s.campaigns :: c.id == s.donations[k].id && c.name == s.donations[k].name
  }

  // ---------------- Notification log ----------------

  /** `addNotification`. */
  function AddNotification(s: Snapshot, message: string): (t: Snapshot)
    ensures |t.notifications| == |s.notifications| + 1
    ensures t.notifications[..|s.notifications|] == s.notifications
    ensures t.notifications[|s.notifications|] == message
    ensures t == s.(notifications := t.notifications)
  {
    s.(notifications := s.notifications + [message])
  }

  /** `clearNotifications`. */
  function ClearNotifications(s: Snapshot): (t: Snapshot)
    ensures |t.notifications| == 0
    ensures t == s.(notifications := t.notifications)
  {
    s.(notifications := [])
  }

  // ---------------- Balance ----------------

  /** `toggleBalanceVisibility`. */
  function ToggleBalanceVisibility(s: Snapshot): (t: Snapshot)
    ensures t.isBalanceHidden != s.isBalanceHidden
    ensures t.balance == s.balance
    ensures t == s.(isBalanceHidden := t.isBalanceHidden)
  {
    s.(isBalanceHidden := !s.isBalanceHidden)
  }

  /** `getBalance`, with the contract's answer (or its failure) as `reading`. */
  function GetBalance(s: Snapshot, env: Env, reading: Option<nat>): (t: Snapshot)
    ensures !s.atmBound ==> t == s
    ensures s.atmBound ==> t.ledger == s.ledger + [BalanceQuery]
    ensures s.atmBound && reading.Some? ==> t.balance == Some(env.formatEther(reading.value))
    ensures reading.None? ==> t.balance == s.balance
    ensures t == s.(balance := t.balance, ledger := t.ledger)
    ensures s.ledger <= t.ledger
  {
    if !s.atmBound then s
    else s.(ledger := s.ledger + [BalanceQuery], balance := AfterReading(s.balance, env, reading))
  }

  // ---------------- Inputs (the `onChange` handlers of the form) ----------------

  function EnterDonationAmount(s: Snapshot, value: string): (t: Snapshot)
    ensures t.donationAmountInput == value
    ensures t == s.(donationAmountInput := t.donationAmountInput)
  {
    s.(donationAmountInput := value)
  }

  function EnterDepositAmount(s: Snapshot, value: string): (t: Snapshot)
    ensures t.depositAmountInput == value
    ensures t == s.(depositAmountInput := t.depositAmountInput)
  {
    s.(depositAmountInput := value)
  }

  function EnterWithdrawAmount(s: Snapshot, value: string): (t: Snapshot)
    ensures t.withdrawAmountInput == value
    ensures t == s.(withdrawAmountInput := t.withdrawAmountInput)
  {
    s.(withdrawAmountInput := value)
  }

  /** The select's `onChange`: choosing the placeholder option counts as no selection for `donate`. */
  function SelectCampaign(s: Snapshot, value: string): (t: Snapshot)
    ensures t.selectedCampaignId == Some(value)
    ensures NoCampaignChosen(t) <==> value == ""
    ensures t == s.(selectedCampaignId := t.selectedCampaignId)
  {
    s.(selectedCampaignId := Some(value))
  }

  // ---------------- Session ----------------

  /** `handleAccount`: the first account the wallet returned, if there is one. */
  function HandleAccount(s: Snapshot, accounts: seq<string>): (t: Snapshot)
    ensures |accounts| > 0 ==> t.account == Some(accounts[0])
    ensures |accounts| == 0 ==> t == s
    ensures t == s.(account := t.account)
  {
    if |accounts| > 0 then s.(account := Some(accounts[0])) else s
  }

  /** `getATMContract`: binds the contract handle, whatever the account is. */
  function GetATMContract(s: Snapshot): (t: Snapshot)
    ensures t.atmBound
    ensures t == s.(atmBound := t.atmBound)
  {
    s.(atmBound := true)
  }

  /**
   * `connectAccount`, where `requestOk` says whether `eth_requestAccounts`
   * resolved and `accounts` is the list it resolved with.
   */
  function ConnectAccount(s: Snapshot, requestOk: bool, accounts: seq<string>): (t: Snapshot)
    ensures !s.ethWallet || !requestOk ==> t == s
    ensures s.ethWallet && requestOk ==> t.atmBound
    ensures s.ethWallet && requestOk && |accounts| > 0 ==> t.account == Some(accounts[0])
    ensures |accounts| == 0 ==> t.account == s.account
    ensures t == s.(account := t.account, atmBound := t.atmBound)
  {
    if !s.ethWallet then s
    else if !requestOk then s
    else GetATMContract(HandleAccount(s, accounts))
  }

  // ---------------- Ledger operations ----------------

  /**
   * `deposit`: `ledgerOk` says whether `atm.deposit` and `tx.wait()` both
   * succeeded, and `reading` is what the balance refresh reads.
   */
  function Deposit(s: Snapshot, env: Env, ledgerOk: bool, reading: Option<nat>): (t: Snapshot)
    ensures !Ready(s, env) ==> t == s
    // Only the log, the balance, the notifications and its own input can change.
    ensures t == s.(notifications := t.notifications, ledger := t.ledger,
                    balance := t.balance, depositAmountInput := t.depositAmountInput)
    ensures s.ledger <= t.ledger
    // Past the guard, exactly one notification is appended.
    ensures Ready(s, env) ==> |t.notifications| == |s.notifications| + 1 &&
                              t.notifications[..|s.notifications|] == s.notifications
    // A malformed amount: no ledger call.
    ensures Ready(s, env) && env.parseEther(s.depositAmountInput).None? ==>
              t == s.(notifications := s.notifications + [DepositFailed])
    // A ledger failure: the call was made, nothing else but the notification.
    ensures Ready(s, env) && env.parseEther(s.depositAmountInput).Some? && !ledgerOk ==>
              var a := env.parseEther(s.depositAmountInput).value;
              t == s.(notifications := s.notifications + [DepositFailed],
                      ledger := s.ledger + [DepositTx(a)])
    // Success: one deposit call, one refresh, input cleared, one notification.
    ensures Ready(s, env) && env.parseEther(s.depositAmountInput).Some? && ledgerOk ==>
              var a := env.parseEther(s.depositAmountInput).value;
              && t.ledger == s.ledger + [DepositTx(a), BalanceQuery]
              && t.balance == AfterReading(s.balance, env, reading)
              && t.depositAmountInput == ""
              && t.notifications == s.notifications + [DepositedMessage(env, a)]
  {
    if !Ready(s, env) then s
    else match env.parseEther(s.depositAmountInput)
      case None => AddNotification(s, DepositFailed)
      case Some(a) =>
        var sent := s.(ledger := s.ledger + [DepositTx(a)]);
        if !ledgerOk then AddNotification(sent, DepositFailed)
        else AddNotification(GetBalance(sent, env, reading).(depositAmountInput := ""),
                             DepositedMessage(env, a))
  }

  /** `withdraw`: as `deposit`, with `atm.withdraw`; the contract alone judges the amount. */
  function Withdraw(s: Snapshot, env: Env, ledgerOk: bool, reading: Option<nat>): (t: Snapshot)
    ensures !Ready(s, env) ==> t == s
    ensures t == s.(notifications := t.notifications, ledger := t.ledger,
                    balance := t.balance, withdrawAmountInput := t.withdrawAmountInput)
    ensures s.ledger <= t.ledger
    ensures Ready(s, env) ==> |t.notifications| == |s.notifications| + 1 &&
                              t.notifications[..|s.notifications|] == s.notifications
    ensures Ready(s, env) && env.parseEther(s.withdrawAmountInput).None? ==>
              t == s.(notifications := s.notifications + [WithdrawalFailed])
    ensures Ready(s, env) && env.parseEther(s.withdrawAmountInput).Some? && !ledgerOk ==>
              var a := env.parseEther(s.withdrawAmountInput).value;
              t == s.(notifications := s.notifications + [WithdrawalFailed],
                      ledger := s.ledger + [WithdrawTx(a)])
    ensures Ready(s, env) && env.parseEther(s.withdrawAmountInput).Some? && ledgerOk ==>
              var a := env.parseEther(s.withdrawAmountInput).value;
              && t.ledger == s.ledger + [WithdrawTx(a), BalanceQuery]
              && t.balance == AfterReading(s.balance, env, reading)
              && t.withdrawAmountInput == ""
              && t.notifications == s.notifications + [WithdrawnMessage(env, a)]
  {
    if !Ready(s, env) then s
    else match env.parseEther(s.withdrawAmountInput)
      case None => AddNotification(s, WithdrawalFailed)
      case Some(a) =>
        var sent := s.(ledger := s.ledger + [WithdrawTx(a)]);
        if !ledgerOk then AddNotification(sent, WithdrawalFailed)
        else AddNotification(GetBalance(sent, env, reading).(withdrawAmountInput := ""),
                             WithdrawnMessage(env, a))
  }

  /**
   * `donate`: checks the selection, then the catalog, then the amount, and
   * only then sends the same `atm.deposit` call that `deposit` sends.
   */
  function Donate(s: Snapshot, env: Env, ledgerOk: bool, reading: Option<nat>): (t: Snapshot)
    ensures !Ready(s, env) ==> t == s
    ensures t == s.(donationError := t.donationError, notifications := t.notifications,
                    ledger := t.ledger, balance := t.balance,
                    donationAmountInput := t.donationAmountInput, donations := t.donations)
    // 1. No selection: an error message, and nothing else, whatever the amount.
    ensures Ready(s, env) && NoCampaignChosen(s) ==>
              t == s.(donationError := SelectCampaignError)
    // 2. A selection that names no catalog campaign: likewise.
    ensures Ready(s, env) && !NoCampaignChosen(s) &&
            (forall c | c in s.campaigns :: Some(c.id) != ParseInt(s.selectedCampaignId.value)) ==>
              t == s.(donationError := InvalidCampaignError)
    // 3. A catalog campaign was found: the amount is parsed, checked and sent as
    //    `SendDonation` states, starting with `donationError` cleared.
    ensures Ready(s, env) && !NoCampaignChosen(s) && ChosenCampaign(s).Some? ==>
              t == SendDonation(s.(donationError := ""), env, ChosenCampaign(s).value, ledgerOk, reading)
  {
    if !Ready(s, env) then s
    else
      var cleared := s.(donationError := "");
      if NoCampaignChosen(s) then cleared.(donationError := SelectCampaignError)
      else match ChosenCampaign(s)
        case None => cleared.(donationError := InvalidCampaignError)
        case Some(c) => SendDonation(cleared, env, c, ledgerOk, reading)
  }

  /**
   * The part of `donate` after the catalog campaign `c` has been found:
   * parse the amount, check the one-ether minimum, then call the ledger.
   */
  function SendDonation(s: Snapshot, env: Env, c: Campaign, ledgerOk: bool, reading: Option<nat>): (t: Snapshot)
    // A malformed amount is a thrown exception: the generic failure notification.
    ensures env.parseEther(s.donationAmountInput).None? ==>
              t == s.(notifications := s.notifications + [DonationFailed])
    // Less than one ether: an error message; no call, no record, no notification.
    ensures env.parseEther(s.donationAmountInput).Some? &&
            env.parseEther(s.donationAmountInput).value < OneEther ==>
              t == s.(donationError := MinimumDonationError)
    // A ledger failure after the call was sent.
    ensures env.parseEther(s.donationAmountInput).Some? &&
            env.parseEther(s.donationAmountInput).value >= OneEther && !ledgerOk ==>
              var a := env.parseEther(s.donationAmountInput).value;
              t == s.(notifications := s.notifications + [DonationFailed],
                      ledger := s.ledger + [DepositTx(a)])
    // Success: one deposit, one refresh, input cleared, one record, one notification.
    ensures env.parseEther(s.donationAmountInput).Some? &&
            env.parseEther(s.donationAmountInput).value >= OneEther && ledgerOk && s.atmBound ==>
              var a := env.parseEther(s.donationAmountInput).value;
              && t.ledger == s.ledger + [DepositTx(a), BalanceQuery]
              && t.balance == AfterReading(s.balance, env, reading)
              && t.donationAmountInput == ""
              && t.donations == s.donations + [DonationRecord(c.id, c.name, a)]
              && t.notifications == s.notifications + [DonatedMessage(env, a, c.name)]
              && t == s.(ledger := t.ledger, balance := t.balance,
                         donationAmountInput := t.donationAmountInput,
                         donations := t.donations, notifications := t.notifications)
  {
    match env.parseEther(s.donationAmountInput)
    case None => AddNotification(s, DonationFailed)
    case Some(a) =>
      if a < OneEther then s.(donationError := MinimumDonationError)
      else
        var sent := s.(ledger := s.ledger + [DepositTx(a)]);
        if !ledgerOk then AddNotification(sent, DonationFailed)
        else
          var recorded := GetBalance(sent, env, reading).(donationAmountInput := "",
            donations := sent.donations + [DonationRecord(c.id, c.name, a)]);
          AddNotification(recorded, DonatedMessage(env, a, c.name))
  }

  // ---------------- Facts relating several calls ----------------

  /** Appending a record of a catalog campaign worth at least one ether keeps `Consistent`. */
  lemma AppendRecordKeepsConsistent(s: Snapshot, r: DonationRecord, c: Campaign)
    requires Consistent(s) && c in s.campaigns && c.id == r.id && c.name == r.name
    requires r.amount >= OneEther
    ensures Consistent(s.(donations := s.donations + [r]))
  {
    var t := s.(donations := s.donations + [r]);
    forall k | 0 <= k < |t.donations|
      ensures t.donations[k].amount >= OneEther
      ensures exists c' | c' in t.campaigns :: c'.id == t.donations[k].id && c'.name == t.donations[k].name
    {
      if k == |s.donations| {
        assert t.donations[k] == r;
      } else {
        assert t.donations[k] == s.donations[k];
      }
    }
  }

  /**
   * Sending a donation for a catalog campaign keeps every record tied to a
   * catalog campaign and worth at least one ether.
   */
  lemma SendDonationKeepsConsistent(s: Snapshot, env: Env, c: Campaign, ledgerOk: bool, reading: Option<nat>)
    requires Consistent(s) && c in s.campaigns
    ensures Consistent(SendDonation(s, env, c, ledgerOk, reading))
  {
    match env.parseEther(s.donationAmountInput)
    case None =>
    case Some(a) =>
      if a >= OneEther && ledgerOk {
        var recorded := GetBalance(s.(ledger := s.ledger + [DepositTx(a)]), env, reading);
        AppendRecordKeepsConsistent(recorded, DonationRecord(c.id, c.name, a), c);
      }
  }

  /** A donation record is only ever added for a catalog campaign and at least one ether. */
  lemma DonateKeepsConsistent(s: Snapshot, env: Env, ledgerOk: bool, reading: Option<nat>)
    requires Consistent(s)
    ensures Consistent(Donate(s, env, ledgerOk, reading))
  {
    if Ready(s, env) && !NoCampaignChosen(s) && ChosenCampaign(s).Some? {
      SendDonationKeepsConsistent(s.(donationError := ""), env, ChosenCampaign(s).value, ledgerOk, reading);
    }
  }

  /**
   * `donate` only appends to the ledger log, and adds a donation record only
   * together with one deposit call of the record's amount and one refresh.
   */
  lemma DonateRecordsMatchDeposits(s: Snapshot, env: Env, ledgerOk: bool, reading: Option<nat>)
    ensures var t := Donate(s, env, ledgerOk, reading);
            && s.ledger <= t.ledger
            && (t.donations == s.donations ||
                (|t.donations| == |s.donations| + 1 && t.donations[..|s.donations|] == s.donations &&
                 t.ledger == s.ledger + [DepositTx(t.donations[|s.donations|].amount), BalanceQuery]))
  {
    var t := Donate(s, env, ledgerOk, reading);
    if Ready(s, env) && !NoCampaignChosen(s) && ChosenCampaign(s).Some? {
      var c := ChosenCampaign(s).value;
      var cleared := s.(donationError := "");
      assert t == SendDonation(cleared, env, c, ledgerOk, reading);
      match env.parseEther(s.donationAmountInput)
      case None =>
      case Some(a) =>
        if a >= OneEther && ledgerOk {
          assert t.donations == s.donations + [DonationRecord(c.id, c.name, a)];
        }
    }
  }

  /** Two toggles restore the flag and never touch the balance. */
  lemma ToggleTwice(s: Snapshot)
    ensures ToggleBalanceVisibility(ToggleBalanceVisibility(s)) == s
  {
  }

  /** After a clear, one notification leaves exactly that one entry. */
  lemma ClearThenAdd(s: Snapshot, message: string)
    ensures AddNotification(ClearNotifications(s), message).notifications == [message]
  {
  }

  /** A successful donation sends exactly the call a deposit of the same amount string sends. */
  lemma DonationIsDeposit(s: Snapshot, env: Env, reading: Option<nat>)
    requires Ready(s, env) && !NoCampaignChosen(s) && ChosenCampaign(s).Some?
    requires env.parseEther(s.donationAmountInput).Some?
    requires env.parseEther(s.donationAmountInput).value >= OneEther
    ensures Donate(s, env, true, reading).ledger ==
            Deposit(s.(depositAmountInput := s.donationAmountInput), env, true, reading).ledger
    ensures Donate(s, env, true, reading).balance ==
            Deposit(s.(depositAmountInput := s.donationAmountInput), env, true, reading).balance
  {
  }

  /**
   * The selection and the catalog are checked before the amount is looked
   * at: while either check fails, neither the amount string, nor how it
   * parses, nor the ledger's behaviour changes the outcome.
   */
  lemma DonationChecksSelectionFirst(s: Snapshot, env: Env, parse': string -> Option<int>,
                                     amount': string, ok1: bool, ok2: bool,
                                     r1: Option<nat>, r2: Option<nat>)
    requires Ready(s, env)
    requires NoCampaignChosen(s) || ChosenCampaign(s).None?
    ensures var env' := env.(parseEther := parse');
            var s' := s.(donationAmountInput := amount');
            Donate(s', env', ok2, r2) == Donate(s, env, ok1, r1).(donationAmountInput := amount')
  {
  }
}
