/**
 * The browser-side simulation of the vault and the campaign hub
 * (web/lib/mockContracts.ts). One user's state — a USDC balance, one
 * position per vault and the list of campaigns — is read, changed and
 * written back by each operation; an operation that throws writes nothing.
 * The clock is the parameter `now`, in milliseconds.
 */
module MockContracts {
  import opened Wrappers
  import opened Milestones
  import opened RiskAnalysis

  /** A vault position: principal, time of the last deposit and time yield was last paid out. */
  datatype Position = Position(amount: real, timestamp: int, lastClaim: int)

  /** A campaign record as the hub stores it. */
  datatype Campaign = Campaign(
    id: int,
    title: string,
    goal: real,
    description: string,
    milestones: seq<Milestone>,
    riskReport: RiskReport,
    image: string,
    raised: real,
    creator: string,
    status: string)

  /** What `getUserData` hands to the vault page. */
  datatype UserData = UserData(balance: real, deposit: Position, pendingYield: real)

  /** The errors the simulation throws. `FundsLocked` carries the milliseconds still to wait. */
  datatype LedgerError =
    | InsufficientBalance
    | InsufficientVaultBalance
    | FundsLocked(remainingMs: int)
    | CampaignNotFound

  const EmptyPosition := Position(0.0, 0, 0)
  const InitialBalance: real := 10000.0

  /** The advertised rate, in percent. The yield formula does not read it. */
  const Apy: real := 12.5
  /** The rate the yield formula actually uses. */
  const YieldRate: real := 0.125
  const LockupSeconds := 20
  const LockupMs := LockupSeconds * 1000
  const SecondsPerYear := 365 * 24 * 3600

  const MockCreator := "0x123...mock"
  const ActiveStatus := "ACTIVE"

  /** Linear yield on `amount` from `lastClaim` to `now` (milliseconds), at 12.5% a year. */
  function Accrued(amount: real, lastClaim: int, now: int): real {
    amount * (YieldRate / SecondsPerYear as real) * ((now - lastClaim) as real / 1000.0)
  }

  /** The index of the first campaign carrying `id`, as the hub's lookup finds it. */
  function FindCampaign(cs: seq<Campaign>, id: int): (r: Option<nat>)
    ensures r.Some? ==> r.value < |cs| && cs[r.value].id == id
    ensures r.Some? ==> forall j :: 0 <= j < r.value ==> cs[j].id != id
    ensures r.None? <==> forall j :: 0 <= j < |cs| ==> cs[j].id != id
  {
    if cs == [] then None
    else if cs[0].id == id then Some(0)
    else
      match FindCampaign(cs[1..], id)
      case None => None
      case Some(k) => Some(k + 1)
  }

  /** The total raised over a list of campaigns. */
  function TotalRaised(cs: seq<Campaign>): real {
    if cs == [] then 0.0 else TotalRaised(cs[..|cs| - 1]) + cs[|cs| - 1].raised
  }

  class UserState {
    var balance: real
    var vaultDeposits: map<string, Position>
    var campaigns: seq<Campaign>

    /** `INITIAL_STATE`: 10,000 USDC, no positions, no campaigns. */
    constructor ()
      ensures balance == InitialBalance && vaultDeposits == map[] && campaigns == []
    {
      balance := InitialBalance;
      vaultDeposits := map[];
      campaigns := [];
    }

    /** `getVaultState`: the stored position, or the zero position a missing key is initialised to. */
    function VaultState(vaultId: string): (p: Position)
      reads this
      ensures vaultId in vaultDeposits ==> p == vaultDeposits[vaultId]
      ensures vaultId !in vaultDeposits ==> p == EmptyPosition
    {
      if vaultId in vaultDeposits then vaultDeposits[vaultId] else EmptyPosition
    }

    /**
     * `calculateYield`: zero for a missing or empty position, otherwise the
     * linear accrual since the last claim. The shortcut agrees with the
     * formula, which is non-negative whenever the clock has not gone back.
     */
    function CalculateYield(vaultId: string, now: int): (y: real)
      reads this
      ensures y == Accrued(VaultState(vaultId).amount, VaultState(vaultId).lastClaim, now)
      ensures VaultState(vaultId).amount >= 0.0 && now >= VaultState(vaultId).lastClaim ==> y >= 0.0
    {
      if vaultId !in vaultDeposits || vaultDeposits[vaultId].amount == 0.0 then 0.0
      else
        var vault := vaultDeposits[vaultId];
        assert vault.amount >= 0.0 && now >= vault.lastClaim ==> Accrued(vault.amount, vault.lastClaim, now) >= 0.0 by {
          if vault.amount >= 0.0 && now >= vault.lastClaim {
            AccruedNonNegative(vault.amount, vault.lastClaim, now);
          }
        }
        Accrued(vault.amount, vault.lastClaim, now)
    }

    /** `getUserData`: the balance, the position (zero if none) and the yield pending on it. */
    function GetUserData(vaultId: string, now: int): (d: UserData)
      reads this
      ensures d.balance == balance && d.deposit == VaultState(vaultId)
      ensures d.pendingYield == Accrued(d.deposit.amount, d.deposit.lastClaim, now)
      ensures vaultId !in vaultDeposits ==> d.pendingYield == 0.0
    {
      UserData(balance, VaultState(vaultId), CalculateYield(vaultId, now))
    }

    /** `getCampaigns`: the stored list, in creation order. */
    function GetCampaigns(): (cs: seq<Campaign>)
      reads this
      ensures cs == campaigns
    {
      campaigns
    }

    /**
     * `deposit`: refuses when the balance is short; otherwise pays out the
     * pending yield, moves `amount` into the position and restarts both the
     * lockup and the yield clock.
     */
    method Deposit(vaultId: string, amount: real, now: int) returns (r: Outcome<LedgerError>)
      modifies this
      ensures r == Fail(InsufficientBalance) <==> old(balance) < amount
      ensures r.Fail? ==> r == Fail(InsufficientBalance)
      ensures r.Fail? ==> balance == old(balance) && vaultDeposits == old(vaultDeposits) && campaigns == old(campaigns)
      ensures r.Pass? ==> balance == old(balance) - amount + old(CalculateYield(vaultId, now))
      ensures r.Pass? ==> vaultDeposits == old(vaultDeposits)[vaultId := Position(old(VaultState(vaultId)).amount + amount, now, now)]
      ensures r.Pass? ==> campaigns == old(campaigns)
      ensures r.Pass? ==> CalculateYield(vaultId, now) == 0.0
      ensures r.Pass? ==> balance + VaultState(vaultId).amount
                          == old(balance) + old(VaultState(vaultId)).amount + old(CalculateYield(vaultId, now))
    {
      var vault := VaultState(vaultId);
      if balance < amount {
        return Fail(InsufficientBalance);
      }
      var pending := CalculateYield(vaultId, now);
      balance := balance - amount;
      balance := balance + pending;
      vault := vault.(amount := vault.amount + amount, timestamp := now, lastClaim := now);
      vaultDeposits := vaultDeposits[vaultId := vault];
      AccruedZeroElapsed(vault.amount, now);
      r := Pass;
    }

    /**
     * `withdraw`: refuses when the position holds less than `amount`, then
     * while the lockup since the last deposit runs; otherwise pays out the
     * principal and the pending yield and restarts only the yield clock.
     */
    method Withdraw(vaultId: string, amount: real, now: int) returns (r: Outcome<LedgerError>)
      modifies this
      ensures r == Fail(InsufficientVaultBalance) <==> old(VaultState(vaultId)).amount < amount
      ensures r.Fail? && r.error.FundsLocked? <==>
                !(old(VaultState(vaultId)).amount < amount) && now < old(VaultState(vaultId)).timestamp + LockupMs
      ensures r.Fail? && r.error.FundsLocked? ==>
                r.error.remainingMs == old(VaultState(vaultId)).timestamp + LockupMs - now > 0
      ensures r.Fail? ==> r.error.InsufficientVaultBalance? || r.error.FundsLocked?
      ensures r.Fail? ==> balance == old(balance) && vaultDeposits == old(vaultDeposits) && campaigns == old(campaigns)
      ensures r.Pass? ==> balance == old(balance) + amount + old(CalculateYield(vaultId, now))
      ensures r.Pass? ==> vaultDeposits == old(vaultDeposits)[vaultId :=
                            Position(old(VaultState(vaultId)).amount - amount, old(VaultState(vaultId)).timestamp, now)]
      ensures r.Pass? ==> campaigns == old(campaigns)
      ensures r.Pass? ==> CalculateYield(vaultId, now) == 0.0
      ensures r.Pass? ==> VaultState(vaultId).amount >= 0.0
      ensures r.Pass? ==> balance + VaultState(vaultId).amount
                          == old(balance) + old(VaultState(vaultId)).amount + old(CalculateYield(vaultId, now))
    {
      var vault := VaultState(vaultId);
      if vault.amount < amount {
        return Fail(InsufficientVaultBalance);
      }
      var unlockTime := vault.timestamp + LockupMs;
      if now < unlockTime {
        return Fail(FundsLocked(unlockTime - now));
      }
      var pending := CalculateYield(vaultId, now);
      vault := vault.(amount := vault.amount - amount);
      balance := balance + amount;
      balance := balance + pending;
      vault := vault.(lastClaim := now);
      vaultDeposits := vaultDeposits[vaultId := vault];
      AccruedZeroElapsed(vault.amount, now);
      r := Pass;
    }

    /**
     * `createCampaign`: appends one new campaign, stamped with `now` as its
     * id, nothing raised and status ACTIVE; earlier campaigns keep their
     * places and contents.
     */
    method CreateCampaign(title: string, goal: real, desc: string, milestones: seq<Milestone>,
                          riskReport: RiskReport, image: string, now: int) returns (c: Campaign)
      modifies this
      ensures c == Campaign(now, title, goal, desc, milestones, riskReport, image, 0.0, MockCreator, ActiveStatus)
      ensures campaigns == old(campaigns) + [c]
      ensures balance == old(balance) && vaultDeposits == old(vaultDeposits)
    {
      c := Campaign(now, title, goal, desc, milestones, riskReport, image, 0.0, MockCreator, ActiveStatus);
      campaigns := campaigns + [c];
    }

    /**
     * `donate`: refuses on a short balance before looking the campaign up,
     * then refuses an unknown id; otherwise moves `amount` from the balance
     * into the first campaign with that id.
     */
    method Donate(campaignId: int, amount: real) returns (r: Outcome<LedgerError>)
      modifies this
      ensures r == Fail(InsufficientBalance) <==> old(balance) < amount
      ensures r == Fail(CampaignNotFound) <==> !(old(balance) < amount) && FindCampaign(old(campaigns), campaignId).None?
      ensures r.Fail? ==> r.error.InsufficientBalance? || r.error.CampaignNotFound?
      ensures r.Fail? ==> balance == old(balance) && vaultDeposits == old(vaultDeposits) && campaigns == old(campaigns)
      ensures r.Pass? ==> FindCampaign(old(campaigns), campaignId).Some?
      ensures r.Pass? ==> var i := FindCampaign(old(campaigns), campaignId).value;
                          && balance == old(balance) - amount
                          && campaigns == old(campaigns)[i := old(campaigns)[i].(raised := old(campaigns)[i].raised + amount)]
                          && vaultDeposits == old(vaultDeposits)
      ensures balance + TotalRaised(campaigns) == old(balance) + TotalRaised(old(campaigns))
    {
      if balance < amount {
        return Fail(InsufficientBalance);
      }
      var found := FindCampaign(campaigns, campaignId);
      if found.None? {
        return Fail(CampaignNotFound);
      }
      var i := found.value;
      var campaign := campaigns[i];
      TotalRaisedUpdate(campaigns, i, campaign.(raised := campaign.raised + amount));
      balance := balance - amount;
      campaigns := campaigns[i := campaign.(raised := campaign.raised + amount)];
      r := Pass;
    }
  }

  // ---------------------------------------------------------------------------
  // Scenarios: what a caller can conclude from the contracts alone

  /**
   * The lockup counts from the latest deposit: after a top-up, a withdrawal
   * less than 20 seconds later fails, however long ago the first deposit was.
   */
  method TopUpRestartsLockup(s: UserState, vaultId: string, first: real, second: real, take: real,
                             t0: int, t1: int, t2: int) returns (r: Outcome<LedgerError>)
    requires vaultId !in s.vaultDeposits
    requires 0.0 <= first && 0.0 <= second && first + second <= s.balance
    requires 0.0 <= take <= first + second
    requires t0 <= t1 <= t2 < t1 + LockupMs
    modifies s
    ensures r.Fail? && r.error.FundsLocked?
  {
    var d0 := s.Deposit(vaultId, first, t0);
    assert d0.Pass?;
    AccruedNonNegative(first, t0, t1);
    var d1 := s.Deposit(vaultId, second, t1);
    assert d1.Pass?;
    r := s.Withdraw(vaultId, take, t2);
  }

  /**
   * Depositing into a fresh vault and withdrawing everything once the
   * lockup has passed empties the position and returns the principal plus
   * the linear yield for the time it was held.
   */
  method DepositWithdrawRoundTrip(s: UserState, vaultId: string, amount: real, t: int, later: int)
    returns (r: Outcome<LedgerError>)
    requires vaultId !in s.vaultDeposits
    requires 0.0 <= amount <= s.balance
    requires t + LockupMs <= later
    modifies s
    ensures r.Pass?
    ensures s.VaultState(vaultId).amount == 0.0
    ensures s.balance == old(s.balance) + Accrued(amount, t, later)
  {
    var d := s.Deposit(vaultId, amount, t);
    assert d.Pass?;
    r := s.Withdraw(vaultId, amount, later);
  }

  // ---------------------------------------------------------------------------
  // Lemmas

  /** Yield never goes negative on a non-negative principal while the clock moves forward. */
  lemma AccruedNonNegative(amount: real, lastClaim: int, now: int)
    requires amount >= 0.0 && now >= lastClaim
    ensures Accrued(amount, lastClaim, now) >= 0.0
  {
    var rate := YieldRate / SecondsPerYear as real;
    var elapsed := (now - lastClaim) as real / 1000.0;
    assert rate >= 0.0 && elapsed >= 0.0;
    assert amount * rate >= 0.0;
    assert amount * rate * elapsed >= 0.0;
  }

  /** No time elapsed, no yield. */
  lemma AccruedZeroElapsed(amount: real, now: int)
    ensures Accrued(amount, now, now) == 0.0
  {
  }

  /** Yield over an interval is the sum of the yields over its two halves, so when it is claimed does not change the total. */
  lemma AccruedSplit(amount: real, t0: int, t1: int, t2: int)
    ensures Accrued(amount, t0, t2) == Accrued(amount, t0, t1) + Accrued(amount, t1, t2)
  {
    assert (t2 - t0) as real / 1000.0 == (t1 - t0) as real / 1000.0 + (t2 - t1) as real / 1000.0;
  }

  /** A full year's yield is 12.5% of the principal: the hard-coded rate agrees with the advertised APY. */
  lemma AccruedOneYear(amount: real, t: int)
    ensures Accrued(amount, t, t + SecondsPerYear * 1000) == amount * Apy / 100.0
  {
    var rate := YieldRate / SecondsPerYear as real;
    assert (SecondsPerYear * 1000) as real / 1000.0 == SecondsPerYear as real;
    assert rate * SecondsPerYear as real == YieldRate;
  }

  /** Raising one campaign's total moves the overall total by the same amount. */
  lemma {:induction false} TotalRaisedUpdate(cs: seq<Campaign>, i: nat, c: Campaign)
    requires i < |cs|
    ensures TotalRaised(cs[i := c]) == TotalRaised(cs) - cs[i].raised + c.raised
    decreases |cs|
  {
    var last := |cs| - 1;
    if i < last {
      assert cs[i := c][..last] == cs[..last][i := c];
      TotalRaisedUpdate(cs[..last], i, c);
    } else {
      assert cs[i := c][..last] == cs[..last];
    }
  }
}
