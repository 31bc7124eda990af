/**
 * The campaign launch form (web/app/launch/page.tsx): the editable
 * milestone list, the guards of the submit handler and the creation payload
 * it builds. The handler first asks the contract service to create the
 * campaign, but the service in web/lib/contracts.ts defines no such
 * operation, so that call always throws and the handler always falls back to
 * the simulated hub.
 */
module Launch {
  import opened Wrappers
  import opened Milestones
  import opened RiskAnalysis
  import MockContracts

  /** One milestone as the creation payload carries it. */
  datatype PayloadMilestone = PayloadMilestone(description: string, offsetPercent: Option<int>)

  /** The creation payload sent to the hub. */
  datatype CampaignData = CampaignData(
    title: string,
    description: string,
    target: real,
    duration: int,
    milestones: seq<PayloadMilestone>,
    riskScore: int,
    riskLevel: Level)

  /** Why a submission stops before anything is analysed or created. */
  datatype Rejection = WalletNotConnected | MissingField | BadPercentTotal(total: int)

  datatype SubmitOutcome =
    | Rejected(reason: Rejection)
    | Launched(data: CampaignData)

  const DefaultDurationDays := 30
  const CoverGradient := "linear-gradient(135deg, #3b82f6, #8b5cf6)"

  /** The payload rows: each form row's text becomes its description and its percentage its offset. */
  function ToPayloadMilestones(ms: seq<Milestone>): (ps: seq<PayloadMilestone>)
    ensures |ps| == |ms|
    ensures forall i :: 0 <= i < |ms| ==> ps[i].description == ms[i].desc && ps[i].offsetPercent == ms[i].amount
  {
    if ms == [] then [] else [PayloadMilestone(ms[0].desc, ms[0].amount)] + ToPayloadMilestones(ms[1..])
  }

  /** Reads a payload's milestones back as form rows. */
  function FromPayloadMilestones(ps: seq<PayloadMilestone>): seq<Milestone> {
    if ps == [] then [] else [Milestone(ps[0].description, ps[0].offsetPercent)] + FromPayloadMilestones(ps[1..])
  }

  /** The payload loses nothing of the rows: reading it back gives the rows, in order. */
  lemma {:induction false} PayloadRoundTrip(ms: seq<Milestone>)
    ensures FromPayloadMilestones(ToPayloadMilestones(ms)) == ms
  {
    if ms != [] {
      PayloadRoundTrip(ms[1..]);
      assert ToPayloadMilestones(ms)[1..] == ToPayloadMilestones(ms[1..]);
    }
  }

  /** The payload built for a submission that passed the guards. */
  function BuildPayload(title: string, desc: string, target: real, ms: seq<Milestone>, report: RiskReport): CampaignData {
    CampaignData(title, desc, target, DefaultDurationDays, ToPayloadMilestones(ms), report.score, report.level)
  }

  /**
   * The guards of the submit handler, in their order: the wallet, the three
   * required fields, then the percentage total. `goal` is the goal field of
   * a number input: `None` when it is empty.
   */
  function CheckSubmission(connected: bool, title: string, goal: Option<real>, desc: string, ms: seq<Milestone>): (r: Option<Rejection>)
    ensures r.None? <==> connected && title != "" && goal.Some? && desc != "" && SumsToHundred(ms)
    ensures r == Some(WalletNotConnected) <==> !connected
    ensures r == Some(MissingField) <==> connected && (title == "" || goal.None? || desc == "")
    ensures r.Some? && r.value.BadPercentTotal? <==> connected && title != "" && goal.Some? && desc != "" && !SumsToHundred(ms)
    ensures r.Some? && r.value.BadPercentTotal? ==> r.value.total == TotalPercent(ms)
  {
    if !connected then Some(WalletNotConnected)
    else if title == "" || goal.None? || desc == "" then Some(MissingField)
    else
      var total := TotalPercent(ms);
      if total != RequiredTotal then Some(BadPercentTotal(total)) else None
  }

  /** A payload that passed the guards carries percentages (NaN read as 0) that sum to 100. */
  lemma LaunchedPercentagesSumToHundred(connected: bool, title: string, goal: Option<real>, desc: string,
                                        ms: seq<Milestone>, report: RiskReport)
    requires CheckSubmission(connected, title, goal, desc, ms).None?
    ensures SumsToHundred(FromPayloadMilestones(BuildPayload(title, desc, goal.value, ms, report).milestones))
  {
    PayloadRoundTrip(ms);
  }

  /** The form's milestone state and its submit handler. */
  class LaunchForm {
    var milestones: seq<Milestone>

    constructor ()
      ensures milestones == InitialMilestones
    {
      milestones := InitialMilestones;
    }

    /** `addMilestone`: appends a blank row; the existing rows and the total are unchanged. */
    method AddMilestone()
      modifies this
      ensures milestones == old(milestones) + [BlankMilestone]
      ensures TotalPercent(milestones) == old(TotalPercent(milestones))
    {
      TotalPercentAppend(milestones, [BlankMilestone]);
      milestones := milestones + [BlankMilestone];
    }

    /** The deliverable field's change handler: rewrites row `i`'s text only. */
    method EditDescription(i: nat, text: string)
      requires i < |milestones|
      modifies this
      ensures milestones == old(milestones)[i := old(milestones)[i].(desc := text)]
      ensures TotalPercent(milestones) == old(TotalPercent(milestones))
    {
      var newM := milestones;
      TotalPercentUpdate(newM, i, newM[i].(desc := text));
      newM := newM[i := newM[i].(desc := text)];
      milestones := newM;
    }

    /** The percentage field's change handler: row `i` takes the `parseInt` result. */
    method EditPercent(i: nat, parsed: Option<int>)
      requires i < |milestones|
      modifies this
      ensures milestones == old(milestones)[i := old(milestones)[i].(amount := parsed)]
      ensures TotalPercent(milestones) == old(TotalPercent(milestones)) - PercentOrZero(old(milestones)[i]) + parsed.GetOr(0)
    {
      var newM := milestones;
      TotalPercentUpdate(newM, i, newM[i].(amount := parsed));
      newM := newM[i := newM[i].(amount := parsed)];
      milestones := newM;
    }

    /**
     * `onSubmit`: stops at the first failing guard with nothing analysed or
     * created; otherwise scores the campaign, builds the payload and, after
     * the contract service's call fails, creates the campaign in the simulated
     * hub, stamped with `now`.
     */
    method Submit(connected: bool, title: string, goal: Option<real>, desc: string,
                  hub: MockContracts.UserState, now: int) returns (outcome: SubmitOutcome)
      modifies hub
      ensures outcome.Rejected? <==> CheckSubmission(connected, title, goal, desc, milestones).Some?
      ensures outcome.Rejected? ==> Some(outcome.reason) == CheckSubmission(connected, title, goal, desc, milestones)
      ensures outcome.Launched? ==>
                outcome.data == BuildPayload(title, desc, goal.value, milestones, Report(title, desc, goal.value))
      ensures hub.balance == old(hub.balance) && hub.vaultDeposits == old(hub.vaultDeposits)
      ensures outcome.Launched? ==>
                hub.campaigns == old(hub.campaigns) + [MockContracts.Campaign(now, title, goal.value, desc, milestones,
                  Report(title, desc, goal.value), CoverGradient, 0.0, MockContracts.MockCreator, MockContracts.ActiveStatus)]
      ensures outcome.Rejected? ==> hub.campaigns == old(hub.campaigns)
    {
      if !connected {
        return Rejected(WalletNotConnected);
      }
      if title == "" || goal.None? || desc == "" {
        return Rejected(MissingField);
      }
      var totalPct := TotalPercent(milestones);
      if totalPct != RequiredTotal {
        return Rejected(BadPercentTotal(totalPct));
      }

      var autoRiskReport := AnalyzeRisk(title, desc, goal.value);
      var campaignData := BuildPayload(title, desc, goal.value, milestones, autoRiskReport);
      var _ := hub.CreateCampaign(title, goal.value, desc, milestones, autoRiskReport, CoverGradient, now);
      outcome := Launched(campaignData);
    }
  }
}
