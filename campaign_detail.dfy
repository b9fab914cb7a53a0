/**
 * The pure helpers of the campaign detail page, src/pages/CampaignDetail.tsx:
 * the proof-URL check run before a submission, the completion percentage and
 * the figures derived from a campaign for display.
 */
module CampaignDetail {
  import opened Wrappers
  import opened Text
  import opened Entities

  const ProofRequiredMessage := "Proof URL is required"
  const ProofSchemeMessage := "URL must start with http or https"
  const ProofShortMessage := "URL looks too short"

  /**
   * `validateProofUrl`: no message for a URL that is present, starts with
   * "http" and has at least ten characters; otherwise the message of the
   * first of those three checks that fails.
   */
  function ValidateProofUrl(url: string): (r: Option<string>)
    ensures r.None? <==> url != "" && StartsWith(url, "http") && |url| >= 10
    ensures url == "" ==> r == Some(ProofRequiredMessage)
    ensures url != "" && !StartsWith(url, "http") ==> r == Some(ProofSchemeMessage)
    ensures StartsWith(url, "http") && |url| < 10 ==> r == Some(ProofShortMessage)
  {
    if url == "" then Some(ProofRequiredMessage)
    else if !StartsWith(url, "http") then Some(ProofSchemeMessage)
    else if |url| < 10 then Some(ProofShortMessage)
    else None
  }

  /** A URL that passes the check has a scheme of at least "http" and something after it. */
  lemma AcceptedProofUrlHasHost(url: string)
    requires ValidateProofUrl(url).None?
    ensures url[..4] == "http" && |url[4..]| >= 6
  {
  }

  /** `Math.round` on a real: the nearest integer, halves rounded up. */
  function Round(x: real): (n: int)
    ensures n as real - 0.5 <= x < n as real + 0.5
  {
    (x + 0.5).Floor
  }

  /**
   * `calculateCampaignProgress`: the completed share of `total` as a whole
   * percentage capped at 100, and 0 when `total` is 0.
   */
  function CalculateCampaignProgress(completed: real, total: real): (r: int)
    ensures total == 0.0 ==> r == 0
    ensures r <= 100
    ensures total != 0.0 && completed / total * 100.0 < 99.5 ==>
              r as real - 0.5 <= completed / total * 100.0 < r as real + 0.5
    ensures total != 0.0 && completed / total * 100.0 >= 99.5 ==> r == 100
    ensures total > 0.0 && completed >= 0.0 ==> r >= 0
    ensures total > 0.0 && completed >= total ==> r == 100
  {
    if total == 0.0 then 0
    else
      var percent := completed / total * 100.0;
      assert total > 0.0 && completed >= 0.0 ==> percent >= 0.0 by {
        if total > 0.0 && completed >= 0.0 {
          RatioBounds(completed, total);
        }
      }
      assert total > 0.0 && completed >= total ==> percent >= 100.0 by {
        if total > 0.0 && completed >= total {
          RatioBounds(completed, total);
        }
      }
      var rounded := Round(percent);
      if rounded < 100 then rounded else 100
  }

  lemma RatioBounds(completed: real, total: real)
    requires total > 0.0 && completed >= 0.0
    ensures completed / total >= 0.0
    ensures completed >= total ==> completed / total >= 1.0
  {
    assert completed / total * total == completed;
  }

  /** Progress never falls when one more worker completes. */
  lemma ProgressMonotone(completed: real, total: real)
    requires total > 0.0 && completed >= 0.0
    ensures CalculateCampaignProgress(completed, total) <= CalculateCampaignProgress(completed + 1.0, total)
  {
    var q1 := completed / total;
    var q2 := (completed + 1.0) / total;
    assert q2 == q1 + 1.0 / total;
    RatioBounds(1.0, total);
    assert q1 * 100.0 <= q2 * 100.0;
  }

  /** The figures `deriveCampaignMeta` shows for a campaign. */
  datatype CampaignMeta = CampaignMeta(spotsLeft: int, isFull: bool, isActive: bool, progress: int)

  /**
   * `deriveCampaignMeta`: the open slots, whether there are none, whether the
   * campaign is active, and its progress.
   */
  function DeriveCampaignMeta(c: Campaign): (m: CampaignMeta)
    ensures m.spotsLeft + c.completedWorkers == c.totalWorkers
    ensures m.isFull <==> c.completedWorkers >= c.totalWorkers
    ensures m.isActive <==> c.status == Active
    ensures m.progress == CalculateCampaignProgress(c.completedWorkers as real, c.totalWorkers as real)
  {
    var spotsLeft := c.totalWorkers - c.completedWorkers;
    CampaignMeta(spotsLeft, spotsLeft <= 0, c.status == Active,
      CalculateCampaignProgress(c.completedWorkers as real, c.totalWorkers as real))
  }

  /** A full campaign with workers shows 100 percent progress. */
  lemma FullCampaignShowsComplete(c: Campaign)
    requires c.totalWorkers > 0 && DeriveCampaignMeta(c).isFull
    ensures DeriveCampaignMeta(c).progress == 100
  {
  }
}
