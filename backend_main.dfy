/**
 * The deterministic part of the analysis endpoint in backend/main.py: the
 * recommendation builder `generate_recommendations` and the assembly of the
 * response record in `analyze_account`.
 *
 * The risk engine that computes the score, level, confidence and reasons is not
 * part of this model: its outputs enter as parameters (`RiskData`, `reasons`),
 * and so does the wall-clock timestamp.
 */
module BackendMain {
  import opened Options
  import opened Text

  // Risk levels the recommendation builder distinguishes.
  const HighRisk := "High Risk"
  const ModerateRisk := "Moderate Risk"

  // The fixed block for "High Risk".
  const DoNotInteract := "⚠️ DO NOT interact with this account or click any links"
  const BlockNow := "🚫 Block this account immediately"
  const ReportAccount := "📢 Report this account to Instagram for suspicious activity"
  const NeverSharePayment := "🔒 Never share personal information or payment details"

  // The fixed block for "Moderate Risk".
  const ExtremeCaution := "⚡ Exercise extreme caution when interacting"
  const VerifyOfficially := "🔍 Verify account authenticity through official channels"
  const AvoidExternalLinks := "❌ Avoid clicking on external links in bio or messages"
  const CheckMutualFriends := "👥 Check if mutual friends follow this account"

  // The fixed block for every other level.
  const AppearsSafe := "✅ Account appears relatively safe based on available data"
  const StillVerify := "🛡️ Still verify identity before sharing sensitive information"
  const CautiousOfUnsolicited := "📱 Be cautious of unsolicited messages or requests"

  // The extra items, each triggered by a reason mentioning its keyword.
  const ProfilePictureTip := "🖼️ Missing profile picture is a common scam indicator"
  const PhishingLinkTip := "🔗 Never click suspicious links - they may be phishing attempts"
  const FollowerPatternTip := "📊 Unusual follower patterns suggest automated/fake account"

  const ProfilePictureKeyword := "profile picture"
  const ExternalLinkKeyword := "external link"
  const FollowerKeyword := "follower"

  const HighRiskBlock := [DoNotInteract, BlockNow, ReportAccount, NeverSharePayment]
  const ModerateRiskBlock := [ExtremeCaution, VerifyOfficially, AvoidExternalLinks, CheckMutualFriends]
  const SafeBlock := [AppearsSafe, StillVerify, CautiousOfUnsolicited]

  /** The extra items, in the order in which they are appended. */
  const ExtraItems := [ProfilePictureTip, PhishingLinkTip, FollowerPatternTip]
  const ExtraKeywords := [ProfilePictureKeyword, ExternalLinkKeyword, FollowerKeyword]

  /** `keyword in reason.lower()`. */
  predicate Mentions(reason: string, keyword: string)
  {
    Contains(Lower(reason), keyword)
  }

  /** `any(keyword in r.lower() for r in reasons)`. */
  predicate AnyMentions(reasons: seq<string>, keyword: string)
  {
    exists i | 0 <= i < |reasons| :: Mentions(reasons[i], keyword)
  }

  /** The fixed block chosen by the risk level. */
  function BaseBlock(riskLevel: string): seq<string>
  {
    if riskLevel == HighRisk then HighRiskBlock
    else if riskLevel == ModerateRisk then ModerateRiskBlock
    else SafeBlock
  }

  /** The extra item with index `k` if its keyword is mentioned, otherwise nothing. */
  function ExtraIfMentioned(reasons: seq<string>, k: nat): seq<string>
    requires k < 3
  {
    if AnyMentions(reasons, ExtraKeywords[k]) then [ExtraItems[k]] else []
  }

  /** Reference definition of the list `generate_recommendations` returns. */
  function Recommendations(riskLevel: string, reasons: seq<string>): seq<string>
  {
    BaseBlock(riskLevel)
      + ExtraIfMentioned(reasons, 0) + ExtraIfMentioned(reasons, 1) + ExtraIfMentioned(reasons, 2)
  }

  /**
   * The generator expression passed to `any`: scans the reasons in order and stops
   * at the first one whose lower-cased text contains the keyword.
   */
  method AnyReasonMentions(reasons: seq<string>, keyword: string) returns (found: bool)
    ensures found <==> AnyMentions(reasons, keyword)
  {
    found := false;
    var i := 0;
    while i < |reasons| && !found
      invariant 0 <= i <= |reasons|
      invariant found ==> 0 < i && Mentions(reasons[i - 1], keyword)
      invariant !found ==> forall j :: 0 <= j < i ==> !Mentions(reasons[j], keyword)
    {
      found := Mentions(reasons[i], keyword);
      i := i + 1;
    }
  }

  /**
   * `generate_recommendations`: grows the list with one fixed block chosen by the
   * risk level, then appends up to three keyword-triggered items.
   */
  method GenerateRecommendations(riskLevel: string, reasons: seq<string>) returns (recommendations: seq<string>)
    ensures recommendations == Recommendations(riskLevel, reasons)
    ensures 3 <= |recommendations| <= 7
  {
    recommendations := [];
    if riskLevel == HighRisk {
      recommendations := recommendations + [DoNotInteract];
      recommendations := recommendations + [BlockNow];
      recommendations := recommendations + [ReportAccount];
      recommendations := recommendations + [NeverSharePayment];
    } else if riskLevel == ModerateRisk {
      recommendations := recommendations + [ExtremeCaution];
      recommendations := recommendations + [VerifyOfficially];
      recommendations := recommendations + [AvoidExternalLinks];
      recommendations := recommendations + [CheckMutualFriends];
    } else {
      recommendations := recommendations + [AppearsSafe];
      recommendations := recommendations + [StillVerify];
      recommendations := recommendations + [CautiousOfUnsolicited];
    }

    assert recommendations == BaseBlock(riskLevel);

    var mentionsPicture := AnyReasonMentions(reasons, ProfilePictureKeyword);
    if mentionsPicture {
      recommendations := recommendations + [ProfilePictureTip];
    }
    assert recommendations == BaseBlock(riskLevel) + ExtraIfMentioned(reasons, 0);
    var mentionsLink := AnyReasonMentions(reasons, ExternalLinkKeyword);
    if mentionsLink {
      recommendations := recommendations + [PhishingLinkTip];
    }
    assert recommendations == BaseBlock(riskLevel) + ExtraIfMentioned(reasons, 0) + ExtraIfMentioned(reasons, 1);
    var mentionsFollower := AnyReasonMentions(reasons, FollowerKeyword);
    if mentionsFollower {
      recommendations := recommendations + [FollowerPatternTip];
    }
  }

  /** "High Risk" opens with its four items, in the listed order. */
  lemma HighRiskOpensWithItsBlock(reasons: seq<string>)
    ensures var r := Recommendations(HighRisk, reasons);
      |r| >= 4 && r[0] == DoNotInteract && r[1] == BlockNow && r[2] == ReportAccount && r[3] == NeverSharePayment
  {
  }

  /** "Moderate Risk" opens with its four items, in the listed order. */
  lemma ModerateRiskOpensWithItsBlock(reasons: seq<string>)
    ensures var r := Recommendations(ModerateRisk, reasons);
      |r| >= 4 && r[0] == ExtremeCaution && r[1] == VerifyOfficially && r[2] == AvoidExternalLinks
      && r[3] == CheckMutualFriends
  {
  }

  /** Every other level string, not only "Low Risk", opens with the three-item safe block. */
  lemma OtherLevelsOpenWithSafeBlock(riskLevel: string, reasons: seq<string>)
    requires riskLevel != HighRisk && riskLevel != ModerateRisk
    ensures var r := Recommendations(riskLevel, reasons);
      |r| >= 3 && r[0] == AppearsSafe && r[1] == StillVerify && r[2] == CautiousOfUnsolicited
  {
  }

  /** No extra item occurs in any of the fixed blocks. */
  lemma ExtrasNotInBlocks(riskLevel: string, k: nat)
    requires k < 3
    ensures ExtraItems[k] !in BaseBlock(riskLevel)
  {
  }

  /**
   * Each extra item is in the list exactly when some reason, lower-cased,
   * contains its keyword.
   */
  lemma ExtraPresentIffMentioned(riskLevel: string, reasons: seq<string>, k: nat)
    requires k < 3
    ensures ExtraItems[k] in Recommendations(riskLevel, reasons) <==> AnyMentions(reasons, ExtraKeywords[k])
  {
    ExtrasNotInBlocks(riskLevel, k);
    var r := Recommendations(riskLevel, reasons);
    var tail := ExtraIfMentioned(reasons, 0) + ExtraIfMentioned(reasons, 1) + ExtraIfMentioned(reasons, 2);
    assert r == BaseBlock(riskLevel) + tail;
    assert ExtraItems[k] in r <==> ExtraItems[k] in tail;
  }

  /** Position of an item among the extras; 3 for anything else. */
  function ExtraRank(item: string): (rank: nat)
    ensures rank < 3 ==> ExtraItems[rank] == item
    ensures rank == 3 ==> item !in ExtraItems
  {
    if item == ProfilePictureTip then 0
    else if item == PhishingLinkTip then 1
    else if item == FollowerPatternTip then 2
    else 3
  }

  /**
   * After the fixed block come only extra items, each at most once, in the fixed
   * order profile picture, link, follower pattern.
   */
  lemma ExtrasFollowBlockInOrder(riskLevel: string, reasons: seq<string>)
    ensures var r := Recommendations(riskLevel, reasons);
      var n := |BaseBlock(riskLevel)|;
      && r[..n] == BaseBlock(riskLevel)
      && (forall i :: n <= i < |r| ==> r[i] in ExtraItems)
      && (forall i, j :: n <= i < j < |r| ==> ExtraRank(r[i]) < ExtraRank(r[j]))
  {
  }

  /** No item is repeated anywhere in the list. */
  lemma NoDuplicateRecommendations(riskLevel: string, reasons: seq<string>)
    ensures var r := Recommendations(riskLevel, reasons);
      forall i, j :: 0 <= i < j < |r| ==> r[i] != r[j]
  {
  }

  /**
   * The list has between 3 and 7 items; with no reasons it is exactly the fixed
   * block: 4 items for "High Risk" and "Moderate Risk", 3 otherwise.
   */
  lemma RecommendationCount(riskLevel: string, reasons: seq<string>)
    ensures 3 <= |Recommendations(riskLevel, reasons)| <= 7
    ensures Recommendations(riskLevel, []) == BaseBlock(riskLevel)
    ensures |Recommendations(riskLevel, [])| == if riskLevel in {HighRisk, ModerateRisk} then 4 else 3
  {
  }

  /** The validated request record; only `username` reaches the response. */
  datatype AccountInput = AccountInput(
    username: string,
    followers: Option<int>,
    following: Option<int>,
    posts: Option<int>,
    accountAgeDays: Option<int>,
    verified: Option<bool>,
    visibility: Option<string>,
    hasProfilePic: Option<string>,
    bioText: Option<string>,
    bioLinks: Option<string>,
    dmActivity: Option<string>)

  /** The part of the risk engine's result that the response copies. */
  datatype RiskData = RiskData(riskScore: int, riskLevel: string, confidence: int, confidenceLabel: string)

  /** The response record returned by the endpoint. */
  datatype AnalysisResponse = AnalysisResponse(
    username: string,
    riskScore: int,
    riskLevel: string,
    confidence: int,
    confidenceLabel: string,
    reasons: seq<string>,
    recommendations: seq<string>,
    timestamp: string)

  /**
   * The body of `analyze_account` after the risk engine has run: recommendations
   * from the engine's level and reasons, then the response record.
   */
  method AnalyzeAccount(account: AccountInput, riskData: RiskData, reasons: seq<string>, now: string)
    returns (response: AnalysisResponse)
    ensures response.username == account.username
    ensures response.riskScore == riskData.riskScore && response.riskLevel == riskData.riskLevel
    ensures response.confidence == riskData.confidence && response.confidenceLabel == riskData.confidenceLabel
    ensures response.reasons == reasons
    ensures response.recommendations == Recommendations(riskData.riskLevel, reasons)
    ensures response.recommendations[..|BaseBlock(response.riskLevel)|] == BaseBlock(response.riskLevel)
    ensures response.timestamp == now
  {
    var recommendations := GenerateRecommendations(riskData.riskLevel, reasons);
    response := AnalysisResponse(
      account.username,
      riskData.riskScore,
      riskData.riskLevel,
      riskData.confidence,
      riskData.confidenceLabel,
      reasons,
      recommendations,
      now);
  }

}
