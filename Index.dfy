/** The landing page's redeem form: an influencer code and a product code,
    checked against two fixed lists (the page's mock data) rather than the
    database. */
module Index {
  import opened Common
  import opened JsString

  /** The influencer codes the page recognises. */
  const MockInfluencers: seq<string> := ["INF-001", "INF-002", "INF-003"]
  /** The product codes the page treats as already redeemed. */
  const MockUsedCodes: seq<string> := ["PROD-USED1", "PROD-USED2"]

  /** The toast `handleRedeem` shows: both fields must hold something besides
      white space; then the upper-cased influencer code must be a known one;
      then the upper-cased product code must not be a used one. Only the
      emptiness check trims. */
  function RedeemVerdict(influencerCode: string, productCode: string): Toast
  {
    Verdict(IsBlank(influencerCode) || IsBlank(productCode), ToUpper(influencerCode), ToUpper(productCode))
  }

  /** The same checks, given whether a field is blank and both codes upper-cased. */
  function Verdict(blank: bool, influencerKey: string, productKey: string): Toast
  {
    if blank then MissingInformation
    else if influencerKey !in MockInfluencers then InvalidInfluencerCode
    else if productKey in MockUsedCodes then ProductCodeAlreadyUsed
    else RedeemSucceeded
  }

  /** Every known influencer code begins with 'I' and ends with a digit. */
  lemma KnownCodeStart(code: string)
    requires code in MockInfluencers
    ensures |code| > 0 && code[0] == 'I' && '0' <= code[|code| - 1] <= '9'
  {
  }

  /** Every known influencer code begins with a letter, so none is blank. */
  lemma KnownCodeNotBlank(influencerCode: string)
    requires ToUpper(influencerCode) in MockInfluencers
    ensures !IsBlank(influencerCode)
  {
    var u := ToUpper(influencerCode);
    KnownCodeStart(u);
    assert !IsWhiteSpace(u[0]);
    ToUpperKeepsBlank(influencerCode);
  }

  /** A redemption succeeds exactly when the influencer code is a known one in
      any letter case and the product code, in any letter case, is not a used
      one; a known code is never blank, so the emptiness check then only asks
      that the product code be non-blank. */
  lemma RedeemSucceedsIff(influencerCode: string, productCode: string)
    ensures RedeemVerdict(influencerCode, productCode) == RedeemSucceeded <==>
      ToUpper(influencerCode) in MockInfluencers && !IsBlank(productCode) &&
      ToUpper(productCode) !in MockUsedCodes
  {
    if ToUpper(influencerCode) in MockInfluencers {
      KnownCodeNotBlank(influencerCode);
    }
  }

  /** The verdict depends on the codes only through their blankness and their
      upper-cased forms. */
  lemma VerdictCongruence(i1: string, p1: string, i2: string, p2: string)
    requires IsBlank(i1) == IsBlank(i2) && IsBlank(p1) == IsBlank(p2)
    requires ToUpper(i1) == ToUpper(i2) && ToUpper(p1) == ToUpper(p2)
    ensures RedeemVerdict(i1, p1) == RedeemVerdict(i2, p2)
  {
  }

  /** Letter case does not matter to the verdict: typing either code in upper
      case changes nothing. */
  lemma VerdictIgnoresCase(influencerCode: string, productCode: string)
    ensures RedeemVerdict(ToUpper(influencerCode), ToUpper(productCode)) ==
            RedeemVerdict(influencerCode, productCode)
  {
    ToUpperKeepsBlank(influencerCode);
    ToUpperKeepsBlank(productCode);
    ToUpperIdempotent(influencerCode);
    ToUpperIdempotent(productCode);
    VerdictCongruence(ToUpper(influencerCode), ToUpper(productCode), influencerCode, productCode);
  }

  /** White space does matter: an influencer code typed with white space at
      either end passes the emptiness check (when it holds anything else) but
      is refused as unknown, whatever letters it holds. */
  lemma PaddedCodeRefused(influencerCode: string, productCode: string)
    requires !IsBlank(influencerCode) && !IsBlank(productCode)
    requires |influencerCode| > 0
    requires IsWhiteSpace(influencerCode[0]) || IsWhiteSpace(influencerCode[|influencerCode| - 1])
    ensures RedeemVerdict(influencerCode, productCode) == InvalidInfluencerCode
  {
    var u := ToUpper(influencerCode);
    var last := |u| - 1;
    UpperKeepsWhiteSpace(influencerCode[0]);
    UpperKeepsWhiteSpace(influencerCode[last]);
    assert IsWhiteSpace(u[0]) || IsWhiteSpace(u[last]);
    if u in MockInfluencers {
      KnownCodeStart(u);
      assert false;
    }
  }

  class IndexPage {
    var influencerCode: string
    var productCode: string
    var loading: bool

    constructor ()
      ensures influencerCode == "" && productCode == "" && !loading
    {
      influencerCode := "";
      productCode := "";
      loading := false;
    }

    method SetInfluencerCode(value: string)
      modifies this`influencerCode
      ensures influencerCode == value
    {
      influencerCode := value;
    }

    method SetProductCode(value: string)
      modifies this`productCode
      ensures productCode == value
    {
      productCode := value;
    }

    /** `handleRedeem`, with the delayed validation run to completion. A
        success clears both fields; every failure keeps them. The emptiness
        check returns before `loading` is touched; every later outcome
        leaves it false. */
    method HandleRedeem() returns (toast: Toast)
      modifies this
      ensures toast == RedeemVerdict(old(influencerCode), old(productCode))
      ensures toast == RedeemSucceeded ==> influencerCode == "" && productCode == ""
      ensures toast != RedeemSucceeded ==>
        influencerCode == old(influencerCode) && productCode == old(productCode)
      ensures loading == (if toast == MissingInformation then old(loading) else false)
    {
      ghost var verdict := RedeemVerdict(influencerCode, productCode);
      if IsBlank(influencerCode) || IsBlank(productCode) {
        toast := MissingInformation;
        return;
      }
      loading := true;
      var influencerKey := ToUpper(influencerCode);
      if influencerKey !in MockInfluencers {
        toast := InvalidInfluencerCode;
        loading := false;
        return;
      }
      var productKey := ToUpper(productCode);
      if productKey in MockUsedCodes {
        toast := ProductCodeAlreadyUsed;
        loading := false;
        return;
      }
      toast := RedeemSucceeded;
      influencerCode := "";
      productCode := "";
      loading := false;
    }
  }
}
