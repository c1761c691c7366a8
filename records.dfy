/**
 * The three kinds of record the demo keeps in its module-level `mockData`
 * store (sessions, campaign spend rows, attribution results) and the fixed
 * vocabularies the generator draws from.
 */
module Records {
  import opened JsBuiltins

  const Organic: string := "organic"
  const OrganicReferrer: string := "https://guard.io/"
  const Sources: seq<string> := ["google", "facebook", "linkedin", "twitter"]
  const Campaigns: seq<string> := ["brand_awareness", "lead_gen", "retargeting", "conversion"]
  const Devices: seq<string> := ["mobile", "desktop", "tablet"]

  /** One browsing session; `isActivated` is the source's numeric 0/1 flag. */
  datatype Session = Session(
    sessionId: string,
    userId: string,
    deviceType: string,
    sessionStartTime: string,
    referrerUrl: string,
    isActivated: int,
    source: string,
    campaignId: Option<string>)

  /** One row of daily spend for an ad set; `spend` is the drawn amount, kept opaque. */
  datatype SpendRow = SpendRow(
    date: string,
    source: string,
    campaignId: string,
    campaignName: string,
    adsetId: string,
    adsetName: string,
    adId: string,
    adName: string,
    spend: real)

  /** One attribution result; `costPerActivation` is the drawn amount, or null. */
  datatype AttributionRow = AttributionRow(
    userId: string,
    activationSessionStartTime: string,
    firstTouchAttributionSource: string,
    firstTouchCampaignId: Option<string>,
    lastTouchAttributionSource: string,
    lastTouchCampaignId: Option<string>,
    costPerActivation: Option<real>)

  /** A session counts as marketing exactly when its source is not the literal "organic". */
  predicate IsMarketing(s: Session) {
    s.source != Organic
  }

  /** The generator's invariant relied on by the organic fallback: organic sessions carry no campaign. */
  predicate OrganicHasNoCampaign(sessions: seq<Session>) {
    forall i :: 0 <= i < |sessions| && !IsMarketing(sessions[i]) ==> sessions[i].campaignId == None
  }
}
