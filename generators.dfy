/**
 * The synthetic data generator of `initializeMockData`: 1000 sessions and the
 * campaign-spend cross product. Every `Math.random()` outcome and every
 * clock-derived string is an input (a "draw"), so the generator itself is a
 * deterministic function of its draws.
 */
module Generators {
  import opened JsBuiltins
  import opened Records

  const SessionCount: nat := 1000
  const UserCount: nat := 500
  const AdsetDrawBound: nat := 20
  const AdDrawBound: nat := 50
  const AdsetCount: nat := 10
  const DayCount: nat := 30
  const SpendRowCount: nat := 4800

  /**
   * The random outcomes behind one session: `marketing` is `Math.random() > 0.7`,
   * `activated` is `Math.random() > 0.95`, the indices are `Math.floor(Math.random() * n)`
   * and `startTime` is the ISO text of the drawn start instant.
   */
  datatype SessionDraw = SessionDraw(
    marketing: bool,
    sourceIndex: nat,
    campaignIndex: nat,
    userNumber: nat,
    deviceIndex: nat,
    startTime: string,
    adset: nat,
    ad: nat,
    activated: bool)

  predicate ValidSessionDraw(d: SessionDraw) {
    && d.sourceIndex < |Sources|
    && d.campaignIndex < |Campaigns|
    && d.userNumber < UserCount
    && d.deviceIndex < |Devices|
    && d.adset < AdsetDrawBound
    && d.ad < AdDrawBound
  }

  predicate ValidSessionDraws(draws: seq<SessionDraw>) {
    |draws| == SessionCount && forall i :: 0 <= i < |draws| ==> ValidSessionDraw(draws[i])
  }

  /** `sess_` followed by the index left-padded with zeros to six digits. */
  function SessionId(i: nat): string {
    "sess_" + PadStart(NatToString(i), 6, '0')
  }

  /** `user_` followed by the drawn number left-padded with zeros to four digits. */
  function UserId(n: nat): string {
    "user_" + PadStart(NatToString(n), 4, '0')
  }

  function UtmSource(source: string): string {
    "utm_source=" + source
  }

  function UtmCampaign(campaign: string): string {
    "utm_campaign=" + campaign
  }

  function UtmAdsetAndAd(adset: nat, ad: nat): string {
    "&utm_adset=adset_" + NatToString(adset) + "&utm_ad=ad_" + NatToString(ad)
  }

  /** `https://guard.io/?utm_source=<source>&utm_campaign=<campaign>&utm_adset=adset_<n>&utm_ad=ad_<m>`. */
  function MarketingReferrer(source: string, campaign: string, adset: nat, ad: nat): string {
    OrganicReferrer + "?" + UtmSourceCampaign(source, campaign) + UtmAdsetAndAd(adset, ad)
  }

  /** `utm_source=<source>&utm_campaign=<campaign>`, the two parameters side by side. */
  function UtmSourceCampaign(source: string, campaign: string): string {
    UtmSource(source) + "&" + UtmCampaign(campaign)
  }

  /** The session pushed at loop index `i`. */
  function MakeSession(i: nat, d: SessionDraw): Session
    requires ValidSessionDraw(d)
  {
    var source := if d.marketing then Sources[d.sourceIndex] else Organic;
    var campaign := if d.marketing then Campaigns[d.campaignIndex] else "";
    Session(
      SessionId(i),
      UserId(d.userNumber),
      Devices[d.deviceIndex],
      d.startTime,
      if d.marketing then MarketingReferrer(source, campaign, d.adset, d.ad) else OrganicReferrer,
      if d.activated then 1 else 0,
      source,
      if d.marketing then Some(campaign) else None)
  }

  /** The 1000 sessions one run of the generator loop appends, in loop order. */
  function GeneratedSessions(draws: seq<SessionDraw>): seq<Session>
    requires ValidSessionDraws(draws)
  {
    seq(SessionCount, i requires 0 <= i < SessionCount => MakeSession(i, draws[i]))
  }

  /** The first `i + 1` generated sessions extend the first `i` by session `i`. */
  lemma GeneratedSessionsStep(draws: seq<SessionDraw>, i: nat)
    requires ValidSessionDraws(draws) && i < SessionCount
    ensures GeneratedSessions(draws)[..i + 1] == GeneratedSessions(draws)[..i] + [MakeSession(i, draws[i])]
  {
    var ss := GeneratedSessions(draws);
    PushPrefix(ss, i);
    assert ss[i] == MakeSession(i, draws[i]);
  }

  lemma SessionIdInjective(i: nat, j: nat)
    requires SessionId(i) == SessionId(j)
    ensures i == j
  {
    assert SessionId(i)[5..] == PadStart(NatToString(i), 6, '0');
    assert SessionId(j)[5..] == PadStart(NatToString(j), 6, '0');
    PaddedDecimalRoundTrip(i, 6);
    PaddedDecimalRoundTrip(j, 6);
  }

  lemma SessionIdShape(i: nat)
    requires i < 1000000
    ensures |SessionId(i)| == 11 && SessionId(i)[..5] == "sess_"
    ensures AllDigits(SessionId(i)[5..]) && ParseDecimal(SessionId(i)[5..]) == i
  {
    assert Pow10(6) == 1000000;
    NatToStringLength(i, 6);
    assert SessionId(i)[5..] == PadStart(NatToString(i), 6, '0');
    PaddedDecimalRoundTrip(i, 6);
  }

  lemma UserIdInjective(m: nat, n: nat)
    requires UserId(m) == UserId(n)
    ensures m == n
  {
    assert UserId(m)[5..] == PadStart(NatToString(m), 4, '0');
    assert UserId(n)[5..] == PadStart(NatToString(n), 4, '0');
    PaddedDecimalRoundTrip(m, 4);
    PaddedDecimalRoundTrip(n, 4);
  }

  /** A session is organic exactly when its referrer is the bare landing page and it has no campaign. */
  lemma MakeSessionOrganicIff(i: nat, d: SessionDraw)
    requires ValidSessionDraw(d)
    ensures var s := MakeSession(i, d);
      !IsMarketing(s) <==> s.referrerUrl == OrganicReferrer && s.campaignId == None
    ensures var s := MakeSession(i, d);
      IsMarketing(s) ==> s.source in Sources && s.campaignId.Some? && s.campaignId.value in Campaigns
  {
    var s := MakeSession(i, d);
    if d.marketing {
      assert |s.referrerUrl| > |OrganicReferrer|;
      assert Sources[d.sourceIndex] != Organic by {
        assert Sources[d.sourceIndex][0] != Organic[0] || |Sources[d.sourceIndex]| != |Organic|;
      }
    }
  }

  /**
   * A marketing referrer carries `utm_source=<source>&utm_campaign=<campaign>` as one piece,
   * so in particular each of the two parameters.
   */
  lemma MarketingReferrerNamesSource(source: string, campaign: string, adset: nat, ad: nat)
    ensures Contains(MarketingReferrer(source, campaign, adset, ad), UtmSourceCampaign(source, campaign))
    ensures Contains(MarketingReferrer(source, campaign, adset, ad), UtmSource(source))
    ensures Contains(MarketingReferrer(source, campaign, adset, ad), UtmCampaign(campaign))
  {
    var url := MarketingReferrer(source, campaign, adset, ad);
    ContainsInfix(OrganicReferrer + "?", UtmSourceCampaign(source, campaign), UtmAdsetAndAd(adset, ad));
    ContainsParts(url, UtmSource(source) + "&", UtmCampaign(campaign));
    ContainsParts(url, UtmSource(source), "&");
  }

  /** A generated marketing session's referrer names that session's own source and campaign, side by side. */
  lemma MakeSessionReferrerNamesItsSource(i: nat, d: SessionDraw)
    requires ValidSessionDraw(d)
    ensures var s := MakeSession(i, d);
      IsMarketing(s) ==>
        (&& s.campaignId.Some?
         && Contains(s.referrerUrl, UtmSourceCampaign(s.source, s.campaignId.value))
         && Contains(s.referrerUrl, UtmSource(s.source))
         && Contains(s.referrerUrl, UtmCampaign(s.campaignId.value)))
  {
    MakeSessionOrganicIff(i, d);
    if d.marketing {
      MarketingReferrerNamesSource(Sources[d.sourceIndex], Campaigns[d.campaignIndex], d.adset, d.ad);
    }
  }

  /** The generated sessions keep the organic-has-no-campaign invariant and have distinct ids. */
  lemma GeneratedSessionsWellFormed(draws: seq<SessionDraw>)
    requires ValidSessionDraws(draws)
    ensures var ss := GeneratedSessions(draws);
      && OrganicHasNoCampaign(ss)
      && (forall i :: 0 <= i < |ss| ==> ss[i].sessionId == SessionId(i) && ss[i].isActivated in {0, 1})
      && (forall i, j :: 0 <= i < j < |ss| ==> ss[i].sessionId != ss[j].sessionId)
  {
    var ss := GeneratedSessions(draws);
    forall i | 0 <= i < |ss| && !IsMarketing(ss[i]) ensures ss[i].campaignId == None {
      MakeSessionOrganicIff(i, draws[i]);
    }
    forall i, j | 0 <= i < j < |ss| ensures ss[i].sessionId != ss[j].sessionId {
      if ss[i].sessionId == ss[j].sessionId {
        SessionIdInjective(i, j);
      }
    }
  }

  /** The random outcomes behind one spend row: the two `Math.floor(Math.random() * 5)` suffixes and the amount. */
  datatype SpendDraw = SpendDraw(adSuffix: nat, adNameSuffix: nat, spend: real)

  /** Position of (source, campaign, ad set, date) in the nested loops' output: dates vary fastest. */
  function SpendPosition(s: nat, c: nat, a: nat, d: nat): nat {
    s * 1200 + c * 300 + a * 30 + d
  }

  function MakeSpendRow(source: string, campaign: string, a: nat, date: string, draw: SpendDraw): SpendRow {
    SpendRow(
      date,
      source,
      campaign,
      ReplaceFirst(campaign, '_', ' ') + " Campaign",
      "adset_" + NatToString(a),
      "AdSet " + NatToString(a + 1),
      "ad_" + NatToString(a) + "_" + NatToString(draw.adSuffix),
      "Ad " + NatToString(a + 1) + "-" + NatToString(draw.adNameSuffix),
      draw.spend)
  }

  /** The spend rows the nested `forEach` loops append, row `n` drawing `draws[n]`. */
  function SpendTable(dates: seq<string>, draws: seq<SpendDraw>): seq<SpendRow>
    requires |dates| == DayCount && |draws| == SpendRowCount
  {
    seq(SpendRowCount, n requires 0 <= n < SpendRowCount => SpendRowAt(dates, draws, n))
  }

  /** Row `n` of the spend table: decode the combination from the position. */
  function SpendRowAt(dates: seq<string>, draws: seq<SpendDraw>, n: nat): SpendRow
    requires |dates| == DayCount && |draws| == SpendRowCount && n < SpendRowCount
  {
    MakeSpendRow(Sources[n / 1200], Campaigns[n / 300 % 4], n / 30 % 10, dates[n % 30], draws[n])
  }

  // Euclidean division by the loop strides, one literal divisor at a time.
  lemma DivBy1200(q: nat, r: nat)
    requires r < 1200
    ensures (q * 1200 + r) / 1200 == q
  {
  }

  lemma DivBy300(q: nat, r: nat)
    requires r < 300
    ensures (q * 300 + r) / 300 == q
  {
  }

  lemma DivModBy30(q: nat, r: nat)
    requires r < 30
    ensures (q * 30 + r) / 30 == q && (q * 30 + r) % 30 == r
  {
  }

  lemma ModBy10(q: nat, r: nat)
    requires r < 10
    ensures (q * 10 + r) % 10 == r
  {
  }

  lemma ModBy4(q: nat, r: nat)
    requires r < 4
    ensures (q * 4 + r) % 4 == r
  {
  }

  lemma SpendPositionDecomposes(s: nat, c: nat, a: nat, d: nat)
    requires s < |Sources| && c < |Campaigns| && a < AdsetCount && d < DayCount
    ensures var n := SpendPosition(s, c, a, d);
      n < SpendRowCount && n / 1200 == s && n / 300 % 4 == c && n / 30 % 10 == a && n % 30 == d
  {
    var n := SpendPosition(s, c, a, d);
    DivBy1200(s, c * 300 + a * 30 + d);
    var q := s * 4 + c;
    assert n == q * 300 + (a * 30 + d);
    DivBy300(q, a * 30 + d);
    ModBy4(s, c);
    var r := q * 10 + a;
    assert n == r * 30 + d;
    DivModBy30(r, d);
    ModBy10(q, a);
  }

  /** The table row for (source, campaign, ad set, date) is the literal built for exactly those, with its own draw. */
  lemma SpendTableAt(dates: seq<string>, draws: seq<SpendDraw>, s: nat, c: nat, a: nat, d: nat)
    requires |dates| == DayCount && |draws| == SpendRowCount
    requires s < |Sources| && c < |Campaigns| && a < AdsetCount && d < DayCount
    ensures SpendPosition(s, c, a, d) < SpendRowCount
    ensures SpendTable(dates, draws)[SpendPosition(s, c, a, d)]
      == MakeSpendRow(Sources[s], Campaigns[c], a, dates[d], draws[SpendPosition(s, c, a, d)])
  {
    SpendPositionDecomposes(s, c, a, d);
  }

  /** The rows of one ad set: the table rows at its 30 positions, in date order. */
  function AdsetRows(dates: seq<string>, draws: seq<SpendDraw>, s: nat, c: nat, a: nat): seq<SpendRow>
    requires |dates| == DayCount && |draws| == SpendRowCount
    requires s < |Sources| && c < |Campaigns| && a < AdsetCount
  {
    seq(DayCount, d requires 0 <= d < DayCount => SpendRowAt(dates, draws, SpendPosition(s, c, a, d)))
  }

  /** The first `d + 1` rows of an ad set extend the first `d` by the row for date `d`. */
  lemma AdsetRowsStep(dates: seq<string>, draws: seq<SpendDraw>, s: nat, c: nat, a: nat, d: nat)
    requires |dates| == DayCount && |draws| == SpendRowCount
    requires s < |Sources| && c < |Campaigns| && a < AdsetCount && d < DayCount
    ensures SpendPosition(s, c, a, 0) + d < SpendRowCount
    ensures var rows := AdsetRows(dates, draws, s, c, a);
      rows[..d + 1] == rows[..d]
        + [MakeSpendRow(Sources[s], Campaigns[c], a, dates[d], draws[SpendPosition(s, c, a, 0) + d])]
  {
    var rows := AdsetRows(dates, draws, s, c, a);
    PushPrefix(rows, d);
    var n := SpendPosition(s, c, a, d);
    assert n == SpendPosition(s, c, a, 0) + d;
    SpendPositionDecomposes(s, c, a, d);
    assert rows[d] == SpendRowAt(dates, draws, n);
    assert SpendRowAt(dates, draws, n) == MakeSpendRow(Sources[s], Campaigns[c], a, dates[d], draws[n]);
  }

  /** Row `d` of an ad set's rows is the table row at that ad set's position plus `d`. */
  lemma AdsetRowAt(dates: seq<string>, draws: seq<SpendDraw>, s: nat, c: nat, a: nat, d: nat)
    requires |dates| == DayCount && |draws| == SpendRowCount
    requires s < |Sources| && c < |Campaigns| && a < AdsetCount && d < DayCount
    ensures SpendPosition(s, c, a, d) == SpendPosition(s, c, a, 0) + d < SpendRowCount
    ensures SpendTable(dates, draws)[SpendPosition(s, c, a, d)] == AdsetRows(dates, draws, s, c, a)[d]
  {
    SpendPositionDecomposes(s, c, a, d);
  }

  /** The ad set's rows sit contiguously in the spend table, at its position. */
  lemma AdsetRowsInTable(dates: seq<string>, draws: seq<SpendDraw>, s: nat, c: nat, a: nat)
    requires |dates| == DayCount && |draws| == SpendRowCount
    requires s < |Sources| && c < |Campaigns| && a < AdsetCount
    ensures SpendPosition(s, c, a, 0) + DayCount <= SpendRowCount
    ensures var base := SpendPosition(s, c, a, 0);
      SpendTable(dates, draws)[base..base + DayCount] == AdsetRows(dates, draws, s, c, a)
  {
    var base := SpendPosition(s, c, a, 0);
    var table, rows := SpendTable(dates, draws), AdsetRows(dates, draws, s, c, a);
    AdsetRowAt(dates, draws, s, c, a, DayCount - 1);
    var block := table[base..base + DayCount];
    forall d | 0 <= d < DayCount
      ensures block[d] == rows[d]
    {
      AdsetRowAt(dates, draws, s, c, a, d);
    }
  }

  lemma SpendPositionOf(n: nat)
    requires n < SpendRowCount
    ensures n / 1200 < |Sources| && n / 300 % 4 < |Campaigns| && n / 30 % 10 < AdsetCount && n % 30 < DayCount
    ensures n == SpendPosition(n / 1200, n / 300 % 4, n / 30 % 10, n % 30)
  {
    var h, d := n / 30, n % 30;
    var g, a := h / 10, h % 10;
    var s, c := g / 4, g % 4;
    assert h == g * 10 + a;
    assert g == s * 4 + c;
    assert n == SpendPosition(s, c, a, d);
    SpendPositionDecomposes(s, c, a, d);
  }

  /**
   * The spend table is the cross product sources x campaigns x 10 ad sets x 30 dates:
   * 4800 rows, the row for each combination carrying that combination.
   */
  lemma SpendTableCrossProduct(dates: seq<string>, draws: seq<SpendDraw>)
    requires |dates| == DayCount && |draws| == SpendRowCount
    ensures |SpendTable(dates, draws)| == |Sources| * |Campaigns| * AdsetCount * DayCount
    ensures forall s: nat, c: nat, a: nat, d: nat :: s < |Sources| && c < |Campaigns| && a < AdsetCount && d < DayCount ==>
      var row := SpendTable(dates, draws)[SpendPosition(s, c, a, d)];
      && row.source == Sources[s] && row.campaignId == Campaigns[c]
      && row.adsetId == "adset_" + NatToString(a) && row.date == dates[d]
  {
    forall s: nat, c: nat, a: nat, d: nat | s < |Sources| && c < |Campaigns| && a < AdsetCount && d < DayCount
      ensures SpendPosition(s, c, a, d) < |SpendTable(dates, draws)|
      ensures var row := SpendTable(dates, draws)[SpendPosition(s, c, a, d)];
        && row.source == Sources[s] && row.campaignId == Campaigns[c]
        && row.adsetId == "adset_" + NatToString(a) && row.date == dates[d]
    {
      SpendTableAt(dates, draws, s, c, a, d);
    }
  }

  function SpendKey(row: SpendRow): (string, string, string, string) {
    (row.source, row.campaignId, row.adsetId, row.date)
  }

  lemma SourcesDistinct(i: nat, j: nat)
    requires i < |Sources| && j < |Sources| && Sources[i] == Sources[j]
    ensures i == j
  {
    assert Sources[1][0] != Sources[2][0];
  }

  lemma CampaignsDistinct(i: nat, j: nat)
    requires i < |Campaigns| && j < |Campaigns| && Campaigns[i] == Campaigns[j]
    ensures i == j
  {
  }

  /** With distinct dates, no two spend rows share (source, campaign, ad set, date). */
  lemma SpendKeysUnique(dates: seq<string>, draws: seq<SpendDraw>)
    requires |dates| == DayCount && |draws| == SpendRowCount
    requires forall i, j :: 0 <= i < j < |dates| ==> dates[i] != dates[j]
    ensures forall n, m :: 0 <= n < m < SpendRowCount ==>
      SpendKey(SpendTable(dates, draws)[n]) != SpendKey(SpendTable(dates, draws)[m])
  {
    var t := SpendTable(dates, draws);
    forall n, m | 0 <= n < m < SpendRowCount ensures SpendKey(t[n]) != SpendKey(t[m]) {
      if SpendKey(t[n]) == SpendKey(t[m]) {
        SourcesDistinct(n / 1200, m / 1200);
        CampaignsDistinct(n / 300 % 4, m / 300 % 4);
        assert NatToString(n / 30 % 10) == t[n].adsetId[6..];
        assert NatToString(m / 30 % 10) == t[m].adsetId[6..];
        NatToStringInjective(n / 30 % 10, m / 30 % 10);
        SpendPositionOf(n);
        SpendPositionOf(m);
        assert false;
      }
    }
  }
}
