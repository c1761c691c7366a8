/**
 * The module-level `mockData` store of `script.js` and the two routines that
 * work on it: `initializeMockData`, whose loops push into the store's three
 * arrays, and `populateTable`, which renders the first rows of one of them.
 */
module MockStore {
  import opened JsBuiltins
  import opened Records
  import opened Generators
  import opened Attribution
  import opened Table

  /** `mockData`: three arrays that the generator appends to. */
  class MockData {
    var sessions: seq<Session>
    var campaignSpend: seq<SpendRow>
    var attributionResults: seq<AttributionRow>

    /** The store as the page loads it: all three arrays empty. */
    constructor ()
      ensures sessions == [] && campaignSpend == [] && attributionResults == []
    {
      sessions, campaignSpend, attributionResults := [], [], [];
    }

    /** The `for (let i = 0; i < 1000; i++)` loop pushing sessions. */
    method GenerateSessions(draws: seq<SessionDraw>)
      requires ValidSessionDraws(draws)
      modifies this`sessions
      ensures sessions == old(sessions) + GeneratedSessions(draws)
    {
      ghost var generated := GeneratedSessions(draws);
      var i := 0;
      while i < SessionCount
        invariant 0 <= i <= SessionCount
        invariant sessions == old(sessions) + generated[..i]
      {
        GeneratedSessionsStep(draws, i);
        sessions := sessions + [MakeSession(i, draws[i])];
        i := i + 1;
      }
      assert generated[..i] == generated;
    }

    /**
     * The nested `sources.forEach` / `campaigns.forEach` / `for (i < 10)` / `dates.forEach`
     * loops pushing one spend row per combination. Each loop level is its own method
     * below, the outermost here.
     */
    method GenerateCampaignSpend(dates: seq<string>, draws: seq<SpendDraw>)
      requires |dates| == DayCount && |draws| == SpendRowCount
      modifies this`campaignSpend
      ensures campaignSpend == old(campaignSpend) + SpendTable(dates, draws)
    {
      ghost var table := SpendTable(dates, draws);
      var s := 0;
      while s < |Sources|
        invariant 0 <= s <= |Sources|
        invariant campaignSpend == old(campaignSpend) + table[..s * 1200]
      {
        AppendCampaigns(dates, draws, s);
        assert table[..(s + 1) * 1200] == table[..s * 1200] + table[s * 1200..(s + 1) * 1200];
        s := s + 1;
      }
      assert table[..s * 1200] == table;
    }

    /** The rows of one source: every campaign in turn. */
    method AppendCampaigns(dates: seq<string>, draws: seq<SpendDraw>, s: nat)
      requires |dates| == DayCount && |draws| == SpendRowCount && s < |Sources|
      modifies this`campaignSpend
      ensures campaignSpend == old(campaignSpend) + SpendTable(dates, draws)[s * 1200..(s + 1) * 1200]
    {
      ghost var table := SpendTable(dates, draws);
      var base := s * 1200;
      var c := 0;
      while c < |Campaigns|
        invariant 0 <= c <= |Campaigns|
        invariant campaignSpend == old(campaignSpend) + table[base..base + c * 300]
      {
        AppendAdsets(dates, draws, s, c);
        assert table[base..base + (c + 1) * 300]
          == table[base..base + c * 300] + table[base + c * 300..base + c * 300 + 300];
        c := c + 1;
      }
    }

    /** The rows of one campaign of one source: ad sets 0 to 9 in turn. */
    method AppendAdsets(dates: seq<string>, draws: seq<SpendDraw>, s: nat, c: nat)
      requires |dates| == DayCount && |draws| == SpendRowCount && s < |Sources| && c < |Campaigns|
      modifies this`campaignSpend
      ensures var base := s * 1200 + c * 300;
        campaignSpend == old(campaignSpend) + SpendTable(dates, draws)[base..base + 300]
    {
      ghost var table := SpendTable(dates, draws);
      var base := s * 1200 + c * 300;
      var a := 0;
      while a < AdsetCount
        invariant 0 <= a <= AdsetCount
        invariant campaignSpend == old(campaignSpend) + table[base..base + a * 30]
      {
        AppendDates(dates, draws, s, c, a);
        AdsetRowsInTable(dates, draws, s, c, a);
        assert table[base..base + (a + 1) * 30]
          == table[base..base + a * 30] + table[base + a * 30..base + a * 30 + 30];
        a := a + 1;
      }
    }

    /** The rows of one ad set: one per date. */
    method AppendDates(dates: seq<string>, draws: seq<SpendDraw>, s: nat, c: nat, a: nat)
      requires |dates| == DayCount && |draws| == SpendRowCount
      requires s < |Sources| && c < |Campaigns| && a < AdsetCount
      modifies this`campaignSpend
      ensures campaignSpend == old(campaignSpend) + AdsetRows(dates, draws, s, c, a)
    {
      ghost var rows := AdsetRows(dates, draws, s, c, a);
      var base := SpendPosition(s, c, a, 0);
      var d := 0;
      while d < |dates|
        invariant 0 <= d <= |dates|
        invariant campaignSpend == old(campaignSpend) + rows[..d]
      {
        AdsetRowsStep(dates, draws, s, c, a, d);
        campaignSpend := campaignSpend + [MakeSpendRow(Sources[s], Campaigns[c], a, dates[d], draws[base + d])];
        d := d + 1;
      }
      assert rows[..d] == rows;
    }

    /** The `activatedUsers.forEach` loop pushing one attribution row per activated session. */
    method GenerateAttributionResults(costDraws: seq<real>)
      requires |costDraws| >= |ActivatedSessions(sessions)|
      modifies this`attributionResults
      ensures attributionResults == old(attributionResults) + AttributionRows(sessions, costDraws)
    {
      ghost var rows := AttributionRows(sessions, costDraws);
      var activatedUsers := ActivatedSessions(sessions);
      var k := 0;
      while k < |activatedUsers|
        invariant 0 <= k <= |activatedUsers|
        invariant attributionResults == old(attributionResults) + rows[..k]
      {
        PushPrefix(rows, k);
        attributionResults := attributionResults + [AttributeUser(sessions, activatedUsers[k], costDraws[k])];
        k := k + 1;
      }
      assert rows[..k] == rows;
    }

    /**
     * `initializeMockData`: sessions, then spend, then attribution over every session
     * now in the store (so a second call appends a second batch and re-attributes all).
     */
    method InitializeMockData(sessionDraws: seq<SessionDraw>, dates: seq<string>, spendDraws: seq<SpendDraw>,
                              costDraws: seq<real>)
      requires ValidSessionDraws(sessionDraws)
      requires |dates| == DayCount && |spendDraws| == SpendRowCount
      requires |costDraws| >= |ActivatedSessions(sessions + GeneratedSessions(sessionDraws))|
      modifies this
      ensures sessions == old(sessions) + GeneratedSessions(sessionDraws)
      ensures campaignSpend == old(campaignSpend) + SpendTable(dates, spendDraws)
      ensures attributionResults == old(attributionResults) + AttributionRows(sessions, costDraws)
    {
      GenerateSessions(sessionDraws);
      GenerateCampaignSpend(dates, spendDraws);
      GenerateAttributionResults(costDraws);
    }

    /**
     * `populateTable(tableName)`: `None` when the name is unknown, the target element is
     * missing (`tableFound` false) or there is no row; otherwise the HTML written into it.
     */
    method PopulateTable(tableName: string, tableFound: bool, numberText: real -> string)
      returns (html: Option<string>)
      ensures var data := TableData(tableName, sessions, campaignSpend, attributionResults);
        html == if tableFound && data.Some? && |data.value| > 0
                then Some(Html(View(data.value, numberText))) else None
    {
      var data := TableData(tableName, sessions, campaignSpend, attributionResults);
      if !tableFound || data.None? || |data.value| == 0 {
        return None;
      }
      var text := BuildHtml(data.value, numberText);
      html := Some(text);
    }
  }

  /**
   * On a freshly generated batch, every attribution row is consistent: either it has
   * a cost and neither touch is organic, or its cost is null and both touches are
   * organic with a null campaign.
   */
  lemma GeneratedAttributionConsistent(draws: seq<SessionDraw>, costs: seq<real>)
    requires ValidSessionDraws(draws)
    requires |costs| >= |ActivatedSessions(GeneratedSessions(draws))|
    ensures var rows := AttributionRows(GeneratedSessions(draws), costs);
      forall k :: 0 <= k < |rows| ==>
        if rows[k].costPerActivation.Some? then
          rows[k].firstTouchAttributionSource != Organic && rows[k].lastTouchAttributionSource != Organic
        else
          && rows[k].firstTouchAttributionSource == rows[k].lastTouchAttributionSource == Organic
          && rows[k].firstTouchCampaignId == rows[k].lastTouchCampaignId == None
  {
    var all := GeneratedSessions(draws);
    GeneratedSessionsWellFormed(draws);
    AttributionRowPerActivation(all, costs);
    var ix := FilterIndices(Activated, all);
    var rows := AttributionRows(all, costs);
    forall k | 0 <= k < |rows|
      ensures if rows[k].costPerActivation.Some? then
          rows[k].firstTouchAttributionSource != Organic && rows[k].lastTouchAttributionSource != Organic
        else
          && rows[k].firstTouchAttributionSource == rows[k].lastTouchAttributionSource == Organic
          && rows[k].firstTouchCampaignId == rows[k].lastTouchCampaignId == None
    {
      var user := all[ix[k]];
      CostNullIffNoMarketing(all, user, costs[k]);
      if HasMarketing(all, user.userId) {
        MarketingPrecedence(all, user, costs[k]);
      } else {
        OrganicFallback(all, user, costs[k]);
      }
    }
  }

  /**
   * Two calls of `initializeMockData` on an empty store leave it with sessions `s1 + s2`
   * and attribution rows `AttributionRows(s1, c1) + AttributionRows(s1 + s2, c2)`: the
   * first batch's activations are attributed twice. So once the first batch has an
   * activation, the row count no longer equals the number of activated sessions.
   */
  lemma SecondInitializationBreaksCorrelation(s1: seq<Session>, s2: seq<Session>, c1: seq<real>, c2: seq<real>)
    requires |c1| >= |ActivatedSessions(s1)| && |c2| >= |ActivatedSessions(s1 + s2)|
    ensures |ActivatedSessions(s1 + s2)| == |ActivatedSessions(s1)| + |ActivatedSessions(s2)|
    ensures |AttributionRows(s1, c1) + AttributionRows(s1 + s2, c2)|
      == 2 * |ActivatedSessions(s1)| + |ActivatedSessions(s2)|
    ensures |ActivatedSessions(s1)| > 0 ==>
      |AttributionRows(s1, c1) + AttributionRows(s1 + s2, c2)| != |ActivatedSessions(s1 + s2)|
  {
    FilterAppend(Activated, s1, s2);
  }

  /** A rendered table never has more than ten body rows. */
  lemma RenderedRowsAtMostTen(tableName: string, sessions: seq<Session>, spend: seq<SpendRow>,
                              results: seq<AttributionRow>, numberText: real -> string)
    requires var d := TableData(tableName, sessions, spend, results); d.Some? && |d.value| > 0
    ensures |View(TableData(tableName, sessions, spend, results).value, numberText).cells| <= MaxRows
  {
    TableDataFirstTen(tableName, sessions, spend, results);
  }
}
