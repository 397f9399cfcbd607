/**
 * The dashboard's derived values: which campaigns are shown, which of them pass the
 * search box and the status buttons, and the three headline statistics.
 */
module Dashboard {
  import opened JsValues
  import opened Text
  import opened CampaignTypes
  import opened Sequences

  // ---------------------------------------------------------------------------
  // The sample campaigns

  function SampleBlock(platform: string, words: int): ContentBlock {
    ContentBlock(platform, "", "Sample", "Content...", words, "")
  }

  function Scored(score: int): Option<SeoAnalysis> {
    Some(SeoAnalysis(Some(score), None, None))
  }

  /** The four demonstration campaigns shown while the sample switch is on. */
  const SampleCampaigns: seq<Campaign> := [
    Campaign("s1", "Q1 Product Launch - Wellness Line", "active", "2025-01-15",
      "Launch new wellness product line", "Health-conscious millennials", "Health & Wellness",
      ["Blog", "Instagram", "LinkedIn"], Arr([SampleBlock("Blog", 800)]), Scored(82), Arr([]), None),
    Campaign("s2", "Brand Awareness - Tech Summit 2025", "complete", "2025-01-10",
      "Maximize brand visibility at tech summit", "CTOs and engineering leaders", "Technology",
      ["LinkedIn", "Twitter", "Email"], Arr([SampleBlock("LinkedIn", 300)]), Scored(91),
      Arr([Graphic("", "", "", "", "")]),
      Some(VideoBrief("Summit Highlight Reel", "", "", "", [], "", ""))),
    Campaign("s3", "Holiday Sale Email Series", "draft", "2025-01-20",
      "Drive holiday season sales", "Existing customers aged 25-45", "E-commerce",
      ["Email", "Instagram", "Ad"], Arr([]), None, Arr([]), None),
    Campaign("s4", "Sustainability Report Campaign", "active", "2025-01-18",
      "Promote annual sustainability report", "Investors and eco-conscious consumers", "Finance",
      ["Blog", "LinkedIn", "Twitter"], Arr([SampleBlock("Blog", 1200), SampleBlock("LinkedIn", 250)]),
      Scored(76), Arr([]), None)
  ]

  /** The list every dashboard value is computed from. */
  function DisplayCampaigns(showSample: bool, campaigns: seq<Campaign>): (cs: seq<Campaign>)
    ensures showSample ==> cs == SampleCampaigns
    ensures !showSample ==> cs == campaigns
  {
    if showSample then SampleCampaigns else campaigns
  }

  // ---------------------------------------------------------------------------
  // Search and status filter

  /** The status button that shows every campaign. */
  const AllStatuses := "all"

  /** Case-insensitive name search combined with the status buttons. */
  predicate Matches(c: Campaign, query: string, status: string)
    ensures Matches(c, query, status) ==> |query| <= |c.name|
    ensures status != AllStatuses && c.status != status ==> !Matches(c, query, status)
  {
    && Contains(ToLower(c.name), ToLower(query))
    && (status == AllStatuses || c.status == status)
  }

  /** Lower-casing twice changes nothing more. */
  lemma ToLowerIdempotent(s: string)
    ensures ToLower(ToLower(s)) == ToLower(s)
  {
    var r := ToLower(s);
    assert forall i :: 0 <= i < |r| ==> ToLower(r)[i] == r[i];
  }

  /** The search ignores case: typing a query in upper or lower case shows the same campaigns. */
  lemma MatchesIgnoresCase(c: Campaign, query: string, status: string)
    ensures Matches(c, query, status) <==> Matches(c, ToLower(query), status)
  {
    ToLowerIdempotent(query);
  }

  /** The campaigns the list below the statistics shows. */
  function Filtered(cs: seq<Campaign>, query: string, status: string): (r: seq<Campaign>)
    ensures IsSubsequence(r, cs)
    ensures forall c :: c in r ==> c in cs && Matches(c, query, status)
    ensures forall i :: 0 <= i < |cs| && Matches(cs[i], query, status) ==> cs[i] in r
    ensures |r| <= |cs|
    decreases |cs|
  {
    if cs == [] then []
    else
      var rest := Filtered(cs[1..], query, status);
      if Matches(cs[0], query, status) then
        var r := [cs[0]] + rest;
        assert r[1..] == rest;
        r
      else rest
  }

  /** Each matching campaign is shown as many times as the list holds it; the others not at all. */
  lemma {:induction false} FilteredMultiplicity(cs: seq<Campaign>, query: string, status: string)
    ensures forall c :: multiset(Filtered(cs, query, status))[c]
                     == if Matches(c, query, status) then multiset(cs)[c] else 0
    decreases |cs|
  {
    if cs != [] {
      FilteredMultiplicity(cs[1..], query, status);
      assert cs == [cs[0]] + cs[1..];
    }
  }

  lemma ContainsEmpty(s: string)
    ensures Contains(s, "")
  {
    assert OccursAt(s, "", 0);
  }

  /** The initial search state, an empty query with every status, hides nothing. */
  lemma {:induction false} FilteredShowsAll(cs: seq<Campaign>)
    ensures Filtered(cs, "", AllStatuses) == cs
    decreases |cs|
  {
    if cs != [] {
      ContainsEmpty(ToLower(cs[0].name));
      assert ToLower("") == "";
      FilteredShowsAll(cs[1..]);
      assert [cs[0]] + cs[1..] == cs;
    }
  }

  /** Filtering distributes over concatenation, so relative order is kept. */
  lemma {:induction false} FilteredConcat(a: seq<Campaign>, b: seq<Campaign>, query: string, status: string)
    ensures Filtered(a + b, query, status) == Filtered(a, query, status) + Filtered(b, query, status)
    decreases |a|
  {
    if a == [] {
      assert a + b == b;
    } else {
      var ab := a + b;
      assert ab[0] == a[0] && ab[1..] == a[1..] + b;
      FilteredConcat(a[1..], b, query, status);
      var rest := Filtered(a[1..], query, status) + Filtered(b, query, status);
      if Matches(a[0], query, status) {
        calc {
          Filtered(ab, query, status);
          [a[0]] + Filtered(a[1..] + b, query, status);
          [a[0]] + rest;
          Filtered(a, query, status) + Filtered(b, query, status);
        }
      } else {
        assert Filtered(ab, query, status) == Filtered(a[1..] + b, query, status);
      }
    }
  }

  // ---------------------------------------------------------------------------
  // Statistics

  /** The number of campaigns whose status is "active". */
  function ActiveCount(cs: seq<Campaign>): (n: nat)
    ensures n <= |cs|
    decreases |cs|
  {
    if cs == [] then 0
    else (if cs[0].status == "active" then 1 else 0) + ActiveCount(cs[1..])
  }

  /** The count agrees with the list the "active" button shows for an empty query. */
  lemma {:induction false} ActiveCountIsFiltered(cs: seq<Campaign>)
    ensures ActiveCount(cs) == |Filtered(cs, "", "active")|
    decreases |cs|
  {
    if cs != [] {
      ContainsEmpty(ToLower(cs[0].name));
      assert ToLower("") == "";
      ActiveCountIsFiltered(cs[1..]);
    }
  }

  /** The number of content blocks over all campaigns; a non-array list counts as none. */
  function TotalContent(cs: seq<Campaign>): (n: nat)
    ensures forall i :: 0 <= i < |cs| ==> |cs[i].contentBlocks.AsList()| <= n
    decreases |cs|
  {
    if cs == [] then 0
    else
      var rest := TotalContent(cs[1..]);
      assert forall i :: 1 <= i < |cs| ==> cs[i] == cs[1..][i - 1];
      |cs[0].contentBlocks.AsList()| + rest
  }

  lemma {:induction false} TotalContentConcat(a: seq<Campaign>, b: seq<Campaign>)
    ensures TotalContent(a + b) == TotalContent(a) + TotalContent(b)
    decreases |a|
  {
    if a == [] {
      assert a + b == b;
    } else {
      TotalContentConcat(a[1..], b);
      assert (a + b)[1..] == a[1..] + b;
    }
  }

  /** The total is zero exactly when no campaign holds a content block. */
  lemma {:induction false} TotalContentZeroIff(cs: seq<Campaign>)
    ensures TotalContent(cs) == 0 <==> forall i :: 0 <= i < |cs| ==> cs[i].contentBlocks.AsList() == []
    decreases |cs|
  {
    if cs != [] {
      TotalContentZeroIff(cs[1..]);
      if TotalContent(cs) == 0 {
        forall i | 0 <= i < |cs| ensures cs[i].contentBlocks.AsList() == [] {
          if i > 0 {
            assert cs[i] == cs[1..][i - 1];
          }
        }
      } else if |cs[0].contentBlocks.AsList()| == 0 {
        var i :| 0 <= i < |cs[1..]| && cs[1..][i].contentBlocks.AsList() != [];
        assert cs[i + 1] == cs[1..][i];
      }
    }
  }

  /** `c.seoAnalysis?.content_score` is truthy: present and not zero. */
  predicate HasScore(c: Campaign)
    ensures HasScore(c) <==> Score(c) != 0
  {
    c.seoAnalysis.Some? && c.seoAnalysis.value.contentScore.Some? && c.seoAnalysis.value.contentScore.value != 0
  }

  /** The content score, with a missing analysis or a missing score read as 0. */
  function Score(c: Campaign): (n: int)
    ensures c.seoAnalysis.None? || c.seoAnalysis.value.contentScore.None? ==> n == 0
  {
    if c.seoAnalysis.Some? then c.seoAnalysis.value.contentScore.GetOr(0) else 0
  }

  /** The campaigns that take part in the average, in order. */
  function ScoredCampaigns(cs: seq<Campaign>): (r: seq<Campaign>)
    ensures IsSubsequence(r, cs)
    ensures forall c :: c in r <==> c in cs && HasScore(c)
    decreases |cs|
  {
    if cs == [] then []
    else
      var rest := ScoredCampaigns(cs[1..]);
      if HasScore(cs[0]) then
        var r := [cs[0]] + rest;
        assert r[1..] == rest;
        r
      else rest
  }

  /** Each scored campaign takes part as many times as the list holds it; the others not at all. */
  lemma {:induction false} ScoredMultiplicity(cs: seq<Campaign>)
    ensures forall c :: multiset(ScoredCampaigns(cs))[c] == if HasScore(c) then multiset(cs)[c] else 0
    decreases |cs|
  {
    if cs != [] {
      ScoredMultiplicity(cs[1..]);
      assert cs == [cs[0]] + cs[1..];
    }
  }

  /** The sum of the scores; campaigns without a score add nothing to it. */
  function ScoreSum(cs: seq<Campaign>): (n: int)
    ensures (forall i :: 0 <= i < |cs| ==> !HasScore(cs[i])) ==> n == 0
    decreases |cs|
  {
    if cs == [] then 0
    else
      assert forall i :: 1 <= i < |cs| ==> cs[i] == cs[1..][i - 1];
      Score(cs[0]) + ScoreSum(cs[1..])
  }

  /** The sum is additive over concatenation. */
  lemma {:induction false} ScoreSumConcat(a: seq<Campaign>, b: seq<Campaign>)
    ensures ScoreSum(a + b) == ScoreSum(a) + ScoreSum(b)
    decreases |a|
  {
    if a == [] {
      assert a + b == b;
    } else {
      ScoreSumConcat(a[1..], b);
      assert (a + b)[1..] == a[1..] + b;
    }
  }

  /** `Math.round(a / n)` for a positive count: halves round up. */
  function RoundDiv(a: int, n: int): (r: int)
    requires n > 0
    ensures 2 * n * r - n <= 2 * a < 2 * n * r + n
  {
    (2 * a + n) / (2 * n)
  }

  /** The average SEO score, rounded, over the campaigns with a truthy score; 0 without any. */
  function AverageSeo(cs: seq<Campaign>): (avg: int)
    ensures ScoredCampaigns(cs) == [] ==> avg == 0
    ensures ScoredCampaigns(cs) != [] ==>
      var n := |ScoredCampaigns(cs)|;
      2 * n * avg - n <= 2 * ScoreSum(ScoredCampaigns(cs)) < 2 * n * avg + n
  {
    var scored := ScoredCampaigns(cs);
    if |scored| > 0 then RoundDiv(ScoreSum(scored), |scored|) else 0
  }

  /** Scores within 0..100 keep the sum within 0..100 per campaign. */
  lemma {:induction false} ScoreSumBounds(cs: seq<Campaign>)
    requires forall i :: 0 <= i < |cs| ==> 0 <= Score(cs[i]) <= 100
    ensures 0 <= ScoreSum(cs) <= 100 * |cs|
    decreases |cs|
  {
    if cs != [] {
      assert 0 <= Score(cs[0]) <= 100;
      ScoreSumBounds(cs[1..]);
    }
  }

  lemma MulMono(x: int, a: int, b: int)
    requires x >= 0 && a <= b
    ensures x * a <= x * b
  {
    assert x * b - x * a == x * (b - a);
  }

  /** A rounded quotient of a sum within 0..hi per element stays within 0..hi. */
  lemma RoundDivBounds(a: int, n: int, hi: int)
    requires n > 0 && 0 <= a <= hi * n
    ensures 0 <= RoundDiv(a, n) <= hi
  {
    var r := RoundDiv(a, n);
    if r > hi {
      MulMono(2 * n, hi + 1, r);
    }
    if r < 0 {
      MulMono(2 * n, r, -1);
    }
  }

  /** With every score within 0..100, so is the average. */
  lemma AverageSeoBounds(cs: seq<Campaign>)
    requires forall i :: 0 <= i < |cs| ==> 0 <= Score(cs[i]) <= 100
    ensures 0 <= AverageSeo(cs) <= 100
  {
    var scored := ScoredCampaigns(cs);
    if scored != [] {
      forall i | 0 <= i < |scored| ensures 0 <= Score(scored[i]) <= 100 {
        assert scored[i] in cs;
      }
      ScoreSumBounds(scored);
      RoundDivBounds(ScoreSum(scored), |scored|, 100);
    }
  }

  /** A campaign without a truthy score, a zero score included, does not move the average. */
  lemma UnscoredIgnored(c: Campaign, cs: seq<Campaign>)
    requires !HasScore(c)
    ensures AverageSeo([c] + cs) == AverageSeo(cs)
  {
    assert ([c] + cs)[1..] == cs;
  }

  /** The three colour classes a status badge can take. */
  datatype Tone = ActiveTone | CompleteTone | MutedTone

  function StatusColor(status: string): (t: Tone)
    ensures t == ActiveTone <==> status == "active"
    ensures t == CompleteTone <==> status == "complete"
    ensures t == MutedTone <==> status != "active" && status != "complete"
  {
    if status == "active" then ActiveTone
    else if status == "complete" then CompleteTone
    else MutedTone
  }

  /** What the statistics cards read while the sample switch is on: two active campaigns, */
  lemma SampleActiveCount()
    ensures ActiveCount(SampleCampaigns) == 2
  {
    var s := SampleCampaigns;
    assert s[1..][1..][1..][1..] == [];
    assert ActiveCount(s[1..][1..][1..]) == 1;
    assert ActiveCount(s[1..][1..]) == 1;
    assert ActiveCount(s[1..]) == 1;
  }

  /** four content pieces, */
  lemma SampleTotalContent()
    ensures TotalContent(SampleCampaigns) == 4
  {
    var s := SampleCampaigns;
    assert s[1..][1..][1..][1..] == [];
    assert TotalContent(s[1..][1..][1..]) == 2;
    assert TotalContent(s[1..][1..]) == 2;
    assert TotalContent(s[1..]) == 3;
  }

  /** and an average score of 83, the rounded mean of 82, 91 and 76. */
  lemma SampleAverageSeo()
    ensures AverageSeo(SampleCampaigns) == 83
  {
    var s := SampleCampaigns;
    SampleScored();
    ScoreSumOfThree(s[0], s[1], s[3]);
    assert Score(s[0]) == 82 && Score(s[1]) == 91 && Score(s[3]) == 76;
  }

  lemma ScoreSumOfThree(x: Campaign, y: Campaign, z: Campaign)
    ensures ScoreSum([x, y, z]) == Score(x) + Score(y) + Score(z)
  {
    assert [z][1..] == [];
    assert ScoreSum([z]) == Score(z);
    assert [y, z][1..] == [z];
    assert ScoreSum([y, z]) == Score(y) + Score(z);
    assert [x, y, z][1..] == [y, z];
  }

  /** Three of the samples carry a score; the holiday series has none. */
  lemma SampleScored()
    ensures ScoredCampaigns(SampleCampaigns) == [SampleCampaigns[0], SampleCampaigns[1], SampleCampaigns[3]]
  {
    var s := SampleCampaigns;
    assert s == [s[0], s[1], s[2], s[3]];
    assert HasScore(s[0]) && HasScore(s[1]) && !HasScore(s[2]) && HasScore(s[3]);
    ScoredOfFour(s[0], s[1], s[2], s[3]);
  }

  lemma ScoredOfFour(a: Campaign, b: Campaign, c: Campaign, d: Campaign)
    requires HasScore(a) && HasScore(b) && !HasScore(c) && HasScore(d)
    ensures ScoredCampaigns([a, b, c, d]) == [a, b, d]
  {
    assert [d][1..] == [];
    assert ScoredCampaigns([d]) == [d];
    assert [c, d][1..] == [d];
    assert ScoredCampaigns([c, d]) == [d];
    assert [b, c, d][1..] == [c, d];
    assert ScoredCampaigns([b, c, d]) == [b] + [d];
    assert [a, b, c, d][1..] == [b, c, d];
    assert ScoredCampaigns([a, b, c, d]) == [a] + [b, d];
  }
}
