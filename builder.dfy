/**
 * The campaign builder form: its initial values, the platform chips, the keyword list
 * with its input box, and the guard on the generate button.
 */
module Builder {
  import opened JsValues
  import opened Text
  import opened Sequences
  import opened CampaignTypes

  /** A fresh form: empty brief, industry and voice taken from the brand defaults. */
  function InitialForm(brand: BrandSettings): (f: FormData)
    ensures f.objective == "" && f.audience == "" && f.competitorUrls == ""
    ensures f.platforms == [] && f.keywords == []
    ensures f.industry == brand.industry && f.brandVoice == brand.voiceTone
  {
    FormData("", "", brand.industry, brand.voiceTone, [], [], "")
  }

  /** A chosen platform is removed, any other is appended at the end. */
  function Toggle(xs: seq<string>, x: string): (r: seq<string>)
    ensures x in r <==> x !in xs
    ensures forall y :: y != x ==> (y in r <==> y in xs)
    ensures x !in xs ==> r == xs + [x]
    ensures x in xs ==> IsSubsequence(r, xs) && |r| < |xs|
  {
    if x in xs then Without(xs, x) else xs + [x]
  }

  /** Choosing a platform and un-choosing it again restores the list. */
  lemma ToggleTwice(xs: seq<string>, x: string)
    requires x !in xs
    ensures Toggle(Toggle(xs, x), x) == xs
  {
    WithoutAppended(xs, x);
  }

  /** Toggling never introduces a duplicate. */
  lemma ToggleNoDup(xs: seq<string>, x: string)
    requires NoDup(xs)
    ensures NoDup(Toggle(xs, x))
  {
    if x in xs {
      WithoutNoDup(xs, x);
    } else {
      AppendFreshNoDup(xs, x);
    }
  }

  /** The generate button is enabled: objective and audience not blank, a platform chosen. */
  predicate CanSubmit(f: FormData)
    ensures CanSubmit(f) <==> !AllWhitespace(f.objective) && !AllWhitespace(f.audience) && f.platforms != []
  {
    TrimEmptyIff(f.objective);
    TrimEmptyIff(f.audience);
    Trim(f.objective) != "" && Trim(f.audience) != "" && |f.platforms| > 0
  }

  /** A keyword as the list holds it: trimmed and not empty. */
  predicate IsKeyword(k: string) {
    k != "" && Trim(k) == k
  }

  /** The free-text fields of the form, each set as typed. */
  datatype TextField = Objective | Audience | Industry | BrandVoice | CompetitorUrls

  function WithText(f: FormData, field: TextField, value: string): (g: FormData)
    ensures g.platforms == f.platforms && g.keywords == f.keywords
  {
    match field
    case Objective => f.(objective := value)
    case Audience => f.(audience := value)
    case Industry => f.(industry := value)
    case BrandVoice => f.(brandVoice := value)
    case CompetitorUrls => f.(competitorUrls := value)
  }

  class BuilderForm {
    var form: FormData
    var keywordInput: string

    /** No platform or keyword twice, and every keyword trimmed and non-empty. */
    predicate Valid()
      reads this
    {
      && NoDup(form.platforms)
      && NoDup(form.keywords)
      && forall i :: 0 <= i < |form.keywords| ==> IsKeyword(form.keywords[i])
    }

    constructor(brand: BrandSettings)
      ensures form == InitialForm(brand) && keywordInput == ""
      ensures Valid()
    {
      form := InitialForm(brand);
      keywordInput := "";
    }

    method TogglePlatform(p: string)
      requires Valid()
      modifies this
      ensures form == old(form).(platforms := Toggle(old(form.platforms), p))
      ensures keywordInput == old(keywordInput)
      ensures Valid()
    {
      ToggleNoDup(form.platforms, p);
      form := form.(platforms := Toggle(form.platforms, p));
    }

    method SetKeywordInput(s: string)
      modifies this
      ensures keywordInput == s && form == old(form)
    {
      keywordInput := s;
    }

    /** Adds the trimmed input when it is a new, non-blank keyword, and then clears the input. */
    method AddKeyword()
      requires Valid()
      modifies this
      ensures var t := Trim(old(keywordInput));
        if t != "" && t !in old(form.keywords) then
          form == old(form).(keywords := old(form.keywords) + [t]) && keywordInput == ""
        else
          form == old(form) && keywordInput == old(keywordInput)
      ensures Valid()
    {
      var trimmed := Trim(keywordInput);
      if trimmed != "" && trimmed !in form.keywords {
        TrimIdempotent(keywordInput);
        AppendFreshNoDup(form.keywords, trimmed);
        form := form.(keywords := form.keywords + [trimmed]);
        keywordInput := "";
      }
    }

    /** Removes that keyword and keeps the others in order. */
    method RemoveKeyword(kw: string)
      requires Valid()
      modifies this
      ensures form == old(form).(keywords := Without(old(form.keywords), kw))
      ensures kw !in form.keywords && IsSubsequence(form.keywords, old(form.keywords))
      ensures keywordInput == old(keywordInput)
      ensures Valid()
    {
      WithoutNoDup(form.keywords, kw);
      form := form.(keywords := Without(form.keywords, kw));
      forall i | 0 <= i < |form.keywords| ensures IsKeyword(form.keywords[i]) {
        assert form.keywords[i] in old(form.keywords);
      }
    }

    method EditText(field: TextField, value: string)
      requires Valid()
      modifies this
      ensures form == WithText(old(form), field, value)
      ensures keywordInput == old(keywordInput)
      ensures Valid()
    {
      form := WithText(form, field, value);
    }

    /** The generate button hands the form over only when it is enabled. */
    method Submit() returns (request: Option<FormData>)
      ensures request.Some? <==> CanSubmit(form)
      ensures request.Some? ==> request.value == form
    {
      if CanSubmit(form) {
        request := Some(form);
      } else {
        request := None;
      }
    }
  }
}
