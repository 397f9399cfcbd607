/**
 * The browser's key-value store as the campaign store sees it: two independent
 * entries, the campaign list and the brand settings, each of which may be missing or
 * unreadable, and a store that may not exist at all (rendering outside a browser).
 */
module Persistence {
  import opened JsValues
  import opened CampaignTypes

  /**
   * One stored entry as `JSON.parse(localStorage.getItem(key))` sees it: nothing
   * (null or the empty string), something that fails to read or parse, or a parsed value.
   */
  datatype Slot<T> = Empty | Corrupt | Holds(value: T)

  /**
   * A stored brand-settings object: only the five keys the store knows are modelled,
   * each possibly absent. A parsed value that is not an object has none of them.
   */
  datatype StoredBrand = StoredBrand(
    brandName: Option<string>,
    tagline: Option<string>,
    voiceTone: Option<string>,
    industry: Option<string>,
    colorNotes: Option<string>)

  datatype Storage =
    | NoStorage
    | Storage(campaigns: Slot<MaybeList<Campaign>>, brand: Slot<StoredBrand>)

  function DefaultBrand(): (b: BrandSettings)
    ensures b.brandName == "" && b.tagline == "" && b.voiceTone == "" && b.industry == "" && b.colorNotes == ""
  {
    BrandSettings("", "", "", "", "")
  }

  /** `loadCampaigns`: the stored array, and `[]` on every other path. */
  function LoadCampaigns(st: Storage): (cs: seq<Campaign>)
    ensures st.Storage? && st.campaigns.Holds? && st.campaigns.value.Arr? ==> cs == st.campaigns.value.items
    ensures !(st.Storage? && st.campaigns.Holds? && st.campaigns.value.Arr?) ==> cs == []
  {
    match st
    case NoStorage => []
    case Storage(slot, _) =>
      match slot
      case Holds(v) => v.AsList()
      case _ => []
  }

  /** `{ ...defaults, ...stored }`: each stored key wins over the empty default. */
  function MergeBrand(stored: StoredBrand): (b: BrandSettings)
    ensures b.brandName == stored.brandName.GetOr("") && b.tagline == stored.tagline.GetOr("")
    ensures b.voiceTone == stored.voiceTone.GetOr("") && b.industry == stored.industry.GetOr("")
    ensures b.colorNotes == stored.colorNotes.GetOr("")
  {
    var d := DefaultBrand();
    BrandSettings(
      stored.brandName.GetOr(d.brandName),
      stored.tagline.GetOr(d.tagline),
      stored.voiceTone.GetOr(d.voiceTone),
      stored.industry.GetOr(d.industry),
      stored.colorNotes.GetOr(d.colorNotes))
  }

  /** `loadBrandSettings`: the defaults overlaid with whatever was stored, or the defaults alone. */
  function LoadBrandSettings(st: Storage): (b: BrandSettings)
    ensures st.Storage? && st.brand.Holds? ==> b == MergeBrand(st.brand.value)
    ensures !(st.Storage? && st.brand.Holds?) ==> b == DefaultBrand()
  {
    match st
    case NoStorage => DefaultBrand()
    case Storage(_, slot) =>
      match slot
      case Holds(v) => MergeBrand(v)
      case _ => DefaultBrand()
  }

  /** `saveCampaigns`: writes the list when a store exists; the brand entry is untouched. */
  function SaveCampaigns(st: Storage, cs: seq<Campaign>): (st': Storage)
    ensures st'.NoStorage? <==> st.NoStorage?
    ensures LoadBrandSettings(st') == LoadBrandSettings(st)
  {
    match st
    case NoStorage => NoStorage
    case Storage(_, b) => Storage(Holds(Arr(cs)), b)
  }

  function ToStored(b: BrandSettings): StoredBrand {
    StoredBrand(Some(b.brandName), Some(b.tagline), Some(b.voiceTone), Some(b.industry), Some(b.colorNotes))
  }

  /** `saveBrandSettings`: writes the settings when a store exists; the campaign entry is untouched. */
  function SaveBrandSettings(st: Storage, b: BrandSettings): (st': Storage)
    ensures st'.NoStorage? <==> st.NoStorage?
    ensures LoadCampaigns(st') == LoadCampaigns(st)
  {
    match st
    case NoStorage => NoStorage
    case Storage(c, _) => Storage(c, Holds(ToStored(b)))
  }

  /** What was saved is what is loaded back, whenever there is a store. */
  lemma CampaignsRoundTrip(st: Storage, cs: seq<Campaign>)
    requires st.Storage?
    ensures LoadCampaigns(SaveCampaigns(st, cs)) == cs
  {
  }

  lemma BrandRoundTrip(st: Storage, b: BrandSettings)
    requires st.Storage?
    ensures LoadBrandSettings(SaveBrandSettings(st, b)) == b
  {
  }

  /** Without a store every load yields the defaults, whatever was saved before. */
  lemma NoStorageDefaults(cs: seq<Campaign>, b: BrandSettings)
    ensures LoadCampaigns(SaveCampaigns(NoStorage, cs)) == []
    ensures LoadBrandSettings(SaveBrandSettings(NoStorage, b)) == DefaultBrand()
  {
  }
}
