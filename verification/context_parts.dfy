/**
  The nested value maps of the analytics context: campaign, device, location and
  referrer objects, each a string-keyed map with typed setters and getters.
 */
module ContextParts {
  import opened Results
  import opened ValueMap

  const CAMPAIGN_NAME_KEY := "name"
  const CAMPAIGN_SOURCE_KEY := "source"
  const CAMPAIGN_MEDIUM_KEY := "medium"
  const CAMPAIGN_TERM_KEY := "term"
  const CAMPAIGN_CONTENT_KEY := "content"

  const DEVICE_ID_KEY := "device_id"
  const DEVICE_MANUFACTURER_KEY := "deviceBrand"
  const DEVICE_NAME_KEY := "deviceName"
  const DEVICE_TOKEN_KEY := "token"
  const DEVICE_ADVERTISING_ID_KEY := "advertisingId"
  const DEVICE_AD_TRACKING_ENABLED_KEY := "adTrackingEnabled"

  const REFERRER_ID_KEY := "id"
  const REFERRER_LINK_KEY := "link"
  const REFERRER_NAME_KEY := "name"
  const REFERRER_TYPE_KEY := "type"
  const REFERRER_URL_KEY := "url"

  /** Stores `s` under `key` and nothing else: the single write all string setters share. */
  function PutString(m: Entries, key: string, s: string): (r: Entries)
    ensures GetString(r, key) == Some(s)
    ensures SameExcept(m, r, {key})
  {
    m[key := Str(s)]
  }

  /** The UTM campaign that led to the call. */
  datatype Campaign = Campaign(fields: Entries) {

    function PutName(name: string): (r: Campaign)
      ensures r.Name() == Some(name)
      ensures SameExcept(fields, r.fields, {CAMPAIGN_NAME_KEY})
    {
      Campaign(PutString(fields, CAMPAIGN_NAME_KEY, name))
    }

    function Name(): Option<string>
    {
      GetString(fields, CAMPAIGN_NAME_KEY)
    }

    function PutSource(source: string): (r: Campaign)
      ensures r.Source() == Some(source)
      ensures SameExcept(fields, r.fields, {CAMPAIGN_SOURCE_KEY})
    {
      Campaign(PutString(fields, CAMPAIGN_SOURCE_KEY, source))
    }

    function Source(): Option<string>
    {
      GetString(fields, CAMPAIGN_SOURCE_KEY)
    }

    function PutMedium(medium: string): (r: Campaign)
      ensures r.Medium() == Some(medium)
      ensures SameExcept(fields, r.fields, {CAMPAIGN_MEDIUM_KEY})
    {
      Campaign(PutString(fields, CAMPAIGN_MEDIUM_KEY, medium))
    }

    function Medium(): Option<string>
    {
      GetString(fields, CAMPAIGN_MEDIUM_KEY)
    }

    function PutTerm(term: string): (r: Campaign)
      ensures r.Term() == Some(term)
      ensures r.Tern() == Some(term)
      ensures SameExcept(fields, r.fields, {CAMPAIGN_TERM_KEY})
    {
      Campaign(PutString(fields, CAMPAIGN_TERM_KEY, term))
    }

    function Term(): Option<string>
    {
      GetString(fields, CAMPAIGN_TERM_KEY)
    }

    /** The deprecated, misspelt getter: it reads the term. */
    function Tern(): Option<string>
    {
      Term()
    }

    function PutContent(content: string): (r: Campaign)
      ensures r.Content() == Some(content)
      ensures SameExcept(fields, r.fields, {CAMPAIGN_CONTENT_KEY})
    {
      Campaign(PutString(fields, CAMPAIGN_CONTENT_KEY, content))
    }

    function Content(): Option<string>
    {
      GetString(fields, CAMPAIGN_CONTENT_KEY)
    }
  }

  /** Each campaign setter leaves the other four campaign fields readable as before. */
  lemma CampaignSettersIndependent(c: Campaign, name: string, source: string)
    ensures c.PutName(name).Source() == c.Source()
    ensures c.PutName(name).Medium() == c.Medium()
    ensures c.PutName(name).Term() == c.Term()
    ensures c.PutName(name).Content() == c.Content()
    ensures c.PutSource(source).Name() == c.Name()
    ensures c.PutName(name).PutSource(source).Name() == Some(name)
  {
    var n := c.PutName(name);
    GetStringElsewhere(c.fields, n.fields, CAMPAIGN_NAME_KEY, CAMPAIGN_SOURCE_KEY);
    GetStringElsewhere(c.fields, n.fields, CAMPAIGN_NAME_KEY, CAMPAIGN_MEDIUM_KEY);
    GetStringElsewhere(c.fields, n.fields, CAMPAIGN_NAME_KEY, CAMPAIGN_TERM_KEY);
    GetStringElsewhere(c.fields, n.fields, CAMPAIGN_NAME_KEY, CAMPAIGN_CONTENT_KEY);
    var s := c.PutSource(source);
    GetStringElsewhere(c.fields, s.fields, CAMPAIGN_SOURCE_KEY, CAMPAIGN_NAME_KEY);
    var ns := n.PutSource(source);
    GetStringElsewhere(n.fields, ns.fields, CAMPAIGN_SOURCE_KEY, CAMPAIGN_NAME_KEY);
  }

  /** Information about the device, including its advertising settings and push token. */
  datatype Device = Device(fields: Entries) {

    /**
      Records whether ad tracking is enabled; the advertising id is recorded only when
      tracking is enabled and the id is neither null nor empty.
     */
    function PutAdvertisingInfo(advertisingId: Option<string>, adTrackingEnabled: bool): (r: Device)
      ensures DEVICE_AD_TRACKING_ENABLED_KEY in r.fields
      ensures r.fields[DEVICE_AD_TRACKING_ENABLED_KEY] == Bool(adTrackingEnabled)
      ensures adTrackingEnabled && !IsNullOrEmpty(advertisingId) ==>
                GetString(r.fields, DEVICE_ADVERTISING_ID_KEY) == advertisingId
      ensures !(adTrackingEnabled && !IsNullOrEmpty(advertisingId)) ==>
                SameExcept(fields, r.fields, {DEVICE_AD_TRACKING_ENABLED_KEY})
      ensures SameExcept(fields, r.fields, {DEVICE_ADVERTISING_ID_KEY, DEVICE_AD_TRACKING_ENABLED_KEY})
    {
      var withId :=
        if adTrackingEnabled && !IsNullOrEmpty(advertisingId)
        then fields[DEVICE_ADVERTISING_ID_KEY := Str(advertisingId.value)]
        else fields;
      Device(withId[DEVICE_AD_TRACKING_ENABLED_KEY := Bool(adTrackingEnabled)])
    }

    function PutDeviceToken(token: string): (r: Device)
      ensures GetString(r.fields, DEVICE_TOKEN_KEY) == Some(token)
      ensures SameExcept(fields, r.fields, {DEVICE_TOKEN_KEY})
    {
      Device(PutString(fields, DEVICE_TOKEN_KEY, token))
    }
  }

  /**
    The device's location. Latitude, longitude and speed are doubles and are not
    modelled; a location is carried as an uninterpreted map.
   */
  datatype Location = Location(fields: Entries)

  /** The referrer that led to the call. */
  datatype Referrer = Referrer(fields: Entries) {

    function PutId(id: string): (r: Referrer)
      ensures r.Id() == Some(id)
      ensures SameExcept(fields, r.fields, {REFERRER_ID_KEY})
    {
      Referrer(PutString(fields, REFERRER_ID_KEY, id))
    }

    function Id(): Option<string>
    {
      GetString(fields, REFERRER_ID_KEY)
    }

    function PutLink(link: string): (r: Referrer)
      ensures r.Link() == Some(link)
      ensures SameExcept(fields, r.fields, {REFERRER_LINK_KEY})
    {
      Referrer(PutString(fields, REFERRER_LINK_KEY, link))
    }

    function Link(): Option<string>
    {
      GetString(fields, REFERRER_LINK_KEY)
    }

    function PutName(name: string): (r: Referrer)
      ensures r.Name() == Some(name)
      ensures SameExcept(fields, r.fields, {REFERRER_NAME_KEY})
    {
      Referrer(PutString(fields, REFERRER_NAME_KEY, name))
    }

    function Name(): Option<string>
    {
      GetString(fields, REFERRER_NAME_KEY)
    }

    function PutType(kind: string): (r: Referrer)
      ensures r.Type() == Some(kind)
      ensures SameExcept(fields, r.fields, {REFERRER_TYPE_KEY})
    {
      Referrer(PutString(fields, REFERRER_TYPE_KEY, kind))
    }

    function Type(): Option<string>
    {
      GetString(fields, REFERRER_TYPE_KEY)
    }

    /** The deprecated setter: despite its name it writes the url. */
    function PutTerm(url: string): (r: Referrer)
      ensures r.Url() == Some(url)
      ensures SameExcept(fields, r.fields, {REFERRER_URL_KEY})
    {
      Referrer(PutString(fields, REFERRER_URL_KEY, url))
    }

    function PutUrl(url: string): (r: Referrer)
      ensures r.Url() == Some(url)
      ensures SameExcept(fields, r.fields, {REFERRER_URL_KEY})
    {
      Referrer(PutString(fields, REFERRER_URL_KEY, url))
    }

    function Url(): Option<string>
    {
      GetString(fields, REFERRER_URL_KEY)
    }
  }

  /** The deprecated `putTerm` and `putUrl` are the same write. */
  lemma ReferrerPutTermIsPutUrl(r: Referrer, url: string)
    ensures r.PutTerm(url) == r.PutUrl(url)
  {
  }
}
