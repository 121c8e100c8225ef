# Analytics context and playback metadata, modelled in Dafny

This project models two parts of an Android video player fork that carries its own
copy of an analytics client.

1. **The analytics context** (`AnalyticsContext`). This is a string-keyed map of device
   facts attached to every outgoing analytics call. `create` fills a fresh context in
   a fixed order: application build, device identity, locale, network, operating
   system, screen, user agent and timezone. Some steps have a fallback:
   - the `"undefined"` sentinel for a null or empty user agent or timezone;
   - the `"unknown"` carrier when there is no telephony service;
   - network flags written only with the network-state permission and a connectivity manager;
   - no `build` key when the package lookup fails.

   The device, locale, operating-system and screen steps have none. They write their
   fact or make `create` throw: with no window manager, with no stored traits, or with
   a null anonymous id.

   Fluent setters store a campaign, a location, a referrer, traits or any value under
   one key. `unmodifiableCopy` hands out a point-in-time copy that refuses writes. The
   nested campaign, device and referrer objects are small maps with typed setters and
   getters.
2. **Playback metadata** (`MetadataTracking.getMetadataTrack`). It describes the
   current stream as a `"video"` item with a properties map. The map holds four
   entries that are always present and two that appear only when the source string
   is non-empty.

The device is an input record, `ContextCreate.DeviceFacts`, not a set of platform
calls. A system service whose lookup returns null is a `None` field. Java exceptions
become `Result` failures:
- a null dereference in `create` is a `CreateError`;
- a null value rejected by the concurrent map behind `create` is a `CreateError`;
- a write through an unmodifiable copy is `StoreError.UnsupportedOperation`.

Modules:
- `Results`: `Option` and `Result`.
- `ValueMap`: the stored values; `SameExcept`, the "no other key changed" relation; and `GetString`.
- `Decimal`: `String.valueOf(int)` and its parser.
- `ContextParts`: `Campaign`, `Device`, `Location` and `Referrer`.
- `AnalyticsContext`: the store, its setters and the copy.
- `ContextCreate`: `create` and its steps.
- `MetadataTracking`: the item descriptor.

Three facts about the code that the model keeps exactly:
- `putDevice` writes `device_id`, `deviceBrand` and `deviceName` at the top level of
  the context (AnalyticsContext.java lines 236-239), and nothing stores a `device`
  sub-map. `ContextCreate.CreateScenarioDevice` shows this.
- `getMetadataTrack` always sets the item type to `"video"` (MetadataTracking.java
  line 21). `MetadataTracking.MetadataScenario` shows this.
- Only the user agent and the timezone get the `"undefined"` sentinel
  (AnalyticsContext.java lines 136-137). Every other missing fact has its own fallback
  (the `"unknown"` carrier), leaves its key out (`build`, the network flags), or makes
  `create` throw (no window manager, no stored traits, a null anonymous id).

## Model

| member | source | states |
|---|---|---|
| `ContextCreate.PutUndefinedIfNull` | analytics/src/main/java/com/segment/analytics/AnalyticsContext.java:141-147 | the key is always present afterwards with a non-empty string; it holds `"undefined"` for a null or empty value and the value itself otherwise; no other key changes |
| `ContextCreate.PutApp` | analytics/src/main/java/com/segment/analytics/AnalyticsContext.java:207-218 | a successful package lookup stores the version code as decimal text that parses back to the version code; a failed lookup leaves the map exactly as it was, with no error |
| `ContextCreate.PutDevice` | analytics/src/main/java/com/segment/analytics/AnalyticsContext.java:234-240 | the device id is the probe's id when collecting and the stored traits' anonymous id otherwise; brand and name are stored too, all at the top level; without stored traits, or with a null anonymous id, the step fails; no other key changes |
| `ContextCreate.PutNetwork` | analytics/src/main/java/com/segment/analytics/AnalyticsContext.java:278-301 | the carrier is the operator name, or `"unknown"` without telephony; the bluetooth and cellular flags are written only with the permission and a connectivity manager, each true iff its network info is present and connected; otherwise only the carrier changes |
| `ContextCreate.PutOs` | analytics/src/main/java/com/segment/analytics/AnalyticsContext.java:306-309 | `os_version` reads back as the release string and nothing else changes |
| `ContextCreate.PutScreen` | analytics/src/main/java/com/segment/analytics/AnalyticsContext.java:323-331 | succeeds iff there is a window manager, then density, height and width are the display's; fails with `WindowServiceMissing` otherwise; no other key changes |
| `ContextCreate.Fill` | analytics/src/main/java/com/segment/analytics/AnalyticsContext.java:128-137 | the steps after the application info succeed iff the device identifier can be read and there is a window manager, and fail with the first step's error otherwise |
| `ContextCreate.FillRecordsDeviceFacts` | analytics/src/main/java/com/segment/analytics/AnalyticsContext.java:128-137 | after every step has run, each value is still the fact its step wrote: no later step overwrites an earlier one |
| `ContextCreate.FillAddsExactlyFilledKeys` | analytics/src/main/java/com/segment/analytics/AnalyticsContext.java:128-137 | the fill adds exactly the always-filled keys plus the network flags when they are written |
| `ContextCreate.Create` | analytics/src/main/java/com/segment/analytics/AnalyticsContext.java:123-138 | as written, creation succeeds iff the device id is collected and there is a window manager; without collection it always fails with `TraitsMissing`; the result is a writable context |
| `ContextCreate.CreateRecordsDeviceFacts` | analytics/src/main/java/com/segment/analytics/AnalyticsContext.java:127-137 | a created context holds the probe's device id, brand and name, `locale` = language + "-" + country, the network facts, `os_version` = the release string, the screen metrics, and the user agent and timezone with their sentinels |
| `ContextCreate.CreateHoldsCreatedKeys` | analytics/src/main/java/com/segment/analytics/AnalyticsContext.java:123-138 | a created context has exactly the created keys; there is no `device` sub-map and no `traits` entry |
| `ContextCreate.CreateBuild` | analytics/src/main/java/com/segment/analytics/AnalyticsContext.java:207-218 | after creation, `build` is present iff the package lookup succeeded and parses back to the version code |
| `ContextCreate.CreateUserAgentAndTimezone` | analytics/src/main/java/com/segment/analytics/AnalyticsContext.java:136-137 | `userAgent` and `timezone` are always present and non-empty; each is `"undefined"` when its source is null or empty and the source string otherwise |
| `ContextCreate.CreateStoringTraits` | analytics/src/main/java/com/segment/analytics/AnalyticsContext.java:123-139 | the corrected creation attaches the traits before the device step; it succeeds iff (the id is collected or the anonymous id is non-null) and there is a window manager |
| `ContextCreate.CreateStoringTraitsRecords` | analytics/src/main/java/com/segment/analytics/AnalyticsContext.java:234-240 | the corrected creation stores the anonymous id as device id when not collecting; the attached traits read back unchanged; it adds only the traits key to the created keys |
| `ContextCreate.CreateIgnoresTraits` | analytics/src/main/java/com/segment/analytics/AnalyticsContext.java:123-128 | with a window manager and an anonymous id, creation without collection fails as written and succeeds when corrected, with the anonymous id as device id |
| `ContextCreate.CreateStoringTraitsWhenCollecting` | analytics/src/main/java/com/segment/analytics/AnalyticsContext.java:123-139 | when the id is collected, the corrected context is the written one plus the traits entry |
| `ContextCreate.FillPassesExtraEntry` | analytics/src/main/java/com/segment/analytics/AnalyticsContext.java:128-137 | with the id collected, an entry the fill does not write passes through it unchanged |
| `ContextCreate.CreateScenarioDevice` | analytics/src/main/java/com/segment/analytics/AnalyticsContext.java:234-240 | for device "ABC123", release "14" and a 1920 by 1080 screen of density 2.0, `device_id` is "ABC123" at the top level with no `device` key, beside the release and screen values |
| `ContextCreate.CreateScenarioNetwork` | analytics/src/main/java/com/segment/analytics/AnalyticsContext.java:130-133 | in that scenario the locale is "en-US", the carrier is "unknown", and the flags follow the bluetooth and mobile connections |
| `ContextCreate.CreateScenarioFallbacks` | analytics/src/main/java/com/segment/analytics/AnalyticsContext.java:136 | in that scenario a null user agent reads "undefined", and a failed package lookup leaves no `build` |
| `AnalyticsContext.PutValue` | analytics/src/main/java/com/segment/analytics/AnalyticsContext.java:169-173 | a write succeeds iff the context is writable; then exactly that key holds the value and no other key changes; on a read-only copy it fails with `UnsupportedOperation` |
| `AnalyticsContext.PutCampaign` | analytics/src/main/java/com/segment/analytics/AnalyticsContext.java:223-225 | stores the campaign under `campaign` and changes no other key |
| `AnalyticsContext.PutLocation` | analytics/src/main/java/com/segment/analytics/AnalyticsContext.java:265-267 | stores the location under `location` and changes no other key |
| `AnalyticsContext.PutReferrer` | analytics/src/main/java/com/segment/analytics/AnalyticsContext.java:314-316 | stores the referrer under `referrer` and changes no other key |
| `AnalyticsContext.SetTraits` | analytics/src/main/java/com/segment/analytics/AnalyticsContext.java:187-200 | stores a copy of the traits under `traits`, changes no other key, and reading the traits back gives that copy |
| `AnalyticsContext.UnmodifiableCopy` | analytics/src/main/java/com/segment/analytics/AnalyticsContext.java:175-181 | the copy holds exactly the store's entries and refuses every write |
| `AnalyticsContext.LiveAcceptsCopyRefusesWrites` | analytics/src/main/java/com/segment/analytics/AnalyticsContext.java:169-181 | any sequence of writes succeeds on the live store and leaves every key it does not write as it was, while the same writes on the copy fail at the first one |
| `AnalyticsContext.CopyThenWrite` | analytics/src/main/java/com/segment/analytics/AnalyticsContext.java:175-181 | on a shared live object, a copy taken before a write keeps the earlier entries while the live store holds the new value and no other key of it changes |
| `ContextParts.Campaign.PutName` | analytics/src/main/java/com/segment/analytics/AnalyticsContext.java:365-371 | `name()` after `putName` returns the stored string; no other field changes |
| `ContextParts.Campaign.PutSource` | analytics/src/main/java/com/segment/analytics/AnalyticsContext.java:376-382 | `source()` after `putSource` returns the stored string; no other field changes |
| `ContextParts.Campaign.PutMedium` | analytics/src/main/java/com/segment/analytics/AnalyticsContext.java:387-393 | `medium()` after `putMedium` returns the stored string; no other field changes |
| `ContextParts.Campaign.PutTerm` | analytics/src/main/java/com/segment/analytics/AnalyticsContext.java:398-411 | `term()` and the deprecated `tern()` both return the stored term; no other field changes |
| `ContextParts.Campaign.PutContent` | analytics/src/main/java/com/segment/analytics/AnalyticsContext.java:416-422 | `content()` after `putContent` returns the stored string; no other field changes |
| `ContextParts.CampaignSettersIndependent` | analytics/src/main/java/com/segment/analytics/AnalyticsContext.java:365-393 | setting the name leaves source, medium, term and content readable as before, and a later source write keeps the name |
| `ContextParts.Device.PutAdvertisingInfo` | analytics/src/main/java/com/segment/analytics/AnalyticsContext.java:465-470 | `adTrackingEnabled` always holds the flag; `advertisingId` is written only when tracking is enabled and the id is non-null and non-empty, and is otherwise left as it was |
| `ContextParts.Device.PutDeviceToken` | analytics/src/main/java/com/segment/analytics/AnalyticsContext.java:475-477 | `token` reads back as the stored string; no other field changes |
| `ContextParts.Referrer.PutId` | analytics/src/main/java/com/segment/analytics/AnalyticsContext.java:567-573 | `id()` after `putId` returns the stored string; no other field changes |
| `ContextParts.Referrer.PutLink` | analytics/src/main/java/com/segment/analytics/AnalyticsContext.java:578-584 | `link()` after `putLink` returns the stored string; no other field changes |
| `ContextParts.Referrer.PutName` | analytics/src/main/java/com/segment/analytics/AnalyticsContext.java:589-595 | `name()` after `putName` returns the stored string; no other field changes |
| `ContextParts.Referrer.PutType` | analytics/src/main/java/com/segment/analytics/AnalyticsContext.java:600-606 | `type()` after `putType` returns the stored string; no other field changes |
| `ContextParts.Referrer.PutTerm` | analytics/src/main/java/com/segment/analytics/AnalyticsContext.java:611-613 | the deprecated `putTerm` writes the url: `url()` returns the stored string |
| `ContextParts.Referrer.PutUrl` | analytics/src/main/java/com/segment/analytics/AnalyticsContext.java:618-623 | `url()` after `putUrl` returns the stored string; no other field changes |
| `Decimal.NatToString` | analytics/src/main/java/com/segment/analytics/AnalyticsContext.java:214 | the decimal text of a natural number is a non-empty run of digits with no leading zero |
| `Decimal.IntToString` | analytics/src/main/java/com/segment/analytics/AnalyticsContext.java:214 | the text starts with `-` iff the number is negative, and the digits that follow are canonical |
| `Decimal.IntRoundTrip` | analytics/src/main/java/com/segment/analytics/AnalyticsContext.java:214 | parsing the decimal text of any int gives the int back |
| `Decimal.IntToStringInjective` | analytics/src/main/java/com/segment/analytics/AnalyticsContext.java:214 | two different version codes never produce the same `build` text |
| `ContextParts.ReferrerPutTermIsPutUrl` | analytics/src/main/java/com/segment/analytics/AnalyticsContext.java:611-624 | the deprecated `putTerm` and `putUrl` give the same referrer for every referrer and string |
| `MetadataTracking.TrackKeys` | app/src/main/java/org/schabi/newpipe/util/MetadataTracking.java:23-31 | the property keys are exactly the four always-present keys plus `category` and `channel` for each non-empty source |
| `MetadataTracking.GetMetadataTrack` | app/src/main/java/org/schabi/newpipe/util/MetadataTracking.java:18-34 | the item id is the stream id and the item type is `"video"`; `category` and `channel` are present iff their source strings are non-empty; `likes`, `views`, `type` and `title` are always present; no other key appears |
| `MetadataTracking.PropertiesMatchReference` | app/src/main/java/org/schabi/newpipe/util/MetadataTracking.java:23-31 | every property key holds exactly the reference value: the category, like count, channel name, view count, stream-type name or stream name, and nothing else is present |
| `MetadataTracking.PropertyCount` | app/src/main/java/org/schabi/newpipe/util/MetadataTracking.java:23-31 | the map has 4 entries plus one for each non-empty optional source, so between 4 and 6 |
| `MetadataTracking.DependsOnlyOnReadFields` | app/src/main/java/org/schabi/newpipe/util/MetadataTracking.java:18-34 | two streams that agree on the seven fields read give the same descriptor, whatever else they carry |
| `MetadataTracking.MetadataScenario` | app/src/main/java/org/schabi/newpipe/util/MetadataTracking.java:19-31 | for stream "COD" with an empty category and channel, 42 likes, 1000 views, type VIDEO and title "Call of Duty", the descriptor is a "video" item holding exactly likes, views, type and title |

## Findings

| source | as written | input that shows it | evidently intended | confidence | as-written member | corrected member |
|---|---|---|---|---|---|---|
| analytics/src/main/java/com/segment/analytics/AnalyticsContext.java:123-128 | `create` never stores its `traits` argument; `putDevice` then calls `traits().anonymousId()` on a fresh map (line 235) | `collectDeviceId == false` with any traits, even ones carrying an anonymous id: `traits()` finds no `traits` entry and the dereference throws | attach the traits with `setTraits(traits)` before `putDevice`, so the anonymous id becomes the device id | medium, not executed: it assumes `getValueMap` returns null for an absent key, and `ValueMap` is not part of this model | `ContextCreate.Create` (shown by `ContextCreate.CreateIgnoresTraits`) | `ContextCreate.CreateStoringTraits` (proved by `ContextCreate.CreateStoringTraitsRecords`) |

## Left out

- Platform queries are inputs, not behaviour: the package manager, connectivity and
  telephony managers, window manager and display metrics, `Build`, the default
  `Locale` and `TimeZone`, and `System.getProperty`. They are the fields of
  `ContextCreate.DeviceFacts`.
- `attachAdvertisingId`, the advertising-id background task and its `CountDownLatch`:
  these are asynchronous work whose point is completion signalling across threads.
  `Device.putAdvertisingInfo`, which that task calls, is modelled.
- `synchronized` on `create`, and the choice of a concurrent map: thread safety, not
  sequential behaviour. The concurrent map's refusal of null values is modelled, as
  `AnonymousIdMissing`.
- `putLibrary`: its body is entirely commented out, so it writes nothing and has no member.
- The commented-out keys are not modelled: `name`, `version`, `namespace`,
  `library_name`, `library_version`, `network_wifi`, `os_name` and `deviceCategory`.
  `ContextCreate.CreateHoldsCreatedKeys` shows that none of them appears.
- `Location.putLatitude`, `putLongitude` and `putSpeed`, with their getters, are left
  out because they work on doubles. A location is an uninterpreted map.
  `screen_density` is a float, kept as an uninterpreted 32-bit pattern.
- The context-level getters `campaign()`, `device()` and `location()` are left out,
  as is `AnalyticsContext.putDeviceToken`, which goes through `device()`. All of
  them read through `ValueMap.getValueMap`, which is not part of this model. Its type
  coercion is not invented here, and nothing in this code stores a `device` sub-map.
- `AnalyticsContext.StoredTraits` reads `traits()` as "the stored traits object, else
  null". That is the only use of `getValueMap` in the model.
- `ValueMap.GetString` reads a non-string value as null. The coercion that
  `ValueMap.getString` may apply to non-string values is not modelled, so the getters'
  contracts cover only values their own setters stored.
- `ValueMap.IsNullOrEmpty`: `Utils.isNullOrEmpty` is not part of this model. It is
  taken to mean null or of length zero. If the library also trims whitespace, a
  blank user agent would read `"undefined"` too.
- MetadataTracking.GetMetadataTrack: the stream's id, name, category, sub-channel
  name and stream type are taken as non-null. The NullPointerException that
  `getCategory().length()` or `getSubChannelName().length()` throws on a null
  (MetadataTracking.java lines 24 and 27) is not modelled.
- Null arguments to the fluent setters, and null strings from the platform other
  than the user agent and timezone, are not modelled. Strings are Dafny strings.
- `unmodifiableCopy` is shallow in Java. The model's nested values are immutable, so
  later changes made through a shared nested object cannot be expressed.
- Map iteration order (`LinkedHashMap`) is not modelled. Maps are unordered.
- `BasicItemPayload.Builder` and its `build()` are not part of this model. Any
  validation it performs is not invented, and the descriptor is the plain record of
  item id, item type and properties. The `StreamInfo` and stream-type enum are not
  part of this model either. A stream type is known only by its name.
- app/src/main/java/org/schabi/newpipe/settings/LoginSettingsFragment.java is
  preference wiring: it forwards the entered email to an analytics singleton and to
  shared preferences, and has no logic of its own to verify.
