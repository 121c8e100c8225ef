/**
  The playback metadata attached to player events: the current stream described as a
  "video" item with a small map of properties, two of which appear only when known.
 */
module MetadataTracking {
  import opened Results
  import opened ValueMap

  const ITEM_TYPE := "video"

  const CATEGORY_KEY := "category"
  const LIKES_KEY := "likes"
  const CHANNEL_KEY := "channel"
  const VIEWS_KEY := "views"
  const TYPE_KEY := "type"
  const TITLE_KEY := "title"

  /** The keys a properties map may hold. */
  const PROPERTY_KEYS: set<string> := {CATEGORY_KEY, LIKES_KEY, CHANNEL_KEY, VIEWS_KEY, TYPE_KEY, TITLE_KEY}

  /** A stream type, known here only by its enum constant's name. */
  datatype StreamType = StreamType(name: string)

  /**
    The stream's metadata: the fields the descriptor reads, and everything else the
    stream carries as an uninterpreted map.
   */
  datatype StreamInfo = StreamInfo(
    id: string,
    name: string,
    category: string,
    subChannelName: string,
    likeCount: Int64,
    viewCount: Int64,
    streamType: StreamType,
    otherFields: map<string, Value>)

  /** The player's tag for a media source; the descriptor reads only its metadata. */
  datatype MediaSourceTag = MediaSourceTag(metadata: StreamInfo)

  /** An item descriptor: the item's id, its type and its properties. */
  datatype BasicItemPayload = BasicItemPayload(itemId: string, itemType: string, properties: map<string, Value>)

  /** The property a descriptor of `info` holds under `key`, if any: the reference the builder is checked against. */
  function ExpectedProperty(info: StreamInfo, key: string): Option<Value>
  {
    if key == CATEGORY_KEY then (if |info.category| > 0 then Some(Str(info.category)) else None)
    else if key == LIKES_KEY then Some(Int(info.likeCount as int))
    else if key == CHANNEL_KEY then (if |info.subChannelName| > 0 then Some(Str(info.subChannelName)) else None)
    else if key == VIEWS_KEY then Some(Int(info.viewCount as int))
    else if key == TYPE_KEY then Some(Str(info.streamType.name))
    else if key == TITLE_KEY then Some(Str(info.name))
    else None
  }

  /** The keys every descriptor holds. */
  const ALWAYS_PRESENT: set<string> := {LIKES_KEY, VIEWS_KEY, TYPE_KEY, TITLE_KEY}

  /** Describes the tagged stream as a "video" item with its properties. */
  function GetMetadataTrack(tag: MediaSourceTag): (p: BasicItemPayload)
    ensures p.itemId == tag.metadata.id
    ensures p.itemType == ITEM_TYPE
    ensures CATEGORY_KEY in p.properties <==> |tag.metadata.category| > 0
    ensures CHANNEL_KEY in p.properties <==> |tag.metadata.subChannelName| > 0
    ensures ALWAYS_PRESENT <= p.properties.Keys <= PROPERTY_KEYS
  {
    var info := tag.metadata;
    var withCategory := if |info.category| > 0 then map[CATEGORY_KEY := Str(info.category)] else map[];
    var withLikes := withCategory[LIKES_KEY := Int(info.likeCount as int)];
    var withChannel :=
      if |info.subChannelName| > 0 then withLikes[CHANNEL_KEY := Str(info.subChannelName)] else withLikes;
    var properties := withChannel[VIEWS_KEY := Int(info.viewCount as int)]
                                 [TYPE_KEY := Str(info.streamType.name)]
                                 [TITLE_KEY := Str(info.name)];
    BasicItemPayload(info.id, ITEM_TYPE, properties)
  }

  /** Every key of the descriptor holds exactly the reference property, and no other key is present. */
  lemma PropertiesMatchReference(tag: MediaSourceTag, key: string)
    ensures var p := GetMetadataTrack(tag).properties;
      (key in p <==> ExpectedProperty(tag.metadata, key).Some?)
      && (key in p ==> p[key] == ExpectedProperty(tag.metadata, key).value)
  {
  }

  /** The optional keys a descriptor of `info` holds. */
  function OptionalKeys(info: StreamInfo): set<string>
  {
    (if |info.category| > 0 then {CATEGORY_KEY} else {}) + (if |info.subChannelName| > 0 then {CHANNEL_KEY} else {})
  }

  lemma TrackKeys(tag: MediaSourceTag)
    ensures GetMetadataTrack(tag).properties.Keys == ALWAYS_PRESENT + OptionalKeys(tag.metadata)
  {
  }

  lemma KeyCounts(info: StreamInfo)
    ensures |ALWAYS_PRESENT| == 4
    ensures ALWAYS_PRESENT !! OptionalKeys(info)
    ensures |OptionalKeys(info)| == (if |info.category| > 0 then 1 else 0) + (if |info.subChannelName| > 0 then 1 else 0)
  {
    assert ALWAYS_PRESENT == {LIKES_KEY} + {VIEWS_KEY} + {TYPE_KEY} + {TITLE_KEY};
  }

  /** The properties map holds four entries, plus one for each of a known category and a known channel. */
  lemma PropertyCount(tag: MediaSourceTag)
    ensures |GetMetadataTrack(tag).properties| ==
              4 + (if |tag.metadata.category| > 0 then 1 else 0) + (if |tag.metadata.subChannelName| > 0 then 1 else 0)
    ensures 4 <= |GetMetadataTrack(tag).properties| <= 6
  {
    var p := GetMetadataTrack(tag).properties;
    TrackKeys(tag);
    KeyCounts(tag.metadata);
    assert |p| == |p.Keys| == |ALWAYS_PRESENT + OptionalKeys(tag.metadata)|;
  }

  /** The descriptor depends only on the seven fields it reads. */
  lemma DependsOnlyOnReadFields(a: MediaSourceTag, b: MediaSourceTag)
    requires a.metadata.id == b.metadata.id && a.metadata.name == b.metadata.name
    requires a.metadata.category == b.metadata.category && a.metadata.subChannelName == b.metadata.subChannelName
    requires a.metadata.likeCount == b.metadata.likeCount && a.metadata.viewCount == b.metadata.viewCount
    requires a.metadata.streamType == b.metadata.streamType
    ensures GetMetadataTrack(a) == GetMetadataTrack(b)
  {
  }

  /**
    The stream scenario: id "COD", empty category and channel, 42 likes, 1000 views,
    type VIDEO and title "Call of Duty". The item type is "video" whatever the stream,
    and neither optional key appears.
   */
  lemma MetadataScenario()
    ensures var p := GetMetadataTrack(MediaSourceTag(StreamInfo(
              "COD", "Call of Duty", "", "", 42, 1000, StreamType("VIDEO"), map[])));
      && p.itemId == "COD"
      && p.itemType == "video"
      && p.properties == map[LIKES_KEY := Int(42), VIEWS_KEY := Int(1000),
                             TYPE_KEY := Str("VIDEO"), TITLE_KEY := Str("Call of Duty")]
  {
  }
}
