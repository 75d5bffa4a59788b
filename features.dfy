/**
 * `FromGeoJSON` (lib/wfs.go): one GeoJSON feature normalised to the fields
 * a feed entry needs, under the per-feed field mapping (`Options`).
 */
module Features {
  import opened Wrappers
  import opened Feeds

  /** A GeoJSON property value: a string, JSON null, or anything else (number, bool, object, array). */
  datatype PropertyValue = StringProp(s: string) | NullProp | OtherProp

  /** A feature's `id` member: a string, or anything else (a number, or absent). */
  datatype FeatureId = StringId(s: string) | OtherId

  datatype Feature = Feature(id: FeatureId, properties: map<string, PropertyValue>)

  /**
   * `Options`: the property names that supply the title, the description and
   * the update time. `id` is decoded but never read: the identifier always
   * comes from the feature's own `id`.
   */
  datatype FieldMapping = FieldMapping(id: string, title: string, description: string, updatedAt: string)

  /** `FeedProperties`: one normalised feature. */
  datatype FeedProperties = FeedProperties(id: string, title: string, description: string, updatedAt: Time)

  /**
   * Whether `Properties.MustString(key, def)` returns rather than panicking:
   * the property is missing, null, or a string.
   */
  predicate StringOrAbsent(props: map<string, PropertyValue>, key: string)
  {
    key !in props || !props[key].OtherProp?
  }

  /**
   * `Properties.MustString(key, def)` (orb/geojson): the property when it is a
   * string, `def` when it is missing or null. Any other value panics there,
   * hence the precondition.
   */
  function MustString(props: map<string, PropertyValue>, key: string, def: string): (r: string)
    requires StringOrAbsent(props, key)
    ensures key in props && props[key].StringProp? ==> r == props[key].s
    ensures key !in props || props[key].NullProp? ==> r == def
  {
    if key in props && props[key].StringProp? then props[key].s else def
  }

  /** The raw update-time text of a feature, "" when missing or null. */
  function TimestampText(f: Feature, options: FieldMapping): string
    requires StringOrAbsent(f.properties, options.updatedAt)
  {
    MustString(f.properties, options.updatedAt, "")
  }

  /**
   * Whether `FromGeoJSON` returns rather than panicking: the type assertion
   * `original.ID.(string)` needs a string id, and each of the three
   * `MustString` calls a mapped property that is missing, null or a string.
   */
  predicate FeatureNormalisable(f: Feature, options: FieldMapping)
  {
    f.id.StringId? &&
    StringOrAbsent(f.properties, options.title) &&
    StringOrAbsent(f.properties, options.description) &&
    StringOrAbsent(f.properties, options.updatedAt)
  }

  /**
   * `FromGeoJSON`. `parseTime` stands for `time.Parse` with the layout
   * "2006-01-02T15:04:05.999Z07:00"; a text it rejects yields the zero time.
   */
  function FromGeoJSON(f: Feature, options: FieldMapping, parseTime: string -> Option<Time>): (r: FeedProperties)
    requires FeatureNormalisable(f, options)
    ensures r.id == f.id.s
    ensures options.title !in f.properties || f.properties[options.title].NullProp? ==> r.title == ""
    ensures options.title in f.properties && f.properties[options.title].StringProp? ==>
      r.title == f.properties[options.title].s
    ensures options.description !in f.properties || f.properties[options.description].NullProp? ==> r.description == ""
    ensures options.description in f.properties && f.properties[options.description].StringProp? ==>
      r.description == f.properties[options.description].s
    ensures parseTime(TimestampText(f, options)).None? ==> r.updatedAt == ZeroTime
    ensures parseTime(TimestampText(f, options)).Some? ==> r.updatedAt == parseTime(TimestampText(f, options)).value
  {
    var id := f.id.s;
    var title := MustString(f.properties, options.title, "");
    var description := MustString(f.properties, options.description, "");
    var updatedAt := TimestampText(f, options);
    var updatedAtTime := match parseTime(updatedAt) case Some(t) => t case None => ZeroTime;
    FeedProperties(id, title, description, updatedAtTime)
  }

  /**
   * A feature whose update-time property is missing or null normalises to
   * the zero time, given that the time parser rejects the empty text (as
   * `time.Parse` does).
   */
  lemma MissingTimestampIsZero(f: Feature, options: FieldMapping, parseTime: string -> Option<Time>)
    requires FeatureNormalisable(f, options)
    requires parseTime("").None?
    requires options.updatedAt !in f.properties || f.properties[options.updatedAt].NullProp?
    ensures FromGeoJSON(f, options, parseTime).updatedAt == ZeroTime
  {
  }

  /** Every feature of a response normalises without a panic. */
  predicate Normalisable(features: seq<Feature>, options: FieldMapping)
  {
    forall i :: 0 <= i < |features| ==> FeatureNormalisable(features[i], options)
  }

  /** Each feature of one response normalised, in response order. */
  function Normalise(features: seq<Feature>, options: FieldMapping, parseTime: string -> Option<Time>): (r: seq<FeedProperties>)
    requires Normalisable(features, options)
    ensures |r| == |features|
    ensures forall i :: 0 <= i < |features| ==> r[i] == FromGeoJSON(features[i], options, parseTime)
  {
    if |features| == 0 then []
    else
      var init := features[..|features| - 1];
      assert Normalisable(init, options) by {
        forall i | 0 <= i < |init| ensures FeatureNormalisable(init[i], options) {
          assert init[i] == features[i];
        }
      }
      Normalise(init, options, parseTime) + [FromGeoJSON(features[|features| - 1], options, parseTime)]
  }
}
