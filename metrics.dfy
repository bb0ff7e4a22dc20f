/** The values a producer hands to the writer (metrics.go): a metric is read
    through four accessors, Measurement, Tags, Values and Time. */
module Metrics {

  /** A Go `map[string]string`. Go maps are references: whoever holds the map
      sees every write made through any other holder, so the tag map is an
      object whose entries can be changed in place. A `nil` map is `null`. */
  class TagMap {
    var entries: map<string, string>

    constructor (entries: map<string, string>)
      ensures this.entries == entries
    {
      this.entries := entries;
    }
  }

  /** A field value of a point. Floating-point values are not modelled. */
  datatype FieldValue = IntValue(i: int) | StringValue(s: string) | BoolValue(b: bool)

  /** What the accessors of a `Metric` return. `time` is an instant, kept opaque
      as an integer count of nanoseconds. */
  datatype Metric = Metric(
    measurement: string,
    tags: TagMap?,
    values: map<string, FieldValue>,
    time: int)
}
