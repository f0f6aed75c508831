/** The payload builder: one record's labels and wire shape. */
module PayloadBuilder {
  import opened Wrappers
  import opened Decimal
  import opened Configuration

  /** One stream of the push body: its label set and its `[timestamp, line]` entries. */
  datatype Stream = Stream(stream: Labels, values: seq<seq<string>>)

  /** The push body: the list under the `streams` key. */
  datatype Payload = Payload(streams: seq<Stream>)

  /**
    The record's label set: a fresh copy of the defaults overlaid by the
    call's labels; an absent (nil) call map leaves the defaults alone.
   */
  function EffectiveLabels(defaults: Labels, call: Option<Labels>): (r: Labels)
    ensures forall k :: k in r <==> k in defaults || (call.Some? && k in call.value)
    ensures forall k :: call.Some? && k in call.value ==> r[k] == call.value[k]
    ensures forall k :: k in defaults && (call.None? || k !in call.value) ==> r[k] == defaults[k]
  {
    match call
    case None => defaults
    case Some(m) => defaults + m
  }

  /** Without call labels, or with an empty call map, the record carries exactly the defaults. */
  lemma NoCallLabelsGiveDefaults(defaults: Labels, call: Option<Labels>)
    requires call.None? || call.value == map[]
    ensures EffectiveLabels(defaults, call) == defaults
  {
  }

  /**
    The payload of one call: a single stream holding a single pair whose
    first element is the decimal nanosecond timestamp `now` and whose second
    is the log line.
   */
  function BuildPayload(config: Config, line: string, callLabels: Option<Labels>, now: nat): (p: Payload)
    ensures |p.streams| == 1
    ensures p.streams[0].stream == EffectiveLabels(config.labels, callLabels)
    ensures |p.streams[0].values| == 1 && |p.streams[0].values[0]| == 2
    ensures IsCanonical(p.streams[0].values[0][0]) && ToNat(p.streams[0].values[0][0]) == now
    ensures p.streams[0].values[0][1] == line
  {
    ToNatFromNat(now);
    Payload([Stream(EffectiveLabels(config.labels, callLabels), [[FromNat(now), line]])])
  }
}
