/** Normalisation of the value `generate` returns: its audio may be an attribute,
    an entry of a dict, or the value itself. */
module ResultShape {
  import opened PyValues

  /** An opaque Python object standing for audio data (an array or a tensor);
      `ref` tells one object from another. */
  datatype Payload = Payload(ref: nat)

  /** A generation result, seen through the three ways it can carry audio:
      `attribute` is `result.audio` when `hasattr(result, 'audio')`, `mapping` is
      the dict's contents when `isinstance(result, dict)`, and `itself` is the
      result object. An object may offer both an attribute and a dict key. */
  datatype Generated = Generated(attribute: Option<Payload>,
                                 mapping: Option<map<string, Payload>>,
                                 itself: Payload)

  predicate HasAudioKey(g: Generated) {
    g.mapping.Some? && "audio" in g.mapping.value
  }

  /** Where the audio can come from, in order of precedence. */
  function Candidates(g: Generated): (c: seq<Payload>)
    ensures 1 <= |c| <= 3 && c[|c| - 1] == g.itself
  {
    (if g.attribute.Some? then [g.attribute.value] else []) +
    (if HasAudioKey(g) then [g.mapping.value["audio"]] else []) +
    [g.itself]
  }

  /** The audio the handler goes on with: the first candidate that exists. */
  function ResolveAudio(g: Generated): (audio: Payload)
    ensures audio == Candidates(g)[0]
    ensures g.attribute.Some? ==> audio == g.attribute.value
    ensures g.attribute.None? && HasAudioKey(g) ==> audio == g.mapping.value["audio"]
    ensures g.attribute.None? && !HasAudioKey(g) ==> audio == g.itself
  {
    if g.attribute.Some? then g.attribute.value
    else if HasAudioKey(g) then g.mapping.value["audio"]
    else g.itself
  }

  /** The attribute wins even over a dict key that holds different audio, and the
      key wins over the raw value. */
  lemma AttributeBeatsKeyBeatsRaw(a: Payload, k: Payload, raw: Payload, m: map<string, Payload>)
    requires "audio" in m && m["audio"] == k
    ensures ResolveAudio(Generated(Some(a), Some(m), raw)) == a
    ensures ResolveAudio(Generated(None, Some(m), raw)) == k
    ensures ResolveAudio(Generated(None, Some(m - {"audio"}), raw)) == raw
    ensures ResolveAudio(Generated(None, None, raw)) == raw
  {
  }
}
