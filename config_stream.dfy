/** `IntoConfigStream`: a single configuration and a stream of
    configurations both become one stream of configurations. A stream is
    modelled by the finite sequence of items it yields, in order. */
module ConfigStream {

  /** The two sources `into_stream` accepts. */
  datatype ConfigSource<C> = Single(config: C) | Continuous(items: seq<C>)

  /** `into_stream`: `once(ready(config))` for a single configuration, the
      stream itself for a stream. */
  function IntoStream<C>(src: ConfigSource<C>): (s: seq<C>)
    ensures src.Single? ==> |s| == 1 && s[0] == src.config
    ensures src.Continuous? ==> |s| == |src.items| && forall i :: 0 <= i < |s| ==> s[i] == src.items[i]
  {
    match src
    case Single(c) => [c]
    case Continuous(items) => items
  }

  /** Converting the result again changes nothing: the stream `into_stream`
      returns is itself a stream, which passes through unchanged. */
  lemma IntoStreamIdempotent<C>(src: ConfigSource<C>)
    ensures IntoStream(Continuous(IntoStream(src))) == IntoStream(src)
  {
  }

  /** A single configuration and the one-item stream holding it are the same
      source once converted. */
  lemma SingleIsOneItemStream<C>(c: C)
    ensures IntoStream(Single(c)) == IntoStream(Continuous([c]))
  {
  }
}
