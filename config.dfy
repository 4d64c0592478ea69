/** The engine's configuration object: its default options and the
    override-merge that installs caller options over them. */
module Config {
  import opened Values

  /** A configuration object, from option name to option value. */
  type Config = map<string, Value>

  const CastString := "castString"
  const ParseNumbers := "parseNumbers"
  const ChangeEvent := "changeEvent"
  const ExtraProperties := "extraProperties"
  const EmbedPlainData := "embedPlainData"
  const ArrayConstructor := "arrayConstructor"

  /** Whether option `key` is switched on: the source tests options by truthiness. */
  predicate Flag(c: Config, key: string) {
    Truthy(Lookup(c, key))
  }

  /** The options every engine starts from. */
  function Defaults(): (c: Config)
    ensures Flag(c, CastString) && Flag(c, ParseNumbers) && Flag(c, ChangeEvent)
    ensures !Flag(c, ExtraProperties) && Flag(c, EmbedPlainData)
    ensures Lookup(c, ArrayConstructor) == Fn(Identity)
  {
    map[CastString := Bool(true),
        ParseNumbers := Bool(true),
        ChangeEvent := Bool(true),
        ExtraProperties := Bool(false),
        EmbedPlainData := Bool(true),
        ArrayConstructor := Fn(Identity)]
  }

  /** lodash `extend(target, source)`: every key of `source` overwrites the
      same key of `target`, an explicit `undefined` included; the other keys
      of `target` are kept. */
  function Extend(target: Config, source: Config): (r: Config)
    ensures r.Keys == target.Keys + source.Keys
    ensures forall k :: k in source ==> r[k] == source[k]
    ensures forall k :: k in target && k !in source ==> r[k] == target[k]
  {
    target + source
  }
}
