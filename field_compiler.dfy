/** The field-declaration compiler: type tags resolve to converters
    (`getConstructor`) and declarations to descriptors (`parseConfig`). */
module FieldCompiler {
  import opened Values
  import opened Config

  /** What the model cannot see: the behaviour of caller-supplied functions,
      JavaScript's string concatenation `'' + value`, and `parseFloat`. */
  datatype Host = Host(
    callback: (nat, Value) -> Result<Value>,
    concat: Value -> string,
    parseFloat: string -> real)

  /** Calls function `f` on `v`. The two built-in converters read the
      configuration `cfg` when they run, not when they were created. */
  function Call(f: FnRef, v: Value, cfg: Config, host: Host): (r: Result<Value>)
    ensures f == Identity ==> r == Ok(v)
    ensures f == StringConverter ==> (r.Ok? ==> r.value.Str?) && (r.Err? ==> r.error == NotAString(v))
    ensures f == NumberConverter ==> (r.Ok? ==> r.value.Num?) && (r.Err? ==> r.error == NotANumber(v))
  {
    match f
    case Identity => Ok(v)
    case StringConverter =>
      if v.Str? then Ok(v)
      else if Flag(cfg, CastString) then Ok(Str(host.concat(v)))
      else Err(NotAString(v))
    case NumberConverter =>
      if v.Num? then Ok(v)
      else if v.Str? && Flag(cfg, ParseNumbers) then Ok(Num(host.parseFloat(v.s)))
      else Err(NotANumber(v))
    case Callback(id) => host.callback(id, v)
  }

  /** Calls an arbitrary value; calling a non-function is a TypeError. */
  function CallValue(f: Value, v: Value, cfg: Config, host: Host): (r: Result<Value>)
    ensures r.Ok? ==> f.Fn?
    ensures !f.Fn? ==> r == Err(NotAFunction(f))
  {
    if f.Fn? then Call(f.f, v, cfg, host) else Err(NotAFunction(f))
  }

  /** The "string" converter returns strings unchanged, casts anything else
      only when `castString` is on, and throws otherwise. */
  lemma StringConverterContract(v: Value, cfg: Config, host: Host)
    ensures var r := Call(StringConverter, v, cfg, host);
      && (r.Ok? <==> v.Str? || Flag(cfg, CastString))
      && (r.Ok? ==> r.value.Str?)
      && (v.Str? ==> r == Ok(v))
      && (!v.Str? && Flag(cfg, CastString) ==> r == Ok(Str(host.concat(v))))
      && (r.Err? ==> r.error == NotAString(v))
  {
  }

  /** The "number" converter returns numbers unchanged, parses strings only
      when `parseNumbers` is on, and throws for everything else. */
  lemma NumberConverterContract(v: Value, cfg: Config, host: Host)
    ensures var r := Call(NumberConverter, v, cfg, host);
      && (r.Ok? <==> v.Num? || (v.Str? && Flag(cfg, ParseNumbers)))
      && (r.Ok? ==> r.value.Num?)
      && (v.Num? ==> r == Ok(v))
      && (v.Str? && Flag(cfg, ParseNumbers) ==> r == Ok(Num(host.parseFloat(v.s))))
      && (r.Err? ==> r.error == NotANumber(v))
  {
  }

  /** Converting an already converted value again changes nothing, whatever
      the configuration is by then. */
  lemma BuiltinConverterIdempotent(f: FnRef, v: Value, cfg: Config, cfg': Config, host: Host)
    requires f == StringConverter || f == NumberConverter
    requires Call(f, v, cfg, host).Ok?
    ensures Call(f, Call(f, v, cfg, host).value, cfg', host) == Call(f, v, cfg, host)
  {
  }

  /** `getConstructor`: a function is its own converter, the tags "string"
      and "number" resolve to the built-in converters, anything else to
      `undefined`. */
  function GetConstructor(item: Value): (r: Value)
    ensures r == Undef || r.Fn?
    ensures item.Fn? ==> r == item
    ensures !item.Fn? ==> (r == Fn(StringConverter) <==> item == Str("string"))
    ensures !item.Fn? ==> (r == Fn(NumberConverter) <==> item == Str("number"))
    ensures r == Undef <==> !item.Fn? && item != Str("string") && item != Str("number")
  {
    match item
    case Fn(_) => item
    case Str(tag) =>
      if tag == "string" then Fn(StringConverter)
      else if tag == "number" then Fn(NumberConverter)
      else Undef
    case _ => Undef
  }

  /** The compiled form of one field declaration. `ctor` is the converter
      (`undefined` when the type tag is unknown). */
  datatype Descriptor = Descriptor(isArray: bool, ctor: Value, required: Value, default: Value)

  /** `parseConfig`: a one-element array, a three-element array or a
      function; every other declaration yields no descriptor. */
  function ParseConfig(decl: Value): (r: Option<Descriptor>)
    ensures r.Some? <==> (decl.Arr? && (|decl.items| == 1 || |decl.items| == 3)) || decl.Fn?
    ensures r.Some? ==> r.value.ctor == Undef || r.value.ctor.Fn?
  {
    match decl
    case Arr(items) =>
      if |items| == 1 then
        Some(Descriptor(true, GetConstructor(items[0]), Bool(true), Null))
      else if |items| == 3 then
        var t := items[0];
        Some(Descriptor(t.Arr?, GetConstructor(if t.Arr? then Index(t.items, 0) else t), items[1], items[2]))
      else None
    case Fn(_) => Some(Descriptor(false, decl, Bool(true), Null))
    case _ => None
  }

  /** `[type]` declares a required array field without default whose
      elements are converted by the converter of `type`. */
  lemma OneElementDeclaration(t: Value)
    ensures ParseConfig(Arr([t])) == Some(Descriptor(true, GetConstructor(t), Bool(true), Null))
  {
  }

  /** `[type, required, default]` copies positions 1 and 2; it declares an
      array field exactly when `type` is itself an array, whose first element
      then names the element type. */
  lemma ThreeElementDeclaration(t: Value, required: Value, default: Value)
    ensures var r := ParseConfig(Arr([t, required, default]));
      && r.Some?
      && r.value.required == required && r.value.default == default
      && (r.value.isArray <==> t.Arr?)
      && (t.Arr? ==> r.value.ctor == GetConstructor(Index(t.items, 0)))
      && (!t.Arr? ==> r.value.ctor == GetConstructor(t))
  {
  }

  /** A bare function declares a required scalar field without default,
      converted by the function itself. */
  lemma FunctionDeclaration(f: FnRef)
    ensures ParseConfig(Fn(f)) == Some(Descriptor(false, Fn(f), Bool(true), Null))
  {
  }

  /** The shapes the compiler does not know: a two-element array, a bare type
      tag, a bare default value, a plain object (such as a computed-property
      descriptor). */
  lemma OtherShapesHaveNoDescriptor(a: Value, b: Value, s: string, x: real, props: map<string, Value>)
    ensures ParseConfig(Arr([a, b])).None?
    ensures ParseConfig(Str(s)).None?
    ensures ParseConfig(Num(x)).None?
    ensures ParseConfig(Obj(props)).None?
  {
  }

  /** The three-element declaration that compiles to descriptor `d`. */
  function Declaration(d: Descriptor): Value {
    Arr([if d.isArray then Arr([d.ctor]) else d.ctor, d.required, d.default])
  }

  /** Every descriptor the compiler produces is also produced by a
      three-element declaration: the long form is a normal form of the
      other two. */
  lemma DeclarationRoundTrip(decl: Value)
    requires ParseConfig(decl).Some?
    ensures ParseConfig(Declaration(ParseConfig(decl).value)) == ParseConfig(decl)
  {
  }
}
