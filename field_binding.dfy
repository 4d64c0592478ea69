/** How one instantiation converts the declared fields of the working copy
    of its input, field after field in declaration order. */
module FieldBinding {
  import opened Values
  import opened Config
  import opened FieldCompiler

  /** A schema's field declarations, in declaration order. */
  type Fields = seq<(string, Value)>

  function Names(fields: Fields): set<string> {
    set i | 0 <= i < |fields| :: fields[i].0
  }

  /** The field names of a JavaScript object literal are distinct. */
  ghost predicate NamesDistinct(fields: Fields) {
    forall i, j :: 0 <= i < j < |fields| ==> fields[i].0 != fields[j].0
  }

  /** `Array.prototype.map` with a converter: the first element whose
      conversion throws aborts the whole map. */
  function MapElems(f: FnRef, items: seq<Value>, cfg: Config, host: Host): (r: Result<seq<Value>>)
    ensures r.Ok? <==> forall i :: 0 <= i < |items| ==> Call(f, items[i], cfg, host).Ok?
    ensures r.Ok? ==> |r.value| == |items|
    ensures r.Ok? ==> forall i :: 0 <= i < |items| ==> r.value[i] == Call(f, items[i], cfg, host).value
    ensures r.Err? ==> exists i :: 0 <= i < |items| && Call(f, items[i], cfg, host) == Err(r.error)
                                   && forall j :: 0 <= j < i ==> Call(f, items[j], cfg, host).Ok?
  {
    if |items| == 0 then Ok([])
    else
      match Call(f, items[0], cfg, host)
      case Err(e) => Err(e)
      case Ok(y) =>
        match MapElems(f, items[1..], cfg, host)
        case Err(e) =>
          assert forall i :: 1 <= i < |items| ==> items[i] == items[1..][i - 1];
          Err(e)
        case Ok(ys) =>
          assert forall i :: 1 <= i < |items| ==> items[i] == items[1..][i - 1];
          Ok([y] + ys)
  }

  /** The value a field declared by `decl` gets from its raw value `raw`:
      an array field maps its converter over the raw array and hands the
      result to `arrayConstructor`; a scalar field converts the raw value,
      or the default when the raw value is `undefined`. */
  function FieldValue(decl: Value, raw: Value, cfg: Config, host: Host): (r: Result<Value>)
    ensures ParseConfig(decl).None? ==> r == Err(NoDescriptor)
    ensures r.Ok? && ParseConfig(decl).value.isArray ==> raw.Arr?
    ensures r.Ok? ==> ParseConfig(decl).value.ctor.Fn?
    ensures r.Ok? && ParseConfig(decl).value.ctor == Fn(StringConverter) && !ParseConfig(decl).value.isArray ==> r.value.Str?
    ensures r.Ok? && ParseConfig(decl).value.ctor == Fn(NumberConverter) && !ParseConfig(decl).value.isArray ==> r.value.Num?
  {
    match ParseConfig(decl)
    case None => Err(NoDescriptor)
    case Some(d) =>
      if d.isArray then
        if !raw.Arr? then Err(NotAnArray(raw))
        else if !d.ctor.Fn? then Err(NotAFunction(d.ctor))
        else
          match MapElems(d.ctor.f, raw.items, cfg, host)
          case Err(e) => Err(e)
          case Ok(ys) => CallValue(Lookup(cfg, ArrayConstructor), Arr(ys), cfg, host)
      else
        CallValue(d.ctor, if raw == Undef then d.default else raw, cfg, host)
  }

  /** The field loop as a fold over the working store: each field's slot is
      overwritten with its converted value; the first exception aborts. */
  function Run(fields: Fields, store: map<string, Value>, cfg: Config, host: Host): (r: Result<map<string, Value>>)
    ensures r.Ok? ==> r.value.Keys == store.Keys + Names(fields)
    ensures r.Ok? ==> forall k :: k !in Names(fields) ==> Lookup(r.value, k) == Lookup(store, k)
  {
    if |fields| == 0 then Ok(store)
    else
      NamesCons(fields);
      var (name, decl) := fields[0];
      match FieldValue(decl, Lookup(store, name), cfg, host)
      case Err(e) => Err(e)
      case Ok(v) => Run(fields[1..], store[name := v], cfg, host)
  }

  /** The reference outcome of a successful field loop: the declared fields
      hold the converted values of their raw values, and every other
      property of the input is left as it was. */
  ghost predicate Converted(fields: Fields, store: map<string, Value>, out: map<string, Value>, cfg: Config, host: Host) {
    && out.Keys == store.Keys + Names(fields)
    && (forall k :: k in store && k !in Names(fields) ==> out[k] == store[k])
    && (forall i :: 0 <= i < |fields| ==>
          FieldValue(fields[i].1, Lookup(store, fields[i].0), cfg, host) == Ok(Lookup(out, fields[i].0)))
  }

  lemma NamesCons(fields: Fields)
    requires |fields| > 0
    ensures Names(fields) == {fields[0].0} + Names(fields[1..])
  {
  }

  /** After the first field is written, the later fields (which have other
      names) still read their raw values. */
  lemma LaterFieldsSeeRawValues(fields: Fields, store: map<string, Value>, v: Value)
    requires NamesDistinct(fields) && |fields| > 0
    ensures NamesDistinct(fields[1..])
    ensures fields[0].0 !in Names(fields[1..])
    ensures forall i :: 0 <= i < |fields| - 1 ==>
              Lookup(store[fields[0].0 := v], fields[1..][i].0) == Lookup(store, fields[1..][i].0)
  {
  }

  /** The field loop succeeds exactly when every declared field converts
      from its raw input value, and it then produces the reference outcome. */
  lemma {:induction false} RunMeetsReference(fields: Fields, store: map<string, Value>, cfg: Config, host: Host)
    requires NamesDistinct(fields)
    ensures Run(fields, store, cfg, host).Ok? <==>
            forall i :: 0 <= i < |fields| ==> FieldValue(fields[i].1, Lookup(store, fields[i].0), cfg, host).Ok?
    ensures Run(fields, store, cfg, host).Ok? ==> Converted(fields, store, Run(fields, store, cfg, host).value, cfg, host)
  {
    if |fields| == 0 {
      return;
    }
    var (name, decl) := fields[0];
    var tail := fields[1..];
    var first := FieldValue(decl, Lookup(store, name), cfg, host);
    if first.Err? {
      return;
    }
    var store' := store[name := first.value];
    LaterFieldsSeeRawValues(fields, store, first.value);
    RunMeetsReference(tail, store', cfg, host);
    NamesCons(fields);
    forall i | 0 <= i < |fields|
      ensures FieldValue(fields[i].1, Lookup(store, fields[i].0), cfg, host)
           == if i == 0 then first else FieldValue(tail[i - 1].1, Lookup(store', tail[i - 1].0), cfg, host)
    {
      if i > 0 { assert fields[i] == tail[i - 1]; }
    }
    var r := Run(tail, store', cfg, host);
    if r.Ok? {
      assert Lookup(r.value, name) == first.value;
    }
  }

  /** A failing field loop raises the exception of the first field that
      fails to convert from its raw input value. */
  lemma {:induction false} RunRaisesFirstFailure(fields: Fields, store: map<string, Value>, cfg: Config, host: Host)
    requires NamesDistinct(fields)
    requires Run(fields, store, cfg, host).Err?
    ensures exists i :: 0 <= i < |fields|
              && FieldValue(fields[i].1, Lookup(store, fields[i].0), cfg, host) == Err(Run(fields, store, cfg, host).error)
              && forall j :: 0 <= j < i ==> FieldValue(fields[j].1, Lookup(store, fields[j].0), cfg, host).Ok?
  {
    var (name, decl) := fields[0];
    var tail := fields[1..];
    var first := FieldValue(decl, Lookup(store, name), cfg, host);
    if first.Err? {
      assert FieldValue(fields[0].1, Lookup(store, fields[0].0), cfg, host) == first;
      return;
    }
    var store' := store[name := first.value];
    LaterFieldsSeeRawValues(fields, store, first.value);
    RunRaisesFirstFailure(tail, store', cfg, host);
    var e := Run(tail, store', cfg, host).error;
    var j :| 0 <= j < |tail|
      && FieldValue(tail[j].1, Lookup(store', tail[j].0), cfg, host) == Err(e)
      && forall j' :: 0 <= j' < j ==> FieldValue(tail[j'].1, Lookup(store', tail[j'].0), cfg, host).Ok?;
    assert fields[j + 1] == tail[j];
    forall j' | 0 <= j' < j + 1 ensures FieldValue(fields[j'].1, Lookup(store, fields[j'].0), cfg, host).Ok? {
      if j' > 0 { assert fields[j'] == tail[j' - 1]; }
    }
  }

  /** A declaration of an unknown shape makes every instantiation fail,
      whatever the data and whatever the other fields are. */
  lemma {:induction false} RunFailsOnUnknownShape(fields: Fields, store: map<string, Value>, cfg: Config, host: Host, k: nat)
    requires k < |fields| && ParseConfig(fields[k].1).None?
    ensures Run(fields, store, cfg, host).Err?
  {
    var (name, decl) := fields[0];
    var first := FieldValue(decl, Lookup(store, name), cfg, host);
    if k > 0 && first.Ok? {
      assert fields[1..][k - 1] == fields[k];
      RunFailsOnUnknownShape(fields[1..], store[name := first.value], cfg, host, k - 1);
    }
  }

  /** A scalar field is its converter applied to the raw value, or to the
      default when the raw value is `undefined`: the default is converted
      too, it is never stored as it is. */
  lemma ScalarField(decl: Value, raw: Value, cfg: Config, host: Host)
    requires ParseConfig(decl).Some? && !ParseConfig(decl).value.isArray
    ensures var d := ParseConfig(decl).value;
      && (raw != Undef ==> FieldValue(decl, raw, cfg, host) == CallValue(d.ctor, raw, cfg, host))
      && (raw == Undef ==> FieldValue(decl, raw, cfg, host) == CallValue(d.ctor, d.default, cfg, host))
  {
  }

  /** `['string', true, 'typeFoo']` with the field missing gives 'typeFoo',
      and `['number', true, 1]` gives 1, under any configuration. */
  lemma DefaultsOfBuiltinTypes(cfg: Config, host: Host)
    ensures FieldValue(Arr([Str("string"), Bool(true), Str("typeFoo")]), Undef, cfg, host) == Ok(Str("typeFoo"))
    ensures FieldValue(Arr([Str("number"), Bool(true), Num(1.0)]), Undef, cfg, host) == Ok(Num(1.0))
  {
  }

  /** A default of the wrong type goes through the converter like a raw
      value: with `parseNumbers` off, `['number', true, '5']` throws when the
      field is missing. */
  lemma DefaultIsConverted(cfg: Config, host: Host)
    requires !Flag(cfg, ParseNumbers)
    ensures FieldValue(Arr([Str("number"), Bool(true), Str("5")]), Undef, cfg, host) == Err(NotANumber(Str("5")))
  {
  }

  /** The `required` position is parsed but never consulted. */
  lemma RequiredIsNotEnforced(t: Value, req: Value, req': Value, default: Value, raw: Value, cfg: Config, host: Host)
    ensures FieldValue(Arr([t, req, default]), raw, cfg, host) == FieldValue(Arr([t, req', default]), raw, cfg, host)
  {
  }

  /** An array field keeps the raw array's length and converts element by
      element before `arrayConstructor` sees the array; if any element fails,
      the field fails. */
  lemma ArrayField(decl: Value, items: seq<Value>, cfg: Config, host: Host)
    requires ParseConfig(decl).Some? && ParseConfig(decl).value.isArray
    requires ParseConfig(decl).value.ctor.Fn?
    ensures var f := ParseConfig(decl).value.ctor.f;
      (forall i :: 0 <= i < |items| ==> Call(f, items[i], cfg, host).Ok?) ==>
        exists ys: seq<Value> ::
          && |ys| == |items|
          && (forall i :: 0 <= i < |items| ==> ys[i] == Call(f, items[i], cfg, host).value)
          && FieldValue(decl, Arr(items), cfg, host) == CallValue(Lookup(cfg, ArrayConstructor), Arr(ys), cfg, host)
    ensures var f := ParseConfig(decl).value.ctor.f;
      (exists i :: 0 <= i < |items| && Call(f, items[i], cfg, host).Err?) ==> FieldValue(decl, Arr(items), cfg, host).Err?
  {
    var f := ParseConfig(decl).value.ctor.f;
    var m := MapElems(f, items, cfg, host);
    if m.Ok? {
      assert FieldValue(decl, Arr(items), cfg, host) == CallValue(Lookup(cfg, ArrayConstructor), Arr(m.value), cfg, host);
    }
  }

  /** With the default `arrayConstructor`, a converted array field is an
      array of the input's length whose element i is the converted element i. */
  lemma ArrayFieldWithIdentity(decl: Value, items: seq<Value>, cfg: Config, host: Host)
    requires ParseConfig(decl).Some? && ParseConfig(decl).value.isArray
    requires Lookup(cfg, ArrayConstructor) == Fn(Identity)
    requires FieldValue(decl, Arr(items), cfg, host).Ok?
    ensures var w := FieldValue(decl, Arr(items), cfg, host).value;
      && ParseConfig(decl).value.ctor.Fn?
      && w.Arr? && |w.items| == |items|
      && forall i :: 0 <= i < |items| ==> w.items[i] == Call(ParseConfig(decl).value.ctor.f, items[i], cfg, host).value
  {
  }

  /** Array fields never fall back to a default: a missing or non-array raw
      value makes the field throw. */
  lemma ArrayFieldHasNoDefault(decl: Value, raw: Value, cfg: Config, host: Host)
    requires ParseConfig(decl).Some? && ParseConfig(decl).value.isArray
    requires !raw.Arr?
    ensures FieldValue(decl, raw, cfg, host) == Err(NotAnArray(raw))
  {
  }

  /** Instantiating `{type: ['string', true, 'typeFoo'], count: ['number', true, 1]}`
      with an empty input gives `{type: 'typeFoo', count: 1}`. */
  lemma EmptyInputScenario(cfg: Config, host: Host)
    ensures Run([("type", Arr([Str("string"), Bool(true), Str("typeFoo")])),
                 ("count", Arr([Str("number"), Bool(true), Num(1.0)]))], map[], cfg, host)
            == Ok(map["type" := Str("typeFoo"), "count" := Num(1.0)])
  {
    var fields := [("type", Arr([Str("string"), Bool(true), Str("typeFoo")])),
                   ("count", Arr([Str("number"), Bool(true), Num(1.0)]))];
    DefaultsOfBuiltinTypes(cfg, host);
    var typed := map["type" := Str("typeFoo")];
    assert Run(fields, map[], cfg, host) == Run(fields[1..], typed, cfg, host);
    assert Run(fields[1..], typed, cfg, host) == Run([], typed["count" := Num(1.0)], cfg, host);
  }

  /** Instantiating `{list: ['string']}` hands `arrayConstructor` the
      string elements unchanged and stores what it returns. */
  lemma StringListScenario(cfg: Config, host: Host)
    ensures var items := [Str("haha"), Str("huhu"), Str("hoho")];
      Run([("list", Arr([Str("string")]))], map["list" := Arr(items)], cfg, host)
      == match CallValue(Lookup(cfg, ArrayConstructor), Arr(items), cfg, host)
         case Ok(v) => Ok(map["list" := v])
         case Err(e) => Err(e)
  {
    var items := [Str("haha"), Str("huhu"), Str("hoho")];
    assert forall i :: 0 <= i < |items| ==> Call(StringConverter, items[i], cfg, host) == Ok(items[i]);
    assert MapElems(StringConverter, items, cfg, host).value == items;
    var fv := FieldValue(Arr([Str("string")]), Arr(items), cfg, host);
    assert fv == CallValue(Lookup(cfg, ArrayConstructor), Arr(items), cfg, host);
    var fields := [("list", Arr([Str("string")]))];
    var raw := map["list" := Arr(items)];
    assert Lookup(raw, "list") == Arr(items);
    assert fields[1..] == [];
    if fv.Ok? {
      assert raw["list" := fv.value] == map["list" := fv.value];
      assert Run(fields, raw, cfg, host) == Run(fields[1..], raw["list" := fv.value], cfg, host);
    }
  }
}
