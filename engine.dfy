/** The engine and the model factories it defines. The engine owns one
    configuration object that every schema override-merges into and that every
    factory, converter and setter reads when it runs; so an option that one
    schema sets stays set for every schema, earlier ones included. */
module Modelz {
  import opened Values
  import opened Config
  import opened FieldCompiler
  import opened FieldBinding

  /** The instance property that exposes the working store. */
  const DataKey := "_data"
  /** The instance property that holds the change channel. */
  const ChannelKey := "onChange"

  /** One change notification, as `dispatch(fieldname, value, oldValue)` sends it. */
  datatype Event = Event(field: string, newValue: Value, oldValue: Value)

  /** The value returned by the module's exported function. */
  class Engine {
    var global: Config

    /** Installs the caller's options over the defaults. */
    constructor (options: Config)
      ensures global == Extend(Defaults(), options)
    {
      global := Extend(Defaults(), options);
    }

    /** `Schema(fields, config)`: merges `config` into the shared
        configuration itself, not into a copy, and returns the factory. */
    method Schema(fields: Fields, options: Config) returns (factory: Factory)
      modifies this
      ensures global == Extend(old(global), options)
      ensures fresh(factory) && factory.engine == this && factory.fields == fields
    {
      global := Extend(global, options);
      factory := new Factory(this, fields);
    }
  }

  /** The function `Schema` returns: it closes over the declarations and the
      engine, whose configuration it reads on every call. */
  class Factory {
    const engine: Engine
    const fields: Fields

    constructor (engine: Engine, fields: Fields)
      ensures this.engine == engine && this.fields == fields
    {
      this.engine := engine;
      this.fields := fields;
    }

    /** Builds one model instance from the input object `data`, which is only
        read: every write goes to the working copy `store`. */
    method Create(data: map<string, Value>, host: Host) returns (r: Result<Instance>)
      ensures r.Ok? <==> Run(fields, data, engine.global, host).Ok?
      ensures r.Err? ==> Run(fields, data, engine.global, host) == Err(r.error)
      ensures r.Ok? ==> fresh(r.value) && r.value.engine == engine && r.value.events == []
      ensures r.Ok? ==> r.value.store == Run(fields, data, engine.global, host).value
      ensures r.Ok? ==> r.value.declared == Names(fields)
      ensures r.Ok? ==> r.value.embedded == Flag(engine.global, EmbedPlainData)
      ensures r.Ok? ==> r.value.hasChannel == Flag(engine.global, ChangeEvent)
      ensures r.Ok? && !Flag(engine.global, ExtraProperties) ==>
                r.value.extras == map[] && r.value.OwnKeys() == Names(fields) + r.value.SpecialKeys()
      ensures r.Ok? && Flag(engine.global, ExtraProperties) ==>
                forall k :: k in r.value.extras <==> k in data && k !in Names(fields) && k !in r.value.SpecialKeys()
      ensures r.Ok? ==> forall k :: k in r.value.extras ==> k in data && r.value.extras[k] == data[k]
    {
      var cfg := engine.global;
      var store := data;
      var extras: map<string, Value> := map[];
      if Flag(cfg, ExtraProperties) {
        extras := data;
      }
      var embedded := Flag(cfg, EmbedPlainData);
      if embedded {
        extras := extras - {DataKey};
      }
      var hasChannel := Flag(cfg, ChangeEvent);
      if hasChannel {
        extras := extras - {ChannelKey};
      }
      var i := 0;
      while i < |fields|
        invariant 0 <= i <= |fields|
        invariant Run(fields, data, cfg, host) == Run(fields[i..], store, cfg, host)
      {
        var (name, decl) := fields[i];
        assert fields[i..][0] == fields[i] && fields[i..][1..] == fields[i + 1..];
        var v := FieldValue(decl, Lookup(store, name), cfg, host);
        if v.Err? {
          return Err(v.error);
        }
        store := store[name := v.value];
        i := i + 1;
      }
      // Each declared field's accessor replaces the property copied from the input.
      extras := extras - Names(fields);
      var instance := new Instance(engine, Names(fields), embedded, hasChannel, extras, store);
      r := Ok(instance);
    }
  }

  /** A model instance: accessors for the declared fields over the working
      store, the properties passed through from the input, and the log of the
      notifications dispatched on its change channel. */
  class Instance {
    const engine: Engine
    const declared: set<string>
    const embedded: bool
    const hasChannel: bool
    const extras: map<string, Value>
    var store: map<string, Value>
    var events: seq<Event>

    constructor (engine: Engine, declared: set<string>, embedded: bool, hasChannel: bool,
                 extras: map<string, Value>, store: map<string, Value>)
      ensures this.engine == engine && this.declared == declared
      ensures this.embedded == embedded && this.hasChannel == hasChannel
      ensures this.extras == extras && this.store == store && events == []
    {
      this.engine := engine;
      this.declared := declared;
      this.embedded := embedded;
      this.hasChannel := hasChannel;
      this.extras := extras;
      this.store := store;
      events := [];
    }

    /** The properties the library itself puts on the instance. */
    function SpecialKeys(): set<string> {
      (if embedded then {DataKey} else {}) + (if hasChannel then {ChannelKey} else {})
    }

    /** The instance's own property names. */
    function OwnKeys(): set<string> {
      declared + extras.Keys + SpecialKeys()
    }

    /** The getter of a declared field. It reads through the instance's
        `_data` property: the working store when `embedPlainData` was on,
        otherwise a `_data` property passed through from the input, and it
        throws when there is none. */
    function Get(name: string): (r: Result<Value>)
      reads this
      requires name in declared
      ensures embedded ==> r == Ok(Lookup(store, name))
      ensures r.Err? <==> !embedded && (Lookup(extras, DataKey) == Undef || Lookup(extras, DataKey) == Null)
      ensures !embedded && Lookup(extras, DataKey).Obj? ==> r == Ok(Lookup(Lookup(extras, DataKey).props, name))
    {
      if embedded then Ok(Lookup(store, name))
      else
        match Lookup(extras, DataKey)
        case Undef => Err(NoDataView)
        case Null => Err(NoDataView)
        case Obj(props) => Ok(Lookup(props, name))
        case _ => Ok(Undef)
    }

    /** The setter of a declared field: records the old value, writes the new
        one into the working store, then, if `changeEvent` is on at that
        moment, dispatches `(name, v, old)` on the change channel, which
        throws when the instance was built without one. */
    method Set(name: string, v: Value) returns (r: Outcome)
      requires name in declared
      modifies this
      ensures store == old(store)[name := v]
      ensures !Flag(engine.global, ChangeEvent) ==> r == Pass && events == old(events)
      ensures Flag(engine.global, ChangeEvent) && hasChannel ==>
                r == Pass && events == old(events) + [Event(name, v, Lookup(old(store), name))]
      ensures Flag(engine.global, ChangeEvent) && !hasChannel ==> r == Fail(NoChannel) && events == old(events)
      ensures embedded ==> Get(name) == Ok(v)
      ensures !embedded ==> Get(name) == old(Get(name))
      ensures forall f :: f in declared && f != name ==> Get(f) == old(Get(f))
    {
      var oldValue := Lookup(store, name);
      store := store[name := v];
      r := Pass;
      if Flag(engine.global, ChangeEvent) {
        if hasChannel {
          events := events + [Event(name, v, oldValue)];
        } else {
          r := Fail(NoChannel);
        }
      }
    }
  }

  /** Two schemas with no fields, the second switching `extraProperties` on:
      an undeclared input property is hidden by the first factory, shown
      unchanged by the second, and from then on shown by the first as well. */
  method ExtraPropertiesScenario(host: Host) returns (hiddenBefore: bool, shown: Value, hiddenAfter: bool)
    ensures hiddenBefore && shown == Str("huhu") && !hiddenAfter
  {
    var engine := new Engine(map[]);
    var data := map["bar" := Str("huhu")];
    var closed := engine.Schema([], map[]);
    assert Names([]) == {};
    var a := closed.Create(data, host);
    hiddenBefore := "bar" !in a.value.OwnKeys();
    var open := engine.Schema([], map[ExtraProperties := Bool(true)]);
    var b := open.Create(data, host);
    shown := Lookup(b.value.extras, "bar");
    var c := closed.Create(data, host);
    hiddenAfter := "bar" !in c.value.OwnKeys();
  }

  /** Assigning a string field logs exactly one notification carrying the
      new and the previous value, and the getter then returns the new value.
      The field is declared `['string', true, null]`: test.js writes
      `['string', true]`, a two-element declaration that yields no descriptor
      under index.js, so the three-element form stands in for it. */
  method ChangeEventScenario(host: Host) returns (events: seq<Event>, now: Result<Value>)
    ensures events == [Event("bar", Str("new bar"), Str("this is a foo"))]
    ensures now == Ok(Str("new bar"))
  {
    var engine := new Engine(map[]);
    var fields := [("bar", Arr([Str("string"), Bool(true), Null]))];
    var factory := engine.Schema(fields, map[]);
    var data := map["bar" := Str("this is a foo")];
    assert Lookup(data, "bar") == Str("this is a foo");
    assert fields[1..] == [];
    assert FieldValue(fields[0].1, Str("this is a foo"), engine.global, host) == Ok(Str("this is a foo"));
    assert data["bar" := Str("this is a foo")] == data;
    assert Run(fields, data, engine.global, host) == Run(fields[1..], data, engine.global, host);
    assert Names(fields) == {"bar"};
    var foo := factory.Create(data, host);
    var instance := foo.value;
    var _ := instance.Set("bar", Str("new bar"));
    events := instance.events;
    now := instance.Get("bar");
  }
}
