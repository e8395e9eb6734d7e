/** The Reactotron plugin for MMKV storage: on connect it registers a write
    mutator and a delete mutator with the storage's transaction manager for
    every MMKV data type, and each mutator forwards the event, unless its key
    is ignored, to the Reactotron console as one display message. */
module MmkvPlugin {
  import opened JsText
  import opened Preview

  datatype Option<T> = None | Some(value: T)

  /** The MMKV data types the transaction manager dispatches on. */
  datatype DataType = StringType | NumberType | ObjectType | ArrayType | BooleanType

  /** The data types, in the order the plugin registers them. */
  const DataTypes: seq<DataType> := [StringType, NumberType, ObjectType, ArrayType, BooleanType]

  /** The two transaction kinds the plugin listens to: "onwrite" and "ondelete". */
  datatype TransactionType = OnWrite | OnDelete

  /** Which of the plugin's two mutator closures a registration carries. */
  datatype Mutator = WriteMutator | DeleteMutator

  /** One call of the storage's `transactions.register(type, transaction, mutator)`. */
  datatype Registration = Registration(dataType: DataType, transaction: TransactionType, mutator: Mutator)

  /** The `value` of a display message: `{ key, value }` for a write, `{ key }` for a delete. */
  datatype Payload<V> = WritePayload(key: JsString, value: V) | DeletePayload(key: JsString)

  /** The object handed to `reactotron.display`. */
  datatype Message<V> = Message(name: JsString, value: Payload<V>, preview: JsString)

  /** A notification from the storage: a write carries the stored value and its
      `JSON.stringify` text; a delete carries only the key. */
  datatype Event<V> = WriteEvent(key: JsString, value: V, serialized: JsString) | DeleteEvent(key: JsString)

  /** The name every message is displayed under. */
  const MmkvName: JsString := Ascii("MMKV")

  /** `config.ignore ?? []` */
  function IgnoreOrDefault(ignore: Option<seq<JsString>>): (keys: seq<JsString>)
    ensures ignore.None? ==> keys == []
    ensures ignore.Some? ==> keys == ignore.value
  {
    match ignore
    case None => []
    case Some(keys) => keys
  }

  /** `ignore.indexOf(key) !== -1` */
  function IsIgnored(ignore: seq<JsString>, key: JsString): (ignored: bool)
    ensures ignored <==> key in ignore
  {
    IndexOf(ignore, key) != -1
  }

  /** With no ignore list configured, no key is ignored. */
  lemma DefaultIgnoresNothing(key: JsString)
    ensures !IsIgnored(IgnoreOrDefault(None), key)
  {
  }

  /** A configured ignore list is used exactly as given. */
  lemma ConfiguredIgnoreList(keys: seq<JsString>, key: JsString)
    ensures IsIgnored(IgnoreOrDefault(Some(keys)), key) <==> key in keys
  {
  }

  /** The registrations one `addListener(transaction, mutator)` makes: one per
      data type, in the order of DataTypes. */
  function Fanout(t: TransactionType, m: Mutator): (r: seq<Registration>)
    ensures |r| == |DataTypes| == 5
    ensures forall i :: 0 <= i < |r| ==> r[i] == Registration(DataTypes[i], t, m)
    ensures forall i, j :: 0 <= i < j < |r| ==> r[i] != r[j]
  {
    [ Registration(StringType, t, m), Registration(NumberType, t, m), Registration(ObjectType, t, m),
      Registration(ArrayType, t, m), Registration(BooleanType, t, m) ]
  }

  /** Every data type gets the mutator: no type is left without a listener. */
  lemma FanoutCoversEveryType(t: TransactionType, m: Mutator, d: DataType)
    ensures Registration(d, t, m) in Fanout(t, m)
  {
  }

  /** The registrations `onConnect` makes: the write mutator for every data
      type, then the delete mutator for every data type. */
  function ConnectRegistrations(): (r: seq<Registration>)
    ensures |r| == 10
    ensures forall i :: 0 <= i < 5 ==> r[i] == Registration(DataTypes[i], OnWrite, WriteMutator)
    ensures forall i :: 5 <= i < 10 ==> r[i] == Registration(DataTypes[i - 5], OnDelete, DeleteMutator)
    ensures forall x :: x in r ==> (x.transaction == OnWrite <==> x.mutator == WriteMutator)
    ensures forall i, j :: 0 <= i < j < |r| ==> r[i] != r[j]
  {
    Fanout(OnWrite, WriteMutator) + Fanout(OnDelete, DeleteMutator)
  }

  /** After connecting, every data type has both a write and a delete listener. */
  lemma ConnectCoversEveryType(d: DataType)
    ensures Registration(d, OnWrite, WriteMutator) in ConnectRegistrations()
    ensures Registration(d, OnDelete, DeleteMutator) in ConnectRegistrations()
  {
  }

  /** The messages one mutator call sends to the console: none when the key is
      ignored, otherwise exactly one. */
  function Handle<V>(ignore: seq<JsString>, e: Event<V>): (r: seq<Message<V>>)
    ensures r == [] <==> e.key in ignore
    ensures |r| <= 1
  {
    if IsIgnored(ignore, e.key) then []
    else
      match e
      case WriteEvent(key, value, serialized) =>
        [Message(MmkvName, WritePayload(key, value), WritePreview(key, PreviewValue(serialized)))]
      case DeleteEvent(key) =>
        [Message(MmkvName, DeletePayload(key), DeletePreview(key))]
  }

  /** The one message for a key that is not ignored is named "MMKV", carries
      `{ key, value }` and the write line for a write, and `{ key }` and the
      delete line for a delete. */
  lemma HandledMessage<V>(ignore: seq<JsString>, e: Event<V>)
    requires e.key !in ignore
    ensures Handle(ignore, e)[0].name == MmkvName
    ensures Handle(ignore, e)[0].value.key == e.key
    ensures e.WriteEvent? ==>
              Handle(ignore, e)[0].value == WritePayload(e.key, e.value) &&
              Handle(ignore, e)[0].preview == WritePreview(e.key, PreviewValue(e.serialized))
    ensures e.DeleteEvent? ==>
              Handle(ignore, e)[0].value == DeletePayload(e.key) &&
              Handle(ignore, e)[0].preview == DeletePreview(e.key)
  {
  }

  /** The messages a sequence of notifications sends, one handler call after
      another in the order the storage reports them. */
  function Emitted<V>(ignore: seq<JsString>, events: seq<Event<V>>): seq<Message<V>> {
    if events == [] then []
    else Emitted(ignore, events[..|events| - 1]) + Handle(ignore, events[|events| - 1])
  }

  /** No message is ever displayed for an ignored key, however many writes and
      deletes the storage reports. */
  lemma {:induction false} IgnoredKeysNeverDisplayed<V>(ignore: seq<JsString>, events: seq<Event<V>>)
    ensures forall m :: m in Emitted(ignore, events) ==> m.value.key !in ignore
  {
    if events != [] {
      var last := events[|events| - 1];
      IgnoredKeysNeverDisplayed(ignore, events[..|events| - 1]);
      if last.key !in ignore {
        HandledMessage(ignore, last);
      }
    }
  }

  /** At most one message per notification; with the default (empty) ignore
      list, exactly one. */
  lemma {:induction false} OneMessagePerEvent<V>(ignore: seq<JsString>, events: seq<Event<V>>)
    ensures |Emitted(ignore, events)| <= |events|
    ensures ignore == [] ==> |Emitted(ignore, events)| == |events|
  {
    if events != [] {
      OneMessagePerEvent(ignore, events[..|events| - 1]);
    }
  }

  /** The storage engine's transaction manager, seen only through the
      registrations it has been given. */
  class Storage {
    var registry: seq<Registration>

    constructor ()
      ensures registry == []
    {
      registry := [];
    }

    /** `transactions.register(type, transaction, mutator)` */
    method Register(d: DataType, t: TransactionType, m: Mutator)
      modifies this
      ensures registry == old(registry) + [Registration(d, t, m)]
    {
      registry := registry + [Registration(d, t, m)];
    }
  }

  /** The Reactotron console, seen only through the messages displayed on it. */
  class Sink<V> {
    var displayed: seq<Message<V>>

    constructor ()
      ensures displayed == []
    {
      displayed := [];
    }

    /** `reactotron.display(message)` */
    method Display(m: Message<V>)
      modifies this
      ensures displayed == old(displayed) + [m]
    {
      displayed := displayed + [m];
    }
  }

  /** `mmkvPlugin(config)(reactotron)`: the plugin bound to its storage, its
      ignore list and the console it writes to. */
  class Plugin<V> {
    const ignore: seq<JsString>
    const storage: Storage
    const reactotron: Sink<V>

    constructor (storage: Storage, ignore: Option<seq<JsString>>, reactotron: Sink<V>)
      ensures this.storage == storage && this.reactotron == reactotron
      ensures this.ignore == IgnoreOrDefault(ignore)
    {
      this.ignore := IgnoreOrDefault(ignore);
      this.storage := storage;
      this.reactotron := reactotron;
    }

    /** `addListener(transaction, mutator)`: register the mutator for every data type. */
    method AddListener(t: TransactionType, m: Mutator)
      modifies storage
      ensures storage.registry == old(storage.registry) + Fanout(t, m)
    {
      ghost var all := Fanout(t, m);
      for i := 0 to |DataTypes|
        invariant storage.registry == old(storage.registry) + all[..i]
      {
        storage.Register(DataTypes[i], t, m);
        assert all[..i + 1] == all[..i] + [all[i]];
      }
      assert all[..|DataTypes|] == all;
    }

    /** `log({ value, preview })`: display one message named "MMKV". */
    method Log(value: Payload<V>, preview: JsString)
      modifies reactotron
      ensures reactotron.displayed == old(reactotron.displayed) + [Message(MmkvName, value, preview)]
    {
      reactotron.Display(Message(MmkvName, value, preview));
    }

    /** `onConnect()`: listen to writes, then to deletes, on every data type. */
    method OnConnect()
      modifies storage
      ensures storage.registry == old(storage.registry) + ConnectRegistrations()
    {
      AddListener(OnWrite, WriteMutator);
      AddListener(OnDelete, DeleteMutator);
    }

    /** The write mutator, called with the key, the stored value and the
        value's `JSON.stringify` text. */
    method HandleWrite(key: JsString, value: V, serialized: JsString)
      modifies reactotron
      ensures key in ignore ==> reactotron.displayed == old(reactotron.displayed)
      ensures reactotron.displayed == old(reactotron.displayed) + Handle(ignore, WriteEvent(key, value, serialized))
    {
      var keyIsIgnored := IsIgnored(ignore, key);
      if keyIsIgnored {
        return;
      }
      var previewValue := PreviewValue(serialized);
      Log(WritePayload(key, value), WritePreview(key, previewValue));
    }

    /** The delete mutator, called with the key. */
    method HandleDelete(key: JsString)
      modifies reactotron
      ensures key in ignore ==> reactotron.displayed == old(reactotron.displayed)
      ensures reactotron.displayed == old(reactotron.displayed) + Handle(ignore, DeleteEvent(key))
    {
      var keyIsIgnored := IsIgnored(ignore, key);
      if keyIsIgnored {
        return;
      }
      Log(DeletePayload(key), DeletePreview(key));
    }
  }

  /** A worked example, for any two distinct keys: with `secret` ignored, a write of 42 to `secret` shows nothing, a
      write of 42 to `count` shows `Set "count" to 42`, and a delete of `count`
      shows `Deleting "count"`. */
  method Example(secret: JsString, count: JsString)
    requires secret != count
  {
    var fortyTwo: JsString := [0x34, 0x32];
    var storage := new Storage();
    var console := new Sink<int>();
    var plugin := new Plugin(storage, Some([secret]), console);
    plugin.OnConnect();
    assert |storage.registry| == 10;

    plugin.HandleWrite(secret, 42, fortyTwo);
    assert console.displayed == [];

    plugin.HandleWrite(count, 42, fortyTwo);
    assert console.displayed == [Message(MmkvName, WritePayload(count, 42), SetOpen + count + SetInfix + fortyTwo)];
    plugin.HandleDelete(count);
    assert console.displayed[1..] == [Message(MmkvName, DeletePayload(count), DeleteOpen + count + Quote)];
  }
}
