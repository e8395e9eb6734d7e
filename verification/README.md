# MMKV Reactotron plugin — a verified model

`mmkvPlugin` is a Reactotron plugin for MMKV storage. When Reactotron connects, the plugin
registers two mutators with the storage's transaction manager, once for each MMKV data type
(string, number, object, array, boolean). The first is a write ("onwrite") mutator and the
second a delete ("ondelete") mutator. Each mutator drops events whose key is in the
configured `ignore` list, which is empty when none is given. Every other event becomes one
`reactotron.display` message, named `"MMKV"`:

- A write shows `Set "<key>" to <value>`. The value is its `JSON.stringify` text, cut to
  its first 50 characters followed by `...` when longer than 50.
- A delete shows `Deleting "<key>"`.

The model is in three modules:

- `JsText` (`js_text.dfy`): JavaScript strings as sequences of UTF-16 code units. With
  this, `length`, `slice(0, 50)` and strict equality mean what they mean in JavaScript. A
  cut at 50 may split a surrogate pair, exactly as the plugin does. This module also holds
  `Array.prototype.indexOf` over an array of strings.
- `Preview` (`preview.dfy`): the pure formatting. This is the shortened value and the two
  preview lines, with their exact lengths and layouts. It also has an independent
  characterisation of the shortening rule, plus idempotence, prefix preservation and the
  fact that write and delete lines never coincide.
- `MmkvPlugin` (`mmkv_plugin.dfy`):
  - The data types, transaction kinds and messages.
  - The registrations one `addListener` and one `onConnect` make.
  - `Handle`, the pure meaning of one mutator call, and `Emitted`, its fold over a
    sequence of notifications.
  - The stateful part as classes:
    - `Storage` records the `register` calls it receives in a `registry` sequence.
    - `Sink` records the messages displayed on the console in a `displayed` sequence.
    - `Plugin` holds the ignore list, the storage and the console. Its methods
      `AddListener` (a loop over the data types), `OnConnect`, `Log`, `HandleWrite` and
      `HandleDelete` are proved against the pure functions.

The value stored under a key is a type parameter `V`, because the plugin passes it through
without looking at it. Its `JSON.stringify` text is an input of the write handler.

## Model

| member | source | states |
|---|---|---|
| `JsText.IndexOf` | app/services/reactotron/mmkv-plugin.ts:57 | the result is -1 exactly when the key is absent; otherwise it is the first position holding the key |
| `MmkvPlugin.IgnoreOrDefault` | app/services/reactotron/mmkv-plugin.ts:33 | `config.ignore ?? []`: with no `ignore` configured the list is empty; a configured list is used as given |
| `MmkvPlugin.IsIgnored` | app/services/reactotron/mmkv-plugin.ts:57-58 | `indexOf(key) !== -1` holds if and only if the key is in the ignore list |
| `MmkvPlugin.DefaultIgnoresNothing` | app/services/reactotron/mmkv-plugin.ts:33 | with no `ignore` configured, the list defaults to empty and no key is ignored |
| `MmkvPlugin.ConfiguredIgnoreList` | app/services/reactotron/mmkv-plugin.ts:33 | a configured `ignore` list ignores exactly its own keys |
| `Preview.PreviewValue` | app/services/reactotron/mmkv-plugin.ts:61-62 | a value of at most 50 code units is shown unchanged; a longer one is shown as its first 50 code units followed by `...`, exactly 53 in all; the result never exceeds 53 |
| `Preview.PreviewValueCharacterized` | app/services/reactotron/mmkv-plugin.ts:61-62 | the shortening rule, stated without the function, has exactly one result, and it is `PreviewValue`'s |
| `Preview.PreviewKeepsPrefix` | app/services/reactotron/mmkv-plugin.ts:61-62 | the first min(length, 50) code units of the preview are those of the value |
| `Preview.PreviewValueIdempotent` | app/services/reactotron/mmkv-plugin.ts:61-62 | shortening an already shortened value changes nothing |
| `Preview.WritePreview` | app/services/reactotron/mmkv-plugin.ts:66 | the write line is `Set "`, then the key, then `" to `, then the shortened value; its length is the key's plus the value's plus 10 |
| `Preview.DeletePreview` | app/services/reactotron/mmkv-plugin.ts:76 | the delete line is `Deleting "`, then the key, then `"`; its length is the key's plus 11 |
| `Preview.WriteLineBounded` | app/services/reactotron/mmkv-plugin.ts:60-66 | a write line is at most the key's length plus 63; for a value of at most 50 code units it shows the value in full |
| `Preview.WriteAndDeletePreviewsDiffer` | app/services/reactotron/mmkv-plugin.ts:64-77 | no write line equals any delete line |
| `MmkvPlugin.Fanout` | app/services/reactotron/mmkv-plugin.ts:36-43 | `addListener` makes five registrations, one per data type in declaration order, all with the given transaction and mutator, none repeated |
| `MmkvPlugin.FanoutCoversEveryType` | app/services/reactotron/mmkv-plugin.ts:36-43 | every data type is registered by `addListener` |
| `MmkvPlugin.ConnectRegistrations` | app/services/reactotron/mmkv-plugin.ts:55-79 | `onConnect` makes ten distinct registrations: the write mutator for string, number, object, array, boolean, then the delete mutator for the same five; each mutator is paired with its own transaction |
| `MmkvPlugin.ConnectCoversEveryType` | app/services/reactotron/mmkv-plugin.ts:55-79 | after `onConnect`, every data type has a write and a delete listener |
| `MmkvPlugin.Handle` | app/services/reactotron/mmkv-plugin.ts:56-78 | a mutator call displays nothing if and only if the key is ignored, and never more than one message |
| `MmkvPlugin.HandledMessage` | app/services/reactotron/mmkv-plugin.ts:46-78 | for a key that is not ignored, the message is named `"MMKV"` and carries the key; a write carries `{key, value}` and the write line, and a delete carries `{key}` and the delete line |
| `MmkvPlugin.IgnoredKeysNeverDisplayed` | app/services/reactotron/mmkv-plugin.ts:56-78 | over any sequence of writes and deletes, no displayed message carries an ignored key |
| `MmkvPlugin.OneMessagePerEvent` | app/services/reactotron/mmkv-plugin.ts:56-78 | at most one message per notification, and exactly one per notification with the default empty ignore list |
| `MmkvPlugin.Storage.Register` | app/services/reactotron/mmkv-plugin.ts:41 | a `register` call appends its (type, transaction, mutator) to the registry and changes nothing else |
| `MmkvPlugin.Sink.Display` | app/services/reactotron/mmkv-plugin.ts:47-51 | `reactotron.display` appends its message to the displayed list |
| `MmkvPlugin.Plugin.constructor` | app/services/reactotron/mmkv-plugin.ts:32-33 | the plugin keeps the configured storage and console, and uses `config.ignore ?? []` as its ignore list |
| `MmkvPlugin.Plugin.AddListener` | app/services/reactotron/mmkv-plugin.ts:39-43 | the loop over the data types leaves the registry as before plus exactly `Fanout(transaction, mutator)` |
| `MmkvPlugin.Plugin.Log` | app/services/reactotron/mmkv-plugin.ts:46-51 | `log` displays exactly one message named `"MMKV"` with the given value and preview |
| `MmkvPlugin.Plugin.OnConnect` | app/services/reactotron/mmkv-plugin.ts:55-79 | `onConnect` appends exactly `ConnectRegistrations()` to the registry and touches nothing else |
| `MmkvPlugin.Plugin.HandleWrite` | app/services/reactotron/mmkv-plugin.ts:56-68 | for an ignored key the console is unchanged; otherwise exactly the message of `Handle` for that write is appended |
| `MmkvPlugin.Plugin.HandleDelete` | app/services/reactotron/mmkv-plugin.ts:70-78 | for an ignored key the console is unchanged; otherwise exactly the message of `Handle` for that delete is appended |

## Left out

- `JSON.stringify` (mmkv-plugin.ts:60) is a library call. The write handler receives its text as the parameter `serialized`. The case where it returns `undefined` (and `.length` then throws) or throws on a cycle is not modelled.
- The MMKV transaction manager behind `transactions.register` is not part of this model. Neither is its dispatch of mutators to events. The model records the registrations made, in order, and ignores whatever `register` returns.
- The Reactotron transport behind `reactotron.display` is not part of this model. The console is an append-only list of messages.
- Disconnecting and deregistration are not modelled. This revision of the plugin has no `onDisconnect` and keeps no deregistration handles. The model follows the code.
- `mmkvPlugin(config)` returns a function of the Reactotron client. The model folds the two steps into one `Plugin` constructor that takes the storage, the optional ignore list and the console.
- The ignore list is the array the code uses, searched with `indexOf`, and not a set. Duplicates in it are harmless.
- `serialized` ranges over all strings, not only the JSON texts `JSON.stringify` can produce. Properties that hold only for JSON text are not stated.
- The ignore list and the storage are fixed when the plugin is constructed. In the source `ignore` is the caller's own array (mmkv-plugin.ts:33) and `config.storage` is read on each registration (mmkv-plugin.ts:41), so a caller who later pushes a key into that array changes what is filtered. The model does not capture this aliasing.
- The stored value is opaque (the type parameter `V`). Only its serialized text is inspected.
- The adapter itself has no threads and no re-entrancy. How the storage engine schedules its notifications is not modelled.
