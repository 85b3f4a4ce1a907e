# tradingview-rs: study-input compiler and handler dispatch, in Dafny

This project models two pieces of the client side of a streaming charting
protocol:

- **The study-input compiler** (`PineIndicator::to_study_inputs`). Given a
  custom indicator (script id, script version and fetched metadata), it
  builds the parameter map that asks the remote service to run the script as
  a study. The three reserved names `text`, `pineId` and `pineVersion` are
  seeded from the template, the id and the version. Each declared input whose
  id is not reserved is then inserted under its id with its default value,
  fake flag and type tag. The two closed display tables, `ScriptType` and
  `BuiltinIndicators`, and the default script type are modelled beside it.
- **The handler registry and dispatch bridge** (`TradingViewHandler`,
  `create_handler`). The registry binds each of sixteen event kinds to a
  handler: by default one that only traces. Builder-style setters rebind one
  slot each. `create_handler` binds every slot to a closure that wraps its
  argument in the matching `TradingViewResponse` variant and sends it on one
  unbounded FIFO channel. Series- and study-loading payloads are decoded
  first, and nothing is sent when decoding fails.

Files:

- `common.dfy`: `Option` and the opaque JSON value.
- `domain.dfy`: opaque payload types (symbol info, series info, data points, study options and data, quote values, errors).
- `message.dfy`: `LoadingMsg`, the decoder type and `TradingViewResponse`.
- `pine_indicator.dfy`: module `PineIndicator`.
- `handler_types.dfy`: module `HandlerTypes`.

The compiler is a method with a loop over the declared inputs. It is proved
equal to `CompileStudyInputs`, a specification function that folds the
inputs in list order. The lemmas state what that map contains.

The registry is a class whose `slots` map is total over the event kinds.
The channel is a class holding `sent` (every response enqueued, in order) and
`closed` (the receiver is gone). Firing a slot is a method that appends at
most one response to `sent`. Its postcondition relates the append to
`Forwarded`, a specification function whose properties are proved as lemmas:
the response kind matches, pass-through arguments are carried unchanged, and
both loading kinds use one decoder.

Every forwarding closure logs a failed send except symbol-info's, which
discards the result with `let _ =` (src/live/handler/types.rs:126). `Forward`
therefore reports `SendFailed(false)` for symbol info and `SendFailed(true)`
otherwise.

## Model

| member | source | states |
|---|---|---|
| `PineIndicator.BuiltinIndicatorsName` | src/models/pine_indicator.rs:21-30 | the display of the four built-in families is total and each name is a non-empty lower-case word |
| `PineIndicator.ScriptTypeName` | src/models/pine_indicator.rs:187-206 | the display of the ten script types is total and each identifier is a non-empty study name followed by `@` and its library |
| `PineIndicator.BuiltinIndicatorsNameInjective` | src/models/pine_indicator.rs:21-30 | the four built-in families display as pairwise distinct names (all, fundamental, standard, candlestick) |
| `PineIndicator.ScriptTypeNameInjective` | src/models/pine_indicator.rs:187-206 | the display of the ten script types is total and pairwise distinct, so the identifier sent determines the type |
| `PineIndicator.DefaultScriptType` | src/models/pine_indicator.rs:172-190 | the default script type displays as `Script@tv-scripting-101!` |
| `PineIndicator.ToStudyInputs` | src/models/pine_indicator.rs:256-286 | the loop's result equals the in-order fold of the declared inputs over the reserved seed; it always holds `text`, `pineId` and `pineVersion` as bare strings of template, id and version; its keys are exactly the reserved names plus the non-reserved ids; the indicator is a value and stays unchanged |
| `PineIndicator.CompiledReserved` | src/models/pine_indicator.rs:257-273 | whatever the declared inputs, the reserved entries are the template, script id and script version; a declared input with a reserved id never overwrites them |
| `PineIndicator.CompiledKeys` | src/models/pine_indicator.rs:257-282 | the key set is {text, pineId, pineVersion} united with the ids of the non-reserved inputs |
| `PineIndicator.CompiledInputEntry` | src/models/pine_indicator.rs:270-281 | the last non-reserved input with a given id appears under that id carrying its default value, fake flag and type tag unchanged, so a later duplicate overwrites an earlier one |
| `PineIndicator.CompiledEntryHasSource` | src/models/pine_indicator.rs:270-281 | conversely, every entry under a non-reserved name is the entry of the last declared input with that name |
| `PineIndicator.CompiledSize` | src/models/pine_indicator.rs:257-282 | with distinct non-reserved ids the map has 3 + (number of non-reserved inputs) entries |
| `PineIndicator.FillKeys` | src/models/pine_indicator.rs:270-282 | applying inputs in order adds exactly the non-reserved ids as keys |
| `PineIndicator.FillUntouched` | src/models/pine_indicator.rs:270-273 | a key no non-reserved input names keeps the entry it had before the loop |
| `PineIndicator.FillLastWins` | src/models/pine_indicator.rs:274-281 | after the loop, the entry for a non-reserved id is that of the last input carrying the id |
| `PineIndicator.DistinctIdsCount` | src/models/pine_indicator.rs:270-282 | when non-reserved ids are distinct, each non-reserved input contributes a new key |
| `HandlerTypes.AllKindsComplete` | src/live/handler/types.rs:45-94 | the registry has one slot for each of the sixteen event kinds and no other |
| `HandlerTypes.CallbackName` | src/live/handler/types.rs:47-93 | each kind's default callback traces under its own `ON_…` name, total over the sixteen kinds |
| `HandlerTypes.TradingViewHandler.constructor` | src/live/handler/types.rs:96-100 | default construction cannot fail and binds every kind to the trace-only default callback |
| `HandlerTypes.TradingViewHandler.SetHandler` | src/live/handler/types.rs:29-43 | a setter rebinds its own slot, leaves the other fifteen unchanged and returns the same registry |
| `HandlerTypes.TradingViewHandler.Fire` | src/live/handler/types.rs:22-26 | firing a default slot traces under its kind's name and touches no channel; firing a forwarding slot behaves as `Forward`; a caller-supplied closure is reported and nothing modelled changes |
| `HandlerTypes.DataChannel.constructor` | src/live/handler/types.rs:14-15 | a new channel is open and empty |
| `HandlerTypes.DataChannel.Send` | src/live/handler/types.rs:14 | a send appends at the end of the channel exactly when the receiver is still there, and never blocks |
| `HandlerTypes.DataChannel.Close` | src/live/handler/types.rs:15 | dropping the receiver closes the channel and keeps what was sent |
| `HandlerTypes.SendOrLog` | src/live/handler/types.rs:146-148 | on an open channel the response is appended; on a closed one nothing is appended and a failure is logged |
| `HandlerTypes.Forward` | src/live/handler/types.rs:123-260 | each create_handler closure: an undecodable loading payload sends nothing and returns early; otherwise exactly the `Forwarded` response is appended on an open channel, and nothing on a closed one, logged for every kind but symbol info |
| `HandlerTypes.Forwarded` | src/live/handler/types.rs:121-262 | the response a forwarding closure builds has its kind's variant, and there is none exactly when a loading payload fails to decode |
| `HandlerTypes.ForwardedRoundTrip` | src/live/handler/types.rs:123-260 | every pass-through kind yields one response that carries its argument unchanged (`Restore` inverts `Forwarded`), including the unknown event's name and payload |
| `HandlerTypes.ForwardedInjective` | src/live/handler/types.rs:173-259 | distinct pass-through arguments give distinct responses |
| `HandlerTypes.LoadingSharesDecoder` | src/live/handler/types.rs:129-171 | series- and study-loading use one decoder: a payload is forwarded by both or by neither, with the same decoded message |
| `HandlerTypes.CreateHandler` | src/live/handler/types.rs:121-122 | create_handler binds all sixteen slots to forwarding over the one channel and one decoder |
| `HandlerTypes.Delivered` | src/live/handler/types.rs:121-262 | one invocation delivers at most one response, and exactly one unless a loading payload fails to decode |
| `HandlerTypes.FireInOrder` | src/live/handler/types.rs:14-15 | two invocations on an open channel deliver their responses in invocation order after everything sent before |

## Left out

- `ScriptType::from(String)`: the source leaves it unimplemented (`todo!()`), so it has no model and no inverse of the display table is assumed.
- `PineIndicatorBuilder::fetch`, `PineIndicatorBuilder::user`, `PineIndicator::build` and the metadata download: network I/O, outside the model.
- `ToStudyInputs`: the final `serde_json::to_value` conversion and its error branch are not modelled; the method returns the map itself.
- `ToStudyInputs`: the fake flag and type tag are kept as a boolean and a string, not as the JSON values they are wrapped in; that wrapping is injective.
- Metadata fields that the compiler does not read (financial period, grouping key, the study flags, defaults, palettes, plots, styles, warnings, `pine`, `uses_private_lib`) are dropped. The input fields other than id, default value, fake flag and type are kept but unused, as in the source.
- String interning (`Ustr`): strings are plain character sequences.
- `LoadingMsg::new` and the definitions of `TradingViewResponse` and `LoadingMsg` live in the message module, which is not part of this model. The decoder is a parameter: a total, deterministic function from a raw payload to an optional message. The response variants are taken from their use in the handler file.
- The sixteen `event_setter!` setters are modelled by one setter parameterised by the kind.
- Handlers are tags, not closures. A caller-supplied closure is `Custom(id)`, and what it does is outside the model.
- HandlerTypes.TradingViewHandler.Fire: a caller-supplied closure is modelled as changing no modelled state (its frame is empty). In the source such a closure may do anything, including sending on the same channel, so the model promises nothing about a custom closure's effects beyond reporting that it ran.
- `tracing` output: `Outcome` records which diagnostic an invocation produces, not the text of the log line.
- `Arc`/`Box` sharing, `Send + Sync`, several producers and the tokio channel internals: the model is sequential.
- The receiving end of the channel is modelled only by the `closed` flag; draining it is not modelled.
- `CommandTx`/`CommandRx` are declared but unused here. The `bon::Builder` derive is represented by the default constructor and `SetHandler`.
- `HandlerTypes.LoadingSharesDecoder`: a registry may, in the model, hold different decoders in different forwarding slots; `CreateHandler` binds the same one to both loading slots, which is what the source does.
