# Hank plugin runtime (guest side), modelled in Dafny

This project models the guest-side runtime bridge of a Hank chat-bot plugin,
`src/lib.rs` of the Rust plugin development kit. It has three parts:

- **The handler registry `Hank`** (`pdk.dfy`, class `Pdk.Hank`). It holds the plugin's
  metadata descriptor and four optional handler slots: install, initialize,
  chat message and chat command. The `register_*` methods fill one slot each,
  and the getters read them back. The pure value `HankValue` is the
  registry's contents. `Register` and `RegisterAll` describe one registration
  and a series of registrations, and the lemmas about them show that the last
  write wins.
- **The process-wide slot `HANK` and the entry points** (class `Pdk.Guest`).
  `Hank.Start` moves the registry into the single-assignment slot. The
  entry points `get_metadata`, `install`, `initialize`, `handle_message` and
  `handle_chat_command` read that slot. Each one aborts when the slot is
  unset, invokes the handler registered for its hook or does nothing, and
  returns. The pure function `Pdk.Dispatch` states what each handler entry
  point does. Each method is proved against it, and the lemmas about it are
  proved separately.
- **The metadata conversion** (`plugin_metadata.dfy`). This covers the `AccessChecks`
  shorthand and `From<PluginMetadata> for Metadata`: normalising the
  shorthand into an optional OR-chain, forcing `database` to `false`, turning
  privileges into their `i32` discriminants and copying everything else.

`hank_types.dfy` holds stand-ins for the protobuf types of the `hank_types`
crate. Messages, contexts, checks, arguments and commands are passed through
untouched, so each one is reduced to an opaque identity.

Modelling decisions:

- A user handler is an opaque `Handler(id)`. Calling it appends an
  `Invocation(hook, handler, args)` to the ghost trace `Guest.invoked`.
- A failing `expect` aborts the call. Here it yields `Aborted(reason)`, with
  one `Panic` reason per `expect`, and the state is left as it was.
- `start` consumes the `Hank`. The model stores a snapshot
  (`Some(Value())`) in `Guest.hank`, so a later change to the builder object
  cannot reach the installed value. This matches the move in the source.
- `HANK` is a `OnceLock`: it is written once by `start` and only read
  afterwards. `cron` and `one_shot` only forward a request to the host
  (src/lib.rs:132-146); no job table is kept on the guest side.

## Model

| member | source | states |
|---|---|---|
| `Pdk.NewHank` | src/lib.rs:40-45 | a new `Hank` holds the given metadata and all four handler slots are empty |
| `Pdk.Register` | src/lib.rs:55-84 | one registration puts the handler in its hook's slot and leaves the metadata and the other three slots unchanged |
| `Pdk.LastWriteWins` | src/lib.rs:51-84 | after any series of registrations, each slot holds the handler of the last registration for its hook, or its earlier value if there was none; the metadata is unchanged |
| `Pdk.Hank.constructor` | src/lib.rs:40-45 | `Hank::new` from a ready descriptor gives `NewHank(metadata)` |
| `Pdk.Hank.FromPluginMetadata` | src/lib.rs:40-45 | `Hank::new` from the author record stores the converted descriptor and no handlers |
| `Pdk.Hank.CloneMetadata` | src/lib.rs:47-49 | `metadata()` returns the stored descriptor and reads nothing else |
| `Pdk.Hank.InstallHandler` | src/lib.rs:51-53 | the getter returns the install slot |
| `Pdk.Hank.InitializeHandler` | src/lib.rs:59-61 | the getter returns the initialize slot |
| `Pdk.Hank.MessageHandler` | src/lib.rs:67-69 | the getter returns the message slot |
| `Pdk.Hank.ChatCommandHandler` | src/lib.rs:75-77 | the getter returns the chat-command slot |
| `Pdk.Hank.RegisterInstallHandler` | src/lib.rs:55-57 | the new contents are `Register(old contents, install)`; afterwards the getter returns `Some(handler)` |
| `Pdk.Hank.RegisterInitializeHandler` | src/lib.rs:63-65 | the same for the initialize slot |
| `Pdk.Hank.RegisterMessageHandler` | src/lib.rs:71-73 | the same for the message slot |
| `Pdk.Hank.RegisterChatCommandHandler` | src/lib.rs:79-84 | the same for the chat-command slot |
| `Pdk.Hank.Start` | src/lib.rs:86-90 | it installs this `Hank` and returns only when `HANK` was unset; otherwise it aborts with `AlreadyInitialized` and leaves the installed value unchanged; no handler runs |
| `Pdk.Guest.constructor` | src/lib.rs:176 | `HANK` starts unset and no handler has run |
| `Pdk.Guest.GetMetadata` | src/lib.rs:203-207 | it aborts with `NotInitialized` before `start`; afterwards it returns the installed metadata and changes nothing |
| `Pdk.Guest.Install` | src/lib.rs:209-217 | the outcome and the appended invocations are those of `Dispatch` for an install call; `HANK` is unchanged |
| `Pdk.Guest.Initialize` | src/lib.rs:219-227 | the same for an initialize call |
| `Pdk.Guest.HandleMessage` | src/lib.rs:194-201 | the same for a message call |
| `Pdk.Guest.HandleChatCommand` | src/lib.rs:178-192 | the same for a chat-command call with optional context and message |
| `Pdk.Dispatch` | src/lib.rs:178-201 | the shared shape of `handle_chat_command` and `handle_message`, and equally of `install` and `initialize` (src/lib.rs:209-227), but not of `get_metadata`: with `HANK` unset, the call aborts with `NotInitialized` and invokes nothing; at most one handler is invoked, and only the one in the slot of the call's hook; an aborted call invokes nothing |
| `Pdk.DispatchInvokesRegisteredHandler` | src/lib.rs:184-226 | after `start`, an empty slot means nothing is invoked and the call returns; a filled slot means its handler is invoked exactly once with the delivered arguments and the call returns; a call aborts exactly when the handler needs a field the host left out |
| `Pdk.ChatCommandFieldsNeededOnlyByHandler` | src/lib.rs:184-189 | `handle_chat_command` aborts if and only if a chat-command handler is registered and the context or the message is missing; the context is checked first |
| `Pdk.DispatchAfterRegistrations` | src/lib.rs:51-90 | for any series of registrations on a fresh `Hank` followed by `start`, every call invokes exactly the handler last registered for its hook, or nothing if none was |
| `Pdk.PluginLifecycle` | src/lib.rs:86-207 | register, start, start again, deliver a message and query metadata: the second start aborts, the message is acknowledged and the first `Hank`'s metadata is returned |
| `PluginMetadataConversion.PrivilegeCodes` | src/lib.rs:304-308 | the discriminant list has the same length and order as the privileges |
| `PluginMetadataConversion.PrivilegeCodesInjective` | src/lib.rs:304-308 | different privilege lists give different discriminant lists |
| `PluginMetadataConversion.AccessChecksNormalization` | src/lib.rs:291-302 | `None` gives no chain; `Array(cs)` gives an OR-chain over `cs` in order; `Single(c)` gives an OR-chain over `[c]`; `Full(f)` gives `f` |
| `PluginMetadataConversion.SingleIsArrayOfOne` | src/lib.rs:293-300 | `Single(c)` and `Array([c])` give the same chain and the same descriptor |
| `PluginMetadataConversion.ConversionFields` | src/lib.rs:283-319 | `database` is false; the two optional strings keep their presence and value; privileges keep their length and order; every other field is copied |
| `PluginMetadataConversion.ConversionIgnoresDatabase` | src/lib.rs:290 | the author's `database` flag has no effect on the descriptor |
| `PluginMetadataConversion.ConversionEquality` | src/lib.rs:283-319 | two records convert to the same descriptor if and only if they differ at most in `database` and in shorthands that normalise alike |
| `PluginMetadataConversion.PrivilegesOf` | src/lib.rs:304-308 | the model's own inverse of the discriminant map, used only by the round-trip lemmas; defined only on codes that name a privilege, and keeps length and order |
| `PluginMetadataConversion.ConversionRoundTrip` | src/lib.rs:283-319 | every descriptor with `database` false whose privilege codes all name a privilege is the conversion of some author record (the full-chain record built from it) |
| `PluginMetadataConversion.ConversionImage` | src/lib.rs:283-319 | a descriptor is a possible conversion result if and only if its `database` flag is false and every privilege code in it names a privilege |

## Left out

- The outbound host functions `send_message`, `react`, `db_query`, `cron`, `one_shot`, `reload_plugin` and `load_plugin`, and the `#[host_fn]` block. They are foreign calls into the host, and their results are discarded or passed through.
- `db_fetch` and the result decoding of `load_plugin`. They parse JSON with `serde_json` and unwrap the host's output, which is library code outside this model.
- The protobuf encoding and decoding of entry-point inputs and outputs, and the `#[plugin_fn]` plumbing. An input that fails to decode makes the entry point return an error before its body runs; that path is not modelled.
- The thread safety of `OnceLock`. The slot is a plain single-assignment field, because the guest runs one call at a time.
- The bodies of user handlers. They are opaque identities, and an invocation is only recorded. What a handler does, and a handler that panics, is not modelled.
- The `i32` storage of `AccessCheckOperator` in a chain. The enum value is kept, because `.into()` is injective. `&str` to `String` is the identity on `string`.
- The text of the panic messages. Each `expect` is reduced to its `Panic` reason.
- `Default` and `Debug` derives. Only the defaults that `Hank::new` relies on (empty handler slots) are modelled.
- PluginMetadataConversion.PrivilegesOf: the stand-in `EscalatedPrivilege` admits every `i32` as a discriminant, so `IsPrivilegeCode` holds of every code here. In the source the enum is closed and only its variants' discriminants qualify. The variants live in the `hank_types` crate, which is not part of this model.
- PluginMetadataConversion.ConversionRoundTrip: its privilege-code precondition is stated as in the source, but for the reason above it excludes no code in this model.
- PluginMetadataConversion.ConversionImage: the image is stated with the privilege-code condition, but for the reason above that condition is always true in this model.
