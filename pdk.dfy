/**
 * The guest side of the plugin runtime: the `Hank` handler registry, the
 * process-wide single-assignment slot `HANK` it is moved into by `start`, and
 * the entry points the host calls (`get_metadata`, `install`, `initialize`,
 * `handle_message`, `handle_chat_command`).
 *
 * Handlers are user code: each is an opaque identity, and calling one is
 * recorded in the ghost trace `Guest.invoked` instead of being executed.
 * An `expect` that fails aborts the call; here it yields `Aborted` with the
 * reason, and the state is left as it was.
 */
module Pdk {
  import opened HankTypes
  import Conv = PluginMetadataConversion

  /** A user-supplied handler function, known only by its identity. */
  datatype Handler = Handler(id: nat)

  /** The four lifecycle hooks a plugin can register a handler for. */
  datatype Hook = InstallHook | InitializeHook | MessageHook | ChatCommandHook

  /** The contents of a `Hank`: its metadata and one optional handler per hook. */
  datatype HankValue = HankValue(
    metadata: Metadata,
    install: Option<Handler>,
    initialize: Option<Handler>,
    message: Option<Handler>,
    chatCommand: Option<Handler>
  )
  {
    /** The handler slot of a hook. */
    function Slot(hook: Hook): Option<Handler> {
      match hook
      case InstallHook => install
      case InitializeHook => initialize
      case MessageHook => message
      case ChatCommandHook => chatCommand
    }
  }

  /** `Hank::new`: the given metadata, and every handler slot empty. */
  function NewHank(metadata: Metadata): (v: HankValue)
    ensures v.metadata == metadata
    ensures forall hook :: v.Slot(hook) == None
  {
    HankValue(metadata, None, None, None, None)
  }

  /** One `register_*` call: the hook it fills and the handler it stores. */
  datatype Registration = Registration(hook: Hook, handler: Handler)

  /**
   * The effect of one `register_*` call: the named slot holds the handler,
   * the metadata and the other three slots are unchanged.
   */
  function Register(v: HankValue, r: Registration): (w: HankValue)
    ensures w.metadata == v.metadata
    ensures w.Slot(r.hook) == Some(r.handler)
    ensures forall hook :: hook != r.hook ==> w.Slot(hook) == v.Slot(hook)
  {
    match r.hook
    case InstallHook => v.(install := Some(r.handler))
    case InitializeHook => v.(initialize := Some(r.handler))
    case MessageHook => v.(message := Some(r.handler))
    case ChatCommandHook => v.(chatCommand := Some(r.handler))
  }

  /** A series of `register_*` calls, applied first to last. */
  function RegisterAll(v: HankValue, rs: seq<Registration>): HankValue
    decreases |rs|
  {
    if rs == [] then v else RegisterAll(Register(v, rs[0]), rs[1..])
  }

  /** The handler of the last registration for `hook` in `rs`, if there is one. */
  function LastRegistered(rs: seq<Registration>, hook: Hook): Option<Handler>
    decreases |rs|
  {
    if rs == [] then None
    else if rs[|rs| - 1].hook == hook then Some(rs[|rs| - 1].handler)
    else LastRegistered(rs[..|rs| - 1], hook)
  }

  /** Applying one more registration after a series is the same as applying the longer series. */
  lemma {:induction false} RegisterAllSnoc(v: HankValue, rs: seq<Registration>, r: Registration)
    ensures RegisterAll(v, rs + [r]) == Register(RegisterAll(v, rs), r)
    decreases |rs|
  {
    if rs == [] {
      assert [] + [r] == [r];
      assert [r][1..] == [];
    } else {
      assert (rs + [r])[0] == rs[0];
      assert (rs + [r])[1..] == rs[1..] + [r];
      RegisterAllSnoc(Register(v, rs[0]), rs[1..], r);
    }
  }

  /**
   * Last write wins: after any series of registrations each slot holds the
   * handler of the last registration for its hook (or what it held before if
   * there is none), and the metadata is untouched.
   */
  lemma {:induction false} LastWriteWins(v: HankValue, rs: seq<Registration>, hook: Hook)
    ensures RegisterAll(v, rs).metadata == v.metadata
    ensures RegisterAll(v, rs).Slot(hook) == if LastRegistered(rs, hook).Some? then LastRegistered(rs, hook) else v.Slot(hook)
    decreases |rs|
  {
    if rs != [] {
      var init, last := rs[..|rs| - 1], rs[|rs| - 1];
      assert rs == init + [last];
      RegisterAllSnoc(v, init, last);
      LastWriteWins(v, init, hook);
    }
  }

  /** Why a call aborted: one reason per `expect` of the source. */
  datatype Panic =
    | NotInitialized      // an entry point found `HANK` unset
    | AlreadyInitialized  // `start` found `HANK` already set
    | MissingContext      // a chat command arrived without its context
    | MissingMessage      // a chat command arrived without its message

  /** The result of a call: its return value, or the panic that aborted it. */
  datatype Outcome<+T> = Returned(value: T) | Aborted(panic: Panic)

  /** The arguments a handler is invoked with. */
  datatype Args =
    | NoArgs
    | MessageArgs(message: Message)
    | ChatCommandArgs(context: CommandContext, message: Message)

  /** One invocation of a registered handler. */
  datatype Invocation = Invocation(hook: Hook, handler: Handler, args: Args)

  /** A host call of one of the four handler entry points, with its decoded input. */
  datatype EntryCall =
    | InstallCall
    | InitializeCall
    | MessageCall(delivered: Message)
    | ChatCommandCall(context: Option<CommandContext>, message: Option<Message>)
  {
    /** The hook whose handler the call dispatches to. */
    function Target(): Hook {
      match this
      case InstallCall => InstallHook
      case InitializeCall => InitializeHook
      case MessageCall(_) => MessageHook
      case ChatCommandCall(_, _) => ChatCommandHook
    }

    /** The arguments the call hands to its handler, when every field the handler needs is present. */
    function Delivered(): Option<Args> {
      match this
      case InstallCall => Some(NoArgs)
      case InitializeCall => Some(NoArgs)
      case MessageCall(m) => Some(MessageArgs(m))
      case ChatCommandCall(c, m) =>
        if c.Some? && m.Some? then Some(ChatCommandArgs(c.value, m.value)) else None
    }
  }

  /** What one entry-point call does: its outcome and the handler invocations it makes. */
  datatype Dispatched = Dispatched(outcome: Outcome<()>, invoked: seq<Invocation>)

  /**
   * The common shape of `install`, `initialize`, `handle_message` and
   * `handle_chat_command`, given the contents of `HANK`: fail if it is unset,
   * look up the slot of the call's hook, invoke that handler or do nothing,
   * and return. A chat command unwraps its context and then its message only
   * when a handler is registered.
   */
  function Dispatch(installed: Option<HankValue>, call: EntryCall): (d: Dispatched)
    ensures installed.None? ==> d == Dispatched(Aborted(NotInitialized), [])
    ensures |d.invoked| <= 1
    ensures forall inv :: inv in d.invoked ==>
      installed.Some? && inv.hook == call.Target() && installed.value.Slot(inv.hook) == Some(inv.handler)
    ensures d.outcome.Aborted? ==> d.invoked == []
  {
    match installed
    case None => Dispatched(Aborted(NotInitialized), [])
    case Some(hank) =>
      match hank.Slot(call.Target())
      case None => Dispatched(Returned(()), [])
      case Some(handler) =>
        match call
        case InstallCall => Dispatched(Returned(()), [Invocation(InstallHook, handler, NoArgs)])
        case InitializeCall => Dispatched(Returned(()), [Invocation(InitializeHook, handler, NoArgs)])
        case MessageCall(m) => Dispatched(Returned(()), [Invocation(MessageHook, handler, MessageArgs(m))])
        case ChatCommandCall(context, message) =>
          if context.None? then Dispatched(Aborted(MissingContext), [])
          else if message.None? then Dispatched(Aborted(MissingMessage), [])
          else Dispatched(Returned(()), [Invocation(ChatCommandHook, handler, ChatCommandArgs(context.value, message.value))])
  }

  /**
   * Once a `Hank` is installed, a call invokes exactly the handler registered
   * for its hook, once, with the delivered arguments, and returns; with an
   * empty slot it does nothing and returns. It aborts only when the handler
   * needs a field the host left out.
   */
  lemma DispatchInvokesRegisteredHandler(hank: HankValue, call: EntryCall)
    ensures var d := Dispatch(Some(hank), call);
      && (hank.Slot(call.Target()).None? ==> d == Dispatched(Returned(()), []))
      && (hank.Slot(call.Target()).Some? && call.Delivered().Some? ==>
            d == Dispatched(Returned(()), [Invocation(call.Target(), hank.Slot(call.Target()).value, call.Delivered().value)]))
      && (d.outcome.Aborted? <==> hank.Slot(call.Target()).Some? && call.Delivered().None?)
  {
  }

  /**
   * `handle_chat_command` needs its context and message only when a
   * chat-command handler is registered: without one, missing fields are
   * not an error.
   */
  lemma ChatCommandFieldsNeededOnlyByHandler(hank: HankValue, context: Option<CommandContext>, message: Option<Message>)
    ensures Dispatch(Some(hank), ChatCommandCall(context, message)).outcome.Aborted?
      <==> hank.chatCommand.Some? && (context.None? || message.None?)
    ensures hank.chatCommand.Some? && context.None? ==>
      Dispatch(Some(hank), ChatCommandCall(context, message)).outcome == Aborted(MissingContext)
  {
  }

  /**
   * For any series of registrations on a fresh `Hank`, followed by `start`,
   * each entry-point call invokes the handler last registered for its hook,
   * and nothing if none was.
   */
  lemma {:induction false} DispatchAfterRegistrations(metadata: Metadata, rs: seq<Registration>, call: EntryCall)
    ensures var d := Dispatch(Some(RegisterAll(NewHank(metadata), rs)), call);
      && (d.invoked != [] <==> LastRegistered(rs, call.Target()).Some? && call.Delivered().Some?)
      && (d.invoked != [] ==>
            d.invoked == [Invocation(call.Target(), LastRegistered(rs, call.Target()).value, call.Delivered().value)])
  {
    var hank := RegisterAll(NewHank(metadata), rs);
    LastWriteWins(NewHank(metadata), rs, call.Target());
    DispatchInvokesRegisteredHandler(hank, call);
  }

  /** One guest module instance: the `HANK` slot and the handlers invoked so far. */
  class Guest {
    /** `static HANK: OnceLock<Hank>`: unset until `start`, then fixed. */
    var hank: Option<HankValue>
    /** Every handler invocation the entry points have made, in order. */
    ghost var invoked: seq<Invocation>

    /** `OnceLock::new()`: the module instance as loaded, before `start`. */
    constructor ()
      ensures hank == None && invoked == []
    {
      hank := None;
      invoked := [];
    }

    /** `get_metadata`: the installed metadata, read without changing anything. */
    method GetMetadata() returns (r: Outcome<Metadata>)
      ensures hank.None? ==> r == Aborted(NotInitialized)
      ensures hank.Some? ==> r == Returned(hank.value.metadata)
    {
      if hank.None? {
        return Aborted(NotInitialized);
      }
      r := Returned(hank.value.metadata);
    }

    /** `install`: run the install handler, if one is registered. */
    method Install() returns (r: Outcome<()>)
      modifies this
      ensures hank == old(hank)
      ensures r == Dispatch(old(hank), InstallCall).outcome
      ensures invoked == old(invoked) + Dispatch(old(hank), InstallCall).invoked
    {
      if hank.None? {
        return Aborted(NotInitialized);
      }
      var handler := hank.value.Slot(InstallHook);
      if handler.Some? {
        invoked := invoked + [Invocation(InstallHook, handler.value, NoArgs)];
      }
      r := Returned(());
    }

    /** `initialize`: run the initialize handler, if one is registered. */
    method Initialize() returns (r: Outcome<()>)
      modifies this
      ensures hank == old(hank)
      ensures r == Dispatch(old(hank), InitializeCall).outcome
      ensures invoked == old(invoked) + Dispatch(old(hank), InitializeCall).invoked
    {
      if hank.None? {
        return Aborted(NotInitialized);
      }
      var handler := hank.value.Slot(InitializeHook);
      if handler.Some? {
        invoked := invoked + [Invocation(InitializeHook, handler.value, NoArgs)];
      }
      r := Returned(());
    }

    /** `handle_message`: hand the message to the message handler, if one is registered. */
    method HandleMessage(message: Message) returns (r: Outcome<()>)
      modifies this
      ensures hank == old(hank)
      ensures r == Dispatch(old(hank), MessageCall(message)).outcome
      ensures invoked == old(invoked) + Dispatch(old(hank), MessageCall(message)).invoked
    {
      if hank.None? {
        return Aborted(NotInitialized);
      }
      var handler := hank.value.Slot(MessageHook);
      if handler.Some? {
        invoked := invoked + [Invocation(MessageHook, handler.value, MessageArgs(message))];
      }
      r := Returned(());
    }

    /**
     * `handle_chat_command`: hand the context and message to the chat-command
     * handler, if one is registered; only then must both be present.
     */
    method HandleChatCommand(context: Option<CommandContext>, message: Option<Message>) returns (r: Outcome<()>)
      modifies this
      ensures hank == old(hank)
      ensures r == Dispatch(old(hank), ChatCommandCall(context, message)).outcome
      ensures invoked == old(invoked) + Dispatch(old(hank), ChatCommandCall(context, message)).invoked
    {
      if hank.None? {
        return Aborted(NotInitialized);
      }
      var handler := hank.value.Slot(ChatCommandHook);
      if handler.Some? {
        if context.None? {
          return Aborted(MissingContext);
        }
        if message.None? {
          return Aborted(MissingMessage);
        }
        invoked := invoked + [Invocation(ChatCommandHook, handler.value, ChatCommandArgs(context.value, message.value))];
      }
      r := Returned(());
    }
  }

  /** The plugin object an author builds, fills with handlers and then starts. */
  class Hank {
    var metadata: Metadata
    var installHandler: Option<Handler>
    var initializeHandler: Option<Handler>
    var messageHandler: Option<Handler>
    var chatCommandHandler: Option<Handler>

    /** The current contents of this `Hank` as a value. */
    function Value(): HankValue
      reads this
    {
      HankValue(metadata, installHandler, initializeHandler, messageHandler, chatCommandHandler)
    }

    /** `Hank::new` from a ready descriptor. */
    constructor (metadata: Metadata)
      ensures Value() == NewHank(metadata)
    {
      this.metadata := metadata;
      installHandler, initializeHandler, messageHandler, chatCommandHandler := None, None, None, None;
    }

    /** `Hank::new` from the author-facing record, converted through `From<PluginMetadata>`. */
    constructor FromPluginMetadata(p: Conv.PluginMetadata)
      ensures Value() == NewHank(Conv.FromPluginMetadata(p))
    {
      metadata := Conv.FromPluginMetadata(p);
      installHandler, initializeHandler, messageHandler, chatCommandHandler := None, None, None, None;
    }

    /** `metadata()`: a copy of the descriptor. */
    function CloneMetadata(): (m: Metadata)
      reads this
      ensures m == Value().metadata
    {
      metadata
    }

    /** `install_handler()`. */
    function InstallHandler(): (h: Option<Handler>)
      reads this
      ensures h == Value().Slot(InstallHook)
    {
      installHandler
    }

    /** `initialize_handler()`. */
    function InitializeHandler(): (h: Option<Handler>)
      reads this
      ensures h == Value().Slot(InitializeHook)
    {
      initializeHandler
    }

    /** `message_handler()`. */
    function MessageHandler(): (h: Option<Handler>)
      reads this
      ensures h == Value().Slot(MessageHook)
    {
      messageHandler
    }

    /** `chat_command_handler()`. */
    function ChatCommandHandler(): (h: Option<Handler>)
      reads this
      ensures h == Value().Slot(ChatCommandHook)
    {
      chatCommandHandler
    }

    /** `register_install_handler`. */
    method RegisterInstallHandler(handler: Handler)
      modifies this
      ensures Value() == Register(old(Value()), Registration(InstallHook, handler))
      ensures InstallHandler() == Some(handler)
    {
      installHandler := Some(handler);
    }

    /** `register_initialize_handler`. */
    method RegisterInitializeHandler(handler: Handler)
      modifies this
      ensures Value() == Register(old(Value()), Registration(InitializeHook, handler))
      ensures InitializeHandler() == Some(handler)
    {
      initializeHandler := Some(handler);
    }

    /** `register_message_handler`. */
    method RegisterMessageHandler(handler: Handler)
      modifies this
      ensures Value() == Register(old(Value()), Registration(MessageHook, handler))
      ensures MessageHandler() == Some(handler)
    {
      messageHandler := Some(handler);
    }

    /** `register_chat_command_handler`. */
    method RegisterChatCommandHandler(handler: Handler)
      modifies this
      ensures Value() == Register(old(Value()), Registration(ChatCommandHook, handler))
      ensures ChatCommandHandler() == Some(handler)
    {
      chatCommandHandler := Some(handler);
    }

    /**
     * `start`: move this `Hank` into the guest's `HANK` slot. It succeeds only
     * while the slot is unset; a second `start` aborts and leaves the first
     * installed value as it was.
     */
    method Start(guest: Guest) returns (r: Outcome<()>)
      modifies guest
      ensures old(guest.hank).None? ==> guest.hank == Some(Value()) && r == Returned(())
      ensures old(guest.hank).Some? ==> guest.hank == old(guest.hank) && r == Aborted(AlreadyInitialized)
      ensures guest.invoked == old(guest.invoked)
    {
      if guest.hank.Some? {
        return Aborted(AlreadyInitialized);
      }
      guest.hank := Some(Value());
      r := Returned(());
    }
  }

  /**
   * A plugin's life from the host's side: build a `Hank`, register a message
   * handler, start it, start a second `Hank`, deliver a message and query the
   * metadata. The second start aborts; the message and the metadata query
   * are answered from the first `Hank`.
   */
  method PluginLifecycle(metadata: Metadata, other: Metadata, handler: Handler, message: Message)
    returns (started: Outcome<()>, restarted: Outcome<()>, delivered: Outcome<()>, queried: Outcome<Metadata>)
    ensures started == Returned(()) && restarted == Aborted(AlreadyInitialized)
    ensures delivered == Returned(())
    ensures queried == Returned(metadata)
  {
    var guest := new Guest();
    var hank := new Hank(metadata);
    hank.RegisterMessageHandler(handler);
    started := hank.Start(guest);
    var second := new Hank(other);
    restarted := second.Start(guest);
    delivered := guest.HandleMessage(message);
    assert guest.invoked == [Invocation(MessageHook, handler, MessageArgs(message))];
    queried := guest.GetMetadata();
  }
}
