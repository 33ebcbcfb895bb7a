/**
 * Stand-ins for the protobuf value types the plugin runtime exchanges with the
 * host (the `hank_types` crate). Only the shape the runtime relies on is kept:
 * messages, contexts, checks, arguments and commands are passed through
 * untouched, so each is reduced to an opaque identity.
 */
module HankTypes {

  /** A signed 32-bit integer, as prost uses for enum fields and `pool_size`. */
  newtype i32 = x: int | -0x8000_0000 <= x < 0x8000_0000

  datatype Option<+T> = None | Some(value: T)

  /** A chat message delivered by the host; its contents are never inspected here. */
  datatype Message = Message(id: nat)

  /** The context that accompanies a chat command. */
  datatype CommandContext = CommandContext(id: nat)

  /** One access check of a plugin's access-check rule set. */
  datatype AccessCheck = AccessCheck(id: nat)

  /** How the checks of a chain are combined. */
  datatype AccessCheckOperator = And | Or

  /**
   * An access-check chain: an operator over a list of checks. The protobuf
   * message stores the operator as an `i32`; the conversion from the enum is
   * injective, so the enum value itself is kept.
   */
  datatype AccessCheckChain = AccessCheckChain(operator: AccessCheckOperator, checks: seq<AccessCheck>)

  /** A privilege a plugin may request; prost represents it by its `i32` discriminant. */
  datatype EscalatedPrivilege = EscalatedPrivilege(discriminant: i32)

  /** An argument of the plugin command. */
  datatype Argument = Argument(id: nat)

  /** A subcommand of the plugin command. */
  datatype Command = Command(id: nat)

  /** The metadata descriptor the host reads through `get_metadata`. */
  datatype Metadata = Metadata(
    name: string,
    description: string,
    version: string,
    database: bool,
    accessChecks: Option<AccessCheckChain>,
    escalationKey: Option<string>,
    escalatedPrivileges: seq<i32>,
    author: string,
    handlesCommands: bool,
    handlesMessages: bool,
    commandName: Option<string>,
    aliases: seq<string>,
    arguments: seq<Argument>,
    subcommands: seq<Command>,
    allowedHosts: seq<string>,
    poolSize: Option<i32>
  )
}
