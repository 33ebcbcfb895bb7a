/**
 * The author-facing metadata wrapper and its conversion into the protobuf
 * `Metadata` descriptor (`impl From<PluginMetadata> for Metadata`).
 *
 * The conversion is a pure field-by-field transform: the access-check
 * shorthand is normalised into an optional chain, the deprecated `database`
 * flag is forced to `false`, privileges become their `i32` discriminants and
 * every other field is copied (`&str` becomes `String`, modelled as identity).
 */
module PluginMetadataConversion {
  import opened HankTypes

  /** The access-check shorthand an author may write. */
  datatype AccessChecks =
    | None
    | Array(checks: seq<AccessCheck>)
    | Single(check: AccessCheck)
    | Full(chain: AccessCheckChain)

  /** The user-friendly metadata record a plugin author fills in. */
  datatype PluginMetadata = PluginMetadata(
    name: string,
    description: string,
    version: string,
    database: bool,
    accessChecks: AccessChecks,
    escalationKey: Option<string>,
    escalatedPrivileges: seq<EscalatedPrivilege>,
    author: string,
    handlesCommands: bool,
    handlesMessages: bool,
    commandName: Option<string>,
    aliases: seq<string>,
    arguments: seq<Argument>,
    subcommands: seq<Command>,
    allowedHosts: seq<string>,
    poolSize: Option<i32>
  )

  /** The OR-chain over the given checks, in their order. */
  function OrChain(checks: seq<AccessCheck>): AccessCheckChain {
    AccessCheckChain(Or, checks)
  }

  /** The `match value.access_checks` of the conversion. */
  function NormalizeAccessChecks(a: AccessChecks): Option<AccessCheckChain> {
    match a
    case None => Option.None
    case Array(checks) => Some(OrChain(checks))
    case Single(check) => Some(OrChain([check]))
    case Full(full) => Some(full)
  }

  /** `escalated_privileges.into_iter().map(i32::from).collect()`. */
  function PrivilegeCodes(ps: seq<EscalatedPrivilege>): (codes: seq<i32>)
    ensures |codes| == |ps|
    ensures forall i :: 0 <= i < |ps| ==> codes[i] == ps[i].discriminant
  {
    if ps == [] then [] else [ps[0].discriminant] + PrivilegeCodes(ps[1..])
  }

  /** `From<PluginMetadata> for Metadata`. */
  function FromPluginMetadata(p: PluginMetadata): Metadata {
    Metadata(
      name := p.name,
      description := p.description,
      version := p.version,
      database := false,
      accessChecks := NormalizeAccessChecks(p.accessChecks),
      escalationKey := p.escalationKey,
      escalatedPrivileges := PrivilegeCodes(p.escalatedPrivileges),
      author := p.author,
      handlesCommands := p.handlesCommands,
      handlesMessages := p.handlesMessages,
      commandName := p.commandName,
      aliases := p.aliases,
      arguments := p.arguments,
      subcommands := p.subcommands,
      allowedHosts := p.allowedHosts,
      poolSize := p.poolSize
    )
  }

  /**
   * Normalisation of the shorthand: `None` gives no chain, `Array` and
   * `Single` give an OR-chain over their checks in order, `Full` is kept.
   */
  lemma AccessChecksNormalization(a: AccessChecks)
    ensures NormalizeAccessChecks(a) == Option.None <==> a.None?
    ensures a.Array? ==> NormalizeAccessChecks(a) == Some(AccessCheckChain(Or, a.checks))
    ensures a.Single? ==> NormalizeAccessChecks(a) == Some(AccessCheckChain(Or, [a.check]))
    ensures a.Full? ==> NormalizeAccessChecks(a) == Some(a.chain)
    ensures !a.Full? && NormalizeAccessChecks(a).Some? ==> NormalizeAccessChecks(a).value.operator == Or
  {
  }

  /** `Single(c)` is the same rule set as `Array([c])`, for the chain and for the whole descriptor. */
  lemma SingleIsArrayOfOne(p: PluginMetadata, c: AccessCheck)
    ensures NormalizeAccessChecks(Single(c)) == NormalizeAccessChecks(Array([c]))
    ensures FromPluginMetadata(p.(accessChecks := Single(c))) == FromPluginMetadata(p.(accessChecks := Array([c])))
  {
  }

  /**
   * What the conversion keeps: `database` is always false, optional strings
   * keep their presence, lists keep their length and order, and everything
   * else is copied.
   */
  lemma ConversionFields(p: PluginMetadata)
    ensures var m := FromPluginMetadata(p);
      && !m.database
      && m.accessChecks == NormalizeAccessChecks(p.accessChecks)
      && (m.escalationKey.Some? <==> p.escalationKey.Some?)
      && (p.escalationKey.Some? ==> m.escalationKey.value == p.escalationKey.value)
      && (m.commandName.Some? <==> p.commandName.Some?)
      && (p.commandName.Some? ==> m.commandName.value == p.commandName.value)
      && |m.escalatedPrivileges| == |p.escalatedPrivileges|
      && (forall i :: 0 <= i < |p.escalatedPrivileges| ==> m.escalatedPrivileges[i] == p.escalatedPrivileges[i].discriminant)
      && m.aliases == p.aliases
      && m.name == p.name && m.description == p.description && m.version == p.version
      && m.author == p.author && m.handlesCommands == p.handlesCommands && m.handlesMessages == p.handlesMessages
      && m.arguments == p.arguments && m.subcommands == p.subcommands
      && m.allowedHosts == p.allowedHosts && m.poolSize == p.poolSize
  {
  }

  /** The author's `database` flag has no effect on the descriptor. */
  lemma ConversionIgnoresDatabase(p: PluginMetadata, database: bool)
    ensures FromPluginMetadata(p.(database := database)) == FromPluginMetadata(p)
  {
  }

  /** Different privileges have different discriminant lists. */
  lemma PrivilegeCodesInjective(ps: seq<EscalatedPrivilege>, qs: seq<EscalatedPrivilege>)
    requires PrivilegeCodes(ps) == PrivilegeCodes(qs)
    ensures ps == qs
  {
  }

  /** Two records that differ at most in `database` and in the shorthand chosen. */
  predicate SameApartFromDatabaseAndChecks(p: PluginMetadata, q: PluginMetadata) {
    p.(database := false, accessChecks := AccessChecks.None) == q.(database := false, accessChecks := AccessChecks.None)
  }

  /**
   * The conversion loses exactly the `database` flag and the choice of
   * shorthand: two records give the same descriptor if and only if they
   * agree on everything else and their access checks normalise alike.
   */
  lemma ConversionEquality(p: PluginMetadata, q: PluginMetadata)
    ensures FromPluginMetadata(p) == FromPluginMetadata(q)
      <==> SameApartFromDatabaseAndChecks(p, q) && NormalizeAccessChecks(p.accessChecks) == NormalizeAccessChecks(q.accessChecks)
  {
  }

  /**
   * Whether `c` is the discriminant of some privilege. Only such codes can
   * come out of `PrivilegeCodes`; the enum is closed, so the inverse map
   * below is partial.
   */
  ghost predicate IsPrivilegeCode(c: i32) {
    exists e: EscalatedPrivilege :: e.discriminant == c
  }

  /** The privileges with the given discriminants, in order (the inverse of `PrivilegeCodes`). */
  ghost function PrivilegesOf(codes: seq<i32>): (ps: seq<EscalatedPrivilege>)
    requires forall c :: c in codes ==> IsPrivilegeCode(c)
    ensures |ps| == |codes|
    ensures forall i :: 0 <= i < |codes| ==> ps[i].discriminant == codes[i]
  {
    if codes == [] then []
    else
      assert IsPrivilegeCode(codes[0]);
      var e: EscalatedPrivilege :| e.discriminant == codes[0];
      [e] + PrivilegesOf(codes[1..])
  }

  /**
   * An author record that describes the given descriptor: its chain is
   * written in full, and its privileges are the ones with the descriptor's
   * discriminants.
   */
  ghost function ToPluginMetadata(m: Metadata): PluginMetadata
    requires forall c :: c in m.escalatedPrivileges ==> IsPrivilegeCode(c)
  {
    PluginMetadata(
      name := m.name,
      description := m.description,
      version := m.version,
      database := false,
      accessChecks := match m.accessChecks case None => AccessChecks.None case Some(chain) => Full(chain),
      escalationKey := m.escalationKey,
      escalatedPrivileges := PrivilegesOf(m.escalatedPrivileges),
      author := m.author,
      handlesCommands := m.handlesCommands,
      handlesMessages := m.handlesMessages,
      commandName := m.commandName,
      aliases := m.aliases,
      arguments := m.arguments,
      subcommands := m.subcommands,
      allowedHosts := m.allowedHosts,
      poolSize := m.poolSize
    )
  }

  /**
   * Every descriptor whose `database` flag is false and whose privilege codes
   * all name a privilege is reproduced by the conversion.
   */
  lemma ConversionRoundTrip(m: Metadata)
    requires !m.database
    requires forall c :: c in m.escalatedPrivileges ==> IsPrivilegeCode(c)
    ensures FromPluginMetadata(ToPluginMetadata(m)) == m
  {
  }

  /**
   * The descriptors the conversion can produce are exactly those with
   * `database` false whose privilege codes all name a privilege.
   */
  lemma ConversionImage(m: Metadata)
    ensures (exists p :: FromPluginMetadata(p) == m)
      <==> !m.database && forall c :: c in m.escalatedPrivileges ==> IsPrivilegeCode(c)
  {
    if exists p :: FromPluginMetadata(p) == m {
      var p :| FromPluginMetadata(p) == m;
      forall c | c in m.escalatedPrivileges
        ensures IsPrivilegeCode(c)
      {
        var i :| 0 <= i < |m.escalatedPrivileges| && m.escalatedPrivileges[i] == c;
        assert p.escalatedPrivileges[i].discriminant == c;
      }
    }
    if !m.database && forall c :: c in m.escalatedPrivileges ==> IsPrivilegeCode(c) {
      ConversionRoundTrip(m);
    }
  }
}
