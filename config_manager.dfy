/**
 * The plugin configuration manager: it holds a plugin's options (merged once from the default
 * and the user options, then optionally replaced by a preprocessor and checked by a validator),
 * is bound once to its plugin data, and answers configuration queries for a message, channel,
 * user or member.
 *
 * `PD` is the plugin data, `C` the configuration and `O` an override rule. The code this manager
 * calls but that is not part of this model is gathered in `Collaborators`.
 */
module ConfigManager {
  import opened Js
  import opened Discord
  import opened Options
  import opened MatchDerivation

  /** Permission levels by user or role id. */
  type PermissionLevels = map<string, int>

  const PluginDataAlreadySet := "Plugin data already set"

  /**
   * Functions the manager calls whose bodies are not part of this model: the deep merge of two
   * configurations and the empty configuration `{}`, the `isGuildPluginData` test, the imported
   * `getMemberLevel` (given the plugin data, whose guild it reads), and `getMatchingPluginConfig`
   * (already bound to the manager's custom override criteria functions).
   */
  datatype Collaborators<!PD, !C, !O> = Collaborators(
    mergeConfig: (C, C) -> C,
    emptyConfig: C,
    isGuildPluginData: PD -> bool,
    memberLevel: (PermissionLevels, Member, PD) -> Option<int>,
    matchingPluginConfig: (Option<PD>, PluginOptions<C, O>, MatchParams) -> C)

  /** The optional lifecycle hooks; either may throw, which is a `Failure` or a `Fail`. */
  datatype ManagerOpts<!C, !O> = ManagerOpts(
    preprocessor: Option<PluginOptions<C, O> -> Result<PluginOptions<C, O>>>,
    validator: Option<PluginOptions<C, O> -> Outcome>)

  /**
   * The manager's `getMemberLevel`: `null` unless the plugin data is guild plugin data (unset
   * plugin data counts as not guild plugin data), otherwise the level the level table gives.
   */
  function MemberLevel<PD, C, O>(
    collab: Collaborators<PD, C, O>,
    levels: PermissionLevels,
    pluginData: Option<PD>,
    member: Member): (r: Option<int>)
    ensures pluginData.None? || !collab.isGuildPluginData(pluginData.value) ==> r.None?
    ensures pluginData.Some? && collab.isGuildPluginData(pluginData.value) ==>
      r == collab.memberLevel(levels, member, pluginData.value)
  {
    if pluginData.None? || !collab.isGuildPluginData(pluginData.value) then None
    else collab.memberLevel(levels, member, pluginData.value)
  }

  /** What is stored, and how the call ended, after one `setPluginData`. */
  datatype Stored<PD> = Stored(pluginData: Option<PD>, outcome: Outcome)

  /** One `setPluginData(pluginData)` against what is stored: it succeeds only on an unset manager. */
  function WriteOnce<PD>(stored: Option<PD>, pluginData: PD): (w: Stored<PD>)
    ensures stored.Some? ==> w == Stored(stored, Fail(PluginDataAlreadySet))
    ensures stored.None? ==> w == Stored(Some(pluginData), Pass)
  {
    if stored.Some? then Stored(stored, Fail(PluginDataAlreadySet)) else Stored(Some(pluginData), Pass)
  }

  /** What is stored after the calls `setPluginData(writes[0])`, `setPluginData(writes[1])`, ... */
  function StoredAfter<PD>(stored: Option<PD>, writes: seq<PD>): Option<PD>
    decreases |writes|
  {
    if writes == [] then stored else StoredAfter(WriteOnce(stored, writes[0]).pluginData, writes[1..])
  }

  /** Once plugin data is set, no further `setPluginData` changes it. */
  lemma {:induction false} SetIsFinal<PD>(stored: Option<PD>, writes: seq<PD>)
    requires stored.Some?
    ensures StoredAfter(stored, writes) == stored
  {
    if writes != [] {
      SetIsFinal(stored, writes[1..]);
    }
  }

  /** Of any number of `setPluginData` calls on an unset manager, the first one wins. */
  lemma {:induction false} FirstWriterWins<PD>(writes: seq<PD>)
    requires |writes| > 0
    ensures StoredAfter(None, writes) == Some(writes[0])
  {
    SetIsFinal(Some(writes[0]), writes[1..]);
  }

  /** The options, and how `init` ended. */
  datatype Initialized<C, O> = Initialized(options: PluginOptions<C, O>, outcome: Outcome)

  /**
   * `init`: the preprocessor, when there is one, replaces the options with its result (if it
   * throws, the options stay and `init` fails with its error); then the validator, when there
   * is one, is called on the options as they now are and `init` ends as the validator does.
   */
  function InitStep<C, O>(
    options: PluginOptions<C, O>,
    preprocessor: Option<PluginOptions<C, O> -> Result<PluginOptions<C, O>>>,
    validator: Option<PluginOptions<C, O> -> Outcome>): (r: Initialized<C, O>)
    ensures preprocessor.None? ==> r.options == options
    ensures preprocessor.Some? && preprocessor.value(options).Failure? ==>
      r == Initialized(options, Fail(preprocessor.value(options).error))
    ensures preprocessor.Some? && preprocessor.value(options).Success? ==>
      r.options == preprocessor.value(options).value
    ensures preprocessor.None? || preprocessor.value(options).Success? ==>
      r.outcome == if validator.Some? then validator.value(r.options) else Pass
  {
    if preprocessor.None? then
      Initialized(options, if validator.Some? then validator.value(options) else Pass)
    else
      match preprocessor.value(options)
      case Failure(e) => Initialized(options, Fail(e))
      case Success(processed) => Initialized(processed, if validator.Some? then validator.value(processed) else Pass)
  }

  class PluginConfigManager<PD, C, O> {
    const levels: PermissionLevels
    var options: PluginOptions<C, O>
    const preprocessor: Option<PluginOptions<C, O> -> Result<PluginOptions<C, O>>>
    const validator: Option<PluginOptions<C, O> -> Outcome>
    var pluginData: Option<PD>
    const collab: Collaborators<PD, C, O>

    /** The options start as the merge of the default and the user options; no plugin data yet. */
    constructor (
      defaultOptions: PartialPluginOptions<C, O>,
      userOptions: PartialPluginOptions<C, O>,
      levels: PermissionLevels,
      opts: ManagerOpts<C, O>,
      collab: Collaborators<PD, C, O>)
      ensures options == MergeOptions(defaultOptions, userOptions, collab.mergeConfig, collab.emptyConfig)
      ensures pluginData.None?
      ensures this.levels == levels && this.collab == collab
      ensures preprocessor == opts.preprocessor && validator == opts.validator
    {
      this.options := MergeOptions(defaultOptions, userOptions, collab.mergeConfig, collab.emptyConfig);
      this.levels := levels;
      this.preprocessor := opts.preprocessor;
      this.validator := opts.validator;
      this.collab := collab;
      this.pluginData := None;
    }

    /** Runs the preprocessor and then the validator; only the options can change. */
    method Init() returns (outcome: Outcome)
      modifies this`options
      ensures options == InitStep(old(options), preprocessor, validator).options
      ensures outcome == InitStep(old(options), preprocessor, validator).outcome
    {
      if preprocessor.Some? {
        var processed := preprocessor.value(options);
        if processed.Failure? {
          return Fail(processed.error);
        }
        options := processed.value;
      }
      if validator.Some? {
        outcome := validator.value(options);
      } else {
        outcome := Pass;
      }
    }

    /** Binds the plugin data; fails, and keeps what is stored, if it was already bound. */
    method SetPluginData(data: PD) returns (outcome: Outcome)
      modifies this`pluginData
      ensures Stored(pluginData, outcome) == WriteOnce(old(pluginData), data)
      ensures old(pluginData).Some? ==> outcome == Fail(PluginDataAlreadySet) && pluginData == old(pluginData)
      ensures old(pluginData).None? ==> outcome == Pass && pluginData == Some(data)
    {
      if pluginData.Some? {
        return Fail(PluginDataAlreadySet);
      }
      pluginData := Some(data);
      outcome := Pass;
    }

    /** The base configuration, with no override applied. */
    function Get(): (config: C)
      reads this
      ensures config == options.config
    {
      options.config
    }

    /** `getMemberLevel` as a function of the member, for the plugin data bound now. */
    function LevelOf(): Member -> Option<int>
      reads this
    {
      var bound := pluginData;
      member => MemberLevel(collab, levels, bound, member)
    }

    /**
     * The configuration for a query: `getMatchingPluginConfig` on the bound plugin data, the
     * current options and the derived match parameters.
     */
    function GetMatchingConfig(ext: ExtendedMatchParams): (config: C)
      reads this
      ensures config == collab.matchingPluginConfig(pluginData, options, Derive(ext, LevelOf()))
    {
      collab.matchingPluginConfig(pluginData, options, Derive(ext, LevelOf()))
    }

    /**
     * A message's configuration, from its author, its own channel (a thread is not replaced by
     * its parent), that channel's `parentId` and its member's level and roles.
     */
    function GetForMessage(msg: Message): (config: C)
      reads this
      ensures config == collab.matchingPluginConfig(pluginData, options, MatchParams(
        if msg.member.Some? then MemberLevel(collab, levels, pluginData, msg.member.value) else None,
        WhenTruthy(Some(msg.author.id)),
        WhenTruthy(Some(msg.channel.id)),
        WhenTruthy(msg.channel.parentId),
        None,
        None,
        if msg.member.Some? then msg.member.value.roleKeys else []))
    {
      var level := if msg.member.Some? then MemberLevel(collab, levels, pluginData, msg.member.value) else None;
      GetMatchingConfig(NoParams.(
        level := level,
        userId := Some(msg.author.id),
        channelId := Some(msg.channel.id),
        categoryId := msg.channel.parentId,
        memberRoles := Some(if msg.member.Some? then msg.member.value.roleKeys else [])))
    }

    /** A channel's configuration: only its id and its `parentId` are known. */
    function GetForChannel(channel: Channel): (config: C)
      reads this
      ensures config == collab.matchingPluginConfig(pluginData, options, MatchParams(
        None, None, WhenTruthy(Some(channel.id)), WhenTruthy(channel.parentId), None, None, []))
    {
      GetMatchingConfig(NoParams.(channelId := Some(channel.id), categoryId := channel.parentId))
    }

    /** A user's configuration: only the user id is known. */
    function GetForUser(user: User): (config: C)
      reads this
      ensures config == collab.matchingPluginConfig(pluginData, options, MatchParams(
        None, WhenTruthy(Some(user.id)), None, None, None, None, []))
    {
      GetMatchingConfig(NoParams.(userId := Some(user.id)))
    }

    /** A member's configuration: its level, its user's id and its roles. */
    function GetForMember(member: Member): (config: C)
      reads this
      ensures config == collab.matchingPluginConfig(pluginData, options, MatchParams(
        MemberLevel(collab, levels, pluginData, member),
        WhenTruthy(Some(member.user.id)), None, None, None, None, member.roleKeys))
    {
      GetMatchingConfig(NoParams.(
        level := MemberLevel(collab, levels, pluginData, member),
        userId := Some(member.user.id),
        memberRoles := Some(member.roleKeys)))
    }
  }
}
