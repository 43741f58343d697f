/**
 * Plugin options and how the manager composes the default and the user-supplied ones.
 *
 * `C` is the plugin's configuration type and `O` the type of one override rule; neither is
 * looked into here. The deep merge of two configurations (`mergeConfig`) is not part of this
 * model and is taken as a parameter.
 */
module Options {
  import opened Js

  datatype PluginOptions<C, O> = PluginOptions(config: C, overrides: seq<O>)

  /**
   * Options whose parts may be missing. The manager reads both the default and the user options
   * through `??`, so both are taken in this shape; only the user's `replaceDefaultOverrides` is
   * ever consulted.
   */
  datatype PartialPluginOptions<C, O> = PartialPluginOptions(
    config: Option<C>,
    overrides: Option<seq<O>>,
    replaceDefaultOverrides: Option<bool>)

  /** `userOptions.replaceDefaultOverrides` is truthy. */
  predicate ReplacesDefaults<C, O>(userOptions: PartialPluginOptions<C, O>) {
    userOptions.replaceDefaultOverrides == Some(true)
  }

  /**
   * The options a manager starts from: the two configurations merged (a missing one read as
   * `emptyConfig`, the `{}` of the source), and the user's override rules either instead of the
   * default ones or after them.
   */
  function MergeOptions<C, O>(
    defaultOptions: PartialPluginOptions<C, O>,
    userOptions: PartialPluginOptions<C, O>,
    mergeConfig: (C, C) -> C,
    emptyConfig: C): (r: PluginOptions<C, O>)
    ensures r.config == mergeConfig(defaultOptions.config.GetOr(emptyConfig), userOptions.config.GetOr(emptyConfig))
    ensures ReplacesDefaults(userOptions) ==> r.overrides == userOptions.overrides.GetOr([])
    ensures !ReplacesDefaults(userOptions) ==>
      var defaults, users := defaultOptions.overrides.GetOr([]), userOptions.overrides.GetOr([]);
      && |r.overrides| == |defaults| + |users|
      && r.overrides[..|defaults|] == defaults
      && r.overrides[|defaults|..] == users
  {
    PluginOptions(
      mergeConfig(defaultOptions.config.GetOr(emptyConfig), userOptions.config.GetOr(emptyConfig)),
      if ReplacesDefaults(userOptions) then userOptions.overrides.GetOr([])
      else defaultOptions.overrides.GetOr([]) + userOptions.overrides.GetOr([]))
  }

  /**
   * Composing the override lists neither drops, duplicates nor reorders a rule: every default
   * rule keeps its position, every user rule follows at its own position shifted by the number
   * of default rules, and the rules are exactly those of the two lists (or of the user's list
   * alone when it replaces the defaults).
   */
  lemma MergeKeepsEveryOverride<C, O>(
    defaultOptions: PartialPluginOptions<C, O>,
    userOptions: PartialPluginOptions<C, O>,
    mergeConfig: (C, C) -> C,
    emptyConfig: C)
    ensures
      var r := MergeOptions(defaultOptions, userOptions, mergeConfig, emptyConfig).overrides;
      var defaults, users := defaultOptions.overrides.GetOr([]), userOptions.overrides.GetOr([]);
      if ReplacesDefaults(userOptions) then
        multiset(r) == multiset(users)
      else
        && multiset(r) == multiset(defaults) + multiset(users)
        && (forall i :: 0 <= i < |defaults| ==> r[i] == defaults[i])
        && (forall j :: 0 <= j < |users| ==> r[|defaults| + j] == users[j])
  {
  }
}
