# Knub plugin configuration manager, in Dafny

This project models `PluginConfigManager` from Knub, a Discord bot framework. A manager holds one
plugin's options: a base configuration and an ordered list of override rules. It builds them once
by merging the plugin's default options with the user's options. At start-up it can replace them
with the result of a preprocessor and then check them with a validator. It is bound, exactly
once, to its plugin data. A query describes "what is happening": explicit ids, a member, or a
message. The manager turns the query into a `MatchParams` record and passes it, together with
the options, to the override matcher.

Modules, one per concern:

- `Js` (`js.dfy`): the JavaScript value rules the code relies on. `Option` stands for
  `T | null | undefined`. `Truthy`, `Or` (`||`) and `Coalesce` (`??`) are the operators.
  `OrChain` and `CoalesceChain` are reference definitions of what a whole chain of `||` or `??`
  evaluates to, given by their contracts.
- `Discord` (`discord.dfy`): the few fields of discord.js users, members, channels and messages
  that the manager reads.
- `Options` (`options.dfy`): plugin options and `mergeOptions`.
- `MatchDerivation` (`match_derivation.dfy`): the derivation in `getMatchingConfig`, which runs
  up to the `finalMatchParams` record. Each field has a lemma that states its fallback chain.
- `ConfigManager` (`config_manager.dfy`): the class `PluginConfigManager`. Its fields are
  `options` and `pluginData`, which the methods `Init` and `SetPluginData` update in place. The
  query entry points read the object. The module also has pure specifications of `init` and of
  the write-once binding, with lemmas about repeated binding.

Two kinds of fallback run through the derivation. `userId`, `channelId`, `categoryId`,
`threadId` and the member use `||`, so an empty string (or `null`) falls through to the next
source. `isThread`, `level` and `memberRoles` use `??`, so `false`, `0` and `[]` are kept.
A message sent in a thread stands for the thread's parent channel. Its `channelId` is the
thread's `parentId`. Its `categoryId` is the parent channel's `parentId`. When that is empty, the
`categoryId` falls back to the thread's own `parentId`, which is the parent channel's id, not a
category (`ThreadChannelFields` states this).

## Model

| member | source | states |
|---|---|---|
| `Js.OrChain` | src/config/PluginConfigManager.ts:95-113 | an `\|\|` chain evaluates to its first truthy operand, or to its last operand when none is truthy; the result is always one of the operands |
| `Js.CoalesceChain` | src/config/PluginConfigManager.ts:116-122 | a `??` chain evaluates to its first operand that is not null/undefined, or to its last operand when all of them are |
| `Options.MergeOptions` | src/config/PluginConfigManager.ts:59-69 | config is `mergeConfig` of the two configs, a missing one read as `{}`; with a truthy `replaceDefaultOverrides`, overrides are exactly the user's list (`[]` if absent); otherwise the default list is a prefix, the user list is the rest, and the length is the sum |
| `Options.MergeKeepsEveryOverride` | src/config/PluginConfigManager.ts:65-67 | composing the override lists drops, duplicates and reorders nothing: the multiset of rules is that of the two lists (or of the user list alone when it replaces), default rule i stays at i, and user rule j lands at (default length + j) |
| `MatchDerivation.Derive` | src/config/PluginConfigManager.ts:92-135 | the record `getMatchingConfig` builds: each of userId, channelId, categoryId and threadId is the `\|\|` chain of its sources, isThread and level the `??` chain of theirs, memberRoles the explicit list or the derived member's role keys; the `*Fallback` lemmas below state each field case by case |
| `MatchDerivation.DerivedMember` | src/config/PluginConfigManager.ts:119 | the member is the explicit member, else the message's member, else null |
| `MatchDerivation.UserIdFallback` | src/config/PluginConfigManager.ts:94-98 | userId is the `\|\|` chain of explicit userId, member id and author id: an explicit truthy id wins, an empty one falls through to a non-empty member id, and otherwise it is the author id (null without a message) |
| `MatchDerivation.ChannelIdFallback` | src/config/PluginConfigManager.ts:100-104 | channelId is the `\|\|` chain of explicit channelId, the parentId of the message's channel when `isThread()` is true, and the message's channel id; a truthy explicit id wins |
| `MatchDerivation.CategoryIdFallback` | src/config/PluginConfigManager.ts:106-110 | categoryId is the `\|\|` chain of explicit categoryId, the thread's parent's parentId, and the message channel's parentId; a truthy explicit id wins |
| `MatchDerivation.ThreadIdFallback` | src/config/PluginConfigManager.ts:112-113 | threadId is the explicit id if truthy, else the thread channel's own id, else null; outside a thread and without a truthy explicit id it is null |
| `MatchDerivation.IsThreadFallback` | src/config/PluginConfigManager.ts:115-116 | isThread is the explicit flag whenever it is not nullish (`false` kept), else the result of `isThread()`, else null |
| `MatchDerivation.LevelFallback` | src/config/PluginConfigManager.ts:118-122 | level is the explicit level whenever not nullish (`0` kept); else the level of the explicit member, else of the message's member; null when there is no member |
| `MatchDerivation.MemberRolesFallback` | src/config/PluginConfigManager.ts:118-125 | memberRoles is the explicit list whenever not nullish (`[]` kept); else the role keys of the explicit member, else of the message's member, in cache order; `[]` without a member |
| `MatchDerivation.ThreadChannelFields` | src/config/PluginConfigManager.ts:100-116 | for a thread message with a truthy parentId and no explicit ids: channelId is that parentId, threadId is the thread's own id (null if empty), isThread is true, and categoryId is the parent's parentId when truthy, else the thread's parentId |
| `MatchDerivation.NonThreadChannelFields` | src/config/PluginConfigManager.ts:100-116 | for a message outside a thread, or in a channel without `isThread`, and no explicit ids: channelId is the channel id, categoryId its parentId, threadId null, isThread the `isThread()` result or null |
| `MatchDerivation.FalsyVersusNullish` | src/config/PluginConfigManager.ts:94-125 | an explicit empty-string userId falls through to the member id, while explicit `false`, `0` and `[]` for isThread, level and memberRoles are kept |
| `MatchDerivation.ThreadMessageExample` | src/config/PluginConfigManager.ts:100-125 | a lone message in thread T of channel P in category C yields channelId P, categoryId C, threadId T, isThread true, no level and no roles |
| `ConfigManager.MemberLevel` | src/config/PluginConfigManager.ts:71-77 | null whenever the plugin data is not guild plugin data; otherwise the level that the imported `getMemberLevel` gives for the level table, the member and the plugin data |
| `ConfigManager.WriteOnce` | src/config/PluginConfigManager.ts:79-85 | binding plugin data on an unbound manager stores it and succeeds; on a bound one it fails with "Plugin data already set" and leaves the stored value as it was |
| `ConfigManager.SetIsFinal` | src/config/PluginConfigManager.ts:79-85 | once plugin data is bound, no sequence of further `setPluginData` calls changes it |
| `ConfigManager.FirstWriterWins` | src/config/PluginConfigManager.ts:79-85 | after any non-empty sequence of `setPluginData` calls on an unbound manager, the first argument is what is stored |
| `ConfigManager.InitStep` | src/config/PluginConfigManager.ts:49-57 | without a preprocessor the options are unchanged; with one, they become its output on the old options, or are not reassigned if it throws (init then fails with that error); the validator is then called on the new options, and init ends as it does |
| `ConfigManager.PluginConfigManager.constructor` | src/config/PluginConfigManager.ts:36-47 | options start as `MergeOptions` of the default and user options; levels and hooks are stored; no plugin data is bound |
| `ConfigManager.PluginConfigManager.Init` | src/config/PluginConfigManager.ts:49-57 | the new options and the outcome are those of `InitStep` on the old options; plugin data is not touched |
| `ConfigManager.PluginConfigManager.SetPluginData` | src/config/PluginConfigManager.ts:79-85 | the new stored value and the outcome are those of `WriteOnce`: a second call throws "Plugin data already set" and keeps the first value |
| `ConfigManager.PluginConfigManager.Get` | src/config/PluginConfigManager.ts:87-89 | returns the base config of the current options, with no override applied, and changes nothing |
| `ConfigManager.PluginConfigManager.GetMatchingConfig` | src/config/PluginConfigManager.ts:91-143 | the answer is `getMatchingPluginConfig` on the bound plugin data, the current options and the record `Derive` builds (its fields are stated by the lemmas above) |
| `ConfigManager.PluginConfigManager.GetForMessage` | src/config/PluginConfigManager.ts:145-154 | the record passed on has the member's level (null without member), author id, the message channel's own id (no thread substitution), its parentId, no threadId or isThread, and the member's roles or `[]`; empty ids become null |
| `ConfigManager.PluginConfigManager.GetForChannel` | src/config/PluginConfigManager.ts:156-161 | the record passed on has only channelId = channel id and categoryId = channel parentId (empty ones null), with no level and no roles |
| `ConfigManager.PluginConfigManager.GetForUser` | src/config/PluginConfigManager.ts:163-167 | the record passed on has only userId = user id (null if empty), with no level and no roles |
| `ConfigManager.PluginConfigManager.GetForMember` | src/config/PluginConfigManager.ts:169-176 | the record passed on has the member's level, userId = the member's user id (null if empty) and the member's role keys, with no channel fields |

## Left out

- The bodies of `mergeConfig`, `getMatchingPluginConfig` (override matching and applying), the imported `getMemberLevel` (level-table lookup) and `isGuildPluginData` come from files that are not part of this model. They are parameters, gathered in `ConfigManager.Collaborators`, and nothing is claimed about them: no deep-merge and no "highest level" semantics.
- `customOverrideCriteriaFunctions` is only handed to `getMatchingPluginConfig`, so it is taken as already bound into that collaborator.
- JavaScript `null` and `undefined` are one value (`None`). No code in the manager tells them apart, but when every operand of an `||` chain is nullish, the model does not say which of the two the source would return.
- MemberLevel: unset plugin data, which the source reaches only through the non-null assertion at line 72, is read as "not guild plugin data". Whether `isGuildPluginData` would throw on `undefined` instead is not captured.
- Exceptions from the collaborators and from discord.js are not modelled. Only the two hooks and `setPluginData` can fail: the preprocessor through `Result`, the validator and `setPluginData` through `Outcome`. A thrown value is represented by a string.
- InitStep: a hook (preprocessor or validator) that mutates the options object in place is not modelled, because hooks are functions of the options. A preprocessor that mutates the object it is given and then throws would leave the options changed, whereas the model keeps them.
- `await` and the returned promises are treated as sequential calls. The manager has no concurrency of its own.
- `Message.author` and `Message.channel` are always present, as the discord.js types say. The source's `message.author &&` and `message?.channel` guards are therefore always passed.
- A member's role cache is reduced to its keys in iteration order (`Member.roleKeys`). Users, members and channels are reduced to the fields the manager reads.
- The constructor's default arguments (`levels = {}`, `opts = {}`) are passed explicitly.
- The model follows the code: an empty string, `null` or `false` in an id field falls through (`||`). There is no guard against a second `init` and no check against querying before `init`. An unsupported `isThread` gives `isThread = null`.
- src/events/GuildPluginEventManager.ts, src/types.ts and src/testUtils.ts (event wiring, type declarations, test mocks) are not part of this model.
