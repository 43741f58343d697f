/**
 * How the manager turns a loosely filled query (`ExtendedMatchParams`) into the record every
 * override criterion is evaluated against (`MatchParams`). Each field is resolved on its own by
 * a fallback chain: an explicit value first, then a value read off the member, and then one
 * read off the message, where a message sent in a thread stands for its parent channel.
 *
 * `userId`, `channelId`, `categoryId`, `threadId` and the member fall through with `||` (an
 * empty string falls through too); `isThread`, `level` and `memberRoles` fall through with `??`
 * (`false`, `0` and `[]` are kept).
 *
 * The member's permission level is looked up by `levelOf`, the manager's `getMemberLevel`.
 */
module MatchDerivation {
  import opened Js
  import opened Discord

  /** A query: any subset of the match fields, plus optionally a member and a message. */
  datatype ExtendedMatchParams = ExtendedMatchParams(
    level: Option<int>,
    userId: Option<string>,
    channelId: Option<string>,
    categoryId: Option<string>,
    threadId: Option<string>,
    isThread: Option<bool>,
    memberRoles: Option<seq<string>>,
    member: Option<Member>,
    message: Option<Message>)

  /** The empty query `{}`. */
  const NoParams := ExtendedMatchParams(None, None, None, None, None, None, None, None, None)

  /** The resolved attributes of a query. */
  datatype MatchParams = MatchParams(
    level: Option<int>,
    userId: Option<string>,
    channelId: Option<string>,
    categoryId: Option<string>,
    threadId: Option<string>,
    isThread: Option<bool>,
    memberRoles: seq<string>)

  // The operands of the fallback chains, each as the source reads it off the query.

  /** `matchParams.member && matchParams.member.id` */
  function MemberId(member: Option<Member>): Option<string> {
    if member.None? then None else Some(member.value.id)
  }

  /** `message && message.author && message.author.id` */
  function AuthorId(message: Option<Message>): Option<string> {
    if message.None? then None else Some(message.value.author.id)
  }

  /** `message?.channel?.isThread?.() && message.channel.parentId`: the thread's parent channel */
  function ThreadParentId(message: Option<Message>): Option<string> {
    if InThread(message) then message.value.channel.parentId else None
  }

  /** `message && message.channel && message.channel.id` */
  function MessageChannelId(message: Option<Message>): Option<string> {
    if message.None? then None else Some(message.value.channel.id)
  }

  /** `message?.channel?.isThread?.() && message.channel.parent?.parentId`: the parent's category */
  function ThreadCategoryId(message: Option<Message>): Option<string> {
    if InThread(message) && message.value.channel.parent.Some? then message.value.channel.parent.value.parentId
    else None
  }

  /** `message?.channel && message.channel.parentId` */
  function MessageCategoryId(message: Option<Message>): Option<string> {
    if message.None? then None else message.value.channel.parentId
  }

  /** `message?.channel?.isThread?.() && message.channel.id`: the thread's own id */
  function ThreadOwnId(message: Option<Message>): Option<string> {
    if InThread(message) then Some(message.value.channel.id) else None
  }

  /**
   * `matchParams.member || (message && message.member)`. A member is an object, so it is truthy
   * exactly when present, and `||` here picks the first member that is there.
   */
  function DerivedMember(ext: ExtendedMatchParams): (r: Option<Member>)
    ensures ext.member.Some? ==> r == ext.member
    ensures ext.member.None? && ext.message.Some? ==> r == ext.message.value.member
    ensures ext.member.None? && ext.message.None? ==> r.None?
    ensures r.Some? ==> r in {ext.member, if ext.message.Some? then ext.message.value.member else None}
  {
    if ext.member.Some? then ext.member
    else if ext.message.None? then None
    else ext.message.value.member
  }

  /** `member && this.getMemberLevel(member)` */
  function MemberLevelOperand(member: Option<Member>, levelOf: Member -> Option<int>): Option<int> {
    if member.None? then None else levelOf(member.value)
  }

  /** `[...(member?.roles.cache.keys() ?? [])]` */
  function RoleKeys(member: Option<Member>): seq<string> {
    if member.None? then [] else member.value.roleKeys
  }

  /**
   * The record `getMatchingConfig` builds before it asks for the matching configuration. Every
   * field is the value of its chain of sources, in the source's priority order.
   */
  function Derive(ext: ExtendedMatchParams, levelOf: Member -> Option<int>): (r: MatchParams)
    ensures r.userId == OrChain([ext.userId, MemberId(ext.member), AuthorId(ext.message)])
    ensures r.channelId == OrChain([ext.channelId, ThreadParentId(ext.message), MessageChannelId(ext.message)])
    ensures r.categoryId == OrChain([ext.categoryId, ThreadCategoryId(ext.message), MessageCategoryId(ext.message)])
    ensures r.threadId == OrChain([ext.threadId, ThreadOwnId(ext.message), None])
    ensures r.isThread == CoalesceChain([ext.isThread, MessageIsThread(ext.message), None])
    ensures r.level == CoalesceChain([ext.level, MemberLevelOperand(DerivedMember(ext), levelOf), None])
    ensures r.memberRoles == CoalesceChain([ext.memberRoles, Some(RoleKeys(DerivedMember(ext)))]).value
  {
    var message := ext.message;
    OrChain3(ext.userId, MemberId(ext.member), AuthorId(message));
    OrChain3(ext.channelId, ThreadParentId(message), MessageChannelId(message));
    OrChain3(ext.categoryId, ThreadCategoryId(message), MessageCategoryId(message));
    OrChain3(ext.threadId, ThreadOwnId(message), None);
    CoalesceChain3(ext.isThread, MessageIsThread(message), None);
    CoalesceChain3(ext.level, MemberLevelOperand(DerivedMember(ext), levelOf), None);
    assert [ext.memberRoles, Some(RoleKeys(DerivedMember(ext)))][1..] == [Some(RoleKeys(DerivedMember(ext)))];
    var userId := Or(Or(ext.userId, MemberId(ext.member)), AuthorId(message));
    var channelId := Or(Or(ext.channelId, ThreadParentId(message)), MessageChannelId(message));
    var categoryId := Or(Or(ext.categoryId, ThreadCategoryId(message)), MessageCategoryId(message));
    var threadId := Or(Or(ext.threadId, ThreadOwnId(message)), None);
    var isThread := Coalesce(Coalesce(ext.isThread, MessageIsThread(message)), None);
    var member := DerivedMember(ext);
    var level := Coalesce(Coalesce(ext.level, MemberLevelOperand(member, levelOf)), None);
    var memberRoles := if ext.memberRoles.Some? then ext.memberRoles.value else RoleKeys(member);
    MatchParams(level, userId, channelId, categoryId, threadId, isThread, memberRoles)
  }

  /**
   * `userId`: the first truthy of the explicit id, the member's id and the message author's id;
   * when none is truthy, the last of them as it is (`null` without a message).
   */
  lemma UserIdFallback(ext: ExtendedMatchParams, levelOf: Member -> Option<int>)
    ensures Derive(ext, levelOf).userId == OrChain([ext.userId, MemberId(ext.member), AuthorId(ext.message)])
    ensures Truthy(ext.userId) ==> Derive(ext, levelOf).userId == ext.userId
    ensures !Truthy(ext.userId) && ext.member.Some? && ext.member.value.id != "" ==>
      Derive(ext, levelOf).userId == Some(ext.member.value.id)
    ensures !Truthy(ext.userId) && !Truthy(MemberId(ext.member)) ==>
      Derive(ext, levelOf).userId == (if ext.message.Some? then Some(ext.message.value.author.id) else None)
  {
  }

  /**
   * `channelId`: the first truthy of the explicit id, the parent of the message's thread and the
   * message's channel id.
   */
  lemma ChannelIdFallback(ext: ExtendedMatchParams, levelOf: Member -> Option<int>)
    ensures Derive(ext, levelOf).channelId ==
      OrChain([ext.channelId, ThreadParentId(ext.message), MessageChannelId(ext.message)])
    ensures Truthy(ext.channelId) ==> Derive(ext, levelOf).channelId == ext.channelId
  {
  }

  /**
   * `categoryId`: the first truthy of the explicit id, the category of the thread's parent
   * channel and the `parentId` of the message's channel.
   */
  lemma CategoryIdFallback(ext: ExtendedMatchParams, levelOf: Member -> Option<int>)
    ensures Derive(ext, levelOf).categoryId ==
      OrChain([ext.categoryId, ThreadCategoryId(ext.message), MessageCategoryId(ext.message)])
    ensures Truthy(ext.categoryId) ==> Derive(ext, levelOf).categoryId == ext.categoryId
  {
  }

  /** `threadId`: the explicit id if truthy, else the thread's own id, else `null`. */
  lemma ThreadIdFallback(ext: ExtendedMatchParams, levelOf: Member -> Option<int>)
    ensures Derive(ext, levelOf).threadId == OrChain([ext.threadId, ThreadOwnId(ext.message), None])
    ensures Truthy(ext.threadId) ==> Derive(ext, levelOf).threadId == ext.threadId
    ensures !Truthy(ext.threadId) && !InThread(ext.message) ==> Derive(ext, levelOf).threadId.None?
  {
  }

  /** `isThread`: the explicit flag unless nullish (so `false` is kept), else `isThread()`, else `null`. */
  lemma IsThreadFallback(ext: ExtendedMatchParams, levelOf: Member -> Option<int>)
    ensures Derive(ext, levelOf).isThread == CoalesceChain([ext.isThread, MessageIsThread(ext.message), None])
    ensures ext.isThread.Some? ==> Derive(ext, levelOf).isThread == ext.isThread
    ensures ext.isThread.None? ==> Derive(ext, levelOf).isThread == MessageIsThread(ext.message)
  {
  }

  /**
   * `level`: the explicit level unless nullish (so `0` is kept), else the level of the member
   * (the explicit one, else the message's), else `null`.
   */
  lemma LevelFallback(ext: ExtendedMatchParams, levelOf: Member -> Option<int>)
    ensures Derive(ext, levelOf).level ==
      CoalesceChain([ext.level, MemberLevelOperand(DerivedMember(ext), levelOf), None])
    ensures ext.level.Some? ==> Derive(ext, levelOf).level == ext.level
    ensures ext.level.None? && ext.member.Some? ==> Derive(ext, levelOf).level == levelOf(ext.member.value)
    ensures ext.level.None? && ext.member.None? && ext.message.Some? && ext.message.value.member.Some? ==>
      Derive(ext, levelOf).level == levelOf(ext.message.value.member.value)
    ensures ext.level.None? && DerivedMember(ext).None? ==> Derive(ext, levelOf).level.None?
  {
  }

  /**
   * `memberRoles`: the explicit list unless nullish (so `[]` is kept), else the role keys of the
   * member (the explicit one, else the message's) in cache order, else `[]`.
   */
  lemma MemberRolesFallback(ext: ExtendedMatchParams, levelOf: Member -> Option<int>)
    ensures ext.memberRoles.Some? ==> Derive(ext, levelOf).memberRoles == ext.memberRoles.value
    ensures ext.memberRoles.None? && ext.member.Some? ==>
      Derive(ext, levelOf).memberRoles == ext.member.value.roleKeys
    ensures ext.memberRoles.None? && ext.member.None? && ext.message.Some? && ext.message.value.member.Some? ==>
      Derive(ext, levelOf).memberRoles == ext.message.value.member.value.roleKeys
    ensures ext.memberRoles.None? && DerivedMember(ext).None? ==> Derive(ext, levelOf).memberRoles == []
  {
  }

  /**
   * A message sent in a thread whose `parentId` is set, with no explicit channel, category or
   * thread id and no explicit flag: the thread stands for its parent channel.
   */
  lemma ThreadChannelFields(ext: ExtendedMatchParams, levelOf: Member -> Option<int>)
    requires !Truthy(ext.channelId) && !Truthy(ext.categoryId) && !Truthy(ext.threadId) && ext.isThread.None?
    requires ext.message.Some? && InThread(ext.message) && Truthy(ext.message.value.channel.parentId)
    ensures
      var channel, r := ext.message.value.channel, Derive(ext, levelOf);
      && r.channelId == channel.parentId
      && r.threadId == (if channel.id == "" then None else Some(channel.id))
      && r.isThread == Some(true)
      && r.categoryId ==
           if channel.parent.Some? && Truthy(channel.parent.value.parentId) then channel.parent.value.parentId
           else channel.parentId
  {
  }

  /**
   * A message outside a thread (or in a channel without `isThread`), with no explicit channel,
   * category or thread id and no explicit flag: its own channel is used and there is no thread.
   */
  lemma NonThreadChannelFields(ext: ExtendedMatchParams, levelOf: Member -> Option<int>)
    requires !Truthy(ext.channelId) && !Truthy(ext.categoryId) && !Truthy(ext.threadId) && ext.isThread.None?
    requires ext.message.Some? && !InThread(ext.message)
    ensures
      var channel, r := ext.message.value.channel, Derive(ext, levelOf);
      && r.channelId == Some(channel.id)
      && r.categoryId == channel.parentId
      && r.threadId.None?
      && r.isThread == channel.isThreadResult
  {
  }

  /** An empty-string id, unlike `false`, `0` and `[]`, does not count as given. */
  lemma FalsyVersusNullish(ext: ExtendedMatchParams, levelOf: Member -> Option<int>, m: Member)
    requires ext.userId == Some("") && ext.member == Some(m) && m.id != ""
    requires ext.isThread == Some(false) && ext.level == Some(0) && ext.memberRoles == Some([])
    ensures
      var r := Derive(ext, levelOf);
      r.userId == Some(m.id) && r.isThread == Some(false) && r.level == Some(0) && r.memberRoles == []
  {
  }

  /**
   * A message alone, sent in thread "T" of channel "P", which sits in category "C": the thread
   * is reported through its parent channel and that channel's category. A worked instance of
   * `ThreadChannelFields`, `LevelFallback` and `MemberRolesFallback`.
   */
  lemma ThreadMessageExample(author: User, levelOf: Member -> Option<int>)
    ensures
      var channel := Channel("T", Some(true), Some("P"), Some(ParentChannel(Some("C"))));
      var r := Derive(NoParams.(message := Some(Message(author, channel, None))), levelOf);
      && r.channelId == Some("P") && r.categoryId == Some("C")
      && r.threadId == Some("T") && r.isThread == Some(true)
      && r.level.None? && r.memberRoles == []
  {
  }
}
