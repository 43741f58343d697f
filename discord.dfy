/**
 * The parts of the discord.js objects that the configuration manager reads, and nothing else.
 * Ids (snowflakes) are strings.
 */
module Discord {
  import opened Js

  datatype User = User(id: string)

  /** A guild member; `roleKeys` are the keys of its role cache, in the cache's order. */
  datatype Member = Member(id: string, user: User, roleKeys: seq<string>)

  /** The parent channel of a thread, reduced to its own `parentId` (the category). */
  datatype ParentChannel = ParentChannel(parentId: Option<string>)

  /**
   * A channel. `isThreadResult` is what `channel.isThread()` returns, or `None` when the
   * channel's type has no `isThread` method. `parentId` is the category of a guild channel, or
   * the parent channel of a thread; `parent` is the resolved parent channel, when there is one.
   */
  datatype Channel = Channel(
    id: string,
    isThreadResult: Option<bool>,
    parentId: Option<string>,
    parent: Option<ParentChannel>)

  /** A message: its author, the channel it was sent in and, in a guild, the author's member. */
  datatype Message = Message(author: User, channel: Channel, member: Option<Member>)

  /** `message?.channel?.isThread?.()`: `None` when there is no message or no `isThread`. */
  function MessageIsThread(message: Option<Message>): Option<bool> {
    if message.None? then None else message.value.channel.isThreadResult
  }

  /** `message?.channel?.isThread?.()` is truthy, i.e. returned `true`. */
  predicate InThread(message: Option<Message>) {
    MessageIsThread(message) == Some(true)
  }
}
