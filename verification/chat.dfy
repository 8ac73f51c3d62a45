/**
 * The chat page. It keeps its own per-conversation message lists, the
 * selected conversation and the compose field; sending appends to the
 * selected conversation's list. The conversation list's preview and unread
 * counter are never updated by a send. Day labels and the date separators
 * between messages are pure functions of the message timestamps and "now".
 */
module ChatPage {
  import opened Collections
  import opened Entities

  /** The characters `String.prototype.trim` removes: ECMAScript white space and line terminators. */
  predicate IsTrimmable(c: char)
  {
    || c == '\t' || c == '\n' || c == '\U{000B}' || c == '\U{000C}' || c == '\r' || c == ' '
    || c == '\U{00A0}' || c == '\U{1680}' || ('\U{2000}' <= c <= '\U{200A}')
    || c == '\U{2028}' || c == '\U{2029}' || c == '\U{202F}' || c == '\U{205F}'
    || c == '\U{3000}' || c == '\U{FEFF}'
  }

  /** `s` without its leading trimmable characters. */
  function TrimStart(s: string): (r: string)
    ensures |r| <= |s| && r == s[|s| - |r|..]
    ensures forall i :: 0 <= i < |s| - |r| ==> IsTrimmable(s[i])
    ensures r != [] ==> !IsTrimmable(r[0])
  {
    if s != [] && IsTrimmable(s[0]) then TrimStart(s[1..]) else s
  }

  /** `s` without its trailing trimmable characters. */
  function TrimEnd(s: string): (r: string)
    ensures |r| <= |s| && r == s[..|r|]
    ensures forall i :: |r| <= i < |s| ==> IsTrimmable(s[i])
    ensures r != [] ==> !IsTrimmable(r[|r| - 1])
  {
    if s != [] && IsTrimmable(s[|s| - 1]) then TrimEnd(s[..|s| - 1]) else s
  }

  /**
   * `s.trim()`: `s` with leading and trailing white space removed (see
   * TrimStart and TrimEnd). It is empty exactly when `s` is all white space.
   */
  function Trim(s: string): (r: string)
    ensures r != [] ==> !IsTrimmable(r[0]) && !IsTrimmable(r[|r| - 1])
    ensures r == [] <==> forall i :: 0 <= i < |s| ==> IsTrimmable(s[i])
  {
    var t := TrimStart(s);
    var r := TrimEnd(t);
    assert t != [] ==> t[0] == s[|s| - |t|];
    assert t != [] ==> !IsTrimmable(t[0]);
    assert r != [] ==> r[0] == t[0];
    r
  }

  /** `conversations[0]?.id || null`: the first conversation, unless its id is empty. */
  function InitialSelection(conversations: seq<Conversation>): (selected: Option<Id>)
    ensures selected.Some? <==> |conversations| > 0 && conversations[0].id != ""
    ensures selected.Some? ==> selected.value == conversations[0].id
  {
    if |conversations| > 0 && conversations[0].id != "" then Some(conversations[0].id) else None
  }

  /** `messages[id] || []` */
  function Lookup(messages: map<Id, seq<ChatMessage>>, id: Id): (r: seq<ChatMessage>)
    ensures id in messages ==> r == messages[id]
    ensures id !in messages ==> r == []
  {
    if id in messages then messages[id] else []
  }

  /** `chatMessages`: the selected conversation's list, empty when none is selected or it has no entry. */
  function VisibleMessages(messages: map<Id, seq<ChatMessage>>, selected: Option<Id>): (r: seq<ChatMessage>)
    ensures !IsSet(selected) || selected.value !in messages ==> r == []
    ensures IsSet(selected) && selected.value in messages ==> r == messages[selected.value]
  {
    if IsSet(selected) then Lookup(messages, selected.value) else []
  }

  /** `{ ...messages, [id]: [...(messages[id] || []), m] }` */
  function WithMessage(messages: map<Id, seq<ChatMessage>>, id: Id, m: ChatMessage): (r: map<Id, seq<ChatMessage>>)
    ensures r.Keys == messages.Keys + {id}
    ensures |r[id]| == |Lookup(messages, id)| + 1
    ensures r[id][..|Lookup(messages, id)|] == Lookup(messages, id)
    ensures r[id][|Lookup(messages, id)|] == m
    ensures id !in messages ==> r[id] == [m]
    ensures forall k :: k in messages && k != id ==> r[k] == messages[k]
  {
    messages[id := Lookup(messages, id) + [m]]
  }

  /** After a send the visible list is the old visible list plus the new message. */
  lemma SendShowsMessage(messages: map<Id, seq<ChatMessage>>, id: Id, m: ChatMessage)
    requires id != ""
    ensures VisibleMessages(WithMessage(messages, id, m), Some(id)) == VisibleMessages(messages, Some(id)) + [m]
  {
  }

  const MillisPerDay: int := 1000 * 60 * 60 * 24

  /**
   * `formatDate`: "Today" within a day of now, "Yesterday" within the day
   * before, otherwise the locale's calendar date, which `calendar` supplies.
   * Whole days are counted with `Math.floor`, so a future timestamp gets a date.
   */
  function FormatDate(timestamp: int, now: int, calendar: int -> string): (day: string)
    ensures 0 <= now - timestamp < MillisPerDay ==> day == "Today"
    ensures MillisPerDay <= now - timestamp < 2 * MillisPerDay ==> day == "Yesterday"
    ensures now - timestamp < 0 || 2 * MillisPerDay <= now - timestamp ==> day == calendar(timestamp)
  {
    var diffDays := (now - timestamp) / MillisPerDay;
    if diffDays == 0 then "Today"
    else if diffDays == 1 then "Yesterday"
    else calendar(timestamp)
  }

  /** A date separator is drawn above the first message and wherever the day label changes. */
  function ShowDate(msgs: seq<ChatMessage>, index: nat, now: int, calendar: int -> string): (shown: bool)
    requires index < |msgs|
    ensures index == 0 ==> shown
    ensures index > 0 ==>
      (shown <==> FormatDate(msgs[index].timestamp, now, calendar) != FormatDate(msgs[index - 1].timestamp, now, calendar))
  {
    index == 0
    || FormatDate(msgs[index].timestamp, now, calendar) != FormatDate(msgs[index - 1].timestamp, now, calendar)
  }

  /**
   * The separator a message is grouped under: the nearest one at or above
   * it. Every message from there down to this one carries that separator's
   * day label.
   */
  function SeparatorAbove(msgs: seq<ChatMessage>, index: nat, now: int, calendar: int -> string): (j: nat)
    requires index < |msgs|
    ensures j <= index && ShowDate(msgs, j, now, calendar)
    ensures forall k :: j < k <= index ==> !ShowDate(msgs, k, now, calendar)
    ensures forall k :: j <= k <= index ==>
      FormatDate(msgs[k].timestamp, now, calendar) == FormatDate(msgs[j].timestamp, now, calendar)
  {
    if ShowDate(msgs, index, now, calendar) then index
    else SeparatorAbove(msgs, index - 1, now, calendar)
  }

  class ChatState {
    var selectedChat: Option<Id>
    var message: string
    var messages: map<Id, seq<ChatMessage>>

    /** The first conversation selected, an empty compose field and the seeded message lists. */
    constructor (conversations: seq<Conversation>, seed: map<Id, seq<ChatMessage>>)
      ensures selectedChat == InitialSelection(conversations)
      ensures message == "" && messages == seed
    {
      selectedChat := InitialSelection(conversations);
      message := "";
      messages := seed;
    }

    /** A click on a conversation in the list. */
    method SelectChat(id: Id)
      modifies this`selectedChat
      ensures selectedChat == Some(id)
    {
      selectedChat := Some(id);
    }

    /** The compose field's `onChange`. */
    method SetMessage(text: string)
      modifies this`message
      ensures message == text
    {
      message := text;
    }

    /** `chatMessages` for the current state. */
    function ChatMessages(): (r: seq<ChatMessage>)
      reads this
      ensures !IsSet(selectedChat) || selectedChat.value !in messages ==> r == []
      ensures IsSet(selectedChat) && selectedChat.value in messages ==> r == messages[selectedChat.value]
    {
      VisibleMessages(messages, selectedChat)
    }

    /**
     * `handleSendMessage`: a blank compose field or no selection changes
     * nothing; otherwise the untrimmed text is appended to the selected
     * conversation as the current user's own message and the field is
     * cleared. `newId` and `now` stand for the clock-derived id and timestamp.
     */
    method SendMessage(newId: Id, now: int)
      modifies this`messages, this`message
      ensures Trim(old(message)) == [] || !IsSet(selectedChat) ==>
        messages == old(messages) && message == old(message)
      ensures Trim(old(message)) != [] && IsSet(selectedChat) ==>
        && messages == WithMessage(old(messages), selectedChat.value,
                                   ChatMessage(newId, CurrentUserId, old(message), now, true))
        && message == ""
      ensures Trim(old(message)) != [] && IsSet(selectedChat) ==>
        ChatMessages() == old(ChatMessages()) + [ChatMessage(newId, CurrentUserId, old(message), now, true)]
    {
      if Trim(message) == [] || !IsSet(selectedChat) {
        return;
      }
      var m := ChatMessage(newId, CurrentUserId, message, now, true);
      SendShowsMessage(messages, selectedChat.value, m);
      messages := WithMessage(messages, selectedChat.value, m);
      message := "";
    }
  }
}
