/** The chats router: an owner-scoped table of chats and their messages, with cursor pagination,
    visibility rules, owner-only updates and deletion, and branching a chat at a message. */
module Chats {
  import opened Wrappers
  import opened Seqs
  import opened Strings
  import opened Api

  datatype Visibility = Public | Private

  datatype Chat = Chat(
    id: string,
    title: string,
    userId: string,
    visibility: Visibility,
    workbenchId: Option<string>,
    parentChatId: Option<string>,
    createdAt: int)

  /** A stored message; `parts` and `attachments` are JSON values, kept as their serialised text. */
  datatype Message = Message(
    id: string,
    chatId: string,
    role: string,
    parts: string,
    attachments: seq<string>,
    modelId: string,
    createdAt: int)

  /** The `workbenchId` argument of getChats: left out (no filter on it), `null` (chats outside
      every workbench), or a workbench id. */
  datatype WorkbenchArg = AnyWorkbench | NoWorkbench | InWorkbench(id: string)

  datatype GetChatsInput = GetChatsInput(limit: Option<int>, cursor: Option<string>, workbenchId: WorkbenchArg)

  datatype Page = Page(items: seq<Chat>, hasMore: bool, nextCursor: Option<string>)

  datatype CreateChatInput = CreateChatInput(
    id: string,
    title: string,
    visibility: Visibility,
    workbenchId: Option<string>)

  const ChatNotFound := "Chat not found."
  const DeleteDenied := "Access denied. You can only delete your own chats."
  const BranchDenied := "Chat not found or access denied"
  const MessageNotInChat := "Message not found in chat"

  function ChatId(c: Chat): string { c.id }

  ghost predicate UniqueIds(chats: seq<Chat>) {
    UniqueBy(chats, ChatId)
  }

  /** The position of the chat with id `id`, or -1. */
  function IndexOf(chats: seq<Chat>, id: string): (k: int)
    ensures -1 <= k < |chats|
    ensures k >= 0 ==> chats[k].id == id
    ensures k < 0 <==> forall c :: c in chats ==> c.id != id
  {
    FindIndex(chats, (c: Chat) => c.id == id)
  }

  lemma IndexOfUnique(chats: seq<Chat>, i: nat)
    requires UniqueIds(chats) && i < |chats|
    ensures IndexOf(chats, chats[i].id) == i
  {
  }

  // ---------------------------------------------------------------- getChats

  predicate MatchesWorkbench(c: Chat, wb: WorkbenchArg) {
    match wb
    case AnyWorkbench => true
    case NoWorkbench => c.workbenchId.None?
    case InWorkbench(w) => c.workbenchId == Some(w)
  }

  /** The `where` clause of getChats: the caller's chats in the requested workbench. */
  predicate Listed(c: Chat, userId: string, wb: WorkbenchArg) {
    c.userId == userId && MatchesWorkbench(c, wb)
  }

  /** Sort key for `orderBy: { createdAt: "desc" }`. */
  function NewestFirst(c: Chat): int { -c.createdAt }

  /** What the query selects, in the order it returns it: newest first. */
  function Listing(chats: seq<Chat>, userId: string, wb: WorkbenchArg): (r: seq<Chat>)
    ensures forall c :: c in r <==> c in chats && Listed(c, userId, wb)
    ensures forall i, j :: 0 <= i < j < |r| ==> r[i].createdAt >= r[j].createdAt
  {
    var selected := Filter(chats, (c: Chat) => Listed(c, userId, wb));
    SortByMembers(selected, NewestFirst);
    SortBy(selected, NewestFirst)
  }

  /** A listing of a table with unique ids has unique ids, so a cursor names one row. */
  lemma ListingUnique(chats: seq<Chat>, userId: string, wb: WorkbenchArg)
    requires UniqueIds(chats)
    ensures UniqueIds(Listing(chats, userId, wb))
  {
    var selected := Filter(chats, (c: Chat) => Listed(c, userId, wb));
    FilterUnique(chats, (c: Chat) => Listed(c, userId, wb), ChatId);
    SortByUnique(selected, NewestFirst, ChatId);
  }

  /** Where a page starts in the listing: at the top without a (truthy) cursor, at the row whose id
      is the cursor otherwise, and -1 when no listed row has that id. */
  function CursorStart(listing: seq<Chat>, cursor: Option<string>): (s: int)
    ensures -1 <= s <= |listing|
    ensures !Truthy(cursor) ==> s == 0
    ensures Truthy(cursor) && s >= 0 ==> s < |listing| && listing[s].id == cursor.value
    ensures Truthy(cursor) ==> (s < 0 <==> forall c :: c in listing ==> c.id != cursor.value)
  {
    if !Truthy(cursor) then 0 else IndexOf(listing, cursor.value)
  }

  /** The rows from the cursor on; the cursor row itself is included. */
  function FromCursor(listing: seq<Chat>, cursor: Option<string>): (r: seq<Chat>)
    ensures |r| <= |listing|
    ensures !Truthy(cursor) ==> r == listing
    ensures Truthy(cursor) && r != [] ==> r[0].id == cursor.value
  {
    var s := CursorStart(listing, cursor);
    if s < 0 then [] else listing[s..]
  }

  /** The rows from the cursor on end the listing. */
  lemma FromCursorSuffix(listing: seq<Chat>, cursor: Option<string>)
    ensures FromCursor(listing, cursor) == listing[|listing| - |FromCursor(listing, cursor)|..]
  {
  }

  /** `take: n`. */
  function Take(s: seq<Chat>, n: nat): (r: seq<Chat>)
    ensures |r| <= |s| && |r| <= n && r == s[..|r|]
    ensures |s| <= n ==> r == s
    ensures |s| > n ==> |r| == n
  {
    if |s| <= n then s else s[..n]
  }

  /** The page built from the `limit + 1` fetched rows: at most `limit` items, and the first row
      left out, when there is one, as the next cursor. */
  function PageOf(fetched: seq<Chat>, limit: nat): (p: Page)
    requires |fetched| <= limit + 1
    ensures |p.items| <= |fetched| && |p.items| <= limit && p.items == fetched[..|p.items|]
    ensures p.hasMore <==> |fetched| > limit
    ensures p.nextCursor.Some? <==> p.hasMore
    ensures p.hasMore ==> p.nextCursor == Some(fetched[limit].id) && p.items == fetched[..limit]
    ensures !p.hasMore ==> p.items == fetched
  {
    var nextCursor := if |fetched| > limit then Some(fetched[|fetched| - 1].id) else None;
    Page(Take(fetched, limit), |fetched| > limit, nextCursor)
  }

  /** The rows one call of getChats fetches. */
  function Fetched(chats: seq<Chat>, userId: string, limit: nat, input: GetChatsInput): seq<Chat> {
    Take(FromCursor(Listing(chats, userId, input.workbenchId), input.cursor), limit + 1)
  }

  /** getChats over a table of chats: an invalid limit is refused; otherwise the page is the first
      `limit` rows from the cursor on, and it has more exactly when further rows follow them. */
  function ChatsPage(chats: seq<Chat>, userId: string, input: GetChatsInput): (r: Result<Page, ApiError>)
    ensures r.Err? <==> ParseLimit(input.limit).Err?
    ensures r.Ok? ==>
      var limit := ParseLimit(input.limit).value;
      var from := FromCursor(Listing(chats, userId, input.workbenchId), input.cursor);
      && |r.value.items| <= limit <= MaxLimit
      && |r.value.items| <= |from| && r.value.items == from[..|r.value.items|]
      && (r.value.hasMore <==> |from| > limit)
      && (!r.value.hasMore ==> r.value.items == from)
      && (r.value.nextCursor.Some? <==> r.value.hasMore)
  {
    match ParseLimit(input.limit)
    case Err(e) => Err(e)
    case Ok(limit) => Ok(PageOf(Fetched(chats, userId, limit, input), limit))
  }

  /** Every chat on a page is one of the caller's chats in the requested workbench, and the page is
      ordered newest first. */
  lemma PageItemsListed(chats: seq<Chat>, userId: string, input: GetChatsInput)
    requires ChatsPage(chats, userId, input).Ok?
    ensures var items := ChatsPage(chats, userId, input).value.items;
      && (forall c :: c in items ==> c in chats && Listed(c, userId, input.workbenchId))
      && (forall i, j :: 0 <= i < j < |items| ==> items[i].createdAt >= items[j].createdAt)
  {
    var listing := Listing(chats, userId, input.workbenchId);
    var from := FromCursor(listing, input.cursor);
    var items := ChatsPage(chats, userId, input).value.items;
    assert items == from[..|items|];
    var s := CursorStart(listing, input.cursor);
    if s >= 0 {
      assert from == listing[s..];
      WindowOfListing(listing, s, |items|, items);
    }
  }

  /** A window of a newest-first listing holds listed rows only, newest first. */
  lemma WindowOfListing(listing: seq<Chat>, s: nat, n: nat, items: seq<Chat>)
    requires s + n <= |listing| && items == listing[s..][..n]
    requires forall i, j :: 0 <= i < j < |listing| ==> listing[i].createdAt >= listing[j].createdAt
    ensures forall c :: c in items ==> c in listing
    ensures forall i, j :: 0 <= i < j < |items| ==> items[i].createdAt >= items[j].createdAt
  {
    assert forall i :: 0 <= i < |items| ==> items[i] == listing[s + i];
  }

  /** Paging is seamless: when a page has more, this page's items followed by everything from its
      next cursor on are exactly what followed this page's own cursor. The cursor must be truthy
      for the next call to honour it, so the row it names must not have the empty id. */
  lemma {:induction false} NextPageContinues(listing: seq<Chat>, cursor: Option<string>, limit: nat)
    requires UniqueIds(listing)
    requires |Take(FromCursor(listing, cursor), limit + 1)| > limit
    requires Take(FromCursor(listing, cursor), limit + 1)[limit].id != ""
    ensures var p := PageOf(Take(FromCursor(listing, cursor), limit + 1), limit);
      p.items + FromCursor(listing, p.nextCursor) == FromCursor(listing, cursor)
  {
    var s := CursorStart(listing, cursor);
    assert s >= 0 && FromCursor(listing, cursor) == listing[s..];
    FetchedWindow(listing, s, limit, Take(listing[s..], limit + 1));
    CursorAt(listing, s + limit);
    WindowContinues(listing, s, limit);
  }

  /** NextPageContinues for a page that starts at position `s` of the listing, given that the
      row after the page starts the next one. */
  lemma WindowContinues(listing: seq<Chat>, s: nat, limit: nat)
    requires s + limit < |listing|
    requires FromCursor(listing, Some(listing[s + limit].id)) == listing[s + limit..]
    ensures var p := PageOf(Take(listing[s..], limit + 1), limit);
      p.items + FromCursor(listing, p.nextCursor) == listing[s..]
  {
    var fetched := Take(listing[s..], limit + 1);
    FetchedWindow(listing, s, limit, fetched);
    var p := PageOf(fetched, limit);
    assert p.items == listing[s..s + limit] && p.nextCursor == Some(listing[s + limit].id);
    SplitAt(listing, s, s + limit);
  }

  /** A truthy cursor naming a row of a listing with unique ids starts the page at that row. */
  lemma CursorAt(listing: seq<Chat>, k: nat)
    requires UniqueIds(listing) && k < |listing| && listing[k].id != ""
    ensures FromCursor(listing, Some(listing[k].id)) == listing[k..]
  {
    IndexOfUnique(listing, k);
  }

  lemma SplitAt(xs: seq<Chat>, i: nat, k: nat)
    requires i <= k <= |xs|
    ensures xs[i..k] + xs[k..] == xs[i..]
  {
  }

  /** The `limit + 1` rows fetched from position `s` of the listing, when there are that many. */
  lemma FetchedWindow(listing: seq<Chat>, s: nat, limit: nat, fetched: seq<Chat>)
    requires s <= |listing|
    requires fetched == Take(listing[s..], limit + 1) && |fetched| > limit
    ensures s + limit < |listing| && |fetched| == limit + 1
    ensures fetched[limit] == listing[s + limit] && fetched[..limit] == listing[s..s + limit]
  {
    assert fetched == listing[s..][..limit + 1];
  }

  /** The empty-id case that NextPageContinues excludes: `nextCursor` is "", which the next call
      reads as "no cursor", so paging starts again from the top. */
  lemma EmptyIdCursorRestarts(a: Chat, b: Chat)
    requires a.id == "a" && b.id == ""
    ensures var listing := [a, b];
      var p := PageOf(Take(FromCursor(listing, None), 2), 1);
      p.nextCursor == Some("") && p.items == [a] && FromCursor(listing, p.nextCursor) == listing
  {
  }

  // ---------------------------------------------------------------- getChat

  /** The visibility rule of getChat: the caller owns the chat, or it is public. */
  predicate Visible(c: Chat, userId: string) {
    c.userId == userId || c.visibility == Public
  }

  function VisibleChat(chats: seq<Chat>, userId: string, id: string): (r: Option<Chat>)
    ensures r.Some? ==> r.value in chats && r.value.id == id && Visible(r.value, userId)
    ensures r.None? <==> forall c :: c in chats && c.id == id ==> !Visible(c, userId)
  {
    Find(chats, (c: Chat) => c.id == id && Visible(c, userId))
  }

  /** Another user's private chat is never shown, and the owner always sees their own chat. */
  lemma VisibleChatOwnership(chats: seq<Chat>, userId: string, i: nat)
    requires UniqueIds(chats) && i < |chats|
    ensures chats[i].userId == userId ==> VisibleChat(chats, userId, chats[i].id) == Some(chats[i])
    ensures chats[i].userId != userId && chats[i].visibility == Private ==> VisibleChat(chats, userId, chats[i].id) == None
  {
    var r := VisibleChat(chats, userId, chats[i].id);
    if r.Some? {
      var j :| 0 <= j < |chats| && chats[j] == r.value;
      assert j == i;
    }
  }

  // ---------------------------------------------------------------- branchChat

  /** The messages of a chat, oldest first (`orderBy: { createdAt: "asc" }`). */
  function MessagesOf(messages: seq<Message>, chatId: string): (r: seq<Message>)
    ensures forall m :: m in r <==> m in messages && m.chatId == chatId
    ensures forall i, j :: 0 <= i < j < |r| ==> r[i].createdAt <= r[j].createdAt
  {
    var mine := Filter(messages, (m: Message) => m.chatId == chatId);
    SortByMembers(mine, (m: Message) => m.createdAt);
    SortBy(mine, (m: Message) => m.createdAt)
  }

  /** A copy of `m` placed in chat `chatId`: role, parts, attachments and model carried over;
      the database gives it a new id and creation time. */
  function CopyMessage(m: Message, chatId: string, id: string, now: int): Message {
    Message(id, chatId, m.role, m.parts, m.attachments, m.modelId, now)
  }

  function CopyMessages(source: seq<Message>, chatId: string, now: int, newId: nat -> string): (r: seq<Message>)
    ensures |r| == |source|
    ensures forall j :: 0 <= j < |r| ==> r[j] == CopyMessage(source[j], chatId, newId(j), now)
  {
    seq(|source|, j requires 0 <= j < |source| => CopyMessage(source[j], chatId, newId(j), now))
  }

  /** Whether a message and its copy carry the same content. */
  predicate SameContent(a: Message, b: Message) {
    a.role == b.role && a.parts == b.parts && a.attachments == b.attachments && a.modelId == b.modelId
  }

  /** The index of the caller's chat `id`, or -1 (`findUnique({ where: { id, userId } })`). */
  function OwnedIndex(chats: seq<Chat>, id: string, userId: string): (k: int)
    ensures -1 <= k < |chats|
    ensures k >= 0 ==> chats[k].id == id && chats[k].userId == userId
    ensures k < 0 <==> forall c :: c in chats && c.id == id ==> c.userId != userId
  {
    FindIndex(chats, (c: Chat) => c.id == id && c.userId == userId)
  }

  /** What branchChat does to the tables: the new chat and the copied messages, or the error. */
  function Branch(chats: seq<Chat>, messages: seq<Message>, userId: string, originalChatId: string,
                  messageId: string, newChatId: string, now: int, newMessageId: nat -> string)
    : (r: Result<(Chat, seq<Message>), ApiError>)
    ensures r.Ok? ==> r.value.0.id == newChatId && r.value.0.userId == userId && r.value.0.parentChatId == Some(originalChatId)
    ensures r.Ok? ==> r.value.1 != [] && forall m :: m in r.value.1 ==> m.chatId == newChatId
    ensures r.Ok? ==> exists c :: c in chats && c.id == originalChatId && c.userId == userId
  {
    var k := OwnedIndex(chats, originalChatId, userId);
    if k < 0 then Err(Thrown(BranchDenied))
    else
      var toCopy := MessagesOf(messages, originalChatId);
      var t := FindIndex(toCopy, (m: Message) => m.id == messageId);
      if t < 0 then Err(Thrown(MessageNotInChat))
      else if IndexOf(chats, newChatId) >= 0 then Err(UniqueViolation(["id"]))
      else
        var original := chats[k];
        var branched := Chat(newChatId, original.title, userId, original.visibility, None, Some(originalChatId), now);
        Ok((branched, CopyMessages(toCopy[..t + 1], newChatId, now, newMessageId)))
  }

  /** branchChat fails, and creates nothing, exactly when the original is missing or not the
      caller's, or the message is not one of its messages (or the new id is taken). */
  lemma BranchFails(chats: seq<Chat>, messages: seq<Message>, userId: string, originalChatId: string,
                    messageId: string, newChatId: string, now: int, newMessageId: nat -> string)
    ensures var r := Branch(chats, messages, userId, originalChatId, messageId, newChatId, now, newMessageId);
      r.Err? <==>
        || (forall c :: c in chats && c.id == originalChatId ==> c.userId != userId)
        || (forall m :: m in messages && m.chatId == originalChatId ==> m.id != messageId)
        || (exists c :: c in chats && c.id == newChatId)
  {
    var k := OwnedIndex(chats, originalChatId, userId);
    var toCopy := MessagesOf(messages, originalChatId);
    var t := FindIndex(toCopy, (m: Message) => m.id == messageId);
    if k >= 0 && t < 0 {
      forall m | m in messages && m.chatId == originalChatId ensures m.id != messageId {
        assert m in toCopy;
      }
    }
  }

  /** In messages ordered oldest first, the prefix ending at `t` holds every message older than
      `source[t]`, and nothing newer. */
  lemma {:induction false} OldestFirstPrefix(source: seq<Message>, t: nat)
    requires t < |source|
    requires forall i, j :: 0 <= i < j < |source| ==> source[i].createdAt <= source[j].createdAt
    ensures forall m :: m in source && m.createdAt < source[t].createdAt ==> m in source[..t + 1]
    ensures forall m :: m in source[..t + 1] ==> m in source && m.createdAt <= source[t].createdAt
  {
    forall m | m in source && m.createdAt < source[t].createdAt
      ensures m in source[..t + 1]
    {
      var i :| 0 <= i < |source| && source[i] == m;
      assert i <= t;
      assert source[..t + 1][i] == m;
    }
    forall m | m in source[..t + 1]
      ensures m in source && m.createdAt <= source[t].createdAt
    {
      var i :| 0 <= i < t + 1 && source[..t + 1][i] == m;
      assert source[i] == m;
    }
  }

  /** On success the branch is a new chat of the caller's, child of the original, with its title
      and visibility, and its messages copy, in order, the original's oldest-first messages up to
      and including the target. */
  lemma BranchShape(chats: seq<Chat>, messages: seq<Message>, userId: string,
                    originalChatId: string, messageId: string, newChatId: string, now: int, newMessageId: nat -> string)
    requires Branch(chats, messages, userId, originalChatId, messageId, newChatId, now, newMessageId).Ok?
    ensures var (branched, copies) := Branch(chats, messages, userId, originalChatId, messageId, newChatId, now, newMessageId).value;
      var original := chats[OwnedIndex(chats, originalChatId, userId)];
      var source := MessagesOf(messages, originalChatId);
      var t := FindIndex(source, (m: Message) => m.id == messageId);
      && branched.id == newChatId && branched.userId == userId
      && branched.parentChatId == Some(originalChatId)
      && branched.title == original.title && branched.visibility == original.visibility
      && |copies| == t + 1
      && (forall j :: 0 <= j < |copies| ==> copies[j].chatId == newChatId && SameContent(copies[j], source[j]))
      && source[t].id == messageId && SameContent(copies[t], source[t])
  {
    var k := OwnedIndex(chats, originalChatId, userId);
    var source := MessagesOf(messages, originalChatId);
    var t := FindIndex(source, (m: Message) => m.id == messageId);
    var original := chats[k];
    var branched := Chat(newChatId, original.title, userId, original.visibility, None, Some(originalChatId), now);
    var copies := CopyMessages(source[..t + 1], newChatId, now, newMessageId);
    assert Branch(chats, messages, userId, originalChatId, messageId, newChatId, now, newMessageId) == Ok((branched, copies));
  }

  /** The copied messages are exactly the original chat's messages no newer than the target, up to
      the target itself: every message older than the target is copied, and none newer. */
  lemma BranchIncludesEarlier(chats: seq<Chat>, messages: seq<Message>, userId: string,
                    originalChatId: string, messageId: string, newChatId: string, now: int, newMessageId: nat -> string)
    requires Branch(chats, messages, userId, originalChatId, messageId, newChatId, now, newMessageId).Ok?
    ensures var source := MessagesOf(messages, originalChatId);
      var t := FindIndex(source, (m: Message) => m.id == messageId);
      && (forall m :: m in source[..t + 1] ==> m in messages && m.chatId == originalChatId && m.createdAt <= source[t].createdAt)
      && (forall m :: m in messages && m.chatId == originalChatId && m.createdAt < source[t].createdAt ==> m in source[..t + 1])
  {
    var source := MessagesOf(messages, originalChatId);
    OldestFirstPrefix(source, FindIndex(source, (m: Message) => m.id == messageId));
  }

  /** Removing the row at `k` of a table with unique ids removes exactly the chat with that id. */
  lemma RemoveAtMembers(chats: seq<Chat>, k: nat)
    requires UniqueIds(chats) && k < |chats|
    ensures var rest := chats[..k] + chats[k + 1..];
      && UniqueIds(rest)
      && forall c :: c in rest <==> c in chats && c.id != chats[k].id
  {
    var rest := chats[..k] + chats[k + 1..];
    forall i | 0 <= i < |rest| ensures rest[i] == chats[if i < k then i else i + 1] {
    }
    forall c ensures c in rest <==> c in chats && c.id != chats[k].id {
      if c in chats && c.id != chats[k].id {
        var i :| 0 <= i < |chats| && chats[i] == c;
        if i < k { assert rest[i] == c; } else { assert rest[i - 1] == c; }
      }
    }
  }

  /** A chat whose id is not in a table with unique ids keeps the ids unique when appended. */
  lemma AppendFresh(chats: seq<Chat>, c: Chat)
    requires UniqueIds(chats) && IndexOf(chats, c.id) < 0
    ensures UniqueIds(chats + [c])
  {
    var r := chats + [c];
    forall i, j | 0 <= i < j < |r| ensures ChatId(r[i]) != ChatId(r[j]) {
      assert r[i] == chats[i];
      if j == |chats| { assert r[i] in chats; } else { assert r[j] == chats[j]; }
    }
  }

  // ---------------------------------------------------------------- the store

  class ChatStore {
    var chats: seq<Chat>
    var messages: seq<Message>

    /** Chat ids are unique (the primary key). */
    ghost predicate Valid()
      reads this
    {
      UniqueIds(chats)
    }

    constructor ()
      ensures Valid() && chats == [] && messages == []
    {
      chats := [];
      messages := [];
    }

    /** getChats: the caller's page of chats. */
    function GetChats(userId: string, input: GetChatsInput): (r: Result<Page, ApiError>)
      reads this
      ensures r.Ok? ==> forall c :: c in r.value.items ==> c in chats && Listed(c, userId, input.workbenchId)
    {
      ChatsPage(chats, userId, input)
    }

    /** getChat: the chat with this id when the caller may see it. */
    function GetChat(userId: string, id: string): (r: Option<Chat>)
      reads this
      ensures r.Some? ==> r.value in chats && r.value.id == id && Visible(r.value, userId)
      ensures r.None? <==> forall c :: c in chats && c.id == id ==> !Visible(c, userId)
    {
      VisibleChat(chats, userId, id)
    }

    /** createChat: a chat of the caller's with the given id; the id must be free. */
    method CreateChat(userId: string, input: CreateChatInput, now: int) returns (r: Result<Chat, ApiError>)
      requires Valid()
      modifies this
      ensures Valid() && messages == old(messages)
      ensures IndexOf(old(chats), input.id) >= 0 ==> r == Err(UniqueViolation(["id"])) && chats == old(chats)
      ensures IndexOf(old(chats), input.id) < 0 ==>
        && r == Ok(Chat(input.id, input.title, userId, input.visibility, input.workbenchId, None, now))
        && chats == old(chats) + [r.value]
    {
      if IndexOf(chats, input.id) >= 0 {
        r := Err(UniqueViolation(["id"]));
        return;
      }
      var c := Chat(input.id, input.title, userId, input.visibility, input.workbenchId, None, now);
      AppendFresh(chats, c);
      chats := chats + [c];
      r := Ok(c);
    }

    /** updateChatVisibility: only the caller's chat, and only its visibility. */
    method UpdateChatVisibility(userId: string, id: string, visibility: Visibility) returns (r: Result<Chat, ApiError>)
      requires Valid()
      modifies this
      ensures Valid() && messages == old(messages)
      ensures var k := OwnedIndex(old(chats), id, userId);
        && (k < 0 ==> r == Err(RecordNotFound) && chats == old(chats))
        && (k >= 0 ==> r == Ok(old(chats)[k].(visibility := visibility)) && chats == old(chats)[k := r.value])
    {
      var k := OwnedIndex(chats, id, userId);
      if k < 0 {
        r := Err(RecordNotFound);
        return;
      }
      var c := chats[k].(visibility := visibility);
      chats := chats[k := c];
      r := Ok(c);
    }

    /** updateChatTitle: only the caller's chat, and only its title. */
    method UpdateChatTitle(userId: string, id: string, title: string) returns (r: Result<Chat, ApiError>)
      requires Valid()
      modifies this
      ensures Valid() && messages == old(messages)
      ensures var k := OwnedIndex(old(chats), id, userId);
        && (k < 0 ==> r == Err(RecordNotFound) && chats == old(chats))
        && (k >= 0 ==> r == Ok(old(chats)[k].(title := title)) && chats == old(chats)[k := r.value])
    {
      var k := OwnedIndex(chats, id, userId);
      if k < 0 {
        r := Err(RecordNotFound);
        return;
      }
      var c := chats[k].(title := title);
      chats := chats[k := c];
      r := Ok(c);
    }

    /** deleteChat: "Chat not found." for an unknown id, "Access denied…" for another user's chat,
        and otherwise exactly that chat leaves the table. */
    method DeleteChat(userId: string, id: string) returns (r: Result<Chat, ApiError>)
      requires Valid()
      modifies this
      ensures Valid() && messages == old(messages)
      ensures var k := IndexOf(old(chats), id);
        && (k < 0 ==> r == Err(Thrown(ChatNotFound)) && chats == old(chats))
        && (k >= 0 && old(chats)[k].userId != userId ==> r == Err(Thrown(DeleteDenied)) && chats == old(chats))
        && (k >= 0 && old(chats)[k].userId == userId ==>
              && r == Ok(old(chats)[k])
              && chats == old(chats)[..k] + old(chats)[k + 1..]
              && forall c :: c in chats <==> c in old(chats) && c.id != id)
    {
      var k := IndexOf(chats, id);
      if k < 0 {
        r := Err(Thrown(ChatNotFound));
        return;
      }
      if chats[k].userId != userId {
        r := Err(Thrown(DeleteDenied));
        return;
      }
      r := Ok(chats[k]);
      RemoveAtMembers(chats, k);
      chats := chats[..k] + chats[k + 1..];
    }

    /** branchChat: a new chat holding copies of the original's messages up to the target. */
    method BranchChat(userId: string, originalChatId: string, messageId: string, newChatId: string,
                      now: int, newMessageId: nat -> string) returns (r: Result<Chat, ApiError>)
      requires Valid()
      modifies this
      ensures Valid()
      ensures match Branch(old(chats), old(messages), userId, originalChatId, messageId, newChatId, now, newMessageId)
        case Err(e) => r == Err(e) && chats == old(chats) && messages == old(messages)
        case Ok((branched, copies)) =>
          r == Ok(branched) && chats == old(chats) + [branched] && messages == old(messages) + copies
    {
      var outcome := Branch(chats, messages, userId, originalChatId, messageId, newChatId, now, newMessageId);
      var k := OwnedIndex(chats, originalChatId, userId);
      if k < 0 {
        r := Err(Thrown(BranchDenied));
        assert outcome == Err(r.error);
        return;
      }
      var originalChat := chats[k];
      var messagesToCopy := MessagesOf(messages, originalChatId);
      var messageIndex := FindIndex(messagesToCopy, (m: Message) => m.id == messageId);
      if messageIndex == -1 {
        r := Err(Thrown(MessageNotInChat));
        assert outcome == Err(r.error);
        return;
      }
      var messagesToInclude := messagesToCopy[..messageIndex + 1];
      if IndexOf(chats, newChatId) >= 0 {
        r := Err(UniqueViolation(["id"]));
        assert outcome == Err(r.error);
        return;
      }
      var newChat := Chat(newChatId, originalChat.title, userId, originalChat.visibility, None, Some(originalChatId), now);
      var copies := CopyMessages(messagesToInclude, newChatId, now, newMessageId);
      assert outcome == Ok((newChat, copies));
      AppendFresh(chats, newChat);
      chats := chats + [newChat];
      messages := messages + copies;
      r := Ok(newChat);
    }
  }
}
