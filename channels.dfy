/** The namespace resolver: GetChats pages through the account's dialogs, and GetChannel
    takes the first channel whose title is the configured channel name. */
module Channels {
  import opened Wrappers
  import opened Errors

  /** TLChannel, reduced to what the backend uses; the access hash is a nullable long. */
  datatype ChannelInfo = ChannelInfo(id: int, accessHash: Option<int>, title: string, date: int32)

  /** TLAbsChat: the forbidden kinds, an ordinary group chat, a channel, or a kind GetChats
      does not know. */
  datatype Chat =
    | ChatForbidden
    | ChannelForbidden
    | BasicChat(date: int32)
    | ChannelChat(channel: ChannelInfo)
    | OtherChat(typeName: string)

  /** What GetUserDialogsAsync returns: the whole list or a slice of it (each with its count
      of dialogs and its chats), a reply with no chat list, or an error of the remote call. */
  datatype DialogsReply =
    | Dialogs(dialogCount: nat, chats: seq<Chat>)
    | DialogsSlice(dialogCount: nat, chats: seq<Chat>)
    | DialogsNotModified
    | DialogsFault(error: Error)

  /** The account's dialogs: the page served for an offset date. */
  type DialogServer = int32 -> DialogsReply

  /** A page with fewer dialogs than this is the last one. */
  const PageSize := 100

  /** The date a chat moves the cursor to, if it moves it. */
  function DateOf(chat: Chat): Option<int32>
  {
    match chat
    case BasicChat(d) => Some(d)
    case ChannelChat(c) => Some(c.date)
    case _ => None
  }

  /** The cursor after GetChats has looked at one chat. */
  function StepCursor(chat: Chat, cursor: int32): int32
  {
    match DateOf(chat)
    case Some(d) => d
    case None => cursor
  }

  /** The cursor after GetChats has looked at every chat of a page. */
  function NextCursor(chats: seq<Chat>, cursor: int32): int32
  {
    if chats == [] then cursor else NextCursor(chats[1..], StepCursor(chats[0], cursor))
  }

  /** The cursor for the next page is the date of the last ordinary chat or channel of the
      page; a page with only forbidden chats leaves it where it was. */
  lemma {:induction false} NextCursorIsLastDate(chats: seq<Chat>, cursor: int32)
    ensures (forall i :: 0 <= i < |chats| ==> DateOf(chats[i]).None?) ==> NextCursor(chats, cursor) == cursor
    ensures forall i :: 0 <= i < |chats| && DateOf(chats[i]).Some?
                        && (forall j :: i < j < |chats| ==> DateOf(chats[j]).None?) ==>
              NextCursor(chats, cursor) == DateOf(chats[i]).value
  {
    if chats != [] {
      var next := StepCursor(chats[0], cursor);
      NextCursorIsLastDate(chats[1..], next);
      assert forall j :: 1 <= j < |chats| ==> chats[j] == chats[1..][j - 1];
      forall i | 0 <= i < |chats| && DateOf(chats[i]).Some?
                 && (forall j :: i < j < |chats| ==> DateOf(chats[j]).None?)
        ensures NextCursor(chats, cursor) == DateOf(chats[i]).value
      {
        if i > 0 {
          assert DateOf(chats[1..][i - 1]).Some?;
          assert forall j :: i - 1 < j < |chats| - 1 ==> DateOf(chats[1..][j]).None? by {
            forall j | i - 1 < j < |chats| - 1 ensures DateOf(chats[1..][j]).None? {
              assert chats[1..][j] == chats[j + 1];
            }
          }
        } else {
          assert forall j :: 0 <= j < |chats[1..]| ==> DateOf(chats[1..][j]).None? by {
            forall j | 0 <= j < |chats[1..]| ensures DateOf(chats[1..][j]).None? {
              assert chats[1..][j] == chats[j + 1];
            }
          }
        }
      }
    }
  }

  /** A sequence of chats as the GetChats enumerator yields them, and the exception that ends
      the enumeration, if any. */
  datatype ChatStream = ChatStream(chats: seq<Chat>, fault: Option<Error>)

  /** The chats of one page that GetChats yields: all of them, or those before the first chat
      of an unknown kind, at which it throws. */
  function PageStream(chats: seq<Chat>): (s: ChatStream)
    ensures s.chats <= chats
    ensures s.fault.None? <==> forall i :: 0 <= i < |chats| ==> !chats[i].OtherChat?
    ensures s.fault.None? ==> s.chats == chats
    ensures s.fault.Some? ==>
              (|s.chats| < |chats| && chats[|s.chats|].OtherChat?
               && s.fault.value == UnsupportedChat(chats[|s.chats|].typeName))
    ensures forall i :: 0 <= i < |s.chats| ==> !s.chats[i].OtherChat?
  {
    if chats == [] then ChatStream([], None)
    else if chats[0].OtherChat? then ChatStream([], Some(UnsupportedChat(chats[0].typeName)))
    else
      var rest := PageStream(chats[1..]);
      assert forall i :: 1 <= i < |chats| ==> chats[i] == chats[1..][i - 1];
      ChatStream([chats[0]] + rest.chats, rest.fault)
  }

  /** GetChats, enumerated in full, with at most `fuel` pages: request the page at the
      cursor, yield its chats while moving the cursor, and stop after a page with fewer than
      PageSize dialogs. */
  function GetChats(dialogs: DialogServer, cursor: int32, fuel: nat): (s: ChatStream)
    // no chat of an unknown kind is ever yielded
    ensures forall i :: 0 <= i < |s.chats| ==> !s.chats[i].OtherChat?
    decreases fuel
  {
    if fuel == 0 then ChatStream([], Some(Unfinished))
    else
      var reply := dialogs(cursor);
      if reply.DialogsFault? then ChatStream([], Some(reply.error))
      else if reply.DialogsNotModified? then ChatStream([], Some(NullReference))
      else
        var page := PageStream(reply.chats);
        if page.fault.Some? then page
        else if reply.dialogCount < PageSize then ChatStream(reply.chats, None)
        else
          var rest := GetChats(dialogs, NextCursor(reply.chats, cursor), fuel - 1);
          ChatStream(reply.chats + rest.chats, rest.fault)
  }

  /** A reply that holds a list of dialogs: the whole list or a slice of it. */
  predicate IsPage(reply: DialogsReply)
  {
    reply.Dialogs? || reply.DialogsSlice?
  }

  /** The chats of the pages served at the offsets `cursors`, one page after the other. */
  function PagesChats(dialogs: DialogServer, cursors: seq<int32>): seq<Chat>
  {
    if cursors == [] then []
    else
      var reply := dialogs(cursors[0]);
      (if IsPage(reply) then reply.chats else []) + PagesChats(dialogs, cursors[1..])
  }

  /** The offsets of the pages GetChats requests, starting at `cursor`: every one is answered
      with a list, every page but the last holds at least PageSize dialogs and is followed
      by the page at the date of its last dated chat, and the last page holds fewer. */
  ghost predicate PageChain(dialogs: DialogServer, cursor: int32, cursors: seq<int32>)
  {
    && |cursors| >= 1 && cursors[0] == cursor
    && (forall i :: 0 <= i < |cursors| ==> IsPage(dialogs(cursors[i])))
    && (forall i :: 0 <= i < |cursors| - 1 ==>
          dialogs(cursors[i]).dialogCount >= PageSize
          && cursors[i + 1] == NextCursor(dialogs(cursors[i]).chats, cursors[i]))
    && dialogs(cursors[|cursors| - 1]).dialogCount < PageSize
  }

  /** An enumeration that ends without a fault requested a chain of pages, one per unit of
      fuel at most, and yields their chats in order. */
  lemma {:induction false} GetChatsPages(dialogs: DialogServer, cursor: int32, fuel: nat) returns (cursors: seq<int32>)
    requires GetChats(dialogs, cursor, fuel).fault.None?
    ensures |cursors| <= fuel && PageChain(dialogs, cursor, cursors)
    ensures GetChats(dialogs, cursor, fuel).chats == PagesChats(dialogs, cursors)
    decreases fuel
  {
    var reply := dialogs(cursor);
    assert fuel > 0 && IsPage(reply) && PageStream(reply.chats).fault.None?;
    if reply.dialogCount < PageSize {
      cursors := [cursor];
      assert PagesChats(dialogs, cursors) == reply.chats + PagesChats(dialogs, []);
    } else {
      var next := NextCursor(reply.chats, cursor);
      assert GetChats(dialogs, cursor, fuel)
             == ChatStream(reply.chats + GetChats(dialogs, next, fuel - 1).chats, GetChats(dialogs, next, fuel - 1).fault);
      var rest := GetChatsPages(dialogs, next, fuel - 1);
      cursors := [cursor] + rest;
      assert cursors[1..] == rest;
      forall i | 0 <= i < |cursors| - 1
        ensures dialogs(cursors[i]).dialogCount >= PageSize
        ensures cursors[i + 1] == NextCursor(dialogs(cursors[i]).chats, cursors[i])
      {
        if i > 0 {
          assert cursors[i] == rest[i - 1] && cursors[i + 1] == rest[i];
        }
      }
      assert PagesChats(dialogs, cursors) == reply.chats + PagesChats(dialogs, rest);
    }
  }

  /** Conversely, a chain of pages within the fuel whose chats are all of known kinds is
      enumerated without a fault, page after page. */
  lemma {:induction false} PageChainEnumerates(dialogs: DialogServer, cursor: int32, cursors: seq<int32>, fuel: nat)
    requires PageChain(dialogs, cursor, cursors) && |cursors| <= fuel
    requires forall i :: 0 <= i < |PagesChats(dialogs, cursors)| ==> !PagesChats(dialogs, cursors)[i].OtherChat?
    ensures GetChats(dialogs, cursor, fuel) == ChatStream(PagesChats(dialogs, cursors), None)
    decreases fuel
  {
    var reply := dialogs(cursor);
    var rest := cursors[1..];
    assert IsPage(dialogs(cursors[0]));
    var all := PagesChats(dialogs, cursors);
    assert all == reply.chats + PagesChats(dialogs, rest);
    assert forall i :: 0 <= i < |reply.chats| ==> reply.chats[i] == all[i];
    if |cursors| > 1 {
      var next := cursors[1];
      assert PageChain(dialogs, next, rest) by {
        forall i | 0 <= i < |rest| - 1
          ensures dialogs(rest[i]).dialogCount >= PageSize
          ensures rest[i + 1] == NextCursor(dialogs(rest[i]).chats, rest[i])
        {
          assert rest[i] == cursors[i + 1] && rest[i + 1] == cursors[i + 2];
        }
        assert forall i :: 0 <= i < |rest| ==> rest[i] == cursors[i + 1];
      }
      assert forall i :: 0 <= i < |PagesChats(dialogs, rest)| ==> PagesChats(dialogs, rest)[i] == all[|reply.chats| + i];
      PageChainEnumerates(dialogs, next, rest, fuel - 1);
    }
  }

  /** The chat is a channel with the title. */
  predicate Matches(chat: Chat, title: string)
  {
    chat.ChannelChat? && chat.channel.title == title
  }

  /** The first channel with the title. */
  function FirstMatch(chats: seq<Chat>, title: string): (r: Option<ChannelInfo>)
    ensures r.None? <==> forall i :: 0 <= i < |chats| ==> !Matches(chats[i], title)
    ensures r.Some? ==>
              exists i :: 0 <= i < |chats| && chats[i] == ChannelChat(r.value) && r.value.title == title
                && forall j :: 0 <= j < i ==> !Matches(chats[j], title)
  {
    if chats == [] then None
    else if Matches(chats[0], title) then Some(chats[0].channel)
    else
      var r := FirstMatch(chats[1..], title);
      assert forall i :: 1 <= i < |chats| ==> chats[i] == chats[1..][i - 1];
      r
  }

  lemma {:induction false} FirstMatchAppend(a: seq<Chat>, b: seq<Chat>, title: string)
    ensures FirstMatch(a + b, title) == if FirstMatch(a, title).Some? then FirstMatch(a, title) else FirstMatch(b, title)
  {
    if a == [] {
      assert a + b == b;
    } else {
      assert (a + b)[1..] == a[1..] + b;
      FirstMatchAppend(a[1..], b, title);
    }
  }

  /** Enumerable.FirstOrDefault over an enumeration: the first channel with the title; else
      the exception that ended the enumeration; else null. */
  function FirstOrDefaultChannel(s: ChatStream, title: string): (r: Result<Option<ChannelInfo>, Error>)
    // a channel found has the title; an exception is the enumeration's, and null needs a
    // complete enumeration
    ensures r.Success? && r.value.Some? ==> r.value.value.title == title
    ensures r.Failure? ==> s.fault == Some(r.error)
    ensures r == Success(None) ==> s.fault.None?
  {
    match FirstMatch(s.chats, title)
    case Some(c) => Success(Some(c))
    case None => if s.fault.Some? then Failure(s.fault.value) else Success(None)
  }

  /** Where the lazy scan of one page ends: at a matching channel, or at the end of the page
      with the cursor for the next one. */
  datatype PageScan = Matched(channel: ChannelInfo) | NextPage(cursor: int32)

  /** The lazy scan of one page by FirstOrDefault over GetChats: the chats are looked at in
      order, the cursor moves, and the scan stops at the first match or the first unknown
      chat. */
  function ScanPage(chats: seq<Chat>, title: string, cursor: int32): (r: Result<PageScan, Error>)
    // a match is a channel of the page with the title; the only exception is an unknown chat
    ensures r.Success? && r.value.Matched? ==> r.value.channel.title == title
    ensures r.Failure? ==> r.error.UnsupportedChat?
  {
    if chats == [] then Success(NextPage(cursor))
    else if chats[0].OtherChat? then Failure(UnsupportedChat(chats[0].typeName))
    else if Matches(chats[0], title) then Success(Matched(chats[0].channel))
    else ScanPage(chats[1..], title, StepCursor(chats[0], cursor))
  }

  /** The lazy scan of a page agrees with the page's full enumeration: a match is the first
      match among the chats yielded; an exception is the one the enumeration ends with, and
      no yielded chat matched; the end of the page means no chat of the page matches, none
      is unknown, and the next cursor is the page's cursor. */
  lemma {:induction false} ScanPageAgrees(chats: seq<Chat>, title: string, cursor: int32)
    ensures var p := PageStream(chats);
            match ScanPage(chats, title, cursor)
            case Success(Matched(c)) => FirstMatch(p.chats, title) == Some(c)
            case Success(NextPage(next)) =>
              p == ChatStream(chats, None) && FirstMatch(chats, title).None? && next == NextCursor(chats, cursor)
            case Failure(e) => p.fault == Some(e) && FirstMatch(p.chats, title).None?
  {
    if chats != [] && !chats[0].OtherChat? && !Matches(chats[0], title) {
      var tail, next := chats[1..], StepCursor(chats[0], cursor);
      ScanPageAgrees(tail, title, next);
      assert ScanPage(chats, title, cursor) == ScanPage(tail, title, next);
      assert PageStream(chats) == ChatStream([chats[0]] + PageStream(tail).chats, PageStream(tail).fault);
      assert NextCursor(chats, cursor) == NextCursor(tail, next);
      FirstMatchAppend([chats[0]], PageStream(tail).chats, title);
      FirstMatchAppend([chats[0]], tail, title);
      assert [chats[0]] + tail == chats;
    }
  }

  /** GetChannel's scan, page by page and lazily, as the loop runs it. It gives what
      FirstOrDefault gives over the full enumeration of GetChats: the first channel in dialog
      order whose title matches, else the exception that ends the enumeration, else null. */
  function FindChannel(dialogs: DialogServer, title: string, cursor: int32, fuel: nat): (r: Result<Option<ChannelInfo>, Error>)
    ensures r == FirstOrDefaultChannel(GetChats(dialogs, cursor, fuel), title)
    decreases fuel
  {
    if fuel == 0 then Failure(Unfinished)
    else
      var reply := dialogs(cursor);
      if reply.DialogsFault? then Failure(reply.error)
      else if reply.DialogsNotModified? then Failure(NullReference)
      else
        ScanPageAgrees(reply.chats, title, cursor);
        match ScanPage(reply.chats, title, cursor)
        case Failure(e) => Failure(e)
        case Success(Matched(c)) =>
          var rest := GetChats(dialogs, NextCursor(reply.chats, cursor), fuel - 1);
          FirstMatchAppend(reply.chats, rest.chats, title);
          Success(Some(c))
        case Success(NextPage(next)) =>
          if reply.dialogCount < PageSize then Success(None)
          else
            var r := FindChannel(dialogs, title, next, fuel - 1);
            FirstMatchAppend(reply.chats, GetChats(dialogs, next, fuel - 1).chats, title);
            r
  }

  /** The walk over one page's chats inside GetChats, as FirstOrDefault drives it: move the
      cursor past each chat, stop at a matching channel, throw at an unknown kind of chat. */
  method ScanChats(chats: seq<Chat>, title: string, cursor: int32) returns (r: Result<PageScan, Error>)
    ensures r == ScanPage(chats, title, cursor)
  {
    var lastDate := cursor;
    for i := 0 to |chats|
      invariant ScanPage(chats, title, cursor) == ScanPage(chats[i..], title, lastDate)
    {
      assert chats[i..][1..] == chats[i + 1..];
      match chats[i] {
        case ChatForbidden =>
        case ChannelForbidden =>
        case BasicChat(d) =>
          lastDate := d;
        case ChannelChat(c) =>
          lastDate := c.date;
          if c.title == title {
            return Success(Matched(c));
          }
        case OtherChat(t) =>
          return Failure(UnsupportedChat(t));
      }
    }
    return Success(NextPage(lastDate));
  }

  /** GetChats consumed by FirstOrDefault, as GetChannel runs them: at most `fuel` pages. */
  method ResolveChannel(dialogs: DialogServer, title: string, fuel: nat) returns (r: Result<Option<ChannelInfo>, Error>)
    ensures r == FirstOrDefaultChannel(GetChats(dialogs, 0, fuel), title)
  {
    var lastDate: int32 := 0;
    var pages := 0;
    while pages < fuel
      invariant pages <= fuel
      invariant FindChannel(dialogs, title, 0, fuel) == FindChannel(dialogs, title, lastDate, fuel - pages)
    {
      var reply := dialogs(lastDate);
      if reply.DialogsFault? {
        return Failure(reply.error);
      }
      if reply.DialogsNotModified? {
        return Failure(NullReference);
      }
      var scan := ScanChats(reply.chats, title, lastDate);
      match scan {
        case Failure(e) =>
          return Failure(e);
        case Success(Matched(c)) =>
          return Success(Some(c));
        case Success(NextPage(next)) =>
          if reply.dialogCount < PageSize {
            return Success(None);
          }
          lastDate := next;
      }
      pages := pages + 1;
    }
    return Failure(Unfinished);
  }

  /** The resolver's result: a channel it returns is a channel of the enumeration with the
      title, preceded by no other such channel; null means that no chat of a complete
      enumeration is a matching channel. */
  lemma ResolvedChannelIsFirstMatch(dialogs: DialogServer, title: string, fuel: nat)
    ensures var s := GetChats(dialogs, 0, fuel);
            match FirstOrDefaultChannel(s, title)
            case Success(Some(c)) =>
              c.title == title &&
              exists i :: 0 <= i < |s.chats| && s.chats[i] == ChannelChat(c)
                && forall j :: 0 <= j < i ==> !Matches(s.chats[j], title)
            case Success(None) =>
              s.fault.None? && forall i :: 0 <= i < |s.chats| ==> !Matches(s.chats[i], title)
            case Failure(e) =>
              s.fault == Some(e) && forall i :: 0 <= i < |s.chats| ==> !Matches(s.chats[i], title)
  {
  }
}
