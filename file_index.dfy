/** The file index: one record per document message of the channel, rebuilt from the
    channel history by date-offset pagination. */
module FileIndex {
  import opened Wrappers
  import opened Errors

  /** TLAbsDocument: a document proper, or the empty placeholder. */
  datatype Document =
    | Document(id: int, accessHash: int, version: int32, size: int32)
    | EmptyDocument

  /** TLAbsMessageMedia, reduced to what the index looks at. */
  datatype Media =
    | NoMedia
    | DocumentMedia(document: Document, caption: string)
    | OtherMedia

  /** TLAbsMessage: an ordinary message (TLMessage) or one of the other kinds, which
      OfType<TLMessage> drops. Dates are epoch seconds. */
  datatype HistoryEntry =
    | Message(id: int32, date: int32, media: Media)
    | ServiceMessage
    | EmptyMessage

  /** What GetHistoryAsync returns for one page: the channel's messages, another kind of
      history (the cast to TLChannelMessages fails), or an error of the remote call. */
  datatype HistoryReply =
    | ChannelMessages(messages: seq<HistoryEntry>)
    | OtherMessages
    | HistoryFault(error: Error)

  /** The remote history of the channel: the page served for an offset date. */
  type History = int32 -> HistoryReply

  /** ChannelFileInfo; equality is equality of every field. */
  datatype FileRecord = FileRecord(
    messageId: int32,
    accessHash: int,
    documentId: int,
    version: int32,
    size: int32,
    name: string,
    date: int32)

  /** The record a history entry contributes, if any. */
  function FileInfoOf(e: HistoryEntry): (r: Option<FileRecord>)
    ensures r.Some? <==> e.Message? && e.media.DocumentMedia? && e.media.document.Document?
    ensures r.Some? ==>
              && r.value.messageId == e.id && r.value.date == e.date
              && r.value.name == e.media.caption
              && r.value.documentId == e.media.document.id
              && r.value.accessHash == e.media.document.accessHash
              && r.value.version == e.media.document.version
              && r.value.size == e.media.document.size
  {
    match e
    case Message(id, date, DocumentMedia(Document(docId, hash, version, size), caption)) =>
      Some(FileRecord(id, hash, docId, version, size, caption, date))
    case _ => None
  }

  /** The records of a page, in message order. */
  function FileInfos(page: seq<HistoryEntry>): (r: seq<FileRecord>)
    // at most one record per message
    ensures |r| <= |page|
  {
    if page == [] then []
    else
      match FileInfoOf(page[0])
      case Some(rec) => [rec] + FileInfos(page[1..])
      case None => FileInfos(page[1..])
  }

  lemma {:induction false} FileInfosAppend(a: seq<HistoryEntry>, b: seq<HistoryEntry>)
    ensures FileInfos(a + b) == FileInfos(a) + FileInfos(b)
  {
    if a == [] {
      assert a + b == b;
    } else {
      assert (a + b)[1..] == a[1..] + b;
      FileInfosAppend(a[1..], b);
    }
  }

  /** A record is in the records of a page exactly when some message of the page carries a
      document and yields that record. */
  lemma {:induction false} FileInfosFromDocuments(page: seq<HistoryEntry>, rec: FileRecord)
    ensures rec in FileInfos(page) <==> exists i :: 0 <= i < |page| && FileInfoOf(page[i]) == Some(rec)
  {
    if page != [] {
      FileInfosFromDocuments(page[1..], rec);
      if rec in FileInfos(page[1..]) {
        var i :| 0 <= i < |page[1..]| && FileInfoOf(page[1..][i]) == Some(rec);
        assert FileInfoOf(page[i + 1]) == Some(rec);
      }
      if exists i :: 0 <= i < |page| && FileInfoOf(page[i]) == Some(rec) {
        var i :| 0 <= i < |page| && FileInfoOf(page[i]) == Some(rec);
        if i > 0 {
          assert FileInfoOf(page[1..][i - 1]) == Some(rec);
        }
      }
    }
  }

  /** RetrieveMessages: append the records of one history page to `result`. */
  method RetrieveMessages(reply: HistoryReply, result: seq<FileRecord>) returns (r: Result<seq<FileRecord>, Error>)
    ensures r == AppendPage(reply, result)
  {
    match reply
    case HistoryFault(e) => return Failure(e);
    case OtherMessages => return Failure(InvalidCast);
    case ChannelMessages(history) =>
      var acc := result;
      for i := 0 to |history|
        invariant acc == result + FileInfos(history[..i])
      {
        FileInfosAppend(history[..i], [history[i]]);
        assert history[..i + 1] == history[..i] + [history[i]];
        match FileInfoOf(history[i]) {
          case Some(rec) => acc := acc + [rec];
          case None =>
        }
      }
      assert history[..|history|] == history;
      return Success(acc);
  }

  /** The list after one page has been retrieved, or the error that aborts the listing. */
  function AppendPage(reply: HistoryReply, acc: seq<FileRecord>): (r: Result<seq<FileRecord>, Error>)
    // only a page of channel messages extends the list, and it keeps what was gathered
    ensures r.Success? <==> reply.ChannelMessages?
    ensures r.Success? ==> acc <= r.value && |r.value| <= |acc| + |reply.messages|
    ensures reply.OtherMessages? ==> r == Failure(InvalidCast)
    ensures reply.HistoryFault? ==> r == Failure(reply.error)
  {
    match reply
    case ChannelMessages(messages) => Success(acc + FileInfos(messages))
    case OtherMessages => Failure(InvalidCast)
    case HistoryFault(e) => Failure(e)
  }

  /** The earliest date among the records. */
  function MinDate(records: seq<FileRecord>): (m: int32)
    requires records != []
    ensures forall i :: 0 <= i < |records| ==> m <= records[i].date
    ensures exists i :: 0 <= i < |records| && m == records[i].date
  {
    if |records| == 1 then records[0].date
    else
      var rest := MinDate(records[1..]);
      assert forall i :: 1 <= i < |records| ==> records[i] == records[1..][i - 1];
      if records[0].date <= rest then records[0].date else rest
  }

  /** The offset dates requested, in order, and the list built from the pages. */
  datatype Scan = Scan(offsets: seq<int32>, result: Result<seq<FileRecord>, Error>)

  /** The pagination loop of ListChannelFileInfos, from a cursor and the list gathered so
      far: fetch the page before the cursor and append its records; stop if the list is still
      empty; otherwise move the cursor to the earliest date in the list, and stop when that
      does not move it. The first page is requested at offset 0 with an empty list; from
      then on the cursor is the earliest date of the list, so it only decreases and the scan
      ends. */
  function Paginate(history: History, cursor: int32, acc: seq<FileRecord>): (s: Scan)
    requires acc == [] ==> cursor == 0
    requires acc != [] ==> cursor == MinDate(acc)
    // the first request is at the cursor
    ensures s.offsets != [] && s.offsets[0] == cursor
    decreases if acc == [] then 1 else 0, cursor as int + 0x8000_0000
  {
    match AppendPage(history(cursor), acc)
    case Failure(e) => Scan([cursor], Failure(e))
    case Success(acc') =>
      if acc' == [] then Scan([cursor], Success(acc'))
      else
        var m := MinDate(acc');
        if m == cursor then Scan([cursor], Success(acc'))
        else
          assert acc != [] ==> acc'[..|acc|] == acc && m <= cursor;
          var rest := Paginate(history, m, acc');
          Scan([cursor] + rest.offsets, rest.result)
  }

  /** The record came from a document message of the page served at one of the offsets. */
  predicate FetchedFrom(history: History, offsets: seq<int32>, rec: FileRecord)
  {
    exists i :: 0 <= i < |offsets| && history(offsets[i]).ChannelMessages?
                && rec in FileInfos(history(offsets[i]).messages)
  }

  /** One step of the scan that moves the cursor: the cursor goes to the earliest date of the
      longer list, which is below the old cursor once the list is not empty. */
  lemma PaginateMoves(history: History, cursor: int32, acc: seq<FileRecord>, acc': seq<FileRecord>)
    requires acc == [] ==> cursor == 0
    requires acc != [] ==> cursor == MinDate(acc)
    requires AppendPage(history(cursor), acc) == Success(acc') && acc' != [] && MinDate(acc') != cursor
    ensures acc != [] ==> MinDate(acc') < cursor
    ensures Paginate(history, cursor, acc)
              == var rest := Paginate(history, MinDate(acc'), acc'); Scan([cursor] + rest.offsets, rest.result)
  {
    assert acc != [] ==> acc'[..|acc|] == acc;
  }

  /** Every record of a finished scan was already in the list or came from a page that the
      scan requested. */
  lemma {:induction false} PaginateSound(history: History, cursor: int32, acc: seq<FileRecord>, rec: FileRecord)
    requires acc == [] ==> cursor == 0
    requires acc != [] ==> cursor == MinDate(acc)
    requires Paginate(history, cursor, acc).result.Success?
    requires rec in Paginate(history, cursor, acc).result.value
    ensures rec in acc || FetchedFrom(history, Paginate(history, cursor, acc).offsets, rec)
    decreases if acc == [] then 1 else 0, cursor as int + 0x8000_0000
  {
    var s := Paginate(history, cursor, acc);
    var page := FileInfos(history(cursor).messages);
    var acc' := acc + page;
    if rec !in acc {
      if acc' != [] && MinDate(acc') != cursor {
        var m := MinDate(acc');
        PaginateMoves(history, cursor, acc, acc');
        var rest := Paginate(history, m, acc');
        if rec !in page {
          PaginateSound(history, m, acc', rec);
        }
        FetchedFromCons(history, cursor, rest.offsets, rec);
      } else {
        assert s == Scan([cursor], Success(acc'));
        assert [cursor] + [] == s.offsets;
        FetchedFromCons(history, cursor, [], rec);
      }
    }
  }

  /** The requested offsets start at the starting cursor, and every later one is below the
      one before it; only the step away from the starting offset 0 of an empty list may go
      up. */
  lemma {:induction false} PaginateDescends(history: History, cursor: int32, acc: seq<FileRecord>)
    requires acc == [] ==> cursor == 0
    requires acc != [] ==> cursor == MinDate(acc)
    ensures var o := Paginate(history, cursor, acc).offsets;
            && o != [] && o[0] == cursor
            && forall i :: 0 <= i < |o| - 1 && (acc != [] || i > 0) ==> o[i + 1] < o[i]
    decreases if acc == [] then 1 else 0, cursor as int + 0x8000_0000
  {
    var o := Paginate(history, cursor, acc).offsets;
    var reply := AppendPage(history(cursor), acc);
    if reply.Success? && reply.value != [] && MinDate(reply.value) != cursor {
      var acc' := reply.value;
      var m := MinDate(acc');
      PaginateMoves(history, cursor, acc, acc');
      PaginateDescends(history, m, acc');
      var ro := Paginate(history, m, acc').offsets;
      assert o == [cursor] + ro;
      forall i | 0 <= i < |o| - 1 && (acc != [] || i > 0) ensures o[i + 1] < o[i] {
        if i == 0 {
          assert o[1] == ro[0] == m;
        } else {
          assert o[i + 1] == ro[i] && o[i] == ro[i - 1];
        }
      }
    }
  }

  /** The fixed point: when the scan succeeds with a non-empty list, the last offset it
      requested is the earliest date of that list, so one more request would not move the
      cursor. */
  lemma {:induction false} PaginateFixedPoint(history: History, cursor: int32, acc: seq<FileRecord>)
    requires acc == [] ==> cursor == 0
    requires acc != [] ==> cursor == MinDate(acc)
    ensures var s := Paginate(history, cursor, acc);
            s.result.Success? && s.result.value != [] ==>
              s.offsets != [] && s.offsets[|s.offsets| - 1] == MinDate(s.result.value)
    decreases if acc == [] then 1 else 0, cursor as int + 0x8000_0000
  {
    var reply := AppendPage(history(cursor), acc);
    if reply.Success? && reply.value != [] && MinDate(reply.value) != cursor {
      var acc' := reply.value;
      var m := MinDate(acc');
      PaginateMoves(history, cursor, acc, acc');
      PaginateFixedPoint(history, m, acc');
    }
  }

  /** If the first page yields no record, the scan stops after that one request with an
      empty list. */
  lemma PaginateStopsOnEmptyFirstPage(history: History)
    requires AppendPage(history(0), []) == Success([])
    ensures Paginate(history, 0, []) == Scan([0], Success([]))
  {
  }

  /** A finished scan keeps the list it started from as a prefix of its result. */
  lemma {:induction false} PaginateKeeps(history: History, cursor: int32, acc: seq<FileRecord>)
    requires acc == [] ==> cursor == 0
    requires acc != [] ==> cursor == MinDate(acc)
    requires Paginate(history, cursor, acc).result.Success?
    ensures acc <= Paginate(history, cursor, acc).result.value
    decreases if acc == [] then 1 else 0, cursor as int + 0x8000_0000
  {
    var acc' := acc + FileInfos(history(cursor).messages);
    if acc' != [] && MinDate(acc') != cursor {
      PaginateMoves(history, cursor, acc, acc');
      PaginateKeeps(history, MinDate(acc'), acc');
    }
  }

  /** Completeness, the converse of PaginateSound: every record of every page a finished
      scan requested is in its result. */
  lemma {:induction false} PaginateComplete(history: History, cursor: int32, acc: seq<FileRecord>, rec: FileRecord)
    requires acc == [] ==> cursor == 0
    requires acc != [] ==> cursor == MinDate(acc)
    requires Paginate(history, cursor, acc).result.Success?
    requires FetchedFrom(history, Paginate(history, cursor, acc).offsets, rec)
    ensures rec in Paginate(history, cursor, acc).result.value
    decreases if acc == [] then 1 else 0, cursor as int + 0x8000_0000
  {
    var s := Paginate(history, cursor, acc);
    var page := FileInfos(history(cursor).messages);
    var acc' := acc + page;
    if acc' != [] && MinDate(acc') != cursor {
      var m := MinDate(acc');
      PaginateMoves(history, cursor, acc, acc');
      var rest := Paginate(history, m, acc');
      FetchedFromFirst(history, cursor, rest.offsets, rec);
      if rec in page {
        PaginateKeeps(history, m, acc');
        assert rec in acc';
      } else {
        PaginateComplete(history, m, acc', rec);
      }
    } else {
      assert s == Scan([cursor], Success(acc'));
      assert [cursor] + [] == s.offsets;
      FetchedFromFirst(history, cursor, [], rec);
    }
  }

  /** A record of the page at the cursor, or one fetched from the other offsets, is fetched
      from the offsets [cursor] + more. */
  lemma FetchedFromCons(history: History, cursor: int32, more: seq<int32>, rec: FileRecord)
    requires history(cursor).ChannelMessages?
    requires rec in FileInfos(history(cursor).messages) || FetchedFrom(history, more, rec)
    ensures FetchedFrom(history, [cursor] + more, rec)
  {
    var o := [cursor] + more;
    if rec in FileInfos(history(cursor).messages) {
      assert o[0] == cursor;
    } else {
      var i :| 0 <= i < |more| && history(more[i]).ChannelMessages? && rec in FileInfos(history(more[i]).messages);
      assert o[i + 1] == more[i];
    }
  }

  /** A record fetched from the offsets [cursor] + more came from the page at the cursor or
      from one at the other offsets. */
  lemma FetchedFromFirst(history: History, cursor: int32, more: seq<int32>, rec: FileRecord)
    requires FetchedFrom(history, [cursor] + more, rec)
    ensures (history(cursor).ChannelMessages? && rec in FileInfos(history(cursor).messages))
            || FetchedFrom(history, more, rec)
  {
    var offsets := [cursor] + more;
    var i :| 0 <= i < |offsets| && history(offsets[i]).ChannelMessages? && rec in FileInfos(history(offsets[i]).messages);
    if i > 0 {
      assert offsets[i] == more[i - 1];
    }
  }

  /** No element occurs twice. */
  predicate NoDuplicates<T(==)>(s: seq<T>)
  {
    forall i, j :: 0 <= i < j < |s| ==> s[i] != s[j]
  }

  /** Enumerable.Distinct: the first occurrence of every element, in order. */
  function Distinct<T(==)>(s: seq<T>): (r: seq<T>)
    ensures NoDuplicates(r)
    ensures forall i :: 0 <= i < |r| ==> r[i] in s
    ensures forall i :: 0 <= i < |s| ==> s[i] in r
  {
    if s == [] then []
    else
      var d := Distinct(s[..|s| - 1]);
      assert forall i :: 0 <= i < |s| - 1 ==> s[i] == s[..|s| - 1][i];
      if s[|s| - 1] in d then d else d + [s[|s| - 1]]
  }

  /** A list without duplicates is left as it is. */
  lemma {:induction false} DistinctKeepsUnique<T>(s: seq<T>)
    requires NoDuplicates(s)
    ensures Distinct(s) == s
  {
    if s != [] {
      DistinctKeepsUnique(s[..|s| - 1]);
      assert s[|s| - 1] !in s[..|s| - 1];
    }
  }

  /** Distinct keeps the first occurrences in their original order: its result is a
      subsequence of the input, picked at the increasing positions `idx`. */
  lemma {:induction false} DistinctIsSubsequence<T>(s: seq<T>) returns (idx: seq<nat>)
    ensures |idx| == |Distinct(s)|
    ensures forall k :: 0 <= k < |idx| ==> idx[k] < |s| && s[idx[k]] == Distinct(s)[k]
    ensures forall k, l :: 0 <= k < l < |idx| ==> idx[k] < idx[l]
  {
    if s == [] {
      idx := [];
    } else {
      var p := s[..|s| - 1];
      idx := DistinctIsSubsequence(p);
      if s[|s| - 1] !in Distinct(p) {
        idx := idx + [|s| - 1];
      }
    }
  }

  /** The records of the channel as ListChannelFileInfos returns them: the scan's list without
      duplicates. */
  function ListFiles(history: History): (r: Result<seq<FileRecord>, Error>)
    ensures r.Success? ==> NoDuplicates(r.value)
    ensures r.Failure? <==> Paginate(history, 0, []).result.Failure?
  {
    match Paginate(history, 0, []).result
    case Success(records) => Success(Distinct(records))
    case Failure(e) => Failure(e)
  }

  /** The listing holds no record twice; a record is in it exactly when it was built from a
      document message of a page the scan requested; and the first record with any name is
      the same as in the scan's list before duplicates were dropped. */
  lemma ListFilesSound(history: History)
    requires ListFiles(history).Success?
    ensures NoDuplicates(ListFiles(history).value)
    ensures forall rec :: rec in ListFiles(history).value <==>
              FetchedFrom(history, Paginate(history, 0, []).offsets, rec)
    ensures forall rec :: rec in ListFiles(history).value <==> rec in Paginate(history, 0, []).result.value
    ensures forall name :: FirstNamed(ListFiles(history).value, name) == FirstNamed(Paginate(history, 0, []).result.value, name)
  {
    var records := Paginate(history, 0, []).result.value;
    assert forall rec :: rec in records ==> rec in Distinct(records) by {
      forall rec | rec in records ensures rec in Distinct(records) {
        var i :| 0 <= i < |records| && records[i] == rec;
      }
    }
    forall rec | rec in ListFiles(history).value
      ensures FetchedFrom(history, Paginate(history, 0, []).offsets, rec)
    {
      PaginateSound(history, 0, [], rec);
    }
    forall rec | FetchedFrom(history, Paginate(history, 0, []).offsets, rec)
      ensures rec in ListFiles(history).value
    {
      PaginateComplete(history, 0, [], rec);
    }
    forall name ensures FirstNamed(Distinct(records), name) == FirstNamed(records, name) {
      DistinctFirstNamed(records, name);
    }
  }

  /** Enumerable.First and FirstOrDefault with the predicate `fi.Name == name`: the first
      record with that name, or None when no record has it. */
  function FirstNamed(records: seq<FileRecord>, name: string): (r: Option<FileRecord>)
    ensures r.None? <==> forall i :: 0 <= i < |records| ==> records[i].name != name
    ensures r.Some? ==>
              exists i :: 0 <= i < |records| && records[i] == r.value && r.value.name == name
                && forall j :: 0 <= j < i ==> records[j].name != name
  {
    if records == [] then None
    else if records[0].name == name then Some(records[0])
    else
      var r := FirstNamed(records[1..], name);
      assert forall i :: 1 <= i < |records| ==> records[i] == records[1..][i - 1];
      r
  }

  /** The first record with a name in a list extended by one record. */
  lemma {:induction false} FirstNamedSnoc(records: seq<FileRecord>, x: FileRecord, name: string)
    ensures FirstNamed(records + [x], name) ==
              if FirstNamed(records, name).Some? then FirstNamed(records, name)
              else if x.name == name then Some(x) else None
  {
    if records != [] {
      assert (records + [x])[1..] == records[1..] + [x];
      FirstNamedSnoc(records[1..], x, name);
    } else {
      assert [] + [x] == [x];
    }
  }

  /** Distinct keeps first occurrences: the first record with a name is the same before and
      after duplicates are dropped, so Get and Delete pick the same message either way. */
  lemma {:induction false} DistinctFirstNamed(records: seq<FileRecord>, name: string)
    ensures FirstNamed(Distinct(records), name) == FirstNamed(records, name)
  {
    if records != [] {
      var p := records[..|records| - 1];
      var x := records[|records| - 1];
      assert records == p + [x];
      DistinctFirstNamed(p, name);
      FirstNamedSnoc(p, x, name);
      var d := Distinct(p);
      if x !in d {
        FirstNamedSnoc(d, x, name);
      } else if x.name == name {
        var i :| 0 <= i < |d| && d[i] == x;
        assert FirstNamed(d, name).Some?;
      }
    }
  }

  /** The pagination loop of ListChannelFileInfos. */
  method CollectHistory(history: History) returns (r: Result<seq<FileRecord>, Error>)
    ensures r == Paginate(history, 0, []).result
  {
    var result: seq<FileRecord> := [];
    var oldMinDate: int32 := 0;
    var newMinDate: Option<int32> := None;
    while newMinDate != Some(oldMinDate)
      invariant newMinDate.None? ==> oldMinDate == 0 && result == []
      invariant newMinDate.Some? ==> result != [] && newMinDate.value == MinDate(result)
      invariant newMinDate.Some? ==>
                  Paginate(history, 0, []).result ==
                    (if oldMinDate == newMinDate.value then Success(result)
                     else Paginate(history, newMinDate.value, result).result)
      decreases if newMinDate.None? then 1 else 0,
                if newMinDate.None? then 0 else newMinDate.value as int + 0x8000_0000,
                if newMinDate == Some(oldMinDate) then 0 else 1
    {
      oldMinDate := if newMinDate.Some? then newMinDate.value else 0;
      var page := RetrieveMessages(history(oldMinDate), result);
      if page.Failure? {
        return Failure(page.error);
      }
      assert result != [] ==> page.value[..|result|] == result && MinDate(page.value) <= oldMinDate;
      result := page.value;
      if result == [] {
        break;
      }
      newMinDate := Some(MinDate(result));
    }
    return Success(result);
  }
}
