/** The Telegram storage backend: a channel of the user's account holds one message per
    backup file, the file attached as a document whose caption is the file's name. */
module Backend {
  import opened Wrappers
  import opened Errors
  import opened Configuration
  import opened FileIndex
  import opened Transfer
  import opened Channels
  import opened Connection
  import opened Authentication
  import opened Guard

  /** The phone code hash, a static field of the backend: every backend object of the
      process shares it. */
  class PendingAuth {
    var phoneCodeHash: Option<string>

    constructor ()
      ensures phoneCodeHash.None?
    {
      phoneCodeHash := None;
    }
  }

  /** The request that deletes messages from a channel. */
  datatype DeleteRequest = DeleteRequest(channelId: int, accessHash: int, ids: seq<int32>)

  /** The request that creates the backup channel. */
  datatype CreateRequest = CreateRequest(broadcast: bool, megagroup: bool, title: string, about: string)

  /** GetChannel: the cached channel if there is one, else the first channel whose title is
      the channel name among the chats GetChats enumerates, or null. */
  function Lookup(cache: Option<ChannelInfo>, dialogs: DialogServer, title: string, fuel: nat): (r: Result<Option<ChannelInfo>, Error>)
    ensures cache.Some? ==> r == Success(cache)
    ensures cache.None? && r.Success? && r.value.Some? ==> r.value.value.title == title
  {
    if cache.Some? then Success(cache) else FirstOrDefaultChannel(GetChats(dialogs, 0, fuel), title)
  }

  /** The cache after GetChannel: what it held, else what the scan found unless it threw.
      A lookup from the new cache answers as the lookup that filled it, and a second
      GetChannel leaves the cache as the first one left it. */
  function CacheAfter(cache: Option<ChannelInfo>, dialogs: DialogServer, title: string, fuel: nat): (c: Option<ChannelInfo>)
    ensures cache.Some? ==> c == cache
    ensures Lookup(c, dialogs, title, fuel) == Lookup(cache, dialogs, title, fuel)
  {
    if cache.Some? then cache
    else
      var r := Lookup(None, dialogs, title, fuel);
      if r.Success? then r.value else None
  }

  /** A second GetChannel leaves the cache as the first one left it. */
  lemma CacheAfterSettles(cache: Option<ChannelInfo>, dialogs: DialogServer, title: string, fuel: nat)
    ensures var c := CacheAfter(cache, dialogs, title, fuel);
            CacheAfter(c, dialogs, title, fuel) == c
  {
  }

  /** What one run of a guarded body is served: the account's dialogs, the channel's history,
      and what the operation's own request meets (a file server for Get, the answer to the
      delete request for Delete). A rerun after a flood wait asks Telegram again, so every
      run is served anew. */
  datatype Round<R> = Round(dialogs: DialogServer, history: History, remote: R)

  /** The runs of a guarded call: the cache it starts from, what each run is served, and the
      channel name and request bound that every run uses. */
  datatype Script<R> = Script(cache: Option<ChannelInfo>, rounds: seq<Round<R>>, title: string, fuel: nat)

  /** The cache after the first k runs, each of which starts with GetChannel: what the
      GetChannel of the last run returned, or nothing when it threw. */
  function CacheAfterRuns<R>(s: Script<R>, k: nat): (c: Option<ChannelInfo>)
    requires k <= |s.rounds|
    decreases k, 0
  {
    if k == 0 then s.cache
    else
      var r := ChannelAt(s, k - 1);
      if r.Success? then r.value else None
  }

  /** The channel run k resolves: the cached one, else what its own scan of the dialogs
      finds. */
  function ChannelAt<R>(s: Script<R>, k: nat): Result<Option<ChannelInfo>, Error>
    requires k < |s.rounds|
    decreases k, 1
  {
    Lookup(CacheAfterRuns(s, k), s.rounds[k].dialogs, s.title, s.fuel)
  }

  /** Each run leaves the cache as one GetChannel on that run's dialogs leaves it. */
  lemma CacheAfterRunsStep<R>(s: Script<R>, k: nat)
    requires k < |s.rounds|
    ensures CacheAfterRuns(s, k + 1) == CacheAfter(CacheAfterRuns(s, k), s.rounds[k].dialogs, s.title, s.fuel)
  {
  }

  /** Once a run has set the cache it stays set: every later run resolves that channel
      without a request. */
  lemma {:induction false} CacheStays<R>(s: Script<R>, j: nat, k: nat)
    requires j <= k <= |s.rounds| && CacheAfterRuns(s, j).Some?
    ensures CacheAfterRuns(s, k) == CacheAfterRuns(s, j)
    ensures k < |s.rounds| ==> ChannelAt(s, k) == Success(CacheAfterRuns(s, j))
    decreases k
  {
    if k > j {
      CacheStays(s, j, k - 1);
    }
  }

  /** ListChannelFileInfos once GetChannel has answered: a null channel fails on its id, a
      channel without an access hash fails on reading it, and otherwise the channel's
      history is listed. */
  function ListOn(channel: Result<Option<ChannelInfo>, Error>, history: History): (r: Result<seq<FileRecord>, Error>)
    ensures r.Success? ==> channel.Success? && channel.value.Some? && channel.value.value.accessHash.Some?
    ensures channel.Success? && channel.value.None? ==> r == Failure(NullReference)
    ensures channel.Success? && channel.value.Some? && channel.value.value.accessHash.None? ==>
              r == Failure(InvalidOperation(NullableWithoutValue))
  {
    match channel
    case Failure(e) => Failure(e)
    case Success(None) => Failure(NullReference)
    case Success(Some(c)) =>
      if c.accessHash.None? then Failure(InvalidOperation(NullableWithoutValue))
      else ListFiles(history)
  }

  /** Delete once GetChannel has answered: the request for the first message whose record
      has the name, none when no record has it, or the error that stops the listing. */
  function DeletePlan(channel: Result<Option<ChannelInfo>, Error>, history: History, name: string): (r: Result<Option<DeleteRequest>, Error>)
    ensures r.Failure? <==> ListOn(channel, history).Failure?
    ensures r.Success? && r.value.Some? ==> |r.value.value.ids| == 1
  {
    match ListOn(channel, history)
    case Failure(e) => Failure(e)
    case Success(records) =>
      match FirstNamed(records, name)
      case None => Success(None)
      case Some(rec) =>
        var c := channel.value.value;
        Success(Some(DeleteRequest(c.id, c.accessHash.value, [rec.messageId])))
  }

  /** Deleting a name that no listed record has sends nothing and succeeds; otherwise exactly
      one message is deleted, that of the first record with the name, in the resolved
      channel. */
  lemma DeletePlanTargets(channel: Result<Option<ChannelInfo>, Error>, history: History, name: string)
    ensures var listing := ListOn(channel, history);
            var plan := DeletePlan(channel, history, name);
            (plan.Failure? <==> listing.Failure?)
            && (listing.Success? ==>
                  (plan == Success(None) <==> forall i :: 0 <= i < |listing.value| ==> listing.value[i].name != name))
            && (plan.Success? && plan.value.Some? ==>
                  var req := plan.value.value;
                  var c := channel.value.value;
                  req.channelId == c.id && Some(req.accessHash) == c.accessHash && |req.ids| == 1
                  && exists i :: 0 <= i < |listing.value| && listing.value[i].messageId == req.ids[0]
                       && listing.value[i].name == name
                       && forall j :: 0 <= j < i ==> listing.value[j].name != name)
  {
  }

  /** The listing run k of Get works on. */
  function ListingAt(s: Script<FileServer>, k: nat): Result<seq<FileRecord>, Error>
    requires k < |s.rounds|
  {
    ListOn(ChannelAt(s, k), s.rounds[k].history)
  }

  /** What the first n runs of Get's body download: run k resolves the channel and lists the
      files anew, then downloads from its own server. */
  function Downloads(s: Script<FileServer>, name: string, n: nat): (d: seq<Download>)
    requires n <= |s.rounds|
    ensures |d| == n
  {
    if n == 0 then []
    else Downloads(s, name, n - 1) + [GetFile(ListingAt(s, n - 1), name, s.rounds[n - 1].remote, s.fuel)]
  }

  /** Run k of Get's body is its own download, whatever the runs after it do. */
  lemma {:induction false} DownloadsAt(s: Script<FileServer>, name: string, n: nat, k: nat)
    requires k < n <= |s.rounds|
    ensures Downloads(s, name, n)[k] == GetFile(ListingAt(s, k), name, s.rounds[k].remote, s.fuel)
    decreases n
  {
    if k < n - 1 {
      DownloadsAt(s, name, n - 1, k);
    }
  }

  /** How a run of Get's body ends under SafeExecute: it returns when its download did, and
      raises what stopped the download otherwise. */
  function GetRuns(downloads: seq<Download>): (a: seq<Attempt<()>>)
    ensures |a| == |downloads|
    ensures forall k :: 0 <= k < |a| ==> (a[k].Returned? <==> downloads[k].failure.None?)
    ensures forall k :: 0 <= k < |a| && a[k].Raised? ==> a[k].error == downloads[k].failure.value
  {
    seq(|downloads|, k requires 0 <= k < |downloads| =>
      if downloads[k].failure.None? then Returned(()) else Raised(downloads[k].failure.value))
  }

  /** The output stream after the first n runs of Get's body. Each run writes the bytes of its
      download after what the stream already holds; `rewind` empties the stream before each
      run instead. */
  function Stream(downloads: seq<Download>, rewind: bool, n: nat): seq<byte>
    requires n <= |downloads|
  {
    if n == 0 then []
    else if rewind then downloads[n - 1].written
    else Stream(downloads, rewind, n - 1) + downloads[n - 1].written
  }

  /** Where Get stands after `k` runs that all met a flood wait. */
  ghost predicate GetProgress(downloads: seq<Download>, jitter: nat -> Jitter, rewind: bool, k: nat, slept: nat, written: seq<byte>)
    requires k <= |downloads|
  {
    Waited(GetRuns(downloads), jitter, true, k, slept) && written == Stream(downloads, rewind, k)
  }

  /** Run k of Get either ends the guarded call or moves it on to run k + 1. */
  lemma GetProgressNext(downloads: seq<Download>, jitter: nat -> Jitter, rewind: bool,
                        k: nat, slept: nat, written: seq<byte>, attempt: Attempt<()>)
    requires k < |downloads| && GetProgress(downloads, jitter, rewind, k, slept, written)
    requires attempt == GetRuns(downloads)[k]
    ensures var w := downloads[k].written;
            var next := if rewind then w else written + w;
            (IsFlood(attempt) ==>
               GetProgress(downloads, jitter, rewind, k + 1, slept + Pause(attempt.error.seconds, jitter(k), true), next))
            && (!IsFlood(attempt) ==>
                  Guarded(GetRuns(downloads), jitter, true, 0) == Run(Settle(attempt), k + 1, slept)
                  && next == Stream(downloads, rewind, k + 1))
  {
    var attempts := GetRuns(downloads);
    if IsFlood(attempt) {
      WaitedStep(attempts, jitter, true, k, slept);
    } else {
      WaitedStop(attempts, jitter, true, k, slept);
    }
  }

  /** Flood waits in every run leave Get unfinished. */
  lemma GetProgressEnd(downloads: seq<Download>, jitter: nat -> Jitter, rewind: bool, slept: nat, written: seq<byte>)
    requires GetProgress(downloads, jitter, rewind, |downloads|, slept, written)
    ensures Guarded(GetRuns(downloads), jitter, true, 0) == Run(Failure(Unfinished), |downloads|, slept)
    ensures written == Stream(downloads, rewind, |downloads|)
  {
    WaitedEnd(GetRuns(downloads), jitter, true, slept);
  }

  /** A server holding `data` that sends the first chunk and then answers every request with
      a flood wait of 3 seconds. */
  function FloodingServer(data: seq<byte>): FileServer
  {
    (loc: FileLocation, k: nat, off: int) =>
      if k == 0 && 0 <= off < |data| then Chunk(data[off..Min(off + ChunkLimit, |data|)]) else ChunkFault(Flood(3))
  }

  /** A server holding `data` that never fails. */
  function ReliableServer(data: seq<byte>): FileServer
  {
    (loc: FileLocation, k: nat, off: int) =>
      if 0 <= off < |data| then Chunk(data[off..Min(off + ChunkLimit, |data|)]) else Chunk([])
  }

  /** The flooding server sends only right chunks of `data`, and the reliable server sends
      every chunk of it. */
  lemma RerunServers(data: seq<byte>, loc: FileLocation)
    ensures Delivers(FloodingServer(data), loc, data) && ServesReliably(ReliableServer(data), loc, data)
  {
  }

  /** Get of a file longer than one chunk from the flooding server writes the first chunk and
      then meets a flood wait; from the reliable server it writes the whole file. */
  lemma RerunDownloads(data: seq<byte>, rec: FileRecord, fuel: nat)
    requires ChunkLimit < |data| && rec.size as int == |data| && fuel >= ChunksNeeded(|data|)
    ensures GetFile(Success([rec]), rec.name, FloodingServer(data), fuel) == Download(data[..ChunkLimit], Some(Flood(3)))
    ensures GetFile(Success([rec]), rec.name, ReliableServer(data), fuel) == Download(data, None)
  {
    var loc := LocationOf(rec);
    var flooding := FloodingServer(data);
    assert FirstNamed([rec], rec.name) == Some(rec);
    assert ChunksNeeded(|data|) >= 2 by {
      assert ChunksNeeded(|data| - ChunkLimit) >= 1;
    }
    assert flooding(loc, 1, ChunkLimit) == ChunkFault(Flood(3));
    assert Fetch(flooding, loc, |data|, ChunkLimit, 1, fuel) == Download([], Some(Flood(3)));
    assert Min(0 + ChunkLimit, |data|) == ChunkLimit;
    assert data[0..ChunkLimit] == data[..ChunkLimit];
    assert flooding(loc, 0, 0) == Chunk(data[..ChunkLimit]);
    RerunServers(data, loc);
    FetchCompletes(ReliableServer(data), loc, data, 0, 0, fuel);
  }

  /** The rerun after a flood wait writes the file again after the bytes the interrupted run
      already wrote. Take two runs that both list the file, a file longer than one chunk: the
      first download is cut by a flood wait after one chunk and the second succeeds. Get
      reports success, and the stream holds the first chunk followed by the whole file. */
  lemma GetRerunRepeatsBytes(s: Script<FileServer>, data: seq<byte>, rec: FileRecord, jitter: nat -> Jitter)
    requires ChunkLimit < |data| && rec.size as int == |data| && s.fuel >= ChunksNeeded(|data|)
    requires |s.rounds| == 2 && s.rounds[0].remote == FloodingServer(data) && s.rounds[1].remote == ReliableServer(data)
    requires ListingAt(s, 0) == Success([rec]) && ListingAt(s, 1) == Success([rec])
    ensures var downloads := Downloads(s, rec.name, 2);
            && Guarded(GetRuns(downloads), jitter, true, 0) == Run(Success(()), 2, 3 + jitter(0))
            && Stream(downloads, false, 2) == data[..ChunkLimit] + data
            && Stream(downloads, false, 2) != data
  {
    var downloads := Downloads(s, rec.name, 2);
    RerunDownloads(data, rec, s.fuel);
    DownloadsAt(s, rec.name, 2, 0);
    DownloadsAt(s, rec.name, 2, 1);
    assert downloads == [downloads[0], downloads[1]];
    RerunAppends(downloads, data, jitter);
  }

  /** Two runs, the first writing one chunk before a flood wait and the second the whole
      file: Get succeeds after one wait and the stream holds both writes. */
  lemma RerunAppends(downloads: seq<Download>, data: seq<byte>, jitter: nat -> Jitter)
    requires ChunkLimit < |data|
    requires downloads == [Download(data[..ChunkLimit], Some(Flood(3))), Download(data, None)]
    ensures Guarded(GetRuns(downloads), jitter, true, 0) == Run(Success(()), 2, 3 + jitter(0))
    ensures Stream(downloads, false, 2) == data[..ChunkLimit] + data != data
  {
    assert Stream(downloads, false, 1) == [] + data[..ChunkLimit] == data[..ChunkLimit];
    assert |data[..ChunkLimit] + data| != |data|;
  }

  /** Run k lists a record with the name whose size is the data's length and whose document
      run k's server sends only right chunks of, when it lists one at all. */
  ghost predicate ServesFileAt(s: Script<FileServer>, name: string, data: seq<byte>, k: nat)
    requires k < |s.rounds|
  {
    var listing := ListingAt(s, k);
    listing.Success? && FirstNamed(listing.value, name).Some? ==>
      var rec := FirstNamed(listing.value, name).value;
      rec.size as int == |data| && Delivers(s.rounds[k].remote, LocationOf(rec), data)
  }

  /** With the stream rewound before each rerun, a Get that succeeds leaves exactly the file
      in the stream, whatever flood waits and other failures interrupted the runs before,
      as long as every chunk the servers send is a right one. */
  lemma RestartedGetWritesFile(s: Script<FileServer>, name: string, jitter: nat -> Jitter, data: seq<byte>)
    requires forall k :: 0 <= k < |s.rounds| ==> ServesFileAt(s, name, data, k)
    ensures var downloads := Downloads(s, name, |s.rounds|);
            var g := Guarded(GetRuns(downloads), jitter, true, 0);
            g.result.Success? ==> Stream(downloads, true, g.runs) == data
  {
    var attempts := GetRuns(Downloads(s, name, |s.rounds|));
    var g := Guarded(attempts, jitter, true, 0);
    GuardedSettles(attempts, jitter, true, 0);
    var n := Floods(attempts, 0);
    if g.result.Success? {
      assert n < |attempts| && attempts[n].Returned?;
      DownloadsAt(s, name, |s.rounds|, n);
      var listing := ListingAt(s, n);
      assert ServesFileAt(s, name, data, n);
      var rec := FirstNamed(listing.value, name).value;
      FetchWritesPrefix(s.rounds[n].remote, LocationOf(rec), data, 0, 0, s.fuel);
      assert data[0..] == data;
    }
  }

  /** A flood wait met while resolving the channel is cleared by the rerun, which scans the
      dialogs again: when the scan of run 0 throws a flood wait and run 1 downloads without
      error, Get succeeds after two runs and one wait. */
  lemma GetRerunResolvesAgain(s: Script<FileServer>, name: string, jitter: nat -> Jitter)
    requires |s.rounds| >= 2 && ChannelAt(s, 0).Failure? && ChannelAt(s, 0).error.Flood?
    requires GetFile(ListingAt(s, 1), name, s.rounds[1].remote, s.fuel).failure.None?
    ensures s.cache.None? && CacheAfterRuns(s, 1).None?
    ensures Guarded(GetRuns(Downloads(s, name, |s.rounds|)), jitter, true, 0)
            == Run(Success(()), 2, ChannelAt(s, 0).error.seconds + jitter(0))
  {
    DownloadsAt(s, name, |s.rounds|, 0);
    DownloadsAt(s, name, |s.rounds|, 1);
  }

  /** What a run of Delete's body does, given the server's answer to its request. */
  function DeleteAttempt(plan: Result<Option<DeleteRequest>, Error>, reply: Outcome<Error>): Attempt<()>
  {
    match plan
    case Failure(e) => Raised(e)
    case Success(None) => Returned(())
    case Success(Some(_)) => AttemptOf(reply)
  }

  /** What the first n runs of Delete's body plan: run k resolves the channel and lists the
      files anew. Every planned request deletes one message. */
  function Plans(s: Script<Outcome<Error>>, name: string, n: nat): (p: seq<Result<Option<DeleteRequest>, Error>>)
    requires n <= |s.rounds|
    ensures |p| == n
    ensures forall k :: 0 <= k < n && p[k].Success? && p[k].value.Some? ==> |p[k].value.value.ids| == 1
  {
    if n == 0 then []
    else Plans(s, name, n - 1) + [DeletePlan(ChannelAt(s, n - 1), s.rounds[n - 1].history, name)]
  }

  /** Run k of Delete's body follows its own plan, whatever the runs after it do. */
  lemma {:induction false} PlansAt(s: Script<Outcome<Error>>, name: string, n: nat, k: nat)
    requires k < n <= |s.rounds|
    ensures Plans(s, name, n)[k] == DeletePlan(ChannelAt(s, k), s.rounds[k].history, name)
    decreases n
  {
    if k < n - 1 {
      PlansAt(s, name, n - 1, k);
    }
  }

  /** The runs of Delete's body under SafeExecute: run k follows plans[k] and meets the answer
      rounds[k] gives to its request. */
  function DeleteRuns(plans: seq<Result<Option<DeleteRequest>, Error>>, rounds: seq<Round<Outcome<Error>>>): (a: seq<Attempt<()>>)
    requires |plans| == |rounds|
    ensures |a| == |plans|
    ensures forall k :: 0 <= k < |a| && plans[k].Failure? ==> a[k] == Raised(plans[k].error)
    ensures forall k :: 0 <= k < |a| && plans[k] == Success(None) ==> a[k] == Returned(())
    ensures forall k :: 0 <= k < |a| && plans[k].Success? && plans[k].value.Some? ==> a[k] == AttemptOf(rounds[k].remote)
  {
    seq(|plans|, k requires 0 <= k < |plans| => DeleteAttempt(plans[k], rounds[k].remote))
  }

  /** What one run of Delete's body sends. */
  function Sent(plan: Result<Option<DeleteRequest>, Error>): seq<DeleteRequest>
  {
    if plan.Success? && plan.value.Some? then [plan.value.value] else []
  }

  /** The requests sent by the first n runs of Delete's body: each run sends the one its plan
      holds, if any, so every request sent is one that a run planned. */
  function Requests(plans: seq<Result<Option<DeleteRequest>, Error>>, n: nat): (r: seq<DeleteRequest>)
    requires n <= |plans|
    ensures |r| <= n
    ensures forall i :: 0 <= i < |r| ==> Success(Some(r[i])) in plans[..n]
  {
    if n == 0 then []
    else
      var r := Requests(plans, n - 1) + Sent(plans[n - 1]);
      assert plans[..n] == plans[..n - 1] + [plans[n - 1]];
      r
  }

  /** Where Delete stands after `k` runs that all met a flood wait. */
  ghost predicate DeleteProgress(plans: seq<Result<Option<DeleteRequest>, Error>>, rounds: seq<Round<Outcome<Error>>>,
                                 jitter: nat -> Jitter, k: nat, slept: nat, sent: seq<DeleteRequest>)
    requires |plans| == |rounds| && k <= |plans|
  {
    Waited(DeleteRuns(plans, rounds), jitter, true, k, slept) && sent == Requests(plans, k)
  }

  /** Run k of Delete either ends the guarded call or moves it on to run k + 1. */
  lemma DeleteProgressNext(plans: seq<Result<Option<DeleteRequest>, Error>>, rounds: seq<Round<Outcome<Error>>>,
                           jitter: nat -> Jitter, k: nat, slept: nat, sent: seq<DeleteRequest>, attempt: Attempt<()>)
    requires |plans| == |rounds| && k < |plans| && DeleteProgress(plans, rounds, jitter, k, slept, sent)
    requires attempt == DeleteRuns(plans, rounds)[k]
    ensures IsFlood(attempt) ==>
              DeleteProgress(plans, rounds, jitter, k + 1, slept + Pause(attempt.error.seconds, jitter(k), true),
                             sent + Sent(plans[k]))
    ensures !IsFlood(attempt) ==>
              Guarded(DeleteRuns(plans, rounds), jitter, true, 0) == Run(Settle(attempt), k + 1, slept)
              && sent + Sent(plans[k]) == Requests(plans, k + 1)
  {
    var attempts := DeleteRuns(plans, rounds);
    if IsFlood(attempt) {
      WaitedStep(attempts, jitter, true, k, slept);
    } else {
      WaitedStop(attempts, jitter, true, k, slept);
    }
  }

  /** Flood waits in every run leave Delete unfinished. */
  lemma DeleteProgressEnd(plans: seq<Result<Option<DeleteRequest>, Error>>, rounds: seq<Round<Outcome<Error>>>,
                          jitter: nat -> Jitter, slept: nat, sent: seq<DeleteRequest>)
    requires |plans| == |rounds| && DeleteProgress(plans, rounds, jitter, |plans|, slept, sent)
    ensures Guarded(DeleteRuns(plans, rounds), jitter, true, 0) == Run(Failure(Unfinished), |plans|, slept)
    ensures sent == Requests(plans, |plans|)
  {
    WaitedEnd(DeleteRuns(plans, rounds), jitter, true, slept);
  }

  /** Deleting a name that no record of the first run's listing has is one run that sends
      nothing and returns. */
  lemma DeleteMissingIsNoOp(s: Script<Outcome<Error>>, name: string, jitter: nat -> Jitter)
    requires |s.rounds| > 0 && DeletePlan(ChannelAt(s, 0), s.rounds[0].history, name) == Success(None)
    ensures var plans := Plans(s, name, |s.rounds|);
            Guarded(DeleteRuns(plans, s.rounds), jitter, true, 0) == Run(Success(()), 1, 0)
            && Requests(plans, 1) == []
  {
    PlansAt(s, name, |s.rounds|, 0);
  }

  /** A flood wait in answer to the delete request reruns the whole body, which lists the
      files and sends its request again: when the first two runs both plan a request, the
      first answered by a flood wait and the second by success, two requests are sent. */
  lemma DeleteResendsAfterFlood(s: Script<Outcome<Error>>, name: string, jitter: nat -> Jitter)
    requires |s.rounds| >= 2 && s.rounds[0].remote.Fail? && s.rounds[0].remote.error.Flood? && s.rounds[1].remote.Pass?
    requires var plans := Plans(s, name, |s.rounds|);
             forall k :: 0 <= k < 2 ==> plans[k].Success? && plans[k].value.Some?
    ensures var plans := Plans(s, name, |s.rounds|);
            && Guarded(DeleteRuns(plans, s.rounds), jitter, true, 0)
               == Run(Success(()), 2, s.rounds[0].remote.error.seconds + jitter(0))
            && Requests(plans, 2) == [plans[0].value.value, plans[1].value.value]
  {
  }

  class Telegram {
    const config: Config
    const client: Client
    const pending: PendingAuth
    /** The resolved channel; null until GetChannel finds it. */
    var channelCache: Option<ChannelInfo>

    constructor (config: Config, client: Client, pending: PendingAuth)
      ensures this.config == config && this.client == client && this.pending == pending
      ensures channelCache.None?
    {
      this.config := config;
      this.client := client;
      this.pending := pending;
      channelCache := None;
    }

    /** The constructor with its option dictionary: the options are validated before the
        client is created. */
    static method Open(options: Options, pending: PendingAuth, restoredAuthorized: bool) returns (r: Result<Telegram, Error>)
      ensures r.Success? <==> Configure(options).Success?
      ensures r.Failure? ==> r.error == Configure(options).error
      ensures r.Success? ==>
                fresh(r.value) && r.value.config == Configure(options).value && r.value.pending == pending
                && r.value.channelCache.None? && !r.value.client.connected
                && r.value.client.authorized == restoredAuthorized && r.value.client.saves == 0
    {
      var config := Configure(options);
      if config.Failure? {
        return Failure(config.error);
      }
      var client := new Client(restoredAuthorized);
      var backend := new Telegram(config.value, client, pending);
      return Success(backend);
    }

    /** GetChannel: a cached channel is returned without a request; otherwise the chats are
        scanned and what the scan returns, null included, becomes the cache. */
    method GetChannel(dialogs: DialogServer, fuel: nat) returns (r: Result<Option<ChannelInfo>, Error>)
      modifies this`channelCache
      ensures r == Lookup(old(channelCache), dialogs, config.channelName, fuel)
      ensures channelCache == CacheAfter(old(channelCache), dialogs, config.channelName, fuel)
    {
      if channelCache.Some? {
        return Success(channelCache);
      }
      r := ResolveChannel(dialogs, config.channelName, fuel);
      if r.Success? {
        channelCache := r.value;
      }
    }

    /** ListChannelFileInfos: the channel's document records, without duplicates. */
    method ListChannelFileInfos(dialogs: DialogServer, history: History, fuel: nat) returns (r: Result<seq<FileRecord>, Error>)
      modifies this`channelCache
      ensures r == ListOn(Lookup(old(channelCache), dialogs, config.channelName, fuel), history)
      ensures channelCache == CacheAfter(old(channelCache), dialogs, config.channelName, fuel)
    {
      var channel := GetChannel(dialogs, fuel);
      if channel.Failure? {
        return Failure(channel.error);
      }
      if channel.value.None? {
        return Failure(NullReference);
      }
      if channel.value.value.accessHash.None? {
        return Failure(InvalidOperation(NullableWithoutValue));
      }
      var records := CollectHistory(history);
      if records.Failure? {
        return Failure(records.error);
      }
      return Success(Distinct(records.value));
    }

    /** One run of Get's body: the bytes written to the stream are those of the first listed
        file with the name, downloaded chunk by chunk; a name no record has fails in First. */
    method GetRun(dialogs: DialogServer, history: History, server: FileServer, name: string, fuel: nat)
      returns (written: seq<byte>, failure: Option<Error>)
      modifies this`channelCache
      ensures Download(written, failure) ==
                GetFile(ListOn(Lookup(old(channelCache), dialogs, config.channelName, fuel), history), name, server, fuel)
      ensures channelCache == CacheAfter(old(channelCache), dialogs, config.channelName, fuel)
    {
      var listing := ListChannelFileInfos(dialogs, history, fuel);
      if listing.Failure? {
        return [], Some(listing.error);
      }
      var first := FirstNamed(listing.value, name);
      if first.None? {
        return [], Some(InvalidOperation(NoMatchingElement));
      }
      written, failure := DownloadChunks(server, LocationOf(first.value), first.value.size, fuel);
    }

    /** Run k of Get's body under SafeExecute: what it writes and how it ends. */
    method GetNext(rounds: seq<Round<FileServer>>, name: string, fuel: nat, k: nat, ghost s: Script<FileServer>)
      returns (written: seq<byte>, attempt: Attempt<()>)
      modifies this`channelCache
      requires s.rounds == rounds && s.title == config.channelName && s.fuel == fuel
      requires k < |rounds| && channelCache == CacheAfterRuns(s, k)
      ensures var downloads := Downloads(s, name, |rounds|);
              attempt == GetRuns(downloads)[k] && written == downloads[k].written
      ensures channelCache == CacheAfterRuns(s, k + 1)
    {
      var f;
      written, f := GetRun(rounds[k].dialogs, rounds[k].history, rounds[k].remote, name, fuel);
      DownloadsAt(s, name, |rounds|, k);
      attempt := if f.None? then Returned(()) else Raised(f.value);
    }

    /** Get: the body runs under SafeExecute, run k served by rounds[k]; a flood wait sleeps
        and reruns the whole body, which resolves and lists anew and writes to the same
        stream again. */
    method Get(rounds: seq<Round<FileServer>>, jitter: nat -> Jitter, name: string, fuel: nat)
      returns (r: Outcome<Error>, runs: nat, slept: nat, written: seq<byte>)
      modifies this`channelCache
      ensures var s := Script(old(channelCache), rounds, config.channelName, fuel);
              var downloads := Downloads(s, name, |rounds|);
              var g := Guarded(GetRuns(downloads), jitter, true, 0);
              runs == g.runs && slept == g.slept && r == OutcomeOf(g.result) && written == Stream(downloads, false, runs)
      ensures channelCache == CacheAfterRuns(Script(old(channelCache), rounds, config.channelName, fuel), runs)
    {
      ghost var s := Script(channelCache, rounds, config.channelName, fuel);
      ghost var downloads := Downloads(s, name, |rounds|);
      runs, slept, written := 0, 0, [];
      while runs < |rounds|
        invariant runs <= |rounds|
        invariant channelCache == CacheAfterRuns(s, runs)
        invariant GetProgress(downloads, jitter, false, runs, slept, written)
        decreases |rounds| - runs
      {
        var w, attempt := GetNext(rounds, name, fuel, runs, s);
        GetProgressNext(downloads, jitter, false, runs, slept, written, attempt);
        written := written + w;
        if !IsFlood(attempt) {
          return OutcomeOf(Settle(attempt)), runs + 1, slept, written;
        }
        slept := slept + Pause(attempt.error.seconds, jitter(runs), true);
        runs := runs + 1;
      }
      GetProgressEnd(downloads, jitter, false, slept, written);
      r := Fail(Unfinished);
    }

    /** Get with the stream rewound before every rerun, so that a rerun after a flood wait
        replaces what the interrupted run wrote instead of following it. */
    method GetRestarting(rounds: seq<Round<FileServer>>, jitter: nat -> Jitter, name: string, fuel: nat)
      returns (r: Outcome<Error>, runs: nat, slept: nat, written: seq<byte>)
      modifies this`channelCache
      ensures var s := Script(old(channelCache), rounds, config.channelName, fuel);
              var downloads := Downloads(s, name, |rounds|);
              var g := Guarded(GetRuns(downloads), jitter, true, 0);
              runs == g.runs && slept == g.slept && r == OutcomeOf(g.result) && written == Stream(downloads, true, runs)
      ensures channelCache == CacheAfterRuns(Script(old(channelCache), rounds, config.channelName, fuel), runs)
    {
      ghost var s := Script(channelCache, rounds, config.channelName, fuel);
      ghost var downloads := Downloads(s, name, |rounds|);
      runs, slept, written := 0, 0, [];
      while runs < |rounds|
        invariant runs <= |rounds|
        invariant channelCache == CacheAfterRuns(s, runs)
        invariant GetProgress(downloads, jitter, true, runs, slept, written)
        decreases |rounds| - runs
      {
        var w, attempt := GetNext(rounds, name, fuel, runs, s);
        GetProgressNext(downloads, jitter, true, runs, slept, written, attempt);
        written := w;
        if !IsFlood(attempt) {
          return OutcomeOf(Settle(attempt)), runs + 1, slept, written;
        }
        slept := slept + Pause(attempt.error.seconds, jitter(runs), true);
        runs := runs + 1;
      }
      GetProgressEnd(downloads, jitter, true, slept, written);
      r := Fail(Unfinished);
    }

    /** One run of Delete's body: resolve the channel, list it, and send one delete request
        for the first record with the name; `reply` is the server's answer to that request. */
    method DeleteRun(dialogs: DialogServer, history: History, name: string, reply: Outcome<Error>, fuel: nat)
      returns (sent: Option<DeleteRequest>, r: Outcome<Error>)
      modifies this`channelCache
      ensures var plan := DeletePlan(Lookup(old(channelCache), dialogs, config.channelName, fuel), history, name);
              (plan.Failure? ==> sent.None? && r == Fail(plan.error))
              && (plan.Success? ==> sent == plan.value && r == (if sent.Some? then reply else Pass))
      ensures channelCache == CacheAfter(old(channelCache), dialogs, config.channelName, fuel)
    {
      var channel := GetChannel(dialogs, fuel);
      if channel.Failure? {
        return None, Fail(channel.error);
      }
      var listing := ListChannelFileInfos(dialogs, history, fuel);
      if listing.Failure? {
        return None, Fail(listing.error);
      }
      var first := FirstNamed(listing.value, name);
      if first.None? {
        return None, Pass;
      }
      var c := channel.value.value;
      sent := Some(DeleteRequest(c.id, c.accessHash.value, [first.value.messageId]));
      r := reply;
    }

    /** Run k of Delete's body under SafeExecute: the request it sends and how it ends. */
    method DeleteNext(rounds: seq<Round<Outcome<Error>>>, name: string, fuel: nat, k: nat, ghost s: Script<Outcome<Error>>)
      returns (request: seq<DeleteRequest>, attempt: Attempt<()>)
      modifies this`channelCache
      requires s.rounds == rounds && s.title == config.channelName && s.fuel == fuel
      requires k < |rounds| && channelCache == CacheAfterRuns(s, k)
      ensures var plans := Plans(s, name, |rounds|);
              attempt == DeleteRuns(plans, rounds)[k] && request == Sent(plans[k])
      ensures channelCache == CacheAfterRuns(s, k + 1)
    {
      var sent, r := DeleteRun(rounds[k].dialogs, rounds[k].history, name, rounds[k].remote, fuel);
      PlansAt(s, name, |rounds|, k);
      request := if sent.Some? then [sent.value] else [];
      attempt := AttemptOf(r);
    }

    /** Delete: the body runs under SafeExecute, run k served by rounds[k]; a flood wait
        sleeps and reruns the whole body, which resolves and lists anew and sends its
        request again. */
    method Delete(rounds: seq<Round<Outcome<Error>>>, name: string, jitter: nat -> Jitter, fuel: nat)
      returns (r: Outcome<Error>, runs: nat, slept: nat, sent: seq<DeleteRequest>)
      modifies this`channelCache
      ensures var plans := Plans(Script(old(channelCache), rounds, config.channelName, fuel), name, |rounds|);
              var g := Guarded(DeleteRuns(plans, rounds), jitter, true, 0);
              runs == g.runs && slept == g.slept && r == OutcomeOf(g.result) && sent == Requests(plans, runs)
      ensures channelCache == CacheAfterRuns(Script(old(channelCache), rounds, config.channelName, fuel), runs)
    {
      ghost var s := Script(channelCache, rounds, config.channelName, fuel);
      ghost var plans := Plans(s, name, |rounds|);
      runs, slept, sent := 0, 0, [];
      while runs < |rounds|
        invariant runs <= |rounds|
        invariant channelCache == CacheAfterRuns(s, runs)
        invariant DeleteProgress(plans, rounds, jitter, runs, slept, sent)
        decreases |rounds| - runs
      {
        var request, attempt := DeleteNext(rounds, name, fuel, runs, s);
        DeleteProgressNext(plans, rounds, jitter, runs, slept, sent, attempt);
        sent := sent + request;
        if !IsFlood(attempt) {
          return OutcomeOf(Settle(attempt)), runs + 1, slept, sent;
        }
        slept := slept + Pause(attempt.error.seconds, jitter(runs), true);
        runs := runs + 1;
      }
      DeleteProgressEnd(plans, rounds, jitter, slept, sent);
      r := Fail(Unfinished);
    }

    /** EnsureChannelCreated: when GetChannel finds no channel, a private channel titled with
        the channel name is requested; `reply` is the server's answer. The cache is left
        unset, so the next lookup scans again. */
    method EnsureChannelCreated(dialogs: DialogServer, reply: Outcome<Error>, fuel: nat)
      returns (sent: Option<CreateRequest>, r: Outcome<Error>)
      modifies this`channelCache
      ensures var c := Lookup(old(channelCache), dialogs, config.channelName, fuel);
              (c.Failure? ==> sent.None? && r == Fail(c.error))
              && (c == Success(None) ==> sent == Some(CreateRequest(false, false, config.channelName, "")) && r == reply)
              && (c.Success? && c.value.Some? ==> sent.None? && r == Pass)
      ensures channelCache == CacheAfter(old(channelCache), dialogs, config.channelName, fuel)
    {
      var channel := GetChannel(dialogs, fuel);
      if channel.Failure? {
        return None, Fail(channel.error);
      }
      if channel.value.Some? {
        return None, Pass;
      }
      sent := Some(CreateRequest(false, false, config.channelName, ""));
      r := reply;
    }

    /** Authenticate: connect, then run the sign-in step on the session and the shared
        phone code hash. */
    method Authenticate(link: ConnectAttempt, server: AuthServer) returns (r: Outcome<Error>)
      modifies client, pending
      ensures var up := Connect(old(client.connected), link);
              client.connected == up.connected
              && (up.outcome.Fail? ==>
                    r == up.outcome && unchanged(pending)
                    && client.authorized == old(client.authorized) && client.saves == old(client.saves))
              && (up.outcome.Pass? ==>
                    var step := SignIn(AuthState(old(client.authorized), old(pending.phoneCodeHash), old(client.saves)),
                                       config.authCode, config.password, server);
                    r == step.outcome
                    && client.authorized == step.state.authorized
                    && pending.phoneCodeHash == step.state.phoneCodeHash
                    && client.saves == step.state.saves)
    {
      var connected := client.EnsureConnected(link);
      if connected.Fail? {
        return connected;
      }
      var step := SignIn(AuthState(client.authorized, pending.phoneCodeHash, client.saves),
                         config.authCode, config.password, server);
      client.authorized := step.state.authorized;
      pending.phoneCodeHash := step.state.phoneCodeHash;
      client.saves := step.state.saves;
      r := step.outcome;
    }
  }
}
