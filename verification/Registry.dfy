/**
 The registry and a curl download as the objects the program has: the lists under their
 mutex, searched by loops, and the fields that one run of a download assigns.  Each method
 is proved against the step functions of the machine in Transfers.
 */
module Registry {
  import opened Basics
  import opened DownloadStatus
  import opened Transfers

  /** Looking at entry `k` of a list by URL. */
  lemma ByUrlFrom(heap: map<Id, Download>, list: seq<Id>, url: string, k: nat)
    requires k < |list| && list[k] in heap
    ensures ByUrl(heap, list[k..], url) ==
            if heap[list[k]].info.url == url then Hit(0) else Further(ByUrl(heap, list[k + 1..], url))
  {
    assert list[k..][0] == list[k] && list[k..][1..] == list[k + 1..];
  }

  lemma ByUuidFrom(heap: map<Id, Download>, list: seq<Id>, uuid: string, k: nat)
    requires k < |list| && list[k] in heap
    ensures ByUuid(heap, list[k..], uuid) ==
            if heap[list[k]].info.uuid == uuid then Hit(0) else Further(ByUuid(heap, list[k + 1..], uuid))
  {
    assert list[k..][0] == list[k] && list[k..][1..] == list[k + 1..];
  }

  /** A search result, counted from entry `k` on. */
  function Shift(r: Search, k: nat): Search {
    if r.Hit? then Hit(r.i + k) else r
  }

  class FtdApp {
    var transfers: map<nat, seq<Id>>
    var heap: map<Id, Download>

    constructor ()
      ensures transfers == map[] && heap == map[]
    {
      transfers, heap := map[], map[];
    }

    function Downloads(user: nat): seq<Id>
      reads this`transfers
    {
      if user in transfers then transfers[user] else []
    }

    /** Every entry of the user's list points to a download. */
    ghost predicate Live(user: nat)
      reads this`transfers, this`heap
    {
      forall i :: 0 <= i < |Downloads(user)| ==> Downloads(user)[i] in heap
    }

    method RegisterDownload(user: nat, down: Id)
      modifies this`transfers
      ensures Downloads(user) == old(Downloads(user)) + [down]
      ensures forall other :: other != user ==> Downloads(other) == old(Downloads(other))
    {
      transfers := transfers[user := Downloads(user) + [down]];
    }

    method FindByUrl(user: nat, url: string) returns (lIt: nat)
      requires Live(user)
      ensures lIt <= |Downloads(user)|
      ensures ByUrl(heap, Downloads(user), url) == if lIt < |Downloads(user)| then Hit(lIt) else Miss
      ensures lIt < |Downloads(user)| ==> heap[Downloads(user)[lIt]].info.url == url
      ensures forall i :: 0 <= i < lIt ==> heap[Downloads(user)[i]].info.url != url
    {
      var list := Downloads(user);
      assert list[0..] == list;
      lIt := 0;
      while lIt < |list| && heap[list[lIt]].info.url != url
        invariant lIt <= |list|
        invariant forall i :: 0 <= i < lIt ==> heap[list[i]].info.url != url
        invariant ByUrl(heap, list, url) == Shift(ByUrl(heap, list[lIt..], url), lIt)
      {
        ByUrlFrom(heap, list, url, lIt);
        lIt := lIt + 1;
      }
      if lIt < |list| { ByUrlFrom(heap, list, url, lIt); }
    }

    method FindByUuid(user: nat, uuid: string) returns (lIt: nat)
      requires Live(user)
      ensures lIt <= |Downloads(user)|
      ensures ByUuid(heap, Downloads(user), uuid) == if lIt < |Downloads(user)| then Hit(lIt) else Miss
      ensures lIt < |Downloads(user)| ==> heap[Downloads(user)[lIt]].info.uuid == uuid
      ensures forall i :: 0 <= i < lIt ==> heap[Downloads(user)[i]].info.uuid != uuid
    {
      var list := Downloads(user);
      assert list[0..] == list;
      lIt := 0;
      while lIt < |list| && heap[list[lIt]].info.uuid != uuid
        invariant lIt <= |list|
        invariant forall i :: 0 <= i < lIt ==> heap[list[i]].info.uuid != uuid
        invariant ByUuid(heap, list, uuid) == Shift(ByUuid(heap, list[lIt..], uuid), lIt)
      {
        ByUuidFrom(heap, list, uuid, lIt);
        lIt := lIt + 1;
      }
      if lIt < |list| { ByUuidFrom(heap, list, uuid, lIt); }
    }

    /** The search of CancelDownload: by UUID, and by URL when that fails. */
    method FindToCancel(req: Request) returns (r: Search)
      requires Live(req.user)
      ensures Answers(heap, Downloads(req.user), req, r)
      ensures r == Find(heap, Downloads(req.user), req)
    {
      var list := Downloads(req.user);
      var lIt := 0;
      var hasUuid := req.uuid != "";
      if hasUuid {
        lIt := FindByUuid(req.user, req.uuid);
      }
      if !hasUuid || lIt == |list| {
        lIt := FindByUrl(req.user, req.url);
      }
      r := if lIt < |list| then Hit(lIt) else Miss;
      FindAnswers(heap, list, req);
    }

    /** RemoveDownload, once the download may be reaped. */
    method RemoveDownload(dl: Id) returns (found: bool)
      requires dl in heap && ReapOK(heap[dl]) && Live(heap[dl].info.user)
      modifies this
      ensures found == ByUrl(old(heap), old(Downloads(heap[dl].info.user)), old(heap)[dl].info.url).Hit?
      ensures !found ==> transfers == old(transfers) && heap == old(heap)
      ensures found ==>
                var user := old(heap)[dl].info.user;
                && heap == old(heap) - {dl}
                && Downloads(user) == RemoveAt(old(Downloads(user)), ByUrl(old(heap), old(Downloads(user)), old(heap)[dl].info.url).i)
                && forall other :: other != user ==> Downloads(other) == old(Downloads(other))
    {
      var user, url := heap[dl].info.user, heap[dl].info.url;
      var lIt := FindByUrl(user, url);
      found := lIt < |Downloads(user)|;
      if found {
        transfers := transfers[user := RemoveAt(Downloads(user), lIt)];
        heap := heap - {dl};
      }
    }
  }

  /** The fields of a CurlDownloader that a run assigns. */
  class CurlDownloader {
    var status: Status
    var cancel: bool
    var tip: bool
    var signals: seq<Signal>

    constructor ()
      ensures status == NotStarted && !cancel && signals == []
    {
      status, cancel, tip, signals := NotStarted, false, false, [];
    }

    method CancelDownload()
      modifies this`cancel
      ensures cancel
    {
      cancel := true;
    }

    /** The object as the machine sees it. */
    ghost predicate Is(o: Download)
      reads this
    {
      o.status == status && o.cancel == cancel && o.signals == signals
    }

    /** UpdateProgress: a cancelled transfer is told to stop. */
    method UpdateProgress(ghost d: Id, ghost o: Download) returns (stop: bool)
      requires Is(o)
      modifies this`status
      ensures stop == cancel && status == if cancel then CancelInProgress else old(status)
      ensures Is(RunStep(o, RunPerform(d), if cancel then Abort else Tick).0)
    {
      if cancel {
        status := CancelInProgress;
        return true;
      }
      stop := false;
    }

    /**
     A run that no other thread disturbs: `res` is the answer of the transfer.  It does what the
     four steps of the machine do one after the other.
     */
    method Run(ghost d: Id, ghost o: Download, res: Result)
      requires Is(o)
      modifies this
      ensures Is(RunAlone(d, o, res))
      ensures Final(status) && signals == old(signals) + [if status == Status.Failed then SignalFailed else SignalDone]
      ensures status == Downloaded <==> old(status) == Queued && !cancel && res == Fine
      ensures status == Status.Failed <==> old(status) == Queued && !cancel && res == Error
      ensures cancel == old(cancel)
    {
      hide RunAlone, RunStep;
      RunAloneIs(d, o, res);
      var result := Obsolete;
      if status == Queued && !cancel {
        tip := true;
        status := InProgress;
        result := res;
        tip := false;
      }
      if cancel || status == CancelInProgress {
        status := CancelDone;
      } else if result == Fine {
        status := Downloaded;
      } else if result == Obsolete {
        status := CancelDone;
      } else {
        status := Status.Failed;
      }
      if status == Downloaded || status == CancelDone {
        signals := signals + [SignalDone];
      } else {
        signals := signals + [SignalFailed];
      }
    }
  }

  lemma RunAloneIs(d: Id, o: Download, res: Result)
    ensures var going := o.status == Queued && !o.cancel;
            var status := Settle(if going then o.(status := InProgress) else o, if going then res else Obsolete);
            && RunAlone(d, o, res).status == status && RunAlone(d, o, res).cancel == o.cancel
            && RunAlone(d, o, res).signals == o.signals + [if status in {Downloaded, CancelDone} then SignalDone else SignalFailed]
  {
  }

  /** The steps of a run, up to Complete. */
  ghost function RunAlone(d: Id, o: Download, res: Result): Download {
    var (o1, pc1) := RunStep(o, RunCheck(d), Tick);
    var (o2, pc2) := RunStep(o1, pc1, Finish(res));
    var (o3, pc3) := if pc1.RunPerform? then RunStep(o2, pc2, Tick) else (o2, pc2);
    RunStep(o3, RunSignal(d), Tick).0
  }
}
