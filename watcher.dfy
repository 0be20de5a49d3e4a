/**
 * The event-coalescing watcher `FsWatcher` of lib/fswatcher/fswatcher.go.
 *
 * The goroutine running `watchFilesystem` is replaced by one step method per
 * arm of its `select`; each step first re-arms the timer if asked to, as the
 * top of the loop does. The timer is the delay it was last armed with
 * (`armedDelay`), and the channel to the model is the sequence of batches
 * delivered so far (`delivered`).
 */
module Watcher {
  import opened Wrappers
  import opened Paths

  /** The two notification delays: 500 ms and 60 s. */
  datatype NotifyDelay = Fast | Slow

  /** One accepted change, reduced to its path relative to the folder. */
  datatype FsEvent = FsEvent(path: string)

  /** `FsEventsBatch`: pending changes keyed by relative path. */
  type FsEventsBatch = map<string, FsEvent>

  /** The item lifecycle notifications the watcher subscribes to. */
  datatype ItemEvent = ItemStarted(item: string) | ItemFinished(item: string) | OtherEvent

  /** Every stored event sits under its own path. */
  predicate WellKeyed(batch: FsEventsBatch) {
    forall p :: p in batch ==> batch[p].path == p
  }

  /** The paths carried by the events of a batch. */
  function EventPaths(batch: FsEventsBatch): set<string> {
    set p | p in batch :: batch[p].path
  }

  /** The in-progress set after one lifecycle notification (`updateInProgressSet`). */
  function AfterItemEvent(inProgress: set<string>, e: ItemEvent): (s: set<string>)
    ensures e.ItemStarted? ==> s == inProgress + {e.item}
    ensures e.ItemFinished? ==> s == inProgress - {e.item}
    ensures e.OtherEvent? ==> s == inProgress
  {
    match e
    case ItemStarted(p) => inProgress + {p}
    case ItemFinished(p) => inProgress - {p}
    case OtherEvent => inProgress
  }

  /** Starting the same item twice gives one membership; finishing it then removes it. */
  lemma RepeatedStartsCollapse(s: set<string>, p: string)
    ensures AfterItemEvent(AfterItemEvent(s, ItemStarted(p)), ItemStarted(p)) == AfterItemEvent(s, ItemStarted(p))
    ensures p !in AfterItemEvent(AfterItemEvent(AfterItemEvent(s, ItemStarted(p)), ItemStarted(p)), ItemFinished(p))
  {
  }

  /** Lifecycle notifications about one path leave every other path's membership alone. */
  lemma ItemEventIsLocal(s: set<string>, e: ItemEvent, q: string)
    requires e.OtherEvent? || e.item != q
    ensures q in AfterItemEvent(s, e) <==> q in s
  {
  }

  /** The batch after `storeFsEvent`. */
  function Stored(batch: FsEventsBatch, inProgress: set<string>, e: FsEvent): (b: FsEventsBatch)
    ensures e.path in inProgress ==> b == batch
    ensures e.path !in inProgress ==> e.path in b && b[e.path] == e && b.Keys == batch.Keys + {e.path}
    ensures forall q :: q != e.path ==> (q in b <==> q in batch) && (q in b ==> b[q] == batch[q])
  {
    if e.path in inProgress then batch else batch[e.path := e]
  }

  /** Storing the same event twice leaves exactly what storing it once does. */
  lemma StoreIdempotent(batch: FsEventsBatch, inProgress: set<string>, e: FsEvent)
    ensures Stored(Stored(batch, inProgress, e), inProgress, e) == Stored(batch, inProgress, e)
  {
  }

  /** Storing keeps every event under its own path. */
  lemma StorePreservesWellKeyed(batch: FsEventsBatch, inProgress: set<string>, e: FsEvent)
    requires WellKeyed(batch)
    ensures WellKeyed(Stored(batch, inProgress, e))
  {
  }

  /** In a well-keyed batch the event paths are exactly the keys. */
  lemma WellKeyedPaths(batch: FsEventsBatch)
    requires WellKeyed(batch)
    ensures EventPaths(batch) == batch.Keys
  {
  }

  class FsWatcher {
    const folderPath: string
    /** The ignore matcher, as `scanner.IsIgnoredPath` consults it. */
    var ignores: string -> bool
    /** The package-level `Tempnamer.IsTemporary`. */
    const isTemporary: string -> bool
    var fsEvents: FsEventsBatch
    var watchingFs: bool
    var notifyDelay: NotifyDelay
    /** The delay the notify timer is armed with; None before the loop starts and after it fires. */
    var armedDelay: Option<NotifyDelay>
    var notifyTimerNeedsReset: bool
    var inProgress: set<string>
    /** The batches sent on `notifyModelChan`, oldest first. */
    var delivered: seq<FsEventsBatch>

    /**
     * The watcher's invariant: events sit under their own paths, a pending
     * change keeps the delay fast, a running loop whose timer needs no reset
     * has it armed with the current delay, and only non-empty batches are
     * delivered.
     */
    ghost predicate Valid()
      reads this
    {
      && WellKeyed(fsEvents)
      && (fsEvents != map[] ==> notifyDelay == Fast)
      && (watchingFs && !notifyTimerNeedsReset ==> armedDelay == Some(notifyDelay))
      && (forall i :: 0 <= i < |delivered| ==> delivered[i] != map[] && WellKeyed(delivered[i]))
    }

    /** `NewFsWatcher`. */
    constructor (folderPath: string, ignores: string -> bool, isTemporary: string -> bool)
      ensures Valid()
      ensures this.folderPath == folderPath && this.ignores == ignores && this.isTemporary == isTemporary
      ensures fsEvents == map[] && inProgress == {} && delivered == []
      ensures !watchingFs && notifyDelay == Fast && !notifyTimerNeedsReset && armedDelay == None
    {
      this.folderPath := folderPath;
      this.ignores := ignores;
      this.isTemporary := isTemporary;
      fsEvents := map[];
      watchingFs := false;
      notifyDelay := Fast;
      armedDelay := None;
      notifyTimerNeedsReset := false;
      inProgress := {};
      delivered := [];
    }

    /**
     * `StartWatchingFilesystem` with the outcome of the notification setup
     * given: on success the loop starts and arms its timer with the current
     * delay; the setup error is returned either way.
     */
    method StartWatchingFilesystem(setupError: Option<Error>) returns (err: Option<Error>)
      requires Valid() && !watchingFs
      modifies this`watchingFs, this`armedDelay
      ensures Valid()
      ensures err == setupError
      ensures watchingFs <==> setupError.None?
      ensures armedDelay == if setupError.None? then Some(notifyDelay) else old(armedDelay)
    {
      if setupError.None? {
        watchingFs := true;
        armedDelay := Some(notifyDelay);
      }
      err := setupError;
    }

    /** `UpdateIgnores`. */
    method UpdateIgnores(ignores: string -> bool)
      requires Valid()
      modifies this`ignores
      ensures Valid() && this.ignores == ignores
    {
      this.ignores := ignores;
    }

    /** `shouldIgnore`: ignored by the matcher or a temporary file name. */
    predicate ShouldIgnore(path: string)
      reads this
    {
      ignores(path) || isTemporary(path)
    }

    /** `pathInProgress`. */
    predicate PathInProgress(path: string)
      reads this
    {
      path in inProgress
    }

    /**
     * `newFsEvent`: an event for the path relative to the folder, unless the
     * path lies outside the folder or that relative path is to be ignored.
     */
    function NewFsEvent(eventPath: string): (r: Option<FsEvent>)
      reads this
      ensures !IsSubpath(eventPath, folderPath) ==> r == None
      ensures IsSubpath(eventPath, folderPath) ==>
        (r.Some? <==> !ShouldIgnore(RelPath(folderPath, eventPath)))
      ensures r.Some? ==>
        IsSubpath(eventPath, folderPath) && r.value.path == RelPath(folderPath, eventPath) && !ShouldIgnore(r.value.path)
    {
      if IsSubpath(eventPath, folderPath) then
        var path := RelPath(folderPath, eventPath);
        if !ShouldIgnore(path) then Some(FsEvent(path)) else None
      else None
    }

    /** `resetNotifyTimerIfNeeded`: the only place the timer is re-armed. */
    method ResetNotifyTimerIfNeeded()
      requires watchingFs
      modifies this`armedDelay, this`notifyTimerNeedsReset
      ensures !notifyTimerNeedsReset
      ensures old(notifyTimerNeedsReset) ==> armedDelay == Some(notifyDelay)
      ensures !old(notifyTimerNeedsReset) ==> armedDelay == old(armedDelay)
    {
      if notifyTimerNeedsReset {
        armedDelay := Some(notifyDelay);
        notifyTimerNeedsReset := false;
      }
    }

    /** `speedUpNotifyTimer`: the delay becomes fast; a change asks for a reset. */
    method SpeedUpNotifyTimer()
      modifies this`notifyDelay, this`notifyTimerNeedsReset
      ensures notifyDelay == Fast
      ensures notifyTimerNeedsReset == (old(notifyTimerNeedsReset) || old(notifyDelay) != Fast)
    {
      if notifyDelay != Fast {
        notifyDelay := Fast;
        notifyTimerNeedsReset := true;
      }
    }

    /** `slowDownNotifyTimer`: the delay becomes slow; a change asks for a reset. */
    method SlowDownNotifyTimer()
      modifies this`notifyDelay, this`notifyTimerNeedsReset
      ensures notifyDelay == Slow
      ensures notifyTimerNeedsReset == (old(notifyTimerNeedsReset) || old(notifyDelay) != Slow)
    {
      if notifyDelay != Slow {
        notifyDelay := Slow;
        notifyTimerNeedsReset := true;
      }
    }

    /** `storeFsEvent`: a path in progress is skipped, any other is (re)recorded. */
    method StoreFsEvent(e: FsEvent)
      modifies this`fsEvents
      ensures fsEvents == Stored(old(fsEvents), inProgress, e)
    {
      if PathInProgress(e.path) {
      } else {
        fsEvents := fsEvents[e.path := e];
      }
    }

    /**
     * `actOnTimer`: a non-empty batch is delivered, an empty one slows the
     * timer down; the batch starts afresh and a reset is requested either way.
     */
    method ActOnTimer()
      modifies this`fsEvents, this`delivered, this`notifyDelay, this`notifyTimerNeedsReset
      ensures notifyTimerNeedsReset
      ensures fsEvents == map[]
      ensures delivered == old(delivered) + (if old(fsEvents) != map[] then [old(fsEvents)] else [])
      ensures notifyDelay == if old(fsEvents) != map[] then old(notifyDelay) else Slow
    {
      notifyTimerNeedsReset := true;
      if |fsEvents| > 0 {
        delivered := delivered + [fsEvents];
      } else {
        SlowDownNotifyTimer();
      }
      fsEvents := map[];
    }

    /** `updateInProgressSet`. */
    method UpdateInProgressSet(e: ItemEvent)
      modifies this`inProgress
      ensures inProgress == AfterItemEvent(old(inProgress), e)
    {
      match e
      case ItemStarted(p) => inProgress := inProgress + {p};
      case ItemFinished(p) => inProgress := inProgress - {p};
      case OtherEvent =>
    }

    /**
     * One loop iteration that receives a filesystem event: an accepted event
     * speeds the timer up before the in-progress check, then is stored
     * unless its path is in progress.
     */
    method OnFsEvent(eventPath: string)
      requires Valid() && watchingFs
      modifies this`fsEvents, this`notifyDelay, this`notifyTimerNeedsReset, this`armedDelay
      ensures Valid()
      ensures armedDelay == Some(old(notifyDelay))
      ensures NewFsEvent(eventPath).None? ==>
        fsEvents == old(fsEvents) && notifyDelay == old(notifyDelay) && !notifyTimerNeedsReset
      ensures NewFsEvent(eventPath).Some? ==>
        && notifyDelay == Fast
        && notifyTimerNeedsReset == (old(notifyDelay) != Fast)
        && fsEvents == Stored(old(fsEvents), inProgress, NewFsEvent(eventPath).value)
    {
      ResetNotifyTimerIfNeeded();
      var newEvent := NewFsEvent(eventPath);
      if newEvent.Some? {
        SpeedUpNotifyTimer();
        StoreFsEvent(newEvent.value);
      }
    }

    /**
     * One loop iteration in which the notify timer fires; `fired` is the
     * delay it had been armed with. A pending batch always fires on the fast
     * delay; an empty one leaves the watcher slow.
     */
    method OnTimer() returns (fired: NotifyDelay)
      requires Valid() && watchingFs
      modifies this`fsEvents, this`delivered, this`notifyDelay, this`notifyTimerNeedsReset, this`armedDelay
      ensures Valid()
      ensures fired == old(notifyDelay)
      ensures old(fsEvents) != map[] ==> fired == Fast
      ensures armedDelay == None && notifyTimerNeedsReset
      ensures fsEvents == map[]
      ensures delivered == old(delivered) + (if old(fsEvents) != map[] then [old(fsEvents)] else [])
      ensures notifyDelay == if old(fsEvents) != map[] then Fast else Slow
    {
      ResetNotifyTimerIfNeeded();
      fired := armedDelay.value;
      armedDelay := None;
      ActOnTimer();
    }

    /** One loop iteration that receives an item lifecycle notification. */
    method OnItemEvent(e: ItemEvent)
      requires Valid() && watchingFs
      modifies this`inProgress, this`notifyTimerNeedsReset, this`armedDelay
      ensures Valid()
      ensures armedDelay == Some(notifyDelay) && !notifyTimerNeedsReset
      ensures inProgress == AfterItemEvent(old(inProgress), e)
    {
      ResetNotifyTimerIfNeeded();
      UpdateInProgressSet(e);
    }

    /** `events`: the pending events, each once, in some order. */
    method Events() returns (list: seq<FsEvent>)
      requires Valid()
      ensures |list| == |fsEvents|
      ensures forall i :: 0 <= i < |list| ==> list[i].path in fsEvents && fsEvents[list[i].path] == list[i]
      ensures forall p :: p in fsEvents ==> fsEvents[p] in list
      ensures forall i, j :: 0 <= i < j < |list| ==> list[i] != list[j]
    {
      list := EventsOf(fsEvents);
    }
  }

  /** The keys of a batch, each once, in some order: the map's range loop. */
  method KeysOf(batch: FsEventsBatch) returns (ks: seq<string>)
    ensures |ks| == |batch|
    ensures forall i :: 0 <= i < |ks| ==> ks[i] in batch
    ensures forall p :: p in batch ==> p in ks
    ensures forall i, j :: 0 <= i < j < |ks| ==> ks[i] != ks[j]
  {
    ks := [];
    var rest := batch.Keys;
    ghost var seen: set<string> := {};
    while rest != {}
      invariant rest <= batch.Keys && seen == batch.Keys - rest
      invariant |seen| == |ks|
      invariant forall i :: 0 <= i < |ks| ==> ks[i] in seen
      invariant forall i, j :: 0 <= i < j < |ks| ==> ks[i] != ks[j]
      decreases rest
    {
      var p :| p in rest;
      AddFresh(seen, p);
      ks := ks + [p];
      rest := rest - {p};
      seen := seen + {p};
    }
    DistinctCover(batch.Keys, ks);
  }

  /** The entries of a well-keyed batch, each once, in some order. */
  method EventsOf(batch: FsEventsBatch) returns (list: seq<FsEvent>)
    requires WellKeyed(batch)
    ensures |list| == |batch|
    ensures forall i :: 0 <= i < |list| ==> list[i].path in batch && batch[list[i].path] == list[i]
    ensures forall p :: p in batch ==> batch[p] in list
    ensures forall i, j :: 0 <= i < j < |list| ==> list[i] != list[j]
  {
    var ks := KeysOf(batch);
    list := seq(|ks|, i requires 0 <= i < |ks| => batch[ks[i]]);
    forall p | p in batch ensures batch[p] in list {
      var i :| 0 <= i < |ks| && ks[i] == p;
      assert list[i] == batch[p];
    }
  }

  /**
   * `FsEventsBatch.GetPaths`: one event path per entry; for a well-keyed
   * batch these are exactly its keys, each once.
   */
  method GetPaths(batch: FsEventsBatch) returns (paths: seq<string>)
    ensures |paths| == |batch|
    ensures forall i :: 0 <= i < |paths| ==> paths[i] in EventPaths(batch)
    ensures forall k :: k in batch ==> batch[k].path in paths
    ensures WellKeyed(batch) ==> forall p :: p in paths <==> p in batch
    ensures WellKeyed(batch) ==> forall i, j :: 0 <= i < j < |paths| ==> paths[i] != paths[j]
  {
    var ks := KeysOf(batch);
    paths := seq(|ks|, i requires 0 <= i < |ks| => batch[ks[i]].path);
    forall k | k in batch ensures batch[k].path in paths {
      var i :| 0 <= i < |ks| && ks[i] == k;
      assert paths[i] == batch[k].path;
    }
    if WellKeyed(batch) {
      assert paths == ks;
    }
  }

  lemma AddFresh<T>(s: set<T>, x: T)
    requires x !in s
    ensures |s + {x}| == |s| + 1
  {
  }

  /** A repetition-free sequence drawn from a set, and as long as the set, lists all of it. */
  lemma {:induction false} DistinctCover<T>(s: set<T>, xs: seq<T>)
    requires forall i, j :: 0 <= i < j < |xs| ==> xs[i] != xs[j]
    requires forall i :: 0 <= i < |xs| ==> xs[i] in s
    requires |xs| == |s|
    ensures forall x :: x in s ==> x in xs
  {
    if xs != [] {
      var init, last := xs[..|xs| - 1], xs[|xs| - 1];
      forall i | 0 <= i < |init| ensures init[i] in s - {last} {
        assert init[i] == xs[i];
      }
      DistinctCover(s - {last}, init);
      forall x | x in s ensures x in xs {
        if x != last {
          assert x in init;
          var i :| 0 <= i < |init| && init[i] == x;
          assert xs[i] == x;
        }
      }
    }
  }
}
