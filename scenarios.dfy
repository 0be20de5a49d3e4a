/**
 * Whole runs of the watcher loop on concrete inputs: a fresh watcher on the
 * folder `/r` whose setup succeeds, fed a few inputs, with the batches it
 * delivers as the result.
 */
module WatcherScenarios {
  import opened Wrappers
  import opened Paths
  import opened Watcher

  method StartedWatcher(isTemporary: string -> bool) returns (w: FsWatcher)
    ensures fresh(w) && w.Valid() && w.watchingFs
    ensures w.folderPath == "/r" && w.isTemporary == isTemporary && (forall p :: !w.ignores(p))
    ensures w.fsEvents == map[] && w.inProgress == {} && w.delivered == []
  {
    w := new FsWatcher("/r", (p: string) => false, isTemporary);
    var err := w.StartWatchingFilesystem(None);
  }

  /** A change below the folder is delivered under its relative path. */
  method ChangeBelowFolder() returns (batches: seq<FsEventsBatch>)
    ensures batches == [map["a/b.txt" := FsEvent("a/b.txt")]]
  {
    var w := StartedWatcher((p: string) => false);
    var path := "/r" + [Separator] + "a/b.txt";
    RelPathOfJoin("/r", "a/b.txt");
    w.OnFsEvent(path);
    var fired := w.OnTimer();
    batches := w.delivered;
  }

  /** A change outside the folder produces nothing, and the idle timer slows down. */
  method ChangeOutsideFolder() returns (batches: seq<FsEventsBatch>, delay: NotifyDelay)
    ensures batches == [] && delay == Slow
  {
    var w := StartedWatcher((p: string) => false);
    OutsidePathRefused();
    w.OnFsEvent("/other/x.txt");
    var fired := w.OnTimer();
    batches, delay := w.delivered, w.notifyDelay;
  }

  /**
   * A change to an item in progress is suppressed; after the item finishes,
   * the same change is delivered.
   */
  method InProgressSuppressed() returns (during: FsEventsBatch, batches: seq<FsEventsBatch>)
    ensures during == map[]
    ensures batches == [map["docs/report.txt" := FsEvent("docs/report.txt")]]
  {
    var w := StartedWatcher((p: string) => false);
    var path := "/r" + [Separator] + "docs/report.txt";
    RelPathOfJoin("/r", "docs/report.txt");
    var e := FsEvent("docs/report.txt");
    w.OnItemEvent(ItemStarted("docs/report.txt"));
    assert w.inProgress == {"docs/report.txt"};
    w.OnFsEvent(path);
    during := w.fsEvents;
    assert during == map[];
    w.OnItemEvent(ItemFinished("docs/report.txt"));
    assert w.inProgress == {};
    assert w.NewFsEvent(path) == Some(e);
    w.OnFsEvent(path);
    assert w.fsEvents == map["docs/report.txt" := e];
    var fired := w.OnTimer();
    batches := w.delivered;
  }

  /** A temporary file name never reaches a batch. */
  method TemporaryIgnored() returns (batches: seq<FsEventsBatch>)
    ensures batches == []
  {
    var w := StartedWatcher((p: string) => p == "~tmp123");
    var path := "/r" + [Separator] + "~tmp123";
    RelPathOfJoin("/r", "~tmp123");
    w.OnFsEvent(path);
    var fired := w.OnTimer();
    batches := w.delivered;
  }

  /** Two changes before the timer fires are flushed together, and a repeated one once. */
  method BurstCoalesced() returns (batches: seq<FsEventsBatch>, fired: NotifyDelay)
    ensures batches == [map["a.txt" := FsEvent("a.txt"), "b.txt" := FsEvent("b.txt")]]
    ensures fired == Fast
  {
    var w := StartedWatcher((p: string) => false);
    var pathA, pathB := "/r" + [Separator] + "a.txt", "/r" + [Separator] + "b.txt";
    RelPathOfJoin("/r", "a.txt");
    RelPathOfJoin("/r", "b.txt");
    var a, b := FsEvent("a.txt"), FsEvent("b.txt");
    assert w.NewFsEvent(pathA) == Some(a);
    assert w.NewFsEvent(pathB) == Some(b);
    w.OnFsEvent(pathA);
    assert w.fsEvents == map["a.txt" := a];
    w.OnFsEvent(pathB);
    assert w.fsEvents == map["a.txt" := a, "b.txt" := b];
    w.OnFsEvent(pathA);
    assert w.fsEvents == map["a.txt" := a, "b.txt" := b];
    fired := w.OnTimer();
    batches := w.delivered;
  }

  /** After an idle period the next change speeds the timer up again and is flushed on the fast delay. */
  method SpeedUpAfterIdle() returns (idle: NotifyDelay, rearmed: Option<NotifyDelay>, fired: NotifyDelay)
    ensures idle == Slow && rearmed == Some(Slow) && fired == Fast
  {
    var w := StartedWatcher((p: string) => false);
    var path := "/r" + [Separator] + "a.txt";
    RelPathOfJoin("/r", "a.txt");
    var first := w.OnTimer();
    idle := w.notifyDelay;
    w.OnFsEvent(path);
    rearmed := w.armedDelay;
    fired := w.OnTimer();
  }
}
