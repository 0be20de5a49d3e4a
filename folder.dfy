/**
 * The folder-level policy of lib/model/folder.go: which interval the next
 * rescan uses, and the order of health check, scan and error recording.
 * The folder health check and the scan itself are oracles whose results are
 * passed in.
 */
module FolderPolicy {
  import opened Wrappers
  import opened Watcher
  import opened RescanSchedule

  /** The interval a folder reschedules with: the long one while the filesystem is watched. */
  function RescheduleInterval(watchingFs: bool, interval: Int64, longInterval: Int64): Int64 {
    if watchingFs then longInterval else interval
  }

  class Folder {
    const scan: FolderScanner
    const fsWatcher: FsWatcher
    /** The errors passed to `setError`, oldest first. */
    var recordedErrors: seq<Error>
    /** The subdirectory lists the folder was scanned with, oldest first. */
    var scans: seq<seq<string>>

    constructor (scan: FolderScanner, fsWatcher: FsWatcher)
      ensures this.scan == scan && this.fsWatcher == fsWatcher
      ensures recordedErrors == [] && scans == []
    {
      this.scan := scan;
      this.fsWatcher := fsWatcher;
      recordedErrors := [];
      scans := [];
    }

    /** `Reschedule`: the long interval while watching, the short one otherwise. */
    method Reschedule(r: Int64)
      requires ValidDraw(RescheduleInterval(fsWatcher.watchingFs, scan.interval, scan.longInterval), r)
      modifies scan`timer
      ensures scan.timer == Rescheduled(old(scan.timer), RescheduleInterval(fsWatcher.watchingFs, scan.interval, scan.longInterval), r)
    {
      if fsWatcher.watchingFs {
        scan.LongReschedule(r);
      } else {
        scan.Reschedule(r);
      }
    }

    /**
     * `scanSubdirsIfHealthy`: a failed health check is returned without
     * scanning or recording; otherwise the scan runs, and its error, if any,
     * is recorded and returned.
     */
    method ScanSubdirsIfHealthy(subDirs: seq<string>, health: Option<Error>, scanResult: Option<Error>)
      returns (err: Option<Error>)
      modifies this`recordedErrors, this`scans
      ensures health.Some? ==> err == health && scans == old(scans) && recordedErrors == old(recordedErrors)
      ensures health.None? ==> err == scanResult && scans == old(scans) + [subDirs]
      ensures health.None? && scanResult.Some? ==> recordedErrors == old(recordedErrors) + [scanResult.value]
      ensures health.None? && scanResult.None? ==> recordedErrors == old(recordedErrors)
    {
      if health.Some? {
        return health;
      }
      scans := scans + [subDirs];
      if scanResult.Some? {
        recordedErrors := recordedErrors + [scanResult.value];
        return scanResult;
      }
      return None;
    }
  }
}
