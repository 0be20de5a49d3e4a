# Change detection of a file-synchronisation folder, in Dafny

This project models two decision cores of syncthing's change detection with
the concurrency stripped away, and proves properties of them.

- **The event-coalescing watcher** (`FsWatcher`, lib/fswatcher/fswatcher.go).
  It takes raw filesystem events for one folder and drops paths outside the
  folder, ignored paths and temporary names. It turns the rest into paths
  relative to the folder and suppresses paths the synchroniser is currently
  writing ("in progress"). Accepted changes collect in a batch keyed by path.
  A timer with two speeds, 500 ms and 60 s, flushes the batch. An accepted
  event makes the timer fast. A timer fire that finds an empty batch makes it
  slow. The timer is re-armed only at the top of the loop, when a reset was
  requested. In the model the watcher is the class `Watcher.FsWatcher`. Each
  arm of the `watchFilesystem` loop's `select` is one step method
  (`OnFsEvent`, `OnTimer`, `OnItemEvent`), and each step begins with
  `ResetNotifyTimerIfNeeded`. The timer's state is the delay it was last armed
  with. The channel to the model is the sequence of delivered batches. The
  class invariant `Valid` says four things. Every event sits under its own
  path. A pending change keeps the delay fast. A running loop whose timer
  needs no reset has the timer armed with the current delay. Only non-empty
  batches are delivered.
- **The rescan scheduler** (`folderScanner`, lib/model/folderscanner.go). It
  holds a short and a long interval and arms the next scan's timer with a
  jittered delay `(3I + r) / 4`. Here `r` is `rand.Int63n(2I)`, passed in as a
  parameter. Durations are Go's signed 64-bit nanoseconds, so the model wraps
  around on overflow and divides by truncation, as Go does. A zero interval
  switches rescheduling off. While `5I` fits int64 the delay lies in
  [¾I, 5⁄4 I). Once `5I` exceeds 2^63 ns (about 58 years), large draws
  overflow the sum. From about 58 to 97 years the sign of the delay then
  depends on the draw (`JitterSumOverflow`). From 2^63/3 to 2^64/5 ns (about
  97 to 117 years) `3I` itself wraps negative and every draw gives a delay of
  at most 0, so the timer fires at once (`NoPositiveDelayInBand`,
  `JitterOverflow`; `PositiveDelayBelowBand` marks the lower edge). From about
  117 to 146 years the sign depends on the draw again
  (`JitterWrapsBackPositive`). From
  2^62 ns (about 146 years) on, for negative intervals down to -2^62 ns, and
  for -2^63 ns, `2I` is not positive and `Int63n` has no valid draw
  (`NoDraw`). For -2^63 < I < -2^62 ns the double wraps positive again and
  draws exist (`DrawBelowMinusTwoTo62`,
  `DrawForHugeNegativeInterval`). A configured interval of 2^55 seconds wraps
  to a zero interval (`SecondsOverflowToZero`), and one of 2^54 seconds to
  -2^63 ns (`SecondsOverflowToMinInt64`).
- **The folder policy** (lib/model/folder.go). `Reschedule` uses the long
  interval while the watcher is active and the short one otherwise.
  `scanSubdirsIfHealthy` runs the health check first, then the scan. It
  records the error only when the scan itself fails. The health check and the
  scan are oracles whose results are parameters.

Paths use the Unix separator `/`. `filepath.Rel` is external. It is modelled
by `Paths.RelPath`, which strips the folder prefix from the path. The
folder-containment test `isSubpath` compares characters, not path
components. It accepts `/rother` for the folder `/r`, and the event is then
stored with the relative path `../rother` (`NonComponentAccepted`,
`NonComponentRelPath`). So the guarantee that events outside the folder never
produce a batch entry holds only for paths that do not share a character
prefix with the folder. The model follows the code here.

The modules are `Wrappers` (wrappers.dfy) and `Paths` (paths.dfy). `Watcher`
(watcher.dfy) holds the watcher. `WatcherScenarios` (scenarios.dfy) holds
whole runs of the watcher on concrete inputs. `RescanSchedule`
(rescan_schedule.dfy) holds the scheduler and `FolderPolicy` (folder.dfy)
the folder policy.

## Model

| member | source | states |
|---|---|---|
| `Paths.StripTrailingSeparator` | lib/fswatcher/fswatcher.go:120-125 | the result is a prefix of the argument. At most one character is removed, only a trailing separator, and only from an argument longer than one character |
| `Paths.IsSubpath` | lib/fswatcher/fswatcher.go:119-127 | the definition: the folder, stripped of one trailing separator, is a character prefix of the path, stripped the same way. Its properties are the lemmas below |
| `Paths.SubpathReflexive` | lib/fswatcher/fswatcher.go:119-127 | the folder itself is accepted |
| `Paths.TrailingSeparatorOnPath` | lib/fswatcher/fswatcher.go:120-122 | adding a trailing separator to an event path that has none does not change the verdict |
| `Paths.TrailingSeparatorOnFolder` | lib/fswatcher/fswatcher.go:123-125 | adding a trailing separator to a folder path that has none does not change the verdict |
| `Paths.SubpathExtends` | lib/fswatcher/fswatcher.go:126 | any non-empty extension of an accepted path is accepted |
| `Paths.EveryAbsolutePathUnderRoot` | lib/fswatcher/fswatcher.go:119-127 | every absolute path is accepted for the folder `/`, which is never stripped |
| `Paths.NonComponentAccepted` | lib/fswatcher/fswatcher.go:126 | the test is plain string-prefix containment: `/rother` is accepted for `/r` |
| `Paths.OutsidePathRefused` | lib/fswatcher/fswatcher.go:126 | `/other/x.txt` is refused for `/r` |
| `Paths.LastElement` | lib/fswatcher/fswatcher.go:111 | the result is a suffix of the path with no separator in it, and a separator precedes it when it is not the whole path |
| `Paths.RelPath` | lib/fswatcher/fswatcher.go:111 | the relative path is never empty |
| `Paths.RelPathOfFolder` | lib/fswatcher/fswatcher.go:111 | the folder relative to itself is `.`, with or without a trailing separator |
| `Paths.RelPathOfJoin` | lib/fswatcher/fswatcher.go:110-111 | round trip: the folder joined with a relative path is accepted, and `Rel` of it gives that relative path back |
| `Paths.RelPathUnderRoot` | lib/fswatcher/fswatcher.go:110-111 | under the root folder `/` every clean absolute path is accepted, and its relative path is the path without the leading separator |
| `Paths.NonComponentRelPath` | lib/fswatcher/fswatcher.go:110-111 | a path that continues the folder's last element without a separator (`/rother` for `/r`) is accepted, and its relative path is `../` followed by that element and the continuation (`../rother`) |
| `Watcher.AfterItemEvent` | lib/fswatcher/fswatcher.go:181-189 | ItemStarted inserts the item, ItemFinished removes it, and any other event leaves the set unchanged |
| `Watcher.RepeatedStartsCollapse` | lib/fswatcher/fswatcher.go:181-189 | two starts of one item give the same set as one start, and a finish afterwards removes the item |
| `Watcher.ItemEventIsLocal` | lib/fswatcher/fswatcher.go:181-189 | a lifecycle event does not change the membership of any other path |
| `Watcher.Stored` | lib/fswatcher/fswatcher.go:153-160 | an in-progress path leaves the batch unchanged. Otherwise `batch[path]` becomes the event, the keys gain that path, and every other key keeps its event |
| `Watcher.StoreIdempotent` | lib/fswatcher/fswatcher.go:153-160 | storing the same event twice gives the same batch as storing it once |
| `Watcher.StorePreservesWellKeyed` | lib/fswatcher/fswatcher.go:158 | storing keeps every event under its own path |
| `Watcher.WellKeyedPaths` | lib/fswatcher/fswatcher.go:158 | in a well-keyed batch the events' paths are exactly the keys |
| `Watcher.FsWatcher.Valid` | lib/fswatcher/fswatcher.go:92-106 | the class invariant the loop keeps: every event sits under its own path (line 158), a pending change keeps the delay fast (line 98), a running loop whose timer needs no reset has it armed with the current delay (lines 88, 93), and only non-empty batches are delivered (lines 163-167). Every step method preserves it |
| `Watcher.FsWatcher.ShouldIgnore` | lib/fswatcher/fswatcher.go:191-194 | the definition: the path is ignored by the matcher or is a temporary name. `NewFsEvent` states its effect |
| `Watcher.FsWatcher.PathInProgress` | lib/fswatcher/fswatcher.go:196-199 | the definition: membership in the in-progress set. `StoreFsEvent` and `Stored` state its effect |
| `Watcher.FsWatcher.constructor` | lib/fswatcher/fswatcher.go:48-60 | the fields start with an empty batch, an empty in-progress set, the fast delay, no reset pending, and not watching |
| `Watcher.FsWatcher.StartWatchingFilesystem` | lib/fswatcher/fswatcher.go:62-72 | returns the setup error. On success the watcher is watching and the loop's timer is armed with the current delay (line 88); on failure nothing starts |
| `Watcher.FsWatcher.UpdateIgnores` | lib/fswatcher/fswatcher.go:201-203 | the ignore matcher is replaced and nothing else changes |
| `Watcher.FsWatcher.NewFsEvent` | lib/fswatcher/fswatcher.go:109-117 | no event for a path outside the folder. Inside it, an event exactly when the relative path is neither ignored nor temporary, and that event carries the relative path |
| `Watcher.FsWatcher.ResetNotifyTimerIfNeeded` | lib/fswatcher/fswatcher.go:129-135 | when a reset was requested, the timer is armed with the current delay. Otherwise it is untouched. The flag is clear afterwards |
| `Watcher.FsWatcher.SpeedUpNotifyTimer` | lib/fswatcher/fswatcher.go:137-143 | the delay is fast afterwards. The reset flag is set if the delay changed and is otherwise untouched |
| `Watcher.FsWatcher.SlowDownNotifyTimer` | lib/fswatcher/fswatcher.go:145-151 | the delay is slow afterwards. The reset flag is set if the delay changed and is otherwise untouched |
| `Watcher.FsWatcher.StoreFsEvent` | lib/fswatcher/fswatcher.go:153-160 | the batch becomes `Stored` of the old batch, using the in-progress test of `pathInProgress` (lines 196-199) |
| `Watcher.FsWatcher.ActOnTimer` | lib/fswatcher/fswatcher.go:162-171 | a reset is always requested and the batch is always left empty. The pending batch is delivered exactly when it is non-empty. Otherwise nothing is delivered and the delay becomes slow |
| `Watcher.FsWatcher.UpdateInProgressSet` | lib/fswatcher/fswatcher.go:181-189 | the in-progress set becomes `AfterItemEvent` of the old set |
| `Watcher.FsWatcher.OnFsEvent` | lib/fswatcher/fswatcher.go:95-100 | the invariant is kept. A refused event changes neither batch nor delay. An accepted one makes the delay fast even when its path is in progress, and the batch becomes `Stored` of the old one. The timer is re-armed first |
| `Watcher.FsWatcher.OnTimer` | lib/fswatcher/fswatcher.go:101-102 | the invariant is kept. The timer fired with the delay current before the step, which is always fast when changes were pending. The effects are those of `ActOnTimer` |
| `Watcher.FsWatcher.OnItemEvent` | lib/fswatcher/fswatcher.go:103-104 | the invariant is kept. The timer is armed with the current delay, and the in-progress set becomes `AfterItemEvent` of the old set |
| `Watcher.FsWatcher.Events` | lib/fswatcher/fswatcher.go:173-179 | lists every pending event exactly once: the length is the batch size, each element is the batch's event for its path, every pending event is listed, and there are no duplicates |
| `Watcher.KeysOf` | lib/fswatcher/fswatcher.go:175-177 | the map range loop visits every key of the batch exactly once: as many keys as entries, each a key of the batch, all of them present, no duplicates |
| `Watcher.EventsOf` | lib/fswatcher/fswatcher.go:173-179 | for a well-keyed batch, every entry exactly once: each element is the batch's event for its own path, every event is listed, none twice |
| `Watcher.GetPaths` | lib/fswatcher/fswatcher.go:205-211 | one path per entry, with length equal to the batch size, each the path of some event of the batch, and every event's path listed. For a well-keyed batch the paths are exactly the keys, each once |
| `WatcherScenarios.ChangeBelowFolder` | lib/fswatcher/fswatcher.go:92-106 | folder `/r`: a change to `/r/a/b.txt` is delivered as the batch `{a/b.txt}` |
| `WatcherScenarios.ChangeOutsideFolder` | lib/fswatcher/fswatcher.go:92-106 | folder `/r`: a change to `/other/x.txt` delivers nothing, and the idle fire makes the delay slow |
| `WatcherScenarios.InProgressSuppressed` | lib/fswatcher/fswatcher.go:92-106 | a change to `docs/report.txt` is not stored while that item is in progress. After the item finishes, the same change is delivered |
| `WatcherScenarios.TemporaryIgnored` | lib/fswatcher/fswatcher.go:92-106 | a change to a temporary name is never delivered |
| `WatcherScenarios.BurstCoalesced` | lib/fswatcher/fswatcher.go:92-106 | changes to `a.txt`, `b.txt`, `a.txt` before a fire are delivered as one batch `{a.txt, b.txt}` on the fast delay |
| `WatcherScenarios.SpeedUpAfterIdle` | lib/fswatcher/fswatcher.go:92-106 | after an idle fire slows the watcher down, the next change re-arms the timer first, with the slow delay, and the fire after it uses the fast delay |
| `RescanSchedule.Wrap64` | lib/model/folderscanner.go:52 | int64 wrap-around: exact within range, and always congruent to the input modulo 2^64 |
| `RescanSchedule.Quot4` | lib/model/folderscanner.go:52 | Go's definition of integer division by 4: `a == 4q + m` with `|m| < 4` and a remainder that is zero or has the sign of `a`; for `a >= 0` this is Dafny's `a / 4` |
| `RescanSchedule.Quot4Unique` | lib/model/folderscanner.go:52 | every `q` that meets Go's quotient-remainder definition equals `Quot4(a)`, so the definition fixes the quotient |
| `RescanSchedule.SecondsToDuration` | lib/model/folderscanner.go:31-32 | seconds times 10^9 nanoseconds, exact whenever it fits int64 |
| `RescanSchedule.SecondsOverflowToZero` | lib/model/folderscanner.go:31 | 2^55 seconds wraps to the zero interval |
| `RescanSchedule.SecondsOverflowToMinInt64` | lib/model/folderscanner.go:31 | 2^54 seconds wraps to -2^63 ns, an interval with no valid draw |
| `RescanSchedule.JitteredSleep` | lib/model/folderscanner.go:51-53 | for `I > 0`, `0 <= r < 2I` and no overflow, the delay is `(3I + r) / 4`, with `(3I)/4 <= s` and `4s < 5I` |
| `RescanSchedule.JitterExtremes` | lib/model/folderscanner.go:51-53 | both ends of the range are reached: `r = 0` gives `(3I)/4` and `r = 2I - 1` gives `(5I - 1)/4` |
| `RescanSchedule.JitterMonotone` | lib/model/folderscanner.go:52 | a larger draw never gives a shorter delay |
| `RescanSchedule.ValidDraw` | lib/model/folderscanner.go:52 | the definition: for a non-zero interval the draw lies in `[0, 2I)` with `2I` wrapped to int64, the domain of `rand.Int63n`. `NoDraw` states where it is empty, and `DrawBelowMinusTwoTo62` where a negative interval still has a draw |
| `RescanSchedule.NoDraw` | lib/model/folderscanner.go:52 | for `I == -2^63`, for `-2^62 <= I < 0` and for `I >= 2^62` ns the wrapped `2I` is not positive, so no draw is valid |
| `RescanSchedule.DrawBelowMinusTwoTo62` | lib/model/folderscanner.go:52 | for every `-2^63 < I < -2^62` ns the wrapped `2I` is positive, so the draw 0 is valid |
| `RescanSchedule.DrawForHugeNegativeInterval` | lib/model/folderscanner.go:52 | for `I = -5·10^9 s` the wrapped `2I` is positive, the draw 0 is valid, and the delay is positive |
| `RescanSchedule.JitterSumOverflow` | lib/model/folderscanner.go:52 | for `I = 2·10^9 s` (about 63 years) the draw 0 gives a positive delay, while the valid draw `3.5·10^18` overflows `3I + r` and gives a negative one |
| `RescanSchedule.NoPositiveDelayInBand` | lib/model/folderscanner.go:52 | for every interval from `2^63/3` to `2^64/5` ns and every valid draw, the delay is at most 0 |
| `RescanSchedule.PositiveDelayBelowBand` | lib/model/folderscanner.go:52 | one nanosecond below that band, the draw 0 still gives a positive delay |
| `RescanSchedule.JitterOverflow` | lib/model/folderscanner.go:52 | for an interval of 3.1·10^9 s, inside that band, `3I` overflows, the draw 0 is valid, and the delay is negative |
| `RescanSchedule.JitterWrapsBackPositive` | lib/model/folderscanner.go:52 | for `I = 4.6·10^9 s`, above that band, the draw 0 gives a negative delay and the valid draw `9·10^18` wraps the sum back to a positive one |
| `RescanSchedule.Rescheduled` | lib/model/folderscanner.go:47-56 | the definition: a zero interval keeps the timer, any other gives the jittered delay. `RescheduleBounds` states its range |
| `RescanSchedule.RescheduleBounds` | lib/model/folderscanner.go:47-56 | a zero interval leaves the timer as it was. Otherwise, for a positive interval whose `5I` fits int64, the timer lies in [¾I, 5⁄4 I) |
| `RescanSchedule.FolderScanner.constructor` | lib/model/folderscanner.go:29-37 | the intervals are the configured seconds as durations, and the first timer is 1 ms, so the first scan happens at once |
| `RescanSchedule.FolderScanner.HasNoInterval` | lib/model/folderscanner.go:71-73 | true exactly when the short interval is zero. Rescheduling then never moves the timer |
| `RescanSchedule.FolderScanner.RescheduleFor` | lib/model/folderscanner.go:47-56 | a zero interval leaves the timer untouched. Otherwise the timer is armed with the jittered delay for the draw |
| `RescanSchedule.FolderScanner.Reschedule` | lib/model/folderscanner.go:43-45 | reschedules with the short interval. Only the timer changes, and not at all when the scanner has no interval |
| `RescanSchedule.FolderScanner.LongReschedule` | lib/model/folderscanner.go:39-41 | reschedules with the long interval. Only the timer changes |
| `FolderPolicy.Folder.constructor` | lib/model/folder.go:23-33 | stands in for `newFolder`: takes an existing scanner and watcher, and starts with no recorded error and no scan |
| `FolderPolicy.RescheduleInterval` | lib/model/folder.go:49-53 | the definition: the long interval while the filesystem is watched, the short one otherwise. `Folder.Reschedule` states its effect |
| `FolderPolicy.Folder.Reschedule` | lib/model/folder.go:48-54 | the timer is rescheduled with `RescheduleInterval`: the long interval while the watcher is watching, the short one otherwise |
| `FolderPolicy.Folder.ScanSubdirsIfHealthy` | lib/model/folder.go:69-84 | a failed health check is returned, with no scan and no recorded error. Otherwise the scan runs. Its error is recorded and returned, and success returns nothing and records nothing |

## Left out

- Concurrency: the goroutine, the `select`, and wall-clock timers are not modelled. Each loop iteration is a step method, and the timer is the delay it was armed with. The double-reset behaviour of Go's `Timer.Reset` on a fired, undrained timer is left out too.
- Channels: the rendezvous in `folderScanner.Scan` and `Delay`, `folder.Scan` and `folder.DelayScan` are left out. There is no owning loop to serve them in this code. The blocking send of `actOnTimer` is an append to `delivered`.
- `setupNotifications`, `interpretNotifyWatchError`, `WatchesLimitTooLowError` and the OS watch with its 512-entry buffer are external. Setup is a parameter of `StartWatchingFilesystem`: the error it reports, or none.
- Watcher.FsWatcher.StartWatchingFilesystem: requires a watcher that is not yet watching, because a second successful call would start a second loop. The channel it re-creates is not modelled; `delivered` is kept.
- The event bus subscription and its dynamic payload casts are replaced by the datatype `ItemEvent`.
- `scanner.IsIgnoredPath` and `Tempnamer.IsTemporary` are external predicates. One is the field `ignores`, the other the constant field `isTemporary`.
- `UpdateIgnores` is modelled only as a field update. Its unsynchronised write from another goroutine is not modelled.
- Paths.RelPath: models `filepath.Rel` only on clean paths, because `filepath.Clean` is external. It handles neither `.`/`..` segments, repeated inner separators, nor the error that `Rel` gives for mixed absolute and relative paths. The watcher discards that error and then uses an empty path.
- Only the Unix separator `/` is modelled. The Windows build also treats `\` as a separator.
- `rand.Int63n` is the parameter `r`. `ValidDraw` requires it to lie in range. Where the wrapped `2I` is not positive no draw exists, because `Int63n` panics there; the panic itself is not modelled.
- Map iteration order: Go's `range` over a map visits keys in an unspecified order. `KeysOf` picks each next key by choice, so its contracts, and those built on it, hold for every order.
- Logging (`l.Debugf`, `l.Debugln`, `l.Infoln`) is left out.
- `newFolder` is not modelled. It calls `NewFsWatcher` with five arguments, while the definition takes two. The folder constructor takes an existing scanner and watcher instead.
- `IndexUpdated`, `IgnoresChanged` (a locked call of `UpdateIgnores`), `Stop`, `Jobs` and `BringToFront` are left out. So are `Model.CheckFolderHealth`, `internalScanFolderSubdirs`, the `fmut` lock and `stateTracker`. The health check and the scan are oracle results, and `setError` is an append to `recordedErrors`.
