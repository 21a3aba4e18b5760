# ChatmixCoreAudio, modelled in Dafny

ChatmixCoreAudio turns the chat-mix dial of a SteelSeries headset into per-application
volume on Windows. A reader thread polls the headset's interrupt endpoint. Each HID
report carries a system level (byte 1) and a voice level (byte 2). A report is trusted
only when one of the two is 100. A trusted reading is stored and then applied. "Applied"
means one master-volume call per audio session: voice applications get the voice level,
excluded applications are left alone, and every other session gets the system level.
A second thread polls the audio sessions and applies the stored levels again when new
sessions appear.

The repository holds two variants of the same program:

- `coremix.py` is the class `CoreMix`. It identifies sessions by `(process name, process id)`.
  When a new session appears, it adds the process id to `voice_ids` or `exclude_ids`.
  `set_volume_levels` then routes each session by its process id.
- `chatmix.py` is a single `main` with nested functions that share a `volume_cache`
  dictionary. It identifies sessions by process name and routes them by name.

The model has six modules.

| module | file | content |
|---|---|---|
| `Dial` | dial.dfy | Report decoding, the 100-filter, and one reader-loop step per read outcome (timeout, disconnect, other USB error, report). A reader run over a finite series of reads, with its reference definition. |
| `Sessions` | sessions.dfy | Sessions, the voice-before-exclude precedence, and the volume calls one `set_volume_levels` pass issues. The routing is either by pid (coremix) or by name (chatmix). |
| `Polling` | polling.dfy | New-session detection as a set difference against the last successful snapshot. It is generic in the session identity. |
| `Config` | config.dfy | JSON values and `convert_hex` with its hexadecimal and decimal parsing. Its application to `vendor_id`, `product_id` and `endpoint_address`, the `dict.get` defaults, and `set()` of the app lists. |
| `Coremix` | coremix.dfy | The class `CoreMix`: its levels, known sessions and the append-only id sets, updated by `HandleRead`/`UsbReader` and `MonitorStep`/`MonitorNewSessions`. Also the entry point's argument-over-config-over-default resolution. |
| `Chatmix` | chatmix.dfy | The class `ChatMix` holds the state `main`'s nested functions share (`volume_cache`). Its methods are the name-based `set_volume_levels`, `usb_reader` and `monitor_new_sessions`, plus `main`'s configuration defaults. |

The model abstracts the program's environment as follows:

- The USB endpoint is a sequence of read outcomes.
- `AudioUtilities.GetAllSessions()` is a sequence of session records, or a snapshot in
  which reading a process name raised `NoSuchProcess`.
- Each `SetMasterVolume(level / 100)` becomes a `VolumeCall(pid, percent)`.
- The `exit_event` is the end of the input sequence: a loop that was never stopped by
  its input ends when the input runs out.

## Model

| member | source | states |
|---|---|---|
| `Dial.Decode` | coremix.py:96-106 | A report shorter than three bytes cannot be decoded. Otherwise voice is byte 2 and system is byte 1. The report is accepted exactly when one of them is 100, and is ignored when neither is. |
| `Dial.ReaderStep` | coremix.py:94-120 | Volumes are applied exactly for an accepted report, which replaces both levels. Every other outcome leaves the levels unchanged. The loop ends exactly on errno 19 (disconnected) or on a report too short to index (the exception reaches the thread's handler). A timeout (110) and any other USB error continue. |
| `Dial.RunReader` | coremix.py:86-122 | A run over a series of reads takes at most all of them. A run that was not stopped has taken every read, and a stopped run has taken at least the read that stopped it. |
| `Dial.RunAppliesAcceptedReports` | coremix.py:93-114 | Over a series of reads, the level pairs handed to `set_volume_levels` are exactly the accepted reports among the reads taken, in order. |
| `Dial.RunAppliesOnlyPlausible` | coremix.py:100-104 | Every level pair that is applied has the voice or the system level at 100. |
| `Dial.RunKeepsLastAccepted` | coremix.py:102-103 | After a run, the stored levels are those of the last accepted report, or the initial ones when none was accepted. |
| `Dial.RunStopsAtFirstStop` | coremix.py:107-120 | The loop runs to the end of its input exactly when no read is a disconnect or a short report. Otherwise it stops at the first such read and at no earlier one. |
| `Sessions.Precedence` | coremix.py:166-173 | A session is routed to voice exactly when it is a voice member. It is left untouched exactly when it is not a voice member but is excluded. So voice wins when both hold. |
| `Sessions.Calls` | coremix.py:158-173 | One pass issues exactly as many calls as there are sessions with a process that are not left untouched (`Served`, counted independently), so never more calls than sessions. |
| `Sessions.CallsExactly` | coremix.py:158-173 | A pass issues a call exactly when some session with a process is served by it. A voice-routed session gets the voice level and a system-routed one the system level. Excluded sessions and sessions without a process get nothing. |
| `Sessions.CallsCount` | coremix.py:160-173 | Each call occurs in a pass exactly as many times as there are sessions it serves, so two sessions of one process routed the same way give that call twice. |
| `Sessions.VoiceSessionGetsVoiceLevel` | chatmix.py:147-159 | A session with a process that is routed to voice receives a call with the voice level. |
| `Sessions.UntouchedPidGetsNoCall` | chatmix.py:160-162 | No call touches a process whose sessions are all excluded or have no process. |
| `Polling.KnownAfter` | coremix.py:130-149 | The known set is always the initial snapshot or one of the successful snapshots. When every cycle raised `NoSuchProcess`, it is still the initial snapshot. |
| `Polling.NewAt` | coremix.py:133-134 | What a cycle finds new is disjoint from what was known before it, and lies within the cycle's own snapshot. A cycle whose enumeration raised finds nothing. |
| `Polling.KnownIsLatestSeen` | coremix.py:149-151 | After a successful snapshot followed only by cycles that raised, the known set is that snapshot. |
| `Polling.ReturningSessionArrives` | coremix.py:133-149 | A session that one successful snapshot lacks and the next successful snapshot shows is counted as new, even if it was known earlier. |
| `Polling.PresentSessionNeverArrives` | coremix.py:130-149 | A session in the initial snapshot that every later successful snapshot still shows stays known and is never counted as new. |
| `Polling.ArrivalsWereSeen` | coremix.py:133-134 | A session counts as new only in a cycle whose snapshot shows it while the known set before that cycle does not. |
| `Polling.SteadyPollsFindNothing` | chatmix.py:214-236 | When every snapshot equals the initial one, no cycle finds anything new. |
| `Polling.NoArrivalsIffZeroCount` | chatmix.py:222-228 | The cycles find no new session exactly when the number of new sessions, counted per cycle, is zero. |
| `Config.ParseHex` | coremix.py:243-245 | `int(s, 16)` on a string starting with "0x" succeeds exactly when at least one character follows the prefix and every following character is a hexadecimal digit. |
| `Config.ParseDecimal` | coremix.py:248-249 | `int(s)` succeeds exactly on a non-empty string of decimal digits, optionally after one sign with at least one digit following. A negative result needs a leading "-". A leading "-" negates the value of the rest, and a leading "+" leaves it unchanged. |
| `Config.ConvertHex` | coremix.py:241-250 | A non-string passes through unchanged. A string starting with "0x" becomes its hexadecimal value, or stays as it is when that parse fails. Any other string becomes its decimal value when that parse succeeds, and raises exactly when it fails. |
| `Config.HexRoundTrip` | chatmix.py:37-42 | "0x" followed by the hex digits of n converts to n. |
| `Config.DecimalRoundTrip` | chatmix.py:46-47 | The decimal text of any integer, negative ones included, converts to that integer. |
| `Config.DigitsRoundTrip` | coremix.py:245-249 | Reading back the digits of n in base 10 or 16 gives n. |
| `Config.ConvertHexIdempotent` | chatmix.py:37-47 | Converting an already converted value changes nothing. |
| `Config.ConvertKeys` | coremix.py:252-257 | Conversion keeps the key set and leaves every key outside the converted list unchanged. |
| `Config.ConvertKeysConverts` | coremix.py:252-257 | When no listed value raises, every listed key that is present holds its converted value. |
| `Config.ConvertKeysConvertsPrefix` | coremix.py:252-257 | The listed keys before the first one that raises hold their converted values in the result, whatever happens to the later keys. |
| `Config.ConvertKeysStopsAtRaise` | coremix.py:249-266 | A decimal string that raises stops the conversion: the generic handler returns the dictionary as it stands. That key and every later listed key keep their text. |
| `Config.NormaliseConfig` | coremix.py:252-266 | The key set is kept, and `interface_number` and every other unlisted key keep the value read. When none of `vendor_id`, `product_id` and `endpoint_address` raises, each one present holds its converted value. When one raises, the dictionary is returned as it stands: the keys before it hold their converted values, and it and the later ones keep their text. |
| `Config.LoadConfig` | coremix.py:232-266 | A missing or unparsable file yields an empty configuration. A parsed file keeps its keys and the values of every key outside the three ids. When no id raises, each id present holds its converted value. |
| `Config.AppNames` | chatmix.py:94-95 | For a list, `set()` succeeds exactly when no element is itself a list or an object (those are unhashable). The names in the resulting set are then exactly the strings the list holds, and an empty list gives the empty set. |
| `Coremix.SessionKeys` | coremix.py:130-133 | The keys are exactly the `(name, pid)` pairs of the sessions that have a process. |
| `Coremix.Classify` | coremix.py:134-146 | The id sets only grow. A new session whose name is a voice app puts its pid in the voice ids. A new session that is excluded but not voice puts its pid in the exclude ids. Every id added comes from such a session. |
| `Coremix.ClassifyUnion` | coremix.py:137-146 | Classifying two batches of arrivals in turn equals classifying their union at once. |
| `Coremix.MonitorCalls` | coremix.py:133-147 | While no cycle finds a new session, monitoring issues no volume call. A cycle that finds nothing new adds no call. |
| `Coremix.PresentSessionNotClassified` | coremix.py:130-146 | A session of the initial snapshot that stays visible is never classified. Unless another session with the same pid arrives, its pid joins neither id set. |
| `Coremix.StartupSettings` | coremix.py:284-289 | For each of the four device settings, a non-zero argument wins, then the configuration value, then the default (0x1038, 0x2202, 5, 0x86). For each app list on its own, a non-empty argument gives exactly its names. Otherwise the configuration's list is converted by `set()`, and that app set is empty when the list is absent too. The settings fail exactly when an app list that no non-empty argument overrides comes from the configuration and makes `set()` raise. No arguments and no configuration give all the defaults. |
| `Coremix.CoreMix.constructor` | coremix.py:26-41 | A new object holds levels 100/100, no known sessions and empty id sets. |
| `Coremix.CoreMix.SetVolumeLevels` | coremix.py:154-173 | The calls issued are exactly `Calls` routed by the object's voice and exclude ids. |
| `Coremix.CoreMix.HandleRead` | coremix.py:94-114 | The fields become what `ReaderStep` gives for the read. An accepted report issues one pass with the new levels, and anything else issues no call. |
| `Coremix.CoreMix.UsbReader` | coremix.py:86-122 | Over a series of reads, the levels end as `RunReader` says and the loop ends for the same reason. The calls are one pass per accepted report. |
| `Coremix.CoreMix.ClassifyArrivals` | coremix.py:137-146 | After the loop over the new pairs, the id sets are exactly the old ones classified with those pairs: voice first, then excluded, and nothing removed. |
| `Coremix.CoreMix.MonitorStep` | coremix.py:132-152 | A cycle classifies exactly the new `(name, pid)` pairs and sets the known sessions to the snapshot. It applies the stored levels once if anything arrived and not otherwise. A cycle that raised `NoSuchProcess` changes nothing. |
| `Coremix.CoreMix.MonitorCycles` | coremix.py:131-152 | The monitoring loop, from the known set the initial snapshot gives: the known sessions end as `KnownAfter` the cycles' snapshots, the id sets as the old ones classified with all `Arrivals`, and the calls as `MonitorCalls`. |
| `Coremix.CoreMix.MonitorNewSessions` | coremix.py:124-152 | When the snapshot taken before the loop raises `NoSuchProcess`, monitoring ends with nothing changed and no call. Otherwise, after a series of cycles from that snapshot, the known sessions are the last successful snapshot. The id sets are the old ones plus the classification of every arrival. The calls are one pass per cycle that found something. |
| `Chatmix.SessionNames` | chatmix.py:214-219 | The names are exactly those of the processes owning the sessions that have a process. |
| `Chatmix.StartupSettings` | chatmix.py:90-95 | A present key is taken as read, and each missing key falls back to its own default (0x1038, 0x2202, 5, 0x86, an empty app set). Present app lists are converted by `set()`, and the settings fail exactly when one of those conversions raises. |
| `Chatmix.PassesPerArrival` | chatmix.py:222-228 | Counted over all cycles, monitoring issues one pass per new name. |
| `Chatmix.SteadySessionsNoApply` | chatmix.py:214-231 | Monitoring that only ever sees the names of its initial snapshot counts no new name, so it issues no pass. |
| `Chatmix.ChatMix.constructor` | chatmix.py:136-139 | The cache starts with exactly the keys `voice_level` and `system_level`, both at 100. |
| `Chatmix.ChatMix.SetVolumeLevels` | chatmix.py:142-166 | The calls issued are exactly `Calls` routed by process name against the configured voice and exclude lists. |
| `Chatmix.ChatMix.HandleRead` | chatmix.py:174-200 | An accepted report replaces both cache entries and then issues one pass with the cached values. A rejected report or a USB error leaves the cache untouched and issues nothing. Errno 19 and a short report end the loop. |
| `Chatmix.ChatMix.UsbReader` | chatmix.py:169-208 | Over a series of reads, the cache ends at `RunReader`'s levels and the loop ends for the same reason. The calls are one pass per accepted report. |
| `Chatmix.ChatMix.ApplyPerNewSession` | chatmix.py:223-228 | Each new name triggers one pass with the cached levels. |
| `Chatmix.ChatMix.MonitorCycle` | chatmix.py:217-236 | The known names become the snapshot's names, and the cycle issues one pass per name not known before. `NoSuchProcess` keeps the known names and issues nothing. |
| `Chatmix.ChatMix.MonitorNewSessions` | chatmix.py:211-236 | When the snapshot taken before the loop raises `NoSuchProcess`, monitoring ends with no call. Otherwise, over a series of cycles from that snapshot, the calls are one pass with the cached levels per new name found, counted cycle by cycle. |

## Left out

- USB discovery and configuration are not modelled: `find_usb_device` (coremix.py:55-84) and the discovery in `main` (chatmix.py:98-130). They are calls into the USB library. The model starts from an open endpoint.
- Threads, `run`, `stop` and the `exit_event` are not modelled. This covers coremix.py:175-215 and chatmix.py:238-266. Each loop runs over a finite sequence of inputs, and the exit event is the end of that sequence. The reader and monitor threads interleave in the program, but the model runs them separately. `stop` joins threads it never started, so it promises nothing that could be stated.
- The audio-session enumeration, `QueryInterface` and COM initialisation are not modelled. One list of live sessions stands for every `GetAllSessions()` call that `set_volume_levels` makes in one run of a loop. The monitor's own enumerations are the snapshots, and the model does not relate them to that list.
- Only `NoSuchProcess` is caught around the monitor's enumeration (coremix.py:151, chatmix.py:235). Any other exception raised while enumerating ends the monitoring thread; the model's snapshots have no such outcome.
- Volumes are written as floats (`level / 100`). The model records the level as an integer percent instead.
- Logging, `print`, `time.sleep` and the one-second pauses between passes are left out because they have no logical content. The settling delay before each apply in chatmix.py is one of those pauses.
- An exception raised inside `set_volume_levels` or `SetMasterVolume` is not modelled. Neither is a `NoSuchProcess` raised there: in the program it escapes a half-finished pass, and the model assumes every pass completes.
- `data is None` from the USB read is not modelled, since the USB library never returns it. A read is either a report or a `USBError`.
- `KeyboardInterrupt` handling inside the loops is left out, as part of the thread lifecycle.
- Python's `int()` accepts surrounding whitespace, `_` digit separators and non-ASCII digits. The model reads ASCII digits only: an optional sign and decimal digits, or "0x" and hexadecimal digits.
- JSON floats and a configuration file whose top level is not an object are not modelled. Reading the file itself is replaced by the `ConfigFile` outcome.
- `argparse` is replaced by the `Args` record. Argument values are integers or string lists, as their declared types make them.
- `Config.AppNames`: for a string or an object, `set()` gives its characters or its keys. The model states this only in its body; the contract speaks of lists.
- The device ids the `CoreMix` constructor stores are used only by USB discovery, so `Coremix.CoreMix.constructor` does not take them.
