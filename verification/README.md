# Asteroids game logger — a Dafny model

This project models the telemetry logger of a small pygame Asteroids clone
(`logger.py`). The logger has two entry points:

- `log_state` is called once per game tick. It keeps a module-level frame
  counter, stops for good after a budget of `_FPS * _MAX_SECONDS` = 960 frames,
  and samples only on every 60th frame. When it samples, it walks the caller's
  local variables. A pygame surface gives `screen_size`, and the last surface
  seen wins. A sprite group gives `{count, sprites}`, where `sprites` summarises
  at most 10 sprites. An object with a `position` is logged on its own only
  while no group has been found. The record goes to `game_state.jsonl`.
- `log_event` writes one record to `game_events.jsonl`. The record holds the
  current frame, the event type and the caller's details. It does not change
  the frame counter.

Each file is opened with mode `"w"` (truncate) on its first write and `"a"`
(append) after that. Each file has its own "initialized" flag.

The model is functional. `LoggerState` holds the counter and the two flags.
`LogState` and `LogEvent` are pure step functions: each returns the next state
and the write it would perform, as an open mode and a structured entry. `Run`
folds a sequence of calls into the final state and the ordered list of writes.
The caller's scope is an ordered sequence of named candidates. The attributes
that reflection would probe are explicit optional fields: surface size, group
members, `position`, `velocity`, `radius` and `rotation`. Python dicts are
modelled as insertion-ordered association lists (`Dict`). Assigning to an
existing key overwrites its value in place. A dict literal `{..., **rest}` is
the successive assignment of `rest`'s entries (`Merge`). A snapshot keeps the
sampled objects. Their summaries (`SpriteInfo`) are computed when the entry is
rendered to JSON (`Records`). `SpriteInfo` depends only on the object, so this
gives the same record as summarising during the walk.

Modules:

- `Options` (options.dfy): `Option`.
- `Dict` (dict.dfy): the Python-dict model: `Keys`, `Lookup`, `Put`, `Merge`.
- `Json` (json.dfy): the JSON values written, before text serialisation.
- `Snapshot` (snapshot.dfy): candidate objects, sprite summaries, group
  sampling, and the walk over the caller's variables (`Visit`, `Discover`).
- `Logger` (logger.dfy): constants, logger state, `LogState`, `LogEvent`, `Run`.
- `Traces` (traces.dfy): properties of whole runs of calls.
- `Records` (records.dfy): the JSON objects the two entries render to.

`log_state` tests `_frame_count > 960` before it runs `_frame_count += 1`
(logger.py:43-47). So the counter stops at 961, not at 960, and frame 960 is
still sampled.

In `main.py` the groups are bound before `player`. So with CPython's
local-variable order the stand-alone fallback never fires in this game. The
model keeps the fallback, because `logger.py` defines it.

## Model

| member | source | states |
|---|---|---|
| Dict.Put | logger.py:103 | Dict assignment: the key set gains exactly the assigned key; the key maps to the new value; every other key keeps its value; the size grows by one only when the key was new |
| Dict.Merge | logger.py:129-135 | `{**d, **e}`: the keys are the union; a key not in `e` keeps its value from `d`; with `e`'s keys distinct, every key of `e` maps to its value in `e` |
| Dict.PutUnique | logger.py:103-126 | Assigning into a dict whose keys are distinct keeps them distinct |
| Dict.PutPlaces | logger.py:126 | Assigning a fresh key appends it at the end; any assignment leaves every other position as it was |
| Snapshot.SpriteInfoKeys | logger.py:81-99 | A sprite summary has key `type` always, and has `pos`, `vel`, `rad`, `rot` exactly when the object exposes `position`, `velocity`, `radius`, `rotation`; it has no other key |
| Snapshot.SpriteInfoValues | logger.py:81-99 | `type` is the class name; each present field holds the attribute's value (x/y pair for `pos` and `vel`; `rad` is the radius as given, int or float) |
| Snapshot.Sample | logger.py:77-101 | The `enumerate` loop with its break at index 10 visits min(len, limit) sprites, and they are the group's prefix in iteration order |
| Snapshot.GroupSnapshot | logger.py:103 | A group snapshot's `count` is the group's true length; `sprites` has length min(len, 10) and is the group's prefix |
| Snapshot.VisitSingleFirst | logger.py:106-126 | A visit keeps the invariant "a stand-alone entry can only be at position 0 and has a position" |
| Snapshot.DiscoverScreenSize | logger.py:64-71 | `screen_size` is empty exactly when no variable is a surface; otherwise it is the size of a surface with no surface after it (last one wins) |
| Snapshot.DiscoverEmpty | logger.py:65-106 | The snapshot map is empty exactly while no group and no positioned object has been seen, which is the source's `len(game_state) == 0` test |
| Snapshot.DiscoverKeys | logger.py:68-126 | The snapshot map's keys are exactly the names of the groups plus the name of the stand-alone sprite, if any |
| Snapshot.DiscoverGroups | logger.py:74-103 | With distinct variable names, every group is stored under its name as `{count: len, sprites: first 10}` |
| Snapshot.DiscoverSingles | logger.py:106-126 | With distinct variable names, the stand-alone candidate (positioned, not a group, nothing loggable before it) is stored under its name |
| Snapshot.DiscoverSingleFirst | logger.py:106-126 | In any walk, at most one stand-alone entry exists; it sits first and its object has a position |
| Snapshot.DiscoverUnique | logger.py:65-126 | The snapshot map never holds two entries under one key |
| Snapshot.DiscoverSingleton | logger.py:106-126 | A variable is logged stand-alone if and only if it has a position, is not a group, and no group or positioned object precedes it; so nothing after the first group or the first stand-alone sprite becomes one |
| Logger.LogState | logger.py:38-142 | Past the budget, nothing changes; otherwise the counter advances by one; a record is written if and only if the new counter is a multiple of 60 and the caller frame exists; the record carries the new counter, the clock reading and the discovered screen size and snapshots; it truncates if and only if the state file was not yet initialized, and the flag is then set; the event flag never changes |
| Logger.LogEvent | logger.py:145-164 | The event record carries the current counter, which is left unchanged, along with the type and details; it truncates if and only if the event file was not yet initialized; only the event flag changes |
| Traces.FrameCountBound | logger.py:43-47 | Starting at or below 961, the counter never exceeds 961 = 60 * 16 + 1, however many calls follow |
| Traces.ExhaustedBudget | logger.py:43-44 | Once the counter exceeds 960, any run leaves the counter and the state-file flag unchanged and writes only event records |
| Traces.FramesNonDecreasing | logger.py:47-154 | Across both files, stamped frames never decrease, and lie between the counter before and after the run |
| Traces.InitializedFlags | logger.py:138-164 | After a run, each file's flag is set exactly when it was set before or the run wrote to that file |
| Traces.WriteModes | logger.py:138-164 | A write truncates exactly when its file was uninitialized at the start and no earlier write of the run went to the same file; the two files are independent |
| Traces.SamplingFromStart | logger.py:43-49 | From module load, in a run of n `log_state` calls that all have a caller frame, interleaved with any `log_event` calls, the counter ends at min(n, 961) and the state file receives floor(min(n, 960) / 60) records, the i-th stamped with frame 60 * (i + 1) |
| Records.SnapsJson | logger.py:134 | Rendering the snapshot map keeps its keys and order and renders each value |
| Records.Stamp | logger.py:129-132 | The shared prefix has exactly `timestamp`, `elapsed_s`, `frame`, holding the clock's timestamp, its elapsed seconds and the stamped counter |
| Records.StateJson | logger.py:129-135 | A state entry's keys are `timestamp`, `elapsed_s`, `frame`, `screen_size` plus the snapshot names; `timestamp`, `elapsed_s`, `frame` and `screen_size` keep their values unless a variable of that name overrides them; when the snapshot map's keys are distinct (always, by Snapshot.DiscoverUnique), each snapshot name maps to its rendered snapshot |
| Records.EventJson | logger.py:151-157 | An event entry's keys are `timestamp`, `elapsed_s`, `frame`, `type` plus the detail keys; `timestamp`, `elapsed_s`, `frame` and `type` keep their values unless a detail overrides them; with distinct detail keys, each detail keeps its value |
| Records.StateRecordKeys | logger.py:64-135 | A written state record's keys are exactly the four fixed keys plus one per group and per stand-alone sprite |
| Records.StateRecordSnapshots | logger.py:74-135 | In a written state record, with distinct variable names, every group variable's name maps to `{count: len, sprites: first 10 summaries}` and the stand-alone variable's name maps to its summary |
| Records.GroupJson | logger.py:77-103 | A group renders with `count` equal to its true length and a `sprites` array of min(len, 10) summaries of its first sprites, in order |
| Records.SingletonJsonHasPos | logger.py:106-126 | A stand-alone entry in a state record sits first and renders with a `pos` field |

## Left out

- Clock: `datetime.now()`, the `HH:MM:SS.mmm` formatting and the floored `elapsed_s` are a `Clock` parameter. Monotonicity of `elapsed_s` depends on the real clock, so it is not stated.
- Rounding: `round(..., 2)` on positions, velocities and rotation is not modelled, because floating-point rounding is outside the model; the summary carries those attribute values as given. `radius` is copied unrounded in the source too, and the model keeps it as the JSON number it is (int or float).
- Reflection: `inspect.currentframe`, `f_locals`, the `"pygame" in str(type(v))` / `get_size` test and the `"Group" in __class__.__name__` test are replaced by explicit candidate fields. A missing caller frame is `caller == None`. `len(group)` is the length of the member sequence, so it equals the number of sprites iterated.
- Files: opening, writing and `json.dumps` text are not modelled. A write is a mode plus the entry, and I/O errors are out of scope.
- Snapshot.DiscoverGroups, Snapshot.DiscoverSingles, Snapshot.DiscoverSingleton, Records.StateRecordSnapshots: these require distinct variable names. A Python dict of locals always has them.
- Traces.SamplingFromStart: counts records only for runs whose `log_state` calls all have a caller frame. With missing frames, the counter still advances but fewer records are written.
- `main.py`: the pygame window, the event loop, updates, drawing, collisions and `sys.exit` are game-loop glue over libraries outside the model.
