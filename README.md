# ImarisWriter client logic in Dafny

ImarisWriter writes large multi-dimensional microscopy images (x, y, z,
channel, time) into the Imaris `.ims` format. A native engine does the
writing. A Python wrapper, `PyImarisWriter`, drives it: a converter session
is created, the image goes over as blocks, and metadata is added at the end.
The engine and the wrapper's internals are not part of this model. What is
modelled is the client-side logic that the test and example programs
contain, plus the behaviour the unit tests assert about the wrapper's value
types:

- **Block grid** (`ImageSize`, `BlockGrid`). Per-axis block counts come
  from ceiling division. `Enumerate` gives the order in which the five
  nested block loops visit the grid: channel outermost, then time, z and y,
  with x fastest. It is proved to visit every grid index once, nothing
  outside the grid, in strictly increasing (c, t, z, y, x) order.
- **Block loops** (`BlockCopy`). Each loop level is one method over an
  engine session. There are two families:
  - the C-style test program copies every block and stops at the first
    engine error;
  - the Python examples copy exactly the blocks for which `NeedCopyBlock`
    holds.

  Each family is proved to hand the engine exactly the planned sequence of
  (index, buffer) pairs, when no copy fails. When one does, the loops stop
  right after it, and the copies so far are a prefix of that plan: none
  but the last one failed, and its error is the session's error.
- **Engine session** (`Converter`):
  - the constructor's argument checks (sample-type name, missing
    arguments, callback object);
  - an `ImageConverter` class that records the calls handed to the engine.
    The engine's answers are the session's two fixed functions, `needed`
    and `reaction`. After each copy the wrapper polls the engine's error and
    raises it. No example program handles it, so it ends the program with
    the session still open.
- **Progress throttle** (`Progress`). A callback forwards a percentage only
  once it has risen by at least five since the last forwarded value.
  Forwarded values are proved to rise by at least five each time.
- **Metadata**:
  - `Parameters`: sections of text values. Numbers are stored as their
    decimal text (`Decimal`), which reads back to the number.
  - `Calendar`: the Julian day number uses the Fliegel–Van Flandern
    formula. It is proved equal to an independent day count and to advance
    by one from each day to the next.
  - `Colors`: per-channel colour settings.
  - The C program's fixed parameter, time and colour arrays.
- **Example programs** (`WriterExample`, `NumpyExample`). Each is modelled
  end to end: converter creation, the buffer or band fill, the block loop,
  then `Finish` and `Destroy` with the metadata. The NumPy example's six test
  configurations are modelled too.

The unit tests' reference points for `to_julian_day` hold under the
published formula. That formula truncates `(month - 14) / 12` toward zero,
which for January and February differs from Python's floor division. The
model follows the formula and the test values, not a floor-division reading
of it. For valid years every other quotient in the formula is non-negative,
so there truncation and floor agree.

## Model

| member | source | states |
|---|---|---|
| ImageSize.MakeImageSize | testPy/TestPyImarisWriter.py:27-49 | No arguments give the zero size (the examples' fresh block index). An unknown keyword is refused exactly when some keyword is not an axis. A missing axis is refused exactly when all keywords are axes but one axis is absent. Construction succeeds exactly when all five axes are bound to non-negative integers, and each axis then takes the value bound to its own name |
| ImageSize.MakeImageSizeIgnoresOrder | testPy/TestPyImarisWriter.py:39-44 | Two argument lists with the same bindings in any order give the same result |
| ImageSize.NumBlocks1D | testPy/ImarisWriterCtypesTest.py:66-67 | `n * block >= size` and `(n - 1) * block < size`, so n is the ceiling of size / block |
| ImageSize.Divide | testPy/TestPyImarisWriter.py:51-60 | Succeeds exactly when every block axis is positive. Each axis of the result is the least block count covering that axis |
| ImageSize.CoversIsCeiling | testPy/ImarisWriterCtypesTest.py:66-67 | The covering count is unique, so division and `num_blocks_1D` agree axis by axis |
| ImageSize.CtypesGrid | testPy/ImarisWriterCtypesTest.py:36-58 | Image (512,512,32,2,4) in blocks of (256,256,8,1,1) gives grid (2,2,4,2,4) of 128 blocks |
| ImageSize.DivisionExample | testPy/TestPyImarisWriter.py:51-60 | (2048,2048,100,3,1) / (512,512,1,1,1) = (4,4,100,3,1) |
| ImageSize.DivideBySelf | testPy/PyImarisWriterNumpyExample.py:72-74 | Any size with every axis positive, divided by itself, is the single-block grid (1,1,1,1,1) |
| BlockGrid.EnumerateExactlyOnce | testPy/ImarisWriterCtypesTest.py:83-95 | The loop order has Volume(g) entries. An index is in it exactly when it lies inside the grid. It is strictly increasing in (c,t,z,y,x) order, so no index repeats |
| BlockGrid.SingleBlockGrid | testPy/PyImarisWriterNumpyExample.py:99-111 | A (1,1,1,1,1) grid is visited once, at (0,0,0,0,0) |
| BlockGrid.SelectedEnumerationExactlyOnce | testPy/PyImarisWriterExample.py:63-75 | The kept indices are exactly the grid indices the engine asks for. They are strictly increasing and distinct |
| BlockCopy.FillRamp | testPy/ImarisWriterCtypesTest.py:71-74 | A new buffer of n voxels with `voxel_data[i] == i % 256` |
| BlockCopy.Ramp | testPy/ImarisWriterCtypesTest.py:72-74 | The ramp has n entries, each in [0, 256), so each fits the byte buffer |
| BlockCopy.StoppedAtFirstError | testPy/ImarisWriterCtypesTest.py:26-31 | When a loop stops early, the number of copies made pins the failing copy: the engine reported an error for it and for none of the planned copies before it |
| BlockCopy.CopyRowEveryBlock | testPy/ImarisWriterCtypesTest.py:92-96 | Completed: the row's blocks were copied in order, and the engine reported no error for any. Otherwise: a non-empty prefix was copied in order, every copy but the last went without error, and the session's error is the one the last copy caused |
| BlockCopy.CopyPlaneEveryBlock | testPy/ImarisWriterCtypesTest.py:90-96 | The same, for every row of a plane |
| BlockCopy.CopyStackEveryBlock | testPy/ImarisWriterCtypesTest.py:88-96 | The same, for every plane of a z stack |
| BlockCopy.CopySeriesEveryBlock | testPy/ImarisWriterCtypesTest.py:86-96 | The same, for every stack of a channel's time series |
| BlockCopy.CopyEveryBlock | testPy/ImarisWriterCtypesTest.py:84-96 | The same for the whole grid. The session stays open and unfinished |
| BlockCopy.CopyBlocks | testPy/ImarisWriterCtypesTest.py:70-96 | `copy_blocks`: over the ceiling-division grid, the ramp block goes to every index in loop order until the first engine error |
| BlockCopy.EveryCopyExactlyOnce | testPy/ImarisWriterCtypesTest.py:83-96 | When no copy fails there are Volume(g) copies, all inside the grid, covering every grid index, in strictly increasing order |
| BlockCopy.CopyRowNeededBlocks | testPy/PyImarisWriterExample.py:72-75 | Completed: the copies gained exactly the row's indices for which `NeedCopyBlock` holds, in order, each with the buffer, and no copy failed. Otherwise: a non-empty prefix of those was copied, every copy but the last went without error, and the session's error is the one the last copy caused |
| BlockCopy.CopyPlaneNeededBlocks | testPy/PyImarisWriterExample.py:70-75 | The same, for a plane |
| BlockCopy.CopyStackNeededBlocks | testPy/PyImarisWriterExample.py:68-75 | The same, for a z stack |
| BlockCopy.CopySeriesNeededBlocks | testPy/PyImarisWriterExample.py:66-75 | The same, for a channel's time series |
| BlockCopy.CopyNeededBlocks | testPy/PyImarisWriterExample.py:64-75 | The same for the whole grid: the needed grid indices in loop order, up to and including the first copy that fails. The session stays open and unfinished |
| BlockCopy.NeededCopiesExactlyOnce | testPy/PyImarisWriterExample.py:63-75 | A block is copied exactly when it is in the grid and needed, each at most once, in increasing loop order |
| Progress.ProgressCallback | testPy/ImarisWriterCtypesTest.py:175-192 | Reports exactly when the percentage rose by at least 5. The stored progress becomes the percentage then, and is otherwise unchanged. The image index is untouched |
| Progress.CallbackData.constructor | testPy/ImarisWriterCtypesTest.py:220-221 | Callback data starts at progress 0 with the given image index |
| Progress.MyCallbackClass.constructor | testPy/PyImarisWriterExample.py:27-28 | The recorded progress starts at 0 |
| Progress.MyCallbackClass.RecordProgress | testPy/PyImarisWriterExample.py:30-34 | Records exactly when `percent - last >= 5`, then keeps the new value, otherwise keeps the old one. The stream of forwarded values grows by this percentage exactly when it was recorded. The NumPy example's class (PyImarisWriterNumpyExample.py:60-68) is the same |
| Progress.LastAfterIsLastForwarded | testPy/PyImarisWriterExample.py:30-34 | The remembered value is the last forwarded value, or the starting value if none was forwarded |
| Progress.ForwardedRises | testPy/PyImarisWriterExample.py:30-34 | The first forwarded value is at least 5 above the start, and each later one at least 5 above the one before |
| Progress.ForwardedIncreasing | testPy/PyImarisWriterExample.py:30-34 | Any two forwarded values differ by at least 5 in stream order, so none is forwarded twice |
| Progress.LastAfterNeverDecreases | testPy/PyImarisWriterExample.py:30-34 | The remembered value never falls below where it started |
| Progress.ZeroToSixForwardsOnce | testPy/PyImarisWriterExample.py:28-34 | From 0, the stream 0..6 forwards only 5. A fall back to 3 forwards nothing |
| Colors.GetColorInfos | testPy/ImarisWriterCtypesTest.py:155-173 | One entry per channel. Channel c has base-colour mode, red/green/blue chosen by c % 3, alpha 1, no table, opacity 0, range [0,255] and gamma 1 |
| Colors.SetBaseColor | testPy/PyImarisWriterExample.py:84 | Base-colour mode with the given colour. Table, opacity, range and gamma are kept |
| Colors.SetColorTable | testPy/PyImarisWriterNumpyExample.py:121 | Table mode, with the table kept entry for entry. The other settings are kept |
| Colors.LastSettingWins | testPy/PyImarisWriterExample.py:84-86 | Of the two settings, the one made last decides the mode |
| Colors.ExampleColorInfos | testPy/PyImarisWriterExample.py:83-86 | One entry per channel of the image. Channel 0 and channels from 3 on keep the default. Channel 1 is base-colour green, and channel 2 is in table mode with the six-colour table. The other settings of both (table or base colour, opacity, range and gamma) are the default's |
| Calendar.JulianDayIsDayCount | testPy/TestPyImarisWriter.py:214-233 | For every date in years 1..9999 the formula equals the day count since 1 January of year 1, plus 1721425 |
| Calendar.JulianDayNextDay | testPy/TestPyImarisWriter.py:214-233 | Consecutive dates get consecutive Julian day numbers |
| Calendar.JulianDayFixedPoints | testPy/TestPyImarisWriter.py:214-233 | 1970-01-01 → 2440588, 1969-12-30 → 2440586, 1970-01-30 → 2440617, 2020-02-05 → 2458885, 2021-06-01 → 2459367 |
| Calendar.JulianDayEpoch | testPy/TestPyImarisWriter.py:215-217 | 1970-01-01 → 2440588 |
| Calendar.JulianDayEndOf1969 | testPy/TestPyImarisWriter.py:219-221 | 1969-12-30 → 2440586 |
| Calendar.JulianDayLaterFixedPoints | testPy/TestPyImarisWriter.py:223-233 | 1970-01-30 → 2440617, 2020-02-05 → 2458885, 2021-06-01 → 2459367 |
| Calendar.NanosecondsOfDay | testPy/TestPyImarisWriter.py:235-244 | Nanoseconds since midnight lie in [0, 86400·10^9) |
| Calendar.NanosecondsOfDayDecodes | testPy/TestPyImarisWriter.py:235-244 | Hour, minute, second and microsecond can be read back from the nanosecond count |
| Calendar.GetCTimeInfo | testPy/TestPyImarisWriter.py:235-244 | The day is the day count plus 1721425. The nanoseconds are those elapsed since midnight, clock reading included, and lie within one day |
| Calendar.TimeInfoExample | testPy/TestPyImarisWriter.py:235-244 | 2020-02-05 15:27:04 gives day 2458885 and (4 + 60·(27 + 60·15))·10^9 nanoseconds |
| Calendar.GetTimeInfos | testPy/ImarisWriterCtypesTest.py:143-153 | n entries. Entry t has day 2458885 and (55624 + t)·10^9 nanoseconds |
| Calendar.TimeInfosMatchConverter | testPy/ImarisWriterCtypesTest.py:146-150 | Entry t equals the converter's time info for 2020-02-05 15:27:(04 + t), for every t below 56 |
| Converter.ParseSampleType | testPy/TestPyImarisWriter.py:144-153 | A name is accepted exactly when it names a sample type, and then yields that type |
| Converter.ParseSampleTypeRoundTrip | testPy/PyImarisWriterNumpyExample.py:94-95 | Every sample type's name parses back to that type |
| Converter.SometypeIsRefused | testPy/TestPyImarisWriter.py:144-147 | `'sometype'` is refused |
| Converter.Options.constructor | testPy/TestPyImarisWriter.py:120-124 | New options compress with gzip level 2 |
| Converter.FirstMissing | testPy/TestPyImarisWriter.py:133-141 | The result is the first parameter position, from the given one on in signature order, that was not supplied, or the parameter count when all were |
| Converter.AllSuppliedIndexwise | testPy/TestPyImarisWriter.py:133-141 | All arguments are supplied exactly when each of the eight signature positions is |
| Converter.ArgumentNamesDistinct | testPy/TestPyImarisWriter.py:143-146 | The eight parameter names are pairwise distinct |
| Converter.ValidateArgs | testPy/TestPyImarisWriter.py:133-212 | Accepted exactly when the type name is known, every argument is supplied and the callback has `RecordProgress`. An unknown type is reported exactly when the name is unknown. With a known type and an argument missing, the name reported is that of the first missing parameter in signature order. A missing `RecordProgress` is reported exactly when the type is known and all arguments are supplied. Once accepted, the configuration holds exactly the arguments given |
| Converter.MissingArgumentNamed | testPy/TestPyImarisWriter.py:143-187 | For each parameter i, the construction is refused naming i exactly when the type is known, i was not supplied and every parameter before it was |
| Converter.FirstMissingReported | testPy/TestPyImarisWriter.py:143-187 | With a known type, when parameter i is missing and all before it were supplied, the refusal names parameter i |
| Converter.ConstructionRefusesMissing | testPy/TestPyImarisWriter.py:133-187 | The unit test's steps before any callback, for any known type and any argument values: `'sometype'` is refused as an unknown type. Then each step is refused for the first parameter still missing: `image_size`, `sample_size`, `dimension_sequence`, `block_size`, then `output_filename` twice, since supplying `options` comes first |
| Converter.ConstructionNeedsRecordProgress | testPy/TestPyImarisWriter.py:189-212 | With all the test's arguments supplied: no callback, or a callback lacking `RecordProgress`, is refused for the missing `RecordProgress`. A callback with it is accepted |
| Converter.ImageConverter.constructor | testPy/PyImarisWriterExample.py:58-59 | A new session is open, with nothing copied, no error and nothing finished |
| Converter.ImageConverter.CopyBlock | testPy/PyImarisWriterExample.py:74-75 | On an open session with no error, appends (index, data) to the copies. The session's error becomes the engine's answer for that copy. Nothing is finished |
| Converter.ImageConverter.Finish | testPy/PyImarisWriterExample.py:88 | On an open session with no engine error, records the extents, parameter sections, time points, colours and range flag, and finishes the session. Copies and errors are unchanged |
| Converter.ImageConverter.Destroy | testPy/PyImarisWriterExample.py:90 | A session not yet destroyed is destroyed. Copies, errors and the finish record are unchanged |
| Converter.NewImageConverter | testPy/PyImarisWriterExample.py:58-59 | Fails exactly when the arguments are refused, with their error. Otherwise it returns a fresh open session on the checked configuration, with nothing copied, no error and nothing finished |
| Decimal.IntToText | testPy/TestPyImarisWriter.py:109 | Non-empty text that starts with `-` exactly for negative numbers |
| Decimal.IntToTextRoundTrip | testPy/TestPyImarisWriter.py:109 | Parsing the text of n gives n back |
| Decimal.IntToTextInjective | testPy/ImarisWriterCtypesTest.py:135 | Different integers have different texts |
| Decimal.TextExamples | testPy/TestPyImarisWriter.py:105-109 | str(2400) is "2400" and str(700) is "700" |
| DimensionSequence.Lower | testPy/TestPyImarisWriter.py:77-82 | The same length, each character lower-cased |
| DimensionSequence.MakeDimensionSequence | testPy/TestPyImarisWriter.py:65-82 | Accepted exactly when there are five tokens, each an axis name in either case, with no axis twice. The result is the tokens lower-cased, in order, naming every axis once |
| DimensionSequence.FiveDistinctAxesAreAll | testPy/TestPyImarisWriter.py:65-75 | Five distinct axis names are all five axes |
| DimensionSequence.MixedCaseExample | testPy/TestPyImarisWriter.py:77-79 | ('X','y','Z','c','T') → [x,y,z,c,t] |
| DimensionSequence.ReversedOrderExample | testPy/TestPyImarisWriter.py:81-82 | ('T','C','Z','Y','X') → [t,c,z,y,x] |
| DimensionSequence.RejectedExamples | testPy/TestPyImarisWriter.py:65-75 | ('x'), ('x','y','z','c','x'), its mixed-case form ('x','y','z','c','X') and ('x','y','z','c','s') are refused |
| Parameters.ToText | testPy/TestPyImarisWriter.py:101-110 | Text is stored as given. A number is stored as text that parses back to it |
| Parameters.ChannelSectionNamesDistinct | testPy/ImarisWriterCtypesTest.py:135 | Different channels get different section names, none of them `Image` |
| Parameters.Parameters.constructor | testPy/TestPyImarisWriter.py:102 | A new parameter set has no sections |
| Parameters.Parameters.SetValue | testPy/TestPyImarisWriter.py:101-110 | Creates the section and the key as needed and stores the value's text. Every other entry is unchanged |
| Parameters.Parameters.SetChannelName | testPy/PyImarisWriterExample.py:81 | Stores the name under `Name` of the channel's section. Every other entry is unchanged |
| Parameters.ImageSizeInMBExample | testPy/TestPyImarisWriter.py:101-110 | After `set_value('Image','ImageSizeInMB',2400)` the section and key exist, holding the text "2400" |
| Parameters.ChannelName | testPy/ImarisWriterCtypesTest.py:98-106 | Channels 0, 1, 2 are First, Second and Third channel. Every other index is `Other channel`, and only those are |
| Parameters.GetParameters | testPy/ImarisWriterCtypesTest.py:111-141 | 1 + n sections. Section 0 is `Image` with `Unit=um`. Section 1 + c is `Channel c` with exactly Name, LSMEmissionWavelength=700 and OtherChannelParameter, in that order |
| Parameters.MakeChannelSection | testPy/ImarisWriterCtypesTest.py:124-138 | One channel's section as above |
| NumpyExample.GetTestConfigurations | testPy/PyImarisWriterNumpyExample.py:35-56 | Six configurations. Each id equals its position, each colour table has three colours, and the array and image types are the listed ones |
| NumpyExample.AddConfiguration | testPy/PyImarisWriterNumpyExample.py:38-39 | The list grows by one and keeps its earlier entries. The new entry's id is the old length, and it carries the given title, array type, image type and colour table |
| NumpyExample.BandsPartition | testPy/PyImarisWriterNumpyExample.py:83-88 | The band bounds are ordered within the width. Each column gets exactly one of 10, 130 or 240, by which band it lies in, and never 0 |
| NumpyExample.ExampleBands | testPy/PyImarisWriterNumpyExample.py:84-85 | For width 600 the bounds are 200 and 400 |
| NumpyExample.FillBands | testPy/PyImarisWriterNumpyExample.py:86-88 | Every cell of every plane and row holds its column's band value |
| NumpyExample.MakeBandData | testPy/PyImarisWriterNumpyExample.py:83-88 | A fresh (5, 400, 600) array holding the band image |
| NumpyExample.RunGrid | testPy/PyImarisWriterNumpyExample.py:97-111 | The grid is (1,1,1,1,1), so the loop body runs once, at (0,0,0,0,0) |
| NumpyExample.RunParameters | testPy/PyImarisWriterNumpyExample.py:115-118 | `Image` holds ImageSizeInMB=2400 and Info=title. `Channel 0` holds Name=My Channel 1 |
| NumpyExample.FinishRun | testPy/PyImarisWriterNumpyExample.py:113-125 | On a session with no engine error, finishes with extents (0,0,0,600,400,5), those parameters, one time point and one colour entry with the configuration's table, then destroys. Copies are unchanged and there is still no error |
| NumpyExample.Run | testPy/PyImarisWriterNumpyExample.py:71-126 | The session has the configuration's sample type, the given engine answers and a single-block 600×400×5 grid. The file is named `PyImarisWriterNumpyExample<id>.ims`. The band image is copied at (0,0,0,0,0) exactly when the engine asks for it. `run` completes unless that copy was made and failed. Then the session ends finished and destroyed; otherwise it stays open, holding that error |
| NumpyExample.SingleCopy | testPy/PyImarisWriterNumpyExample.py:99-111 | On a one-block grid the loops copy the block exactly when it is needed. They fail exactly when that copy was made and the engine reported an error for it, which becomes the session's error |
| NumpyExample.RunEach | testPy/PyImarisWriterNumpyExample.py:129-132 | Each run has its own engine answers, and each converter keeps its run's answers and its configuration's sample type. The loop completes exactly when no run's block copy fails, and then leaves one converter per configuration, each run for its configuration. Otherwise it stops at the first run whose copy failed: the runs before it each ran their configuration without error, and its converter is left open holding that error |
| NumpyExample.RunAll | testPy/PyImarisWriterNumpyExample.py:129-132 | `main`: the same, over the six test configurations. Configuration i has id i, three colours, the i-th array type and the i-th sample type's name, and converter i has that sample type |
| WriterExample.ExampleDivision | testPy/PyImarisWriterExample.py:38-61 | (512,512,32,3,4) / (512,512,1,1,1) = (1,1,32,3,4) |
| WriterExample.ExampleBlockVolume | testPy/PyImarisWriterExample.py:40-42 | `num_voxels_per_block` is 512·512 |
| WriterExample.ExampleGridSize | testPy/PyImarisWriterExample.py:61-75 | The loop visits 384 block indices |
| WriterExample.ExampleParameters | testPy/PyImarisWriterExample.py:79-81 | `Image` holds ImageSizeInMB=2400 and `Channel 0` holds Name=My Channel 1, and nothing else |
| WriterExample.CreateExampleConverter | testPy/PyImarisWriterExample.py:54-59 | A fresh open uint16 session on the given sizes with nothing copied |
| WriterExample.ExampleVoxelData | testPy/PyImarisWriterExample.py:42-52 | The buffer is the ramp `i % 256` over one block's voxels |
| WriterExample.CopyExampleBlocks | testPy/PyImarisWriterExample.py:50-75 | Completed: the copies are exactly the needed grid indices in loop order, each with the ramp buffer, and none failed. Otherwise they stop at the first copy that failed, which set the session's error. The session stays open and unfinished |
| WriterExample.FinishExample | testPy/PyImarisWriterExample.py:77-90 | On a session with no engine error, finishes with extents (0,0,0,10,10,10), the example's parameters, one time point and one colour entry per channel, then destroys. Copies are unchanged |
| WriterExample.RunExample | testPy/PyImarisWriterExample.py:37-91 | `main` end to end on a fresh uint16 session that has the given engine answers. Completed: the needed blocks were copied once each in loop order with the ramp, without error, and the session was finished with the example's metadata and destroyed. Otherwise: the copies stop at the first failing one, and the session is left open and unfinished |

## Left out

- The native engine is not part of this model. Its answers to
  `NeedCopyBlock` and its per-copy errors are the functions `needed` and
  `reaction`. The output `.ims` file and the engine's own checks are not
  modelled: sample-type dispatch, buffer-size checks, out-of-range blocks.
- DLL loading, platform detection and the ctypes structures, `Ptr` wrappers and
  callback type (`get_dll_filename`, `IW.CDLL`, `CFUNCTYPE`) are foreign
  calls. The C-style driver `test_convert`, its `main` and `print_user_data`
  only wire these together.
- All `print` output and the KB/MB formatting in `ProgressCallback`
  (ImarisWriterCtypesTest.py:184-190) are I/O on float division.
- `check_errors` ends the process with `sys.exit`. In `CopyEveryBlock` and
  `CopyBlocks` this is the loop stopping and returning `completed == false`.
- The wrapper's `CopyBlock` is not part of this model. It is taken to poll
  the engine's error after each copy and raise it. The examples have no
  handler, so the raise is the loops returning `completed == false` and
  the program ending there, without `Finish` or `Destroy`.
- WriterExample.RunExample: requires at least three channels. `main` sets
  the colours of channels 1 and 2, and fails with an `IndexError` on a
  smaller image. That failure is not modelled.
- Progress is a float fraction that the callbacks turn into
  `int(progress * 100)`. The model takes the integer percentage as input.
- `get_image_extents` and the float voxel sizes are not modelled. Extents,
  colour components and opacity are exact reals.
- `num_blocks_1D` uses float division then truncation, and the band bounds
  use `int(x / 3)` and `int(x / 3 * 2)`. These are integer divisions here;
  they agree for the non-negative sizes used.
- `datetime.today()`/`datetime.now()` read the wall clock. The time point
  is the parameter `today`, and timing and duration printing are left out.
- The colour entries that `PW.ColorInfo()` creates are the parameter
  `defaultColorInfo`, because the wrapper's defaults are not shown.
- The `Color` constructor tests (TestPyImarisWriter.py:87-96) are not
  modelled. That covers refusing a partial keyword list such as
  `Color(r=100)`. Colours are plain values here.
- Converter.ValidateArgs: the wrapper's constructor is not part of this
  model. The unit test asserts only that each incomplete construction
  raises. Naming the first missing parameter, in signature order, is how
  this model reports it.
- Converter.Options.constructor: only the compression setting is modelled.
  The thread count, the log flag and the other fields are left out.
- Converter.ImageConverter.CopyBlock: requires an open session. What the
  engine does with a block after `Finish` or `Destroy` is not modelled.
- NumpyExample.Run: the array's element type (`np.uint8`, `np.uint16`,
  `np.float32`) is recorded but not modelled. The copied data is the band
  image as integers.
- NumpyExample.RunAll: states for each configuration the sample type, the
  final state and the parameters. It does not restate the copies, which
  `Run` states for each configuration.
- WriterExample.RunExample: the image and block sizes that `main` fixes
  are parameters here. `ExampleDivision`, `ExampleBlockVolume` and
  `ExampleGridSize` state the values for the fixed sizes.
- Calendar.TimeInfosMatchConverter: stated for t < 56 only, while 15:27:04
  plus t seconds stays within the same minute.
- DimensionSequence.Lower: lower-cases ASCII letters only. Python's
  `str.lower` also folds other alphabets.
- The five nested loops of each program are one method per loop level. The
  `block_index` object that the source mutates field by field is a fresh
  index value at each turn.
