# psychic-giggle core, modelled in Dafny

psychic-giggle connects an Android phone to a PC. The app sends sensor samples (accelerometer, gyroscope, ...) and button presses to a Java server. The server passes them through a pipeline of filters and splitters to the program that uses them, for example a game controller or a robot arm. Two small Ruby scripts build the tables of contents of the project's Markdown documents.

This project models the parts of that system that compute something or keep state step by step:

- **Table-of-contents generator** (`Toc`). Both Ruby scripts, with the forbidden words and the indent unit as parameters.
- **Ring buffer and filters.**
  - `RingBuffers` models the ring buffer.
  - The averaging, temporary-integrating, integrating, difference-threshold, minimum-amplitude-change, thresholding, scaling and absolute filters each have a module.
  - `AbstractFilters` holds the common filter base. Every filter holds one `AbstractFilter` as `base`, which stands for the Java superclass.
- **Pipeline wiring.**
  - `FilterPipelineBuilders` models the builder.
  - `Switches` models the switch.
  - `SensorSplitters` and `ClientSplitters` model the two splitters.
- **Sink registry** (`DataMappers`). Both versions of `DataMapper` are in one class. The flag `reportsRemovals` says whether a removal is reported to the connection handler, as in the release version.
- **Client bookkeeping** (`ClientConnectionManagers`). It covers the connected clients, the buttons, the XML layout and the sensor speeds.
- **Small state machines and tables.**
  - `AccelerationPhases` models the acceleration phase detection.
  - `KukaUtil` and `MarbleLabyrinth` model the robot clamp, the joint ranges and the labyrinth control.
  - `ButtonConfigs` models the NES button configuration.
  - `SensorHandlers` models the app's sensor handler.
- **Encoders.**
  - `Coppelia` models `IntWA`, which packs ints into little-endian byte chars.
  - `Sensors` models the `SensorData` external serialisation.
- **Identity and validation.**
  - `Devices` models `NetworkDevice` equality, hash code and constructors.
  - `DiscoveryClients` models the app's server-list deduplication.
  - `Ports` models the two discovery-port validators.

Conventions used throughout:

- **Exceptions.** A Java exception is an `Err(JavaError)` of the `Result` type in `Common`. A method that throws part-way keeps the changes made before the throw.
- **Numbers.** Java `int` arithmetic is written out with `WrapInt32` where it can overflow, except the array length `4 * w.length` in `IntWA` (see "## Left out"). `float` values are `real`.
- **Sinks.** A data sink is an `object`. A call on it is recorded in a `sent` log as a `Delivery` holding the sink, the origin, a snapshot of the sample and the sensitivity (`None` for the two-argument call), or as a `PlainDelivery` for a plain `DataSink`. Commands sent to clients and calls on listeners are recorded the same way.
- **Devices.** A device is a value with a `handle` standing for the Java object's identity. `==` on devices is Java's `==`, and `Devices.Equals` is `equals`.
- **Java `assert`.** It becomes a precondition where it guards a caller's argument (`AveragingFilter`, `addButton`). `SensorData.clone` ends in `assert(false)`, so `Clone` takes whether assertions are enabled as a parameter.

## Model

| member | source | states |
|---|---|---|
| Toc.GenerateToc | gen_toc.rb:3-10 | the loop's output equals `TocOf`, the per-line outputs concatenated in input order |
| Toc.FormatEntry | gen_toc.rb:8-10 | the `puts` argument for a heading line is exactly its `Entry` |
| Toc.LineOutput | gen_toc.rb:6-10 | one input line yields at most one output line |
| Toc.NonHeadingDropped | gen_toc.rb:6 | a line not starting with `#` produces nothing |
| Toc.ForbiddenDropped | gen_toc.rb:5-6 | a line containing any forbidden word (case-sensitive substring) produces nothing |
| Toc.TitleClean | gen_toc.rb:8 | the title has no `#` and no leading or trailing whitespace |
| Toc.AnchorClean | gen_toc.rb:9 | the anchor has no space, no colon and no upper-case letter |
| Toc.AnchorIdempotent | gen_toc.rb:9 | deriving the anchor from an anchor changes nothing |
| Toc.CountAtLeastOne | gen_toc.rb:10 | a kept line has at least one `#`, so the indent count is not negative |
| Toc.EntryShape | gen_toc.rb:10 | each emitted line is indent * (count of `#` - 1) + `* [` + title + `](#` + anchor + `)` |
| Toc.TocAppend | gen_toc.rb:3-10 | the output of concatenated inputs is the concatenation of the outputs (input order is kept) |
| Toc.TocLength | gen_toc.rb:3-10 | no more output lines than input lines |
| Toc.TocFromKeptLines | gen_toc.rb:6-10 | every output line is the entry of some kept input line |
| Toc.TocContainsKept | gen_toc.rb:6-10 | every kept input line contributes its entry |
| Toc.UsageExample | gen_toc.rb:5-10 | `# Usage` becomes `* [Usage](#usage)` with the root script's words and indent |
| Toc.HeadingEntry | gen_toc.rb:8-10 | for `# name`, with name one word without whitespace, `#` or `:`: no indent, title name, anchor name in lower case |
| Toc.FourHashesSubsumed | Abschlussbericht/gen_toc.rb:4 | every line containing `####` contains `###`, so that list entry adds nothing |
| Toc.ReportDropsDeepHeadings | Abschlussbericht/gen_toc.rb:4-9 | with the report's forbidden words and 4-space indent, a line with `###` produces nothing |
| Toc.Delete | gen_toc.rb:8 | `gsub("#", "")` removes every occurrence, keeps only characters of the input and shortens by the count |
| Toc.Replace | gen_toc.rb:9 | `gsub(" ", "-")` replaces exactly the matching positions |
| Toc.Downcase | gen_toc.rb:9 | each character is lower-cased position by position, the ASCII and Latin-1 capitals folded |
| Toc.UmlautsFolded | gen_toc.rb:9 | `Ä`, `Ö`, `Ü` fold to `ä`, `ö`, `ü`, and `ß` stays |
| Toc.StripLeading | gen_toc.rb:8 | the result is a suffix, all removed characters are whitespace, it does not start with whitespace |
| Toc.StripTrailing | gen_toc.rb:8 | the result is a prefix, all removed characters are whitespace, it does not end with whitespace |
| Toc.DeleteAppend | gen_toc.rb:8 | deletion distributes over concatenation |
| Toc.CountAppend | gen_toc.rb:10 | counting distributes over concatenation |
| RingBuffers.RingBuffer.constructor | server/src/de/ovgu/softwareprojekt/util/RingBuffer.java:35-40 | every slot holds `fillWith`, write index 0, size equals the capacity |
| RingBuffers.RingBuffer.Size | server/src/de/ovgu/softwareprojekt/util/RingBuffer.java:92-94 | `size()` is always the capacity |
| RingBuffers.RingBuffer.Get | server/src/de/ovgu/softwareprojekt/util/RingBuffer.java:48-57 | `get(i)` as written: slot (index - 1 + i) mod capacity, the sum taken in Java `int` arithmetic, with the out-of-bounds and empty-buffer errors |
| RingBuffers.ReadSlot | server/src/de/ovgu/softwareprojekt/util/RingBuffer.java:48-57 | `get(i)` on given slots and write index: defined exactly when the capacity is positive and the `int`-wrapped index - 1 + i is at least -capacity, and then that slot mod capacity; without overflow, the plain sum |
| RingBuffers.GetWrapsAtMaxInt | server/src/de/ovgu/softwareprojekt/util/RingBuffer.java:49-56 | with write index 2 of 3 slots, `get(Integer.MAX_VALUE)` wraps to a negative slot and throws |
| RingBuffers.WriteThenRead | server/src/de/ovgu/softwareprojekt/util/RingBuffer.java:48-82 | before a write at the index `get(1)` reads the slot to be overwritten; after it and the advance, `get(0)` reads the new element |
| RingBuffers.RingBuffer.GetByAge | server/src/de/ovgu/softwareprojekt/util/RingBuffer.java:42-47 | age 0 is the newest element and age size-1 the oldest; defined exactly for 0 <= age < capacity |
| RingBuffers.RingBuffer.Window | server/src/de/ovgu/softwareprojekt/util/RingBuffer.java:42-57 | the contents newest first, agreeing with `GetByAge` at every age |
| RingBuffers.RingBuffer.Add | server/src/de/ovgu/softwareprojekt/util/RingBuffer.java:65-85 | returns the overwritten element, changes only that slot, wraps the index, keeps the size; `get(1)` before is the return value and `get(0)` after is the new element; the window slides by one |
| RingBuffers.SlideOnWrite | server/src/de/ovgu/softwareprojekt/util/RingBuffer.java:75-82 | writing at the index and advancing it slides the newest-first window |
| RingBuffers.AgeOrderCounterexample | server/src/de/ovgu/softwareprojekt/util/RingBuffer.java:42-57 | after adding 1, 2, 3 to a buffer of 3, `get(2)` answers 2 while the documented oldest element is 1 |
| AveragingFilters.AveragingFilter.constructor | server/src/de/ovgu/softwareprojekt/pipeline/filters/AveragingFilter.java:38-45 | a positive sample size; the window holds that many `{0,0,0}` entries |
| AveragingFilters.AveragingFilter.Divide | server/src/de/ovgu/softwareprojekt/pipeline/filters/AveragingFilter.java:65-66 | every value is divided by the window size, in place |
| AveragingFilters.AveragingFilter.Filter | server/src/de/ovgu/softwareprojekt/pipeline/filters/AveragingFilter.java:52-67 | the window slides by a copy of the input; the output is the column mean of the window, or out-of-bounds when an entry is too short |
| AveragingFilters.AveragingFilter.SumWindow | server/src/de/ovgu/softwareprojekt/pipeline/filters/AveragingFilter.java:60-62 | on a zeroed sample, the summing loops give every column sum of the window, or out-of-bounds exactly when some entry is shorter than the sample |
| AveragingFilters.AddEntry | server/src/de/ovgu/softwareprojekt/pipeline/filters/AveragingFilter.java:61-62 | adding one entry turns the column sums of a prefix of the window into those of the prefix extended by the entry; fails exactly when the entry is shorter than the sample |
| AveragingFilters.AveragingFilter.OnData | server/src/de/ovgu/softwareprojekt/pipeline/filters/AveragingFilter.java:76-81 | filters, then forwards origin, sample and sensitivity unchanged; the errors of filtering and of a missing sink |
| AveragingFilters.Mean | server/src/de/ovgu/softwareprojekt/pipeline/filters/AveragingFilter.java:57-66 | the column means of the window, one per component |
| AveragingFilters.MeanOfConstant | server/src/de/ovgu/softwareprojekt/pipeline/filters/AveragingFilter.java:57-66 | a window of equal entries averages to that entry |
| AveragingFilters.MeanBounded | server/src/de/ovgu/softwareprojekt/pipeline/filters/AveragingFilter.java:57-66 | each mean lies between the column's bounds |
| AveragingFilters.AveragingExample | server/src/de/ovgu/softwareprojekt/tests/pipeline/filters/AveragingFilterTest.java:18-32 | with n = 3 the test's inputs give `{0,0,0}`, `{-1,2,3}`, `{-2,4,6}`, `{-3,6,0}` |
| TemporaryIntegratingFilters.TemporaryIntegratingFilter.constructor | server/src/de/ovgu/softwareprojekt/pipeline/filters/TemporaryIntegratingFilter.java:31-34 | `length` rows of three zeros, index 0 |
| TemporaryIntegratingFilters.TemporaryIntegratingFilter.OnData | server/src/de/ovgu/softwareprojekt/pipeline/filters/TemporaryIntegratingFilter.java:41-54 | copies the input into the current row, advances and wraps the index, outputs the column sums, forwards; the out-of-bounds cases |
| TemporaryIntegratingFilters.TemporaryIntegratingFilter.Sum | server/src/de/ovgu/softwareprojekt/pipeline/filters/TemporaryIntegratingFilter.java:61-67 | the target becomes the column sums of all rows |
| TemporaryIntegratingFilters.TemporaryIntegratingFilter.ResetFilter | server/src/de/ovgu/softwareprojekt/pipeline/filters/TemporaryIntegratingFilter.java:72-76 | every row becomes zeros, the index is unchanged |
| TemporaryIntegratingFilters.SumsOneRow | server/src/de/ovgu/softwareprojekt/pipeline/filters/TemporaryIntegratingFilter.java:61-67 | when all other rows are zero the sums equal that row |
| IntegratingFilters.IntegratingFilter.constructor | server/src/de/ovgu/softwareprojekt/pipeline/filters/IntegratingFilter.java:26-28 | sums start at zero |
| IntegratingFilters.IntegratingFilter.OnData | server/src/de/ovgu/softwareprojekt/pipeline/filters/IntegratingFilter.java:34-45 | adds x, y, z to the running sums, replaces those axes by the sums, forwards; the out-of-bounds and missing-sink errors |
| IntegratingFilters.IntegratingFilter.ResetFilter | server/src/de/ovgu/softwareprojekt/pipeline/filters/IntegratingFilter.java:50-54 | all three sums become zero |
| IntegratingFilters.ResetThenOnData | server/src/de/ovgu/softwareprojekt/pipeline/filters/IntegratingFilter.java:34-54 | after a reset the next output equals that input |
| DifferenceThresholdFilters.CalculateChange | server/src/de/ovgu/softwareprojekt/pipeline/filters/DifferenceThresholdFilter.java:70-81 | the change is the sum of absolute differences over the common length |
| DifferenceThresholdFilters.ChangeZeroIffEqual | server/src/de/ovgu/softwareprojekt/pipeline/filters/DifferenceThresholdFilter.java:70-81 | the change is never negative and is zero exactly when the common prefixes agree |
| DifferenceThresholdFilters.ChangeSymmetric | server/src/de/ovgu/softwareprojekt/pipeline/filters/DifferenceThresholdFilter.java:70-81 | the change does not depend on the order of the two samples |
| DifferenceThresholdFilters.LastOrZeros | server/src/de/ovgu/softwareprojekt/pipeline/filters/DifferenceThresholdFilter.java:48-49 | the stored value, or zeros of the input's length before the first call |
| DifferenceThresholdFilters.DifferenceThresholdFilter.constructor | server/src/de/ovgu/softwareprojekt/pipeline/filters/DifferenceThresholdFilter.java:33-36 | the minimum change, no stored value |
| DifferenceThresholdFilters.DifferenceThresholdFilter.OnData | server/src/de/ovgu/softwareprojekt/pipeline/filters/DifferenceThresholdFilter.java:45-61 | below the minimum the data is zeroed and the stored value kept; otherwise the stored value becomes a copy of the input; the call succeeds, with one forward, exactly when a sink is set and the copy fits the sample |
| MinimumAmplitudeChangeFilters.MinimumAmplitudeChangeFilter.constructor | abgabefolder/abgabe/source/server/server/src/de/ovgu/softwareprojekt/pipeline/filters/MinimumAmplitudeChangeFilter.java:34-37 | the minimum change, no stored value |
| MinimumAmplitudeChangeFilters.MinimumAmplitudeChangeFilter.OnData | abgabefolder/abgabe/source/server/server/src/de/ovgu/softwareprojekt/pipeline/filters/MinimumAmplitudeChangeFilter.java:46-61 | below the minimum the data is overwritten by the stored value, otherwise the stored value by the data; the call succeeds exactly when the sample is at least as long as the stored value, and then forwards once when a sink is set; nothing is sent without a sink |
| ThresholdingFilters.AxisOf | server/src/de/ovgu/softwareprojekt/pipeline/filters/ThresholdingFilter.java:40-52 | axes 0, 1 and 2 are accepted, any other throws `InvalidParameterException` |
| ThresholdingFilters.NewThresholdingFilter | server/src/de/ovgu/softwareprojekt/pipeline/filters/ThresholdingFilter.java:36-53 | construction succeeds exactly for axes 0 to 2 and stores minimum, axis and sink |
| ThresholdingFilters.Threshold | server/src/de/ovgu/softwareprojekt/pipeline/filters/ThresholdingFilter.java:63-64 | the data is unchanged when the axis magnitude reaches the minimum, all zeros otherwise |
| ThresholdingFilters.ThresholdIdempotent | server/src/de/ovgu/softwareprojekt/pipeline/filters/ThresholdingFilter.java:63-64 | thresholding twice is thresholding once |
| ThresholdingFilters.ThresholdingFilter.OnData | server/src/de/ovgu/softwareprojekt/pipeline/filters/ThresholdingFilter.java:60-67 | thresholds in place and forwards with the two-argument call; out-of-bounds for a short sample, null pointer without a sink |
| ScalingFilters.Normalize | server/src/de/ovgu/softwareprojekt/pipeline/filters/ScalingFilter.java:58-71 | one scaled value per input value |
| ScalingFilters.ScaleInsideAndOutside | server/src/de/ovgu/softwareprojekt/pipeline/filters/ScalingFilter.java:58-71 | inside the source range a value is scaled by target/source; above or below it, clamped to the target range |
| ScalingFilters.ScaleBounded | server/src/de/ovgu/softwareprojekt/pipeline/filters/ScalingFilter.java:58-71 | every output lies within the target range |
| ScalingFilters.EqualRangesClamp | server/src/de/ovgu/softwareprojekt/pipeline/filters/ScalingFilter.java:34-36 | with the default equal ranges the filter only clamps |
| ScalingFilters.ScalingFilter.constructor | server/src/de/ovgu/softwareprojekt/pipeline/filters/ScalingFilter.java:46-51 | stores both ranges and the sink |
| ScalingFilters.ScalingFilter.WithDefaultRanges | server/src/de/ovgu/softwareprojekt/pipeline/filters/ScalingFilter.java:34-36 | both ranges take the default |
| ScalingFilters.ScalingFilter.SetSourceRange | server/src/de/ovgu/softwareprojekt/pipeline/filters/ScalingFilter.java:78-80 | only the source range changes |
| ScalingFilters.ScalingFilter.SetTargetRange | server/src/de/ovgu/softwareprojekt/pipeline/filters/ScalingFilter.java:86-88 | only the target range changes |
| ScalingFilters.ScalingFilter.NormalizeInPlace | server/src/de/ovgu/softwareprojekt/pipeline/filters/ScalingFilter.java:58-71 | the array becomes `Normalize` of its old contents |
| ScalingFilters.ScalingFilter.OnData | server/src/de/ovgu/softwareprojekt/pipeline/filters/ScalingFilter.java:96-100 | normalises in place and forwards; null pointer without a sink |
| AbsoluteFilters.Abs | server/src/de/ovgu/softwareprojekt/pipeline/filters/AbsoluteFilter.java:14-25 | one absolute value per input value |
| AbsoluteFilters.AbsNonNegative | server/src/de/ovgu/softwareprojekt/pipeline/filters/AbsoluteFilter.java:14-25 | every output is non-negative and is the input or its negation |
| AbsoluteFilters.AbsIdempotent | server/src/de/ovgu/softwareprojekt/pipeline/filters/AbsoluteFilter.java:14-25 | applying the filter twice is applying it once |
| AbsoluteFilters.AbsoluteFilter.OnData | server/src/de/ovgu/softwareprojekt/pipeline/filters/AbsoluteFilter.java:14-25 | the data becomes its absolute values and is forwarded; null pointer without a sink |
| AbstractFilters.AbstractFilter.constructor | abgabefolder/release_src/server/src/de/ovgu/softwareprojekt/pipeline/filters/AbstractFilter.java:28-30 | the given sink, nothing sent |
| AbstractFilters.AbstractFilter.Unlinked | abgabefolder/release_src/server/src/de/ovgu/softwareprojekt/pipeline/filters/AbstractFilter.java:35-37 | no sink, nothing sent |
| AbstractFilters.AbstractFilter.SetDataSink | abgabefolder/release_src/server/src/de/ovgu/softwareprojekt/pipeline/filters/AbstractFilter.java:44-47 | only the sink changes |
| AbstractFilters.AbstractFilter.ForwardData | abgabefolder/release_src/server/src/de/ovgu/softwareprojekt/pipeline/filters/AbstractFilter.java:80-88 | answers whether a sink is set; forwards once with the same arguments exactly when it is |
| AbstractFilters.AbstractFilter.CallSink | server/src/de/ovgu/softwareprojekt/pipeline/filters/AveragingFilter.java:80 | the unchecked sink call of the filters: null pointer without a sink, else one delivery |
| FilterPipelineBuilders.FilterPipelineBuilder.Prepend | server/src/de/ovgu/softwareprojekt/pipeline/FilterPipelineBuilder.java:27-29 | the filter becomes the first element |
| FilterPipelineBuilders.FilterPipelineBuilder.Append | server/src/de/ovgu/softwareprojekt/pipeline/FilterPipelineBuilder.java:36-38 | the filter becomes the last element |
| FilterPipelineBuilders.FilterPipelineBuilder.AppendAt | server/src/de/ovgu/softwareprojekt/pipeline/FilterPipelineBuilder.java:49-51 | inserts at a valid index, otherwise out-of-bounds with no change |
| FilterPipelineBuilders.FilterPipelineBuilder.Get | server/src/de/ovgu/softwareprojekt/pipeline/FilterPipelineBuilder.java:60-62 | the element at a valid index, otherwise out-of-bounds |
| FilterPipelineBuilders.FilterPipelineBuilder.RemoveAt | server/src/de/ovgu/softwareprojekt/pipeline/FilterPipelineBuilder.java:69-71 | removes the element at a valid index, otherwise out-of-bounds with no change |
| FilterPipelineBuilders.FilterPipelineBuilder.Remove | server/src/de/ovgu/softwareprojekt/pipeline/FilterPipelineBuilder.java:78-80 | removes the first occurrence, or nothing if absent |
| FilterPipelineBuilders.RemoveInserted | server/src/de/ovgu/softwareprojekt/pipeline/FilterPipelineBuilder.java:49-71 | removing at the index just inserted at restores the list |
| FilterPipelineBuilders.FilterPipelineBuilder.Build | server/src/de/ovgu/softwareprojekt/pipeline/FilterPipelineBuilder.java:87-91 | the first element; element i's sink is element i+1 (last occurrence wins); the last keeps its sink; out-of-bounds when empty |
| FilterPipelineBuilders.FilterPipelineBuilder.BuildTo | server/src/de/ovgu/softwareprojekt/pipeline/FilterPipelineBuilder.java:99-104 | as `Build`, and the last element's sink is the given one; `NoSuchElementException` when empty |
| Switches.Switch.constructor | abgabefolder/release_src/server/src/de/ovgu/softwareprojekt/pipeline/splitters/Switch.java:29-33 | both sinks and the initial route |
| Switches.Switch.SetFirst | abgabefolder/release_src/server/src/de/ovgu/softwareprojekt/pipeline/splitters/Switch.java:39-41 | only the first sink changes |
| Switches.Switch.SetSecond | abgabefolder/release_src/server/src/de/ovgu/softwareprojekt/pipeline/splitters/Switch.java:47-49 | only the second sink changes |
| Switches.Switch.RouteTo | abgabefolder/release_src/server/src/de/ovgu/softwareprojekt/pipeline/splitters/Switch.java:55-57 | only the route changes |
| Switches.Switch.RouteToFirst | abgabefolder/release_src/server/src/de/ovgu/softwareprojekt/pipeline/splitters/Switch.java:62-64 | routes to the first sink |
| Switches.Switch.RouteToSecond | abgabefolder/release_src/server/src/de/ovgu/softwareprojekt/pipeline/splitters/Switch.java:69-71 | routes to the second sink |
| Switches.Switch.OnData | abgabefolder/release_src/server/src/de/ovgu/softwareprojekt/pipeline/splitters/Switch.java:80-86 | exactly the selected sink gets the sample; null pointer when it is unset |
| SensorSplitters.Without | server/src/de/ovgu/softwareprojekt/pipeline/splitters/SensorSplitter.java:54-57 | every entry pointing at the sink is removed and every other kept |
| SensorSplitters.WithoutIdempotent | server/src/de/ovgu/softwareprojekt/pipeline/splitters/SensorSplitter.java:54-65 | removing a sink twice equals once; entries of other sinks stay |
| SensorSplitters.SensorSplitter.constructor | server/src/de/ovgu/softwareprojekt/pipeline/splitters/SensorSplitter.java:21-25 | both maps empty; the key sets are disjoint |
| SensorSplitters.SensorSplitter.AddDataSink | server/src/de/ovgu/softwareprojekt/pipeline/splitters/SensorSplitter.java:30-33 | ignored if the type has a network sink, otherwise sets the entry; disjointness is kept |
| SensorSplitters.SensorSplitter.AddNetworkDataSink | server/src/de/ovgu/softwareprojekt/pipeline/splitters/SensorSplitter.java:38-41 | ignored if the type has a plain sink, otherwise sets the entry; disjointness is kept |
| SensorSplitters.SensorSplitter.RemoveSensor | server/src/de/ovgu/softwareprojekt/pipeline/splitters/SensorSplitter.java:46-49 | the type leaves both maps |
| SensorSplitters.SensorSplitter.RemoveDataSink | server/src/de/ovgu/softwareprojekt/pipeline/splitters/SensorSplitter.java:54-57 | every entry of that plain sink leaves |
| SensorSplitters.SensorSplitter.RemoveNetworkDataSink | server/src/de/ovgu/softwareprojekt/pipeline/splitters/SensorSplitter.java:62-65 | every entry of that network sink leaves |
| SensorSplitters.SensorSplitter.OnData | server/src/de/ovgu/softwareprojekt/pipeline/splitters/SensorSplitter.java:67-73 | the network sink of the type gets the sample with sensitivity, then the plain sink; nothing when neither is registered |
| ClientSplitters.KeyOfMatchesEquals | abgabefolder/psychic_server/src/de/ovgu/softwareprojekt/discovery/NetworkDevice.java:108-130 | two devices have the same map key exactly when they are `equals` |
| ClientSplitters.ClientSplitter.constructor | server/src/de/ovgu/softwareprojekt/pipeline/splitters/ClientSplitter.java:21-25 | both maps empty; the key sets are disjoint |
| ClientSplitters.ClientSplitter.AddDataSink | server/src/de/ovgu/softwareprojekt/pipeline/splitters/ClientSplitter.java:30-33 | ignored if the device has a network sink, otherwise sets the entry |
| ClientSplitters.ClientSplitter.AddNetworkDataSink | server/src/de/ovgu/softwareprojekt/pipeline/splitters/ClientSplitter.java:38-41 | ignored if the device has a plain sink, otherwise sets the entry |
| ClientSplitters.ClientSplitter.RemoveDevice | server/src/de/ovgu/softwareprojekt/pipeline/splitters/ClientSplitter.java:46-49 | the device leaves both maps |
| ClientSplitters.ClientSplitter.RemoveDataSink | server/src/de/ovgu/softwareprojekt/pipeline/splitters/ClientSplitter.java:54-57 | every entry of that plain sink leaves |
| ClientSplitters.ClientSplitter.RemoveNetworkDataSink | server/src/de/ovgu/softwareprojekt/pipeline/splitters/ClientSplitter.java:62-65 | every entry of that network sink leaves |
| ClientSplitters.ClientSplitter.OnData | server/src/de/ovgu/softwareprojekt/pipeline/splitters/ClientSplitter.java:67-73 | the plain sink of the device gets the sample, then the network sink with the two-argument call |
| DataMappers.KeepUnmatched | abgabefolder/release_src/server/src/de/ovgu/softwareprojekt/networking/DataMapper.java:121-138 | the kept entries are exactly the entries the predicate does not match |
| DataMappers.PrunedEffect | abgabefolder/release_src/server/src/de/ovgu/softwareprojekt/networking/DataMapper.java:121-138 | after pruning no selected key holds a matching entry; unselected keys are unchanged; unmatched entries stay |
| DataMappers.PrunedIdempotent | abgabefolder/release_src/server/src/de/ovgu/softwareprojekt/networking/DataMapper.java:121-138 | removing with the same predicate twice removes nothing more |
| DataMappers.PrunedPointwise | abgabefolder/release_src/server/src/de/ovgu/softwareprojekt/networking/DataMapper.java:121-138 | a map agreeing key by key with the pruning rule is the pruned map |
| DataMappers.Forwarded | abgabefolder/release_src/server/src/de/ovgu/softwareprojekt/networking/DataMapper.java:147-153 | at most one delivery per entry, each to an entry whose origin filter accepts the origin |
| DataMappers.ForwardedComplete | abgabefolder/release_src/server/src/de/ovgu/softwareprojekt/networking/DataMapper.java:147-153 | every entry whose origin is null or the sender itself receives the sample, and the number of calls is the number of accepting entries |
| DataMappers.ForwardedToAll | abgabefolder/release_src/server/src/de/ovgu/softwareprojekt/networking/DataMapper.java:199-204 | entries with no origin filter all receive the sample |
| DataMappers.ForwardedNoneFromOthers | abgabefolder/release_src/server/src/de/ovgu/softwareprojekt/networking/DataMapper.java:199-204 | entries bound to another device receive nothing |
| DataMappers.DataMapper.constructor | abgabefolder/release_src/server/src/de/ovgu/softwareprojekt/networking/DataMapper.java:26-43 | an empty registry, no handler, nothing reported |
| DataMappers.DataMapper.SetConnectionHandler | abgabefolder/release_src/server/src/de/ovgu/softwareprojekt/networking/DataMapper.java:33-35 | only the handler changes |
| DataMappers.DataMapper.Report | abgabefolder/release_src/server/src/de/ovgu/softwareprojekt/networking/DataMapper.java:53-67 | reports the key set to the handler; null pointer without one |
| DataMappers.DataMapper.RegisterDataSink | abgabefolder/release_src/server/src/de/ovgu/softwareprojekt/networking/DataMapper.java:53-67 | the mapper itself is rejected with no change; otherwise the entry is added to the type and the new key set is reported |
| DataMappers.DataMapper.RegisterDataSinkForAll | abgabefolder/release_src/server/src/de/ovgu/softwareprojekt/networking/DataMapper.java:76-78 | registration with no origin filter |
| DataMappers.DataMapper.RemoveIf | abgabefolder/release_src/server/src/de/ovgu/softwareprojekt/networking/DataMapper.java:121-138 | the registry becomes `Pruned`; the release version reports afterwards, the earlier one does not |
| DataMappers.DataMapper.Prune | server/src/de/ovgu/softwareprojekt/networking/DataMapper.java:79-93 | the key walk of `removeIf` computes `Pruned` |
| DataMappers.DataMapper.OnClientRemoved | abgabefolder/release_src/server/src/de/ovgu/softwareprojekt/networking/DataMapper.java:86-89 | no entry bound to an equal device remains |
| DataMappers.DataMapper.UnregisterDataSink | abgabefolder/release_src/server/src/de/ovgu/softwareprojekt/networking/DataMapper.java:97-100 | the sink remains under no type |
| DataMappers.DataMapper.UnregisterDataSinkFrom | abgabefolder/release_src/server/src/de/ovgu/softwareprojekt/networking/DataMapper.java:108-111 | the sink leaves only that type; other types are unchanged |
| DataMappers.DataMapper.OnData | abgabefolder/release_src/server/src/de/ovgu/softwareprojekt/networking/DataMapper.java:147-153 | an unregistered type throws null pointer; otherwise the deliveries are `Forwarded` of that type's entries, in order |
| DataMappers.RegisterTwiceKeepsBoth | abgabefolder/release_src/server/src/de/ovgu/softwareprojekt/networking/DataMapper.java:53-67 | two registrations of the same pair add two entries |
| ClientConnectionManagers.Broadcast | server/src/de/ovgu/softwareprojekt/networking/ClientConnectionManager.java:300-310 | one command per client, in client order |
| ClientConnectionManagers.ClientConnectionManager.constructor | server/src/de/ovgu/softwareprojekt/networking/ClientConnectionManager.java:43-83 | no clients, buttons, layout or speeds |
| ClientConnectionManagers.ClientConnectionManager.GetClientCount | server/src/de/ovgu/softwareprojekt/networking/ClientConnectionManager.java:485-487 | the number of bound clients |
| ClientConnectionManagers.ClientConnectionManager.AddHandler | server/src/de/ovgu/softwareprojekt/networking/ClientConnectionManager.java:133-142 | the client is appended; before any `updateSensors` call the null set throws `NullPointerException` and nothing is sent, otherwise it gets the required sensors stored at the last call, every client the buttons, and it the speeds |
| ClientConnectionManagers.ClientConnectionManager.CloseAll | server/src/de/ovgu/softwareprojekt/networking/ClientConnectionManager.java:147-157 | every client is closed in order and the list is emptied |
| ClientConnectionManagers.ClientConnectionManager.GetClientHandler | server/src/de/ovgu/softwareprojekt/networking/ClientConnectionManager.java:260-268 | the first client equal to the device, or none when no client is equal |
| ClientConnectionManagers.ClientConnectionManager.Close | server/src/de/ovgu/softwareprojekt/networking/ClientConnectionManager.java:276-291 | the first equal client is closed and removed, the others keep their order; nothing changes if none is equal |
| ClientConnectionManagers.ClientConnectionManager.AddButton | server/src/de/ovgu/softwareprojekt/networking/ClientConnectionManager.java:184-195 | the id maps to the name, the layout is dropped, the map is broadcast |
| ClientConnectionManagers.ClientConnectionManager.RemoveButton | server/src/de/ovgu/softwareprojekt/networking/ClientConnectionManager.java:204-212 | only that id leaves, the layout is dropped, the map is broadcast |
| ClientConnectionManagers.ClientConnectionManager.SetButtonLayout | server/src/de/ovgu/softwareprojekt/networking/ClientConnectionManager.java:221-225 | the layout replaces the map on the clients |
| ClientConnectionManagers.ClientConnectionManager.ClearButtons | server/src/de/ovgu/softwareprojekt/networking/ClientConnectionManager.java:233-237 | neither buttons nor layout remain |
| ClientConnectionManagers.ClientConnectionManager.SetSensorSpeed | server/src/de/ovgu/softwareprojekt/networking/ClientConnectionManager.java:246-252 | only that sensor's speed changes and the table is broadcast |
| ClientConnectionManagers.ClientConnectionManager.UpdateButtons | server/src/de/ovgu/softwareprojekt/networking/ClientConnectionManager.java:300-310 | the layout if set, otherwise the map, goes to every client |
| ClientConnectionManagers.ClientConnectionManager.UpdateSensorSpeeds | server/src/de/ovgu/softwareprojekt/networking/ClientConnectionManager.java:317-322 | the speed table goes to every client |
| ClientConnectionManagers.ClientConnectionManager.UpdateSensorsTo | server/src/de/ovgu/softwareprojekt/networking/ClientConnectionManager.java:343-349 | the given (non-null) required set is stored and sent to every client |
| ClientConnectionManagers.AddThenRemoveButton | server/src/de/ovgu/softwareprojekt/networking/ClientConnectionManager.java:184-212 | adding a new button and removing it restores the map |
| ClientConnectionManagers.LayoutThenButton | server/src/de/ovgu/softwareprojekt/networking/ClientConnectionManager.java:184-225 | a button added after a layout drops the layout again |
| ClientConnectionManagers.CountAddsAndCloses | server/src/de/ovgu/softwareprojekt/networking/ClientConnectionManager.java:133-142 | two adds and one close leave one more client |
| AccelerationPhases.Classify | server/src/de/ovgu/softwareprojekt/servers/nes/AccelerationPhaseDetection.java:37-39 | up above +500, down below -500, never both |
| AccelerationPhases.AccelerationPhaseDetection.constructor | server/src/de/ovgu/softwareprojekt/servers/nes/AccelerationPhaseDetection.java:18-35 | both cycles idle, counter 0 |
| AccelerationPhases.AccelerationPhaseDetection.OnData | server/src/de/ovgu/softwareprojekt/servers/nes/AccelerationPhaseDetection.java:37-39 | the new flags, counter and callbacks are the as-written `Step` on the classification of `data[2]`; out-of-bounds, with nothing changed, for a short sample |
| AccelerationPhases.AccelerationPhaseDetection.OnMovement | server/src/de/ovgu/softwareprojekt/servers/nes/AccelerationPhaseDetection.java:41-80 | the new flags, counter and callbacks are the as-written `Step` of the old state, and the state stays consistent |
| AccelerationPhases.StepConsistent | server/src/de/ovgu/softwareprojekt/servers/nes/AccelerationPhaseDetection.java:41-80 | at most one cycle is active, phase 3 implies phase 2 and the counter stays in 0..11, under both versions; the corrected one also leaves no phase on an inactive cycle |
| AccelerationPhases.StepMovements | server/src/de/ovgu/softwareprojekt/servers/nes/AccelerationPhaseDetection.java:41-80 | at most one callback: a movement fires when no cycle is active or the running one has timed out, and never interrupts a running up cycle |
| AccelerationPhases.StepIdle | server/src/de/ovgu/softwareprojekt/servers/nes/AccelerationPhaseDetection.java:43-78 | with no cycle active, a movement starts its cycle and nothing else changes |
| AccelerationPhases.StepDown | server/src/de/ovgu/softwareprojekt/servers/nes/AccelerationPhaseDetection.java:43-60 | an active down cycle ends at rest after phase 3, advances while the counter is at most 10, and is reset after that (keeping phase 2 of the sample as written); the up cycle changes only by an up movement after a timeout |
| AccelerationPhases.StepUp | server/src/de/ovgu/softwareprojekt/servers/nes/AccelerationPhaseDetection.java:62-79 | the same for an active up cycle, with the down cycle untouched |
| AccelerationPhases.AccelerationPhaseDetection.OnMovementCorrected | server/src/de/ovgu/softwareprojekt/servers/nes/AccelerationPhaseDetection.java:41-80 | the new state and callbacks are the corrected `Step` of the old state, whose cases `StepMovements`, `StepIdle`, `StepDown` and `StepUp` state; consistency and no phase on an inactive cycle are kept |
| AccelerationPhases.AccelerationPhaseDetection.DownHalf | server/src/de/ovgu/softwareprojekt/servers/nes/AccelerationPhaseDetection.java:44-59 | the down flags, counter and callback become `CycleStep` of the old down cycle, with the up cycle untouched |
| AccelerationPhases.AccelerationPhaseDetection.UpHalf | server/src/de/ovgu/softwareprojekt/servers/nes/AccelerationPhaseDetection.java:63-78 | the up flags, counter and callback become `CycleStep` of the old up cycle, with the down cycle untouched |
| AccelerationPhases.StalePhaseCounterexample | server/src/de/ovgu/softwareprojekt/servers/nes/AccelerationPhaseDetection.java:45-54 | down, eleven rests, up: the down cycle is inactive with phase 2 still set |
| AccelerationPhases.StalePhaseCorrected | server/src/de/ovgu/softwareprojekt/servers/nes/AccelerationPhaseDetection.java:45-54 | the same samples leave no stale phase under the corrected step |
| ButtonConfigs.MapInput | server/src/de/ovgu/softwareprojekt/servers/nes/ButtonConfig.java:32-54 | ids 0-7 give their key code, any other id null |
| ButtonConfigs.MapInputFields | server/src/de/ovgu/softwareprojekt/servers/nes/ButtonConfig.java:32-54 | each button field is reached by its own id |
| ButtonConfigs.GetKeyEvent | server/src/de/ovgu/softwareprojekt/servers/nes/ButtonConfig.java:57-88 | 'a'-'z' give `VK_A`-`VK_Z`, any other character throws `IllegalArgumentException` |
| ButtonConfigs.KeyEventRoundTrip | server/src/de/ovgu/softwareprojekt/servers/nes/ButtonConfig.java:57-88 | letter and key code are inverse to each other |
| ButtonConfigs.KeyEventInjective | server/src/de/ovgu/softwareprojekt/servers/nes/ButtonConfig.java:57-88 | two letters with the same key code are equal |
| ButtonConfigs.KeyEventTable | server/src/de/ovgu/softwareprojekt/servers/nes/ButtonConfig.java:59-84 | the letters in order get consecutive key codes |
| KukaUtil.ClampToJointRange | server/src/de/ovgu/softwareprojekt/servers/kuka/KukaUtil.java:14-20 | values above `max` give `max`, values below `-max` also give `max`, others pass |
| KukaUtil.ClampBounded | server/src/de/ovgu/softwareprojekt/servers/kuka/KukaUtil.java:14-20 | the clamp stays within [-max, max] |
| KukaUtil.ClampFlipsLowValues | server/src/de/ovgu/softwareprojekt/servers/kuka/KukaUtil.java:17-18 | -200 with bound 170 gives +170 |
| KukaUtil.ClampSymmetric | server/src/de/ovgu/softwareprojekt/servers/kuka/KukaUtil.java:8-13 | the documented clamp: within [-max, max], identity inside, nearest bound outside |
| KukaUtil.ClampDiffersOnlyBelow | server/src/de/ovgu/softwareprojekt/servers/kuka/KukaUtil.java:14-20 | the two clamps differ exactly below `-max` |
| KukaUtil.GetRange | server/src/de/ovgu/softwareprojekt/servers/kuka/KukaUtil.java:28-47 | the range table; an unlisted joint throws `RuntimeException` |
| MarbleLabyrinth.RollMaximum | server/src/de/ovgu/softwareprojekt/servers/kuka/MarbleLabyrinthControl.java:32-34 | half of 340 |
| MarbleLabyrinth.PitchMaximum | server/src/de/ovgu/softwareprojekt/servers/kuka/MarbleLabyrinthControl.java:32-34 | half of 240 |
| MarbleLabyrinth.DataTargets | server/src/de/ovgu/softwareprojekt/servers/kuka/MarbleLabyrinthControl.java:70-84 | the roll and pitch targets: clamped sample times sensitivity times 0.03, negated when flipped |
| MarbleLabyrinth.DataTargetsBounded | server/src/de/ovgu/softwareprojekt/servers/kuka/MarbleLabyrinthControl.java:70-84 | every target stays within the joint's half range |
| MarbleLabyrinth.FlipNegates | server/src/de/ovgu/softwareprojekt/servers/kuka/MarbleLabyrinthControl.java:75-78 | flipping a joint negates only its target |
| MarbleLabyrinth.MarbleLabyrinthControl.constructor | server/src/de/ovgu/softwareprojekt/servers/kuka/MarbleLabyrinthControl.java:58-61 | flags cleared, the reset targets sent |
| MarbleLabyrinth.MarbleLabyrinthControl.OnResetPosition | server/src/de/ovgu/softwareprojekt/servers/kuka/MarbleLabyrinthControl.java:100-108 | the seven fixed targets in order |
| MarbleLabyrinth.MarbleLabyrinthControl.OnButtonClick | server/src/de/ovgu/softwareprojekt/servers/kuka/MarbleLabyrinthControl.java:117-132 | a press of button 1 or 2 flips its flag, releases and other ids change nothing |
| MarbleLabyrinth.MarbleLabyrinthControl.OnData | server/src/de/ovgu/softwareprojekt/servers/kuka/MarbleLabyrinthControl.java:70-84 | sends the two targets; a short sample throws before sending |
| MarbleLabyrinth.TwoPressesRestore | server/src/de/ovgu/softwareprojekt/servers/kuka/MarbleLabyrinthControl.java:117-132 | two presses of one button restore the flags |
| Coppelia.Encode | server/src/coppelia/IntWA.java:61-72 | four chars per int, each a byte value |
| Coppelia.Decode | server/src/coppelia/IntWA.java:74-79 | one int per four chars, trailing chars ignored |
| Coppelia.DecodeEncode | server/src/coppelia/IntWA.java:61-79 | decoding the encoding restores every int, negative ones included |
| Coppelia.EncodeLittleEndian | server/src/coppelia/IntWA.java:66-69 | char 4i holds the low byte and char 4i+3 the high byte |
| Coppelia.DecodeLowBitsOnly | server/src/coppelia/IntWA.java:78 | decoding reads only the low 8 bits of each char |
| Coppelia.WordOfBytes | server/src/coppelia/IntWA.java:66-78 | the four bytes of an int reassemble to it |
| Coppelia.IntWA.constructor | server/src/coppelia/IntWA.java:35-38 | an array of zeros of the given length |
| Coppelia.IntWA.InitArray | server/src/coppelia/IntWA.java:40-43 | a fresh zero array; negative size throws and keeps the old array |
| Coppelia.IntWA.GetNewArray | server/src/coppelia/IntWA.java:50-54 | as `initArray` and returns the array |
| Coppelia.IntWA.GetLength | server/src/coppelia/IntWA.java:45-48 | the array length |
| Coppelia.IntWA.GetCharArrayFromArray | server/src/coppelia/IntWA.java:61-72 | a fresh char array equal to `Encode` of the ints |
| Coppelia.IntWA.InitArrayFromCharArray | server/src/coppelia/IntWA.java:74-79 | the ints become `Decode` of the chars |
| Sensors.ValueOf | app/common/src/main/java/de/ovgu/softwareprojekt/SensorData.java:104 | finds the constant with the name, or throws `IllegalArgumentException` when none has it |
| Sensors.ValueOfName | app/common/src/main/java/de/ovgu/softwareprojekt/SensorData.java:90-104 | `valueOf(name())` is the identity |
| Sensors.Serialize | app/common/src/main/java/de/ovgu/softwareprojekt/SensorData.java:88-100 | type name, count, the values, timestamp, accuracy |
| Sensors.ReadFloats | app/common/src/main/java/de/ovgu/softwareprojekt/SensorData.java:111-112 | the values read, or end-of-stream or a corrupt stream at the first bad position |
| Sensors.Deserialize | app/common/src/main/java/de/ovgu/softwareprojekt/SensorData.java:103-116 | a successful read consumes exactly a serialised sample |
| Sensors.DeserializeSerialize | app/common/src/main/java/de/ovgu/softwareprojekt/SensorData.java:88-116 | reading back what was written restores the sample, whatever follows |
| Sensors.UnknownNameRejected | app/common/src/main/java/de/ovgu/softwareprojekt/SensorData.java:104 | an unknown type name fails the read |
| Sensors.NegativeCountRejected | app/common/src/main/java/de/ovgu/softwareprojekt/SensorData.java:107-108 | a negative count throws `NegativeArraySizeException` |
| Sensors.SensorData.constructor | app/common/src/main/java/de/ovgu/softwareprojekt/SensorData.java:40-45 | the four fields, the array shared |
| Sensors.SensorData.Clone | app/common/src/main/java/de/ovgu/softwareprojekt/SensorData.java:66-85 | with assertions enabled the final `assert(false)` throws `AssertionError`; otherwise a fresh copy with a fresh array |
| Sensors.SensorData.CloneIntended | app/common/src/main/java/de/ovgu/softwareprojekt/SensorData.java:66-85 | a fresh copy with a fresh array, whether or not assertions are enabled |
| Sensors.CloneAlwaysFailsWithAssertions | app/common/src/main/java/de/ovgu/softwareprojekt/SensorData.java:82-84 | with assertions enabled, cloning any sample throws, even though the copy succeeded |
| Sensors.SensorData.WriteExternal | app/common/src/main/java/de/ovgu/softwareprojekt/SensorData.java:88-100 | appends `Serialize` of the object |
| Sensors.SensorData.ReadExternal | app/common/src/main/java/de/ovgu/softwareprojekt/SensorData.java:103-116 | the object becomes the deserialised sample, or the read's error |
| Sensors.SensorData.ReadValues | app/common/src/main/java/de/ovgu/softwareprojekt/SensorData.java:111-112 | the `readFloat` loop fills the array with `ReadFloats` of the stream from position 2, or fails with its error |
| SensorHandlers.GetClassForSensorType | app/app-module/src/main/java/de/ovgu/softwareprojektapp/sensors/SensorHandler.java:192-201 | only accelerometer and gyroscope have a class; others throw `NoSuchMethodException` |
| SensorHandlers.ActivationList | app/app-module/src/main/java/de/ovgu/softwareprojektapp/sensors/SensorHandler.java:68-81 | every type maps to whether it is required |
| SensorHandlers.ActivationListOfSameTypes | app/app-module/src/main/java/de/ovgu/softwareprojektapp/sensors/SensorHandler.java:68-81 | the list depends only on the set of required types |
| SensorHandlers.SensorHandler.constructor | app/app-module/src/main/java/de/ovgu/softwareprojektapp/sensors/SensorHandler.java:40-47 | no sensors, nothing temporarily disabled |
| SensorHandlers.SensorHandler.GetSensorActivationList | app/app-module/src/main/java/de/ovgu/softwareprojektapp/sensors/SensorHandler.java:68-81 | the two loops compute `ActivationList` |
| SensorHandlers.SensorHandler.SetSensor | app/app-module/src/main/java/de/ovgu/softwareprojektapp/sensors/SensorHandler.java:102-120 | disabling always succeeds; enabling a type that cannot be instantiated fails with no change; otherwise the state is set |
| SensorHandlers.SensorHandler.ApplySensorActivationList | app/app-module/src/main/java/de/ovgu/softwareprojektapp/sensors/SensorHandler.java:89-94 | every listed type is set, unlisted ones kept; the answer is the conjunction of the settings |
| SensorHandlers.SensorHandler.SetRunning | app/app-module/src/main/java/de/ovgu/softwareprojektapp/sensors/SensorHandler.java:50-60 | while disabled only the pending list changes; otherwise the sensors run exactly when required and the answer says whether all required ones could be enabled |
| SensorHandlers.SensorHandler.RegisteredSensors | app/app-module/src/main/java/de/ovgu/softwareprojektapp/sensors/SensorHandler.java:137-139 | a type is listed exactly when its sensor is instantiated and registered |
| SensorHandlers.SensorHandler.TemporarilyDisableSensors | app/app-module/src/main/java/de/ovgu/softwareprojektapp/sensors/SensorHandler.java:134-147 | remembers the running sensors and stops them all |
| SensorHandlers.SensorHandler.EnableTemporarilyDisabledSensors | app/app-module/src/main/java/de/ovgu/softwareprojektapp/sensors/SensorHandler.java:125-128 | applies the remembered list |
| SensorHandlers.DisableThenEnable | app/app-module/src/main/java/de/ovgu/softwareprojektapp/sensors/SensorHandler.java:125-147 | disabling then enabling restores the sensors |
| SensorHandlers.RequireWhileDisabled | app/app-module/src/main/java/de/ovgu/softwareprojektapp/sensors/SensorHandler.java:50-60 | a list required while disabled takes effect on enabling |
| Devices.NewDevice | abgabefolder/psychic_server/src/de/ovgu/softwareprojekt/discovery/NetworkDevice.java:45-51 | stores the five fields |
| Devices.NewLocalDevice | abgabefolder/psychic_server/src/de/ovgu/softwareprojekt/discovery/NetworkDevice.java:67-69 | no discovery port and the placeholder address, so no internet address |
| Devices.NewNamedDevice | abgabefolder/psychic_server/src/de/ovgu/softwareprojekt/discovery/NetworkDevice.java:75-77 | only the name is set |
| Devices.GetInetAddress | abgabefolder/psychic_server/src/de/ovgu/softwareprojekt/discovery/NetworkDevice.java:84-91 | the placeholder address throws `UnknownHostException` |
| Devices.ToString | abgabefolder/psychic_server/src/de/ovgu/softwareprojekt/discovery/NetworkDevice.java:96-99 | name, " at ", address |
| Devices.StringHash | abgabefolder/psychic_server/src/de/ovgu/softwareprojekt/discovery/NetworkDevice.java:108-112 | Java's string hash in 32-bit arithmetic |
| Devices.HashCode | abgabefolder/psychic_server/src/de/ovgu/softwareprojekt/discovery/NetworkDevice.java:108-112 | the sum of the two string hashes, wrapped |
| Devices.EqualsIsEquivalence | abgabefolder/psychic_server/src/de/ovgu/softwareprojekt/discovery/NetworkDevice.java:120-130 | `equals` is reflexive, symmetric and transitive |
| Devices.EqualsIgnoresPorts | abgabefolder/psychic_server/src/de/ovgu/softwareprojekt/discovery/NetworkDevice.java:120-130 | `equals` looks only at name and address |
| Devices.HashConsistent | abgabefolder/psychic_server/src/de/ovgu/softwareprojekt/discovery/NetworkDevice.java:108-130 | equal devices have equal hash codes |
| Devices.StringHashPolynomial | abgabefolder/psychic_server/src/de/ovgu/softwareprojekt/discovery/NetworkDevice.java:108-112 | the wrapped hash differs from the exact polynomial by a multiple of 2^32 |
| DiscoveryClients.DiscoveryClient.constructor | app/app-module/src/main/java/de/ovgu/softwareprojektapp/networking/DiscoveryClient.java:35 | an empty server list |
| DiscoveryClients.DiscoveryClient.OnDiscovery | app/app-module/src/main/java/de/ovgu/softwareprojektapp/networking/DiscoveryClient.java:103-110 | a device not yet listed (by `equals`) is appended and the listener gets the new list; otherwise nothing changes; no two listed devices are equal |
| Ports.ParseInt | app/app-module/src/main/java/de/ovgu/softwareprojektapp/DiscoveryActivity.java:201 | `Integer.valueOf`: the value of a signed decimal that fits an int, otherwise `NumberFormatException` |
| Ports.ParseShowRoundTrip | app/app-module/src/main/java/de/ovgu/softwareprojektapp/DiscoveryActivity.java:201 | parsing the decimal text of any int gives it back |
| Ports.MalformedRejected | app/app-module/src/main/java/de/ovgu/softwareprojektapp/DiscoveryActivity.java:201 | text that is not a signed numeral is rejected |
| Ports.GetDiscoveryPort | app/app-module/src/main/java/de/ovgu/softwareprojektapp/DiscoveryActivity.java:192-222 | empty gives 8888; a non-number or a port outside 1024-65535 throws; any result is 8888 or in range |
| Ports.IsDiscoveryPortValid | app/app-module/src/main/java/de/ovgu/softwareprojektapp/activities/OptionsActivity.java:197-225 | true exactly for an int in 1024-65535; the error mark is cleared exactly then |
| Ports.ScreensAgree | app/app-module/src/main/java/de/ovgu/softwareprojektapp/activities/OptionsActivity.java:197-225 | the two screens agree except on the empty field |
| Ports.PortBoundaries | app/app-module/src/main/java/de/ovgu/softwareprojektapp/activities/OptionsActivity.java:206-211 | 1023 and 65536 are rejected, 1024 and 65535 accepted |
| Common.WrapInt32 | abgabefolder/psychic_server/src/de/ovgu/softwareprojekt/discovery/NetworkDevice.java:111 | the result is a Java int congruent to the input mod 2^32, and unchanged if already an int |

## Left out

- Sockets, threads, timers, Android and Swing UI code. Notifications and the text shown by `setError` are kept only as recorded values.
- Sink calls are recorded in a log, not executed. What a sink does with a sample, and an `IOException` thrown by a send, are not part of this model.
- `float` arithmetic is modelled as exact `real` arithmetic: no rounding, no infinities, no NaN.
- ScalingFilters.ScalingFilter.OnData: requires a non-zero source range, because a float division by zero (infinity or NaN) has no `real` counterpart.
- ScalingFilters.ScalingFilter.NormalizeInPlace: same non-zero source range requirement, for the same reason.
- AveragingFilters.AveragingFilter.constructor: requires a positive sample size, as the source's `assert` demands. With assertions disabled, a size of 0 makes the first `RingBuffer.add` throw `IndexOutOfBoundsException`, and a negative size makes `new ArrayList<>(size)` throw `IllegalArgumentException`; neither case is modelled.
- ClientConnectionManagers.ClientConnectionManager.AddButton: requires a non-negative id, as the source's `assert` demands; with assertions disabled a negative id would simply be stored.
- `DataMapper` entries are sequences in registration order. `HashSet` iteration order is not modelled, so the order of deliveries in `OnData` is the registration order.
- `DataMapper`'s `SinkOriginFilter` overrides `hashCode` but not `equals`, so the `HashSet` compares entries by identity: registering the same sink and origin twice keeps both entries (`RegisterTwiceKeepsBoth`). The hash value itself is not modelled.
- Null keys and null sinks in the splitters and in `DataMapper` are not modelled, except the null device key of `ClientSplitter`.
- ClientConnectionManagers.ClientConnectionManager.AddHandler: sends the copy of the required sensors stored at the last `updateSensors` call. In Java `mRequiredSensors` is the very `keySet()` view of `DataMapper.mDataSinks`, so it follows later changes of the map. The early `DataMapper.removeIf` drops emptied types without reporting them, so after `onClientRemoved` or `unregisterDataSink` empties a type, Java sends a new client the current key set and the model sends the stale one. The aliasing between the two objects is not modelled.
- `ClientConnectionManager`: `onClientDisconnected`, `onClientTimeout`, `acceptClient`, `onUnexpectedClient`, `onClientAccepted`, `displayNotification`, `sendSensorDescription`, `hideResetButton`, `getSensorMaximumRange` and the listeners are network plumbing and are left out.
- `SensorHandler`: `closeAll` and `instantiateSensor` are left out. The reflection is abstracted to `Instantiable` and the set of sensors `present` on the phone. The `AbstractSensor` start and stop calls are recorded only as the boolean state of each sensor.
- AbstractFilters.AbstractFilter.HasNextPipelineElement: a predicate without a contract; it is true exactly when a sink is set.
- `KukaUtil` / `MarbleLabyrinthControl`: the `LbrJoint`/`Joint` enums and the robot interface are not part of this model. Commands sent to the robot are a list of targets.
- `SensorData.toString`, the `println` of `AccelerationPhaseDetection` and the `println("index = size")` of `RingBuffer.add` on a capacity-0 buffer are not modelled.
- `SensorData`'s no-argument constructor, used by deserialisation, is left out: its default type `SensorType.Invalid` is not among the eight constants of the modelled enum. `ReadExternal` works on an existing object instead.
- A `NetworkDevice` with a null name or address makes `equals` and `hashCode` throw `NullPointerException`. Names and addresses are always strings here, so that case is left out.
- `SensorData.readExternal` leaves fields partly written when it fails half-way. The model states only the error in that case.
- Devices.StringHash: characters are Dafny `char`s. A character above U+FFFF, which Java stores as two UTF-16 units, is hashed as one unit.
- `Integer.valueOf` accepts only ASCII digits here. Java also accepts other Unicode decimal digits.
- RingBuffers.RingBuffer.constructor: takes a `nat` capacity. A negative size makes `new ArrayList<>(size)` throw `IllegalArgumentException`, and that case is left out.
- Coppelia.IntWA.constructor: takes a `nat` length. A negative length makes `new int[length]` throw `NegativeArraySizeException`, and that case is left out.
- TemporaryIntegratingFilters.TemporaryIntegratingFilter.constructor: takes a `nat` length. A negative length makes `new float[length][3]` throw `NegativeArraySizeException`, and that case is left out.
- Coppelia.IntWA.GetCharArrayFromArray: computes the array length `4 * w.length` without `int` overflow. For `w.length >= 2^29` Java's product wraps, so the source throws `NegativeArraySizeException` or `ArrayIndexOutOfBoundsException` where the model returns the full encoding.
- Sensors.ReadFloats: the stream is a sequence of typed tokens, and a token of the wrong kind gives `StreamCorruptedException`. Java's `readInt`, `readFloat` and `readLong` carry no type tags: they reinterpret whatever bytes come next, so Java reads such a stream into meaningless values.
- Sensors.Deserialize: the same typed-token stream, so it fails on streams whose bytes Java would read into meaningless values.
- DifferenceThresholdFilters.CalculateChange: the `assert dataA.length == dataB.length` of both filters is modelled as disabled, which is the JVM default. With `-ea` a length mismatch would throw `AssertionError`. The loop compares only the positions both arrays have, as the source's loop guard does.
- Toc.Downcase: folds only the ASCII and Latin-1 capitals. Ruby's `downcase` also folds capitals beyond Latin-1, such as Greek or Cyrillic letters and `ẞ`.
- `IntWA` stores `int`s in a Dafny array of the subtype `Int32`. Chars are values below 2^16.
- The server-side copy of `AbstractFilter` (without `forwardData`) is not modelled separately. Its direct sink call is `CallSink`.

## Findings

| source | as written | input that shows it | evidently intended | confidence | as-written member | corrected member |
|---|---|---|---|---|---|---|
| server/src/de/ovgu/softwareprojekt/util/RingBuffer.java:42-57 | `get(i)` reads slot `(mIndex - 1 + i) mod size`, so `get(1)` is the oldest element and `get(size-1)` the second newest | capacity 3, add 1, 2, 3: `get(2)` is 2 | as documented, index 0 is the newest element and index size-1 the oldest (1 here) | not executed | RingBuffers.AgeOrderCounterexample | RingBuffers.RingBuffer.GetByAge |
| server/src/de/ovgu/softwareprojekt/servers/nes/AccelerationPhaseDetection.java:45-54 | when a cycle times out, the phase updates below the reset still run in the same call, so an inactive cycle can keep phase 2 | down, eleven samples at rest, up | a timed-out cycle leaves no phase behind | not executed | AccelerationPhases.StalePhaseCounterexample | AccelerationPhases.StalePhaseCorrected |
| server/src/de/ovgu/softwareprojekt/servers/kuka/KukaUtil.java:17-18 | values below `-max` are clamped to `+max` | `clampToJointRange(-200, 170)` gives 170 | clamp to `-max` | not executed | KukaUtil.ClampFlipsLowValues | KukaUtil.ClampSymmetric |
| app/common/src/main/java/de/ovgu/softwareprojekt/SensorData.java:82-84 | `assert(false)` is reached after the successful copy too, so with assertions enabled every `clone` throws `AssertionError` | any sample, with `-ea` | only the unreachable `CloneNotSupportedException` handler fails the assertion, and the copy is returned | not executed | Sensors.CloneAlwaysFailsWithAssertions | Sensors.SensorData.CloneIntended |

`MarbleLabyrinth` keeps the clamp as written, because it models what the robot is sent. `AveragingFilter` reads its window through the age-ordered `Window`.
