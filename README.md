# Coffee roast monitoring: the recording bookkeeping, in Dafny

This project models the core of a coffee-roast temperature monitor: the
data-collection page that keeps a rolling window of samples for the live
chart, records a roast session into bounded buffers, lets the user mark the
first and second crack from the latest recorded sample, and, when the record
switch is turned off, turns the recording into one row of the roast table.
It also models the small pure helpers this page relies on: the
Celsius/Fahrenheit conversions and roast constants, the plotting rules
(y-axis range, roast colours, which crack markers are drawn, live versus
historical layout, reading a stored row back), and the page-path lookup of
the application shell.

Modules, one per source file or concern:

- `Optional`: the `Option` type standing for Python's `None`.
- `TempUtils` (utils/temp_utils.py): conversions over `real`, the roast
  stages, temperatures and events.
- `Models` (models.py): the `Roast` row and `Json`, the text of a JSON list,
  modelled as the list it encodes.
- `Deques`: `collections.deque(maxlen=n)` as a value `Deque<T>` with the
  drop-oldest append, and the ring-buffer lemma.
- `PlotUtils` (utils/plot_utils.py): y range, layout, roast dictionaries,
  traces and the figure, without the drawing library.
- `App` (app.py): first-match page lookup over the page registry.
- `CollectData` (pages/collect_data.py): event ids, markers, elapsed
  seconds, crack data, and the class `RecordingState` holding the page's
  module-level buffers, markers, flags and the rows written to the roast
  table. Each block the page runs under its data lock is one method.
  `RecordOneRoast` and `StopWithoutSamples` are client methods that
  exercise the contracts on a whole roast.

Timestamps are real seconds on one clock (`datetime` differences become
subtraction, `total_seconds()` the identity); temperatures are reals.

Behaviour of pages/collect_data.py and utils/plot_utils.py worth knowing:

- A milestone marker is overwritten by every click
  (pages/collect_data.py:134). Only the disabled button prevents a second
  click; there is no first-write-wins rule.
- A click on an event button before the first sample is recorded reads the
  last element of an empty buffer (pages/collect_data.py:126) and raises;
  no marker and no button changes. `EventButtonClicked` returns
  `NoSampleYet` for that case.
- Turning recording on does not clear stale buffers or markers
  (pages/collect_data.py:87-88). They are cleared only by a write.
- pages/collect_data.py has no forced stop when the recording buffer is
  full. The recording deques silently drop their oldest sample
  (pages/collect_data.py:283). The forced-stop flag is raised by the
  sampler, which is outside the modelled files; the page only consumes the
  flag.
- The live chart callback indexes the first plot sample without a guard
  (pages/collect_data.py:54). It has no "no data yet" sentinel.
- The roast row is written synchronously, after the lock is released.
- The y-axis title literal at utils/plot_utils.py:111 is stored as the
  bytes of a doubly encoded degree sign, so the title reads
  "Temperature (\u00C2\u00B0F)" with an A-circumflex before the degree
  sign. The model keeps that title as written.

## Model

| member | source | states |
|---|---|---|
| `TempUtils.CToF` | utils/temp_utils.py:9-11 | the Fahrenheit reading f is the one the Fahrenheit-to-Celsius formula takes back to the Celsius input |
| `TempUtils.FToC` | utils/temp_utils.py:13-15 | the Celsius reading c is the one the Celsius-to-Fahrenheit formula takes back to the Fahrenheit input |
| `TempUtils.CToFThenFToC` | utils/temp_utils.py:9-15 | converting to Fahrenheit and back gives the original Celsius temperature |
| `TempUtils.FToCThenCToF` | utils/temp_utils.py:9-15 | converting to Celsius and back gives the original Fahrenheit temperature |
| `TempUtils.ConversionFixedPoints` | utils/temp_utils.py:9-15 | 20 C is 68 F, 100 C is 212 F, 212 F is 100 C, 32 F is 0 C |
| `TempUtils.CToFStrictlyIncreasing` | utils/temp_utils.py:9-11 | Celsius to Fahrenheit is strictly increasing |
| `TempUtils.FToCStrictlyIncreasing` | utils/temp_utils.py:13-15 | Fahrenheit to Celsius is strictly increasing |
| `TempUtils.StagesPairWithTemps` | utils/temp_utils.py:3-4 | the five roast stages and the five stage temperatures pair up one to one when zipped |
| `TempUtils.RoastTempsStrictlyIncreasing` | utils/temp_utils.py:4 | the stage temperatures are strictly increasing |
| `TempUtils.TwoRoastEvents` | utils/temp_utils.py:6 | there are exactly two roast events |
| `Models.JsonRoundTrip` | utils/plot_utils.py:139-140 | decoding the JSON written for a list of numbers gives the list back |
| `Deques.Deque.Append` | pages/collect_data.py:283-284 | appending keeps the bound and leaves exactly the last `maxlen` elements of the old contents followed by the new element |
| `Deques.Deque.Clear` | pages/collect_data.py:178-179 | clearing empties the deque and keeps its bound |
| `Deques.AppendAllKeepsLast` | pages/collect_data.py:283-284 | after any number of appends a deque holds exactly the last `maxlen` of everything appended, in insertion order |
| `Deques.InitializeDeques` | pages/collect_data.py:238-246 | `num` deques, each empty and bounded by `maxlen` |
| `App.GetPageRelativePath` | app.py:25-30 | "/" when no page's module ends in "." + name; otherwise the path of the first matching page in registry order; always "/" or some entry's path |
| `App.SuffixMatchExamples` | app.py:28 | "pages.collect_data" matches "collect_data"; "pages.xcollect_data" and a bare "collect_data" do not |
| `PlotUtils.SeqMin` | utils/plot_utils.py:83 | the minimum is an element of the list and no element is below it |
| `PlotUtils.SeqMax` | utils/plot_utils.py:84 | the maximum is an element of the list and no element is above it |
| `PlotUtils.CalculateYRange` | utils/plot_utils.py:79-85 | [0, 100] for no data; otherwise the bounds are the smallest and largest value widened by the padding |
| `PlotUtils.YRangeCoversData` | utils/plot_utils.py:83-85 | with non-negative padding the range is not inverted and holds every value |
| `PlotUtils.LayoutArgs` | utils/plot_utils.py:109-122 | the y range is always the one given and the y-axis title is the literal at line 111 (with its stray U+00C2);  the live chart adds the "%H:%M" tick format and hides the legend; the historical chart adds the "Time [min]" axis title and a legend block |
| `PlotUtils.ConvertObjectToDict` | utils/plot_utils.py:125-142 | the dictionary built key by key is the row's dictionary reading `RowAsDict` |
| `PlotUtils.RowAsDictFields` | utils/plot_utils.py:126-140 | the six scalar attributes are copied unchanged under their names, the two series are the decoded JSON columns, and no other key is present |
| `PlotUtils.ColorPerRoast` | utils/plot_utils.py:21-22 | one colour per roast; roast i (from 0) gets hue value (i+1)*20, so the hue values differ between roasts (as angles they repeat from the 18th roast on) |
| `PlotUtils.AddEventMarkers` | utils/plot_utils.py:44-48 | the stars are those of the crack-marker rule for both milestones, in order |
| `PlotUtils.EventMarkersExact` | utils/plot_utils.py:44-48 | at most one star per milestone (no two stars share a milestone); a star exactly for each milestone whose time and temperature are both present, showing those values |
| `PlotUtils.AsDict` | utils/plot_utils.py:27-28 | a stored row is read back as a well-formed roast dictionary |
| `PlotUtils.CreateTemperaturePlot` | utils/plot_utils.py:21-74 | the traces are, roast by roast, the curve and its crack stars in the roast's colour; the layout uses the y range of all roasts' temperatures concatenated in input order |
| `PlotUtils.TempsOfHoldsEveryRoast` | utils/plot_utils.py:25-30 | every temperature of every roast is among the values the y range is computed from |
| `PlotUtils.PlotRangeCoversEveryRoast` | utils/plot_utils.py:25-73 | the chart's y range covers every temperature of every roast drawn |
| `CollectData.RoastEventId` | pages/collect_data.py:35-37 | the id is the event name with every space turned into a dash and every letter lower-cased, followed by "_button": seven characters longer, no space and no upper-case letter |
| `CollectData.FirstEventId` | pages/collect_data.py:35-37 | "1st Crack Start" becomes "1st-crack-start_button" |
| `CollectData.SecondEventId` | pages/collect_data.py:35-37 | "2nd Crack Start" becomes "2nd-crack-start_button" |
| `CollectData.ButtonIdsAreEventIds` | pages/collect_data.py:58-61 | the ids of the roast events are exactly the two keys the page hard-codes, in event order |
| `CollectData.InitialMarkers` | pages/collect_data.py:25-32 | one key per event id; every marker is unset, carries an event's name and is keyed by that event's id |
| `CollectData.InitializeRoastEventMarkers` | pages/collect_data.py:25-32 | fresh markers are exactly the two crack markers, keyed by their button ids, with their event names and no data |
| `CollectData.ButtonStates` | pages/collect_data.py:137-145 | in marker order, a button is disabled and styled "button-disabled" exactly when its marker holds a temperature |
| `CollectData.ElapsedSecondsProperties` | pages/collect_data.py:212-235 | the elapsed series has the input's length, starts at 0, keeps the gaps between samples and is non-decreasing for non-decreasing timestamps |
| `CollectData.DatetimesToElapsedSeconds` | pages/collect_data.py:212-235 | no timestamps give no elapsed times; otherwise element i is t_i - t_0 and element 0 is 0 |
| `CollectData.PrepCrackData` | pages/collect_data.py:201-209 | exactly four values: first-crack offset and temperature, then second-crack offset and temperature; offsets are marker time minus start time or absent, temperatures pass through |
| `CollectData.SavedRowReadsBack` | pages/collect_data.py:186-195 | a written row reads back with the recorded temperatures, elapsed seconds starting at 0, the first timestamp as start and the markers' crack temperatures |
| `CollectData.ThreeSampleRoastRow` | pages/collect_data.py:184-195 | the row of samples at 20, 21 and 22 C taken 1 s apart, first crack marked at the second, holds 68, 69.8 and 71.6 F, elapsed seconds [0, 1, 2], first crack at 1 s and 69.8 F, no second crack |
| `CollectData.RecordingState.constructor` | pages/collect_data.py:283-287 | empty buffers bounded by 1800 and 180 (lines 283-284), the fresh markers built at pages/collect_data.py:40, not recording, no stop pending (lines 286-287) |
| `CollectData.RecordingState.AppendRecorded` | pages/collect_data.py:289-303 | a recorded sample enters both recording deques by the drop-oldest rule; nothing else changes |
| `CollectData.RecordingState.AppendPlot` | pages/collect_data.py:289-303 | a live sample enters both plot deques by the drop-oldest rule; nothing else changes |
| `CollectData.RecordingState.SetForceStop` | pages/collect_data.py:287 | raises the forced-stop flag and changes nothing else |
| `CollectData.RecordingState.WriteDataToDb` | pages/collect_data.py:163-198 | with nothing recorded nothing changes and no row is written; otherwise exactly one row for the snapshot is appended, the recording buffers end empty and the markers fresh |
| `CollectData.RecordingState.ToggleRecording` | pages/collect_data.py:85-99 | the flag follows the switch, which is echoed; on: buttons enabled and nothing else changes; off: one write as above and buttons disabled |
| `CollectData.RecordingState.EventButtonClicked` | pages/collect_data.py:121-145 | with a sample recorded, the clicked marker takes the last recorded temperature and time, other markers stay, and button i is disabled exactly when marker i holds a temperature; with the buffers empty the read fails (`NoSampleYet`) and no marker changes |
| `CollectData.RecordingState.CheckBufferAndForceStop` | pages/collect_data.py:154-160 | a raised flag is cleared and turns an "on" switch off; otherwise no update and nothing changes |

## Left out

- The sampling thread, the data lock and the `threading.Event` objects: the
  model is sequential. Each block under the lock is one atomic method, and
  the events are booleans. The marker update in `EventButtonClicked`
  happens outside the lock in the source; the model does not capture that
  race.
- The sampler `continually_read_temperature` is not part of this model. It
  is imported from utils/temp_utils.py, which does not define it.
  `AppendRecorded`, `AppendPlot` and `SetForceStop` stand for what it does
  to the shared state. The model does not say when it records or when it
  raises the flag.
- Database access: the session, `add` and `commit` become appending the row
  to `RecordingState.saved`. Store failures are not modelled. The row's `id`
  and `tasting_comments` columns are not written by the page and are left
  out.
- The live-chart callback `update_graph_live` and every other Dash layout
  and callback wiring. The same goes for Plotly traces, annotations,
  reference lines (`add_roast_level_lines`) and styling beyond what
  `Figure` records. Legend names built with `strftime` and logging are left
  out too.
- JSON encoding is taken as lossless: `Json` is the list it encodes.
- `CollectData.RoastEventId`: lower-cases ASCII letters only. Python's
  `str.lower` also folds other Unicode letters; the two event names are
  ASCII.
- `CollectData.PrepCrackData`: the source tests a marker time for
  truthiness, and a `datetime` is always truthy. The model therefore tests
  for presence.
- `CollectData.RecordingState.CheckBufferAndForceStop`: the unused interval
  counter argument is dropped.
- Floating point: temperatures and seconds are exact reals, so the
  conversions are exact inverses.
- The hardware prototype main.py, the history page pages/view_data.py, the
  home page and utils/read_db.py.
