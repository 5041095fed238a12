/** The recording bookkeeping of the data-collection page
    (pages/collect_data.py): the recording and plot buffers, the milestone
    markers, the recording switch and the one-shot forced-stop flag, and the
    hand-off of a finished roast to the roast table.

    Every block the page runs under its data lock is one method of
    `RecordingState`; the background sampler that fills the buffers is not
    part of this model and is represented by the plain appends
    `AppendRecorded` and `AppendPlot`. */
module CollectData {
  import opened Optional
  import opened Models
  import opened Deques
  import TempUtils
  import PlotUtils

  /** Seconds of history kept for the live chart. */
  const PlotWindowSec: nat := 60 * 3

  /** Samples a recording can hold (30 minutes at one sample a second). */
  const RecordCapacity: nat := 60 * 30

  // ---------------------------------------------------------------- event ids

  function LowerChar(c: char): char {
    if 'A' <= c <= 'Z' then (c as int + 32) as char else c
  }

  /** The character an event name's character becomes in an element id. */
  function IdChar(c: char): char {
    if c == ' ' then '-' else LowerChar(c)
  }

  /** The element id of an event's button: the event name lower-cased, each
      space turned into a dash, followed by "_button". The result is id
      friendly: it holds no space and no upper-case letter. */
  function RoastEventId(event: string): (id: string)
    ensures |id| == |event| + 7 && id[|event|..] == "_button"
    ensures forall i :: 0 <= i < |id| ==> id[i] != ' ' && !('A' <= id[i] <= 'Z')
    ensures forall i :: 0 <= i < |event| ==>
              if event[i] == ' ' then id[i] == '-' else LowerChar(id[i]) == LowerChar(event[i])
  {
    seq(|event|, i requires 0 <= i < |event| => IdChar(event[i])) + "_button"
  }

  /** The marker keys the page refers to by name. */
  const FirstCrackKey: string := "1st-crack-start_button"
  const SecondCrackKey: string := "2nd-crack-start_button"

  /** The marker keys in the order the marker dictionary holds them. */
  const ButtonIds: seq<string> := [FirstCrackKey, SecondCrackKey]

  /** The first event's id, character by character. */
  lemma FirstEventId()
    ensures RoastEventId("1st Crack Start") == "1st-crack-start_button"
  {
    var id := RoastEventId("1st Crack Start");
    forall i | 0 <= i < 15 ensures id[i] == "1st-crack-start_button"[i] {
    }
  }

  /** The second event's id, character by character. */
  lemma SecondEventId()
    ensures RoastEventId("2nd Crack Start") == "2nd-crack-start_button"
  {
    var id := RoastEventId("2nd Crack Start");
    forall i | 0 <= i < 15 ensures id[i] == "2nd-crack-start_button"[i] {
    }
  }

  /** The ids of the two roast events are exactly the two keys the page
      hard-codes, in event order. */
  lemma ButtonIdsAreEventIds()
    ensures |ButtonIds| == |TempUtils.RoastEvents|
    ensures forall i :: 0 <= i < |ButtonIds| ==> ButtonIds[i] == RoastEventId(TempUtils.RoastEvents[i])
  {
    FirstEventId();
    SecondEventId();
  }

  // ---------------------------------------------------------------- markers

  /** A milestone marker: the event's display name and the (temperature,
      time) of the sample it was set from, both absent until it is set. */
  datatype Marker = Marker(name: string, data: (Option<real>, Option<Instant>))

  type Markers = map<string, Marker>

  /** One unset marker per event, keyed by the event's button id. */
  function InitialMarkers(events: seq<string>): (m: Markers)
    ensures m.Keys == set e | e in events :: RoastEventId(e)
    ensures forall k :: k in m ==>
              m[k].data == (None, None) && m[k].name in events && RoastEventId(m[k].name) == k
  {
    if events == [] then map[]
    else
      var last := events[|events| - 1];
      var m := InitialMarkers(events[..|events| - 1]);
      assert forall e :: e in events <==> e in events[..|events| - 1] || e == last;
      m[RoastEventId(last) := Marker(last, (None, None))]
  }

  /** The two crack markers, both unset. */
  const FreshMarkers: Markers := map[
    FirstCrackKey := Marker("1st Crack Start", (None, None)),
    SecondCrackKey := Marker("2nd Crack Start", (None, None))]

  /** The markers of a fresh recording: exactly the two crack markers, named
      after their events and both unset. */
  function InitializeRoastEventMarkers(): (m: Markers)
    ensures m == FreshMarkers
  {
    var events := TempUtils.RoastEvents;
    FirstEventId();
    SecondEventId();
    assert events[..1][..0] == [];
    assert events[..|events| - 1] == events[..1];
    assert events[..1][..|events[..1]| - 1] == events[..1][..0];
    InitialMarkers(events)
  }

  /** What a click on an event button produces: the new states of the
      buttons, or the error raised when no sample has been recorded yet. */
  datatype ClickOutcome =
    | NoSampleYet
    | Buttons(disabled: seq<bool>, classNames: seq<string>)

  /** The class name that shows a button as disabled or enabled. */
  function ButtonClass(disabled: bool): string {
    if disabled then "button-disabled" else "button-enabled"
  }

  /** Which event buttons to disable, in marker order: a button is disabled,
      and styled so, exactly when its marker holds a temperature. */
  method ButtonStates(markers: Markers) returns (disabled: seq<bool>, classNames: seq<string>)
    requires forall k :: k in ButtonIds ==> k in markers
    ensures |disabled| == |ButtonIds| && |classNames| == |ButtonIds|
    ensures forall i :: 0 <= i < |ButtonIds| ==>
              && disabled[i] == markers[ButtonIds[i]].data.0.Some?
              && classNames[i] == ButtonClass(disabled[i])
  {
    var numMarkers := |ButtonIds|;
    disabled := seq(numMarkers, _ => false);
    classNames := seq(numMarkers, _ => "button-enabled");
    for idx := 0 to numMarkers
      invariant |disabled| == numMarkers && |classNames| == numMarkers
      invariant forall i :: 0 <= i < idx ==>
                  disabled[i] == markers[ButtonIds[i]].data.0.Some? && classNames[i] == ButtonClass(disabled[i])
      invariant forall i :: idx <= i < numMarkers ==> !disabled[i] && classNames[i] == "button-enabled"
    {
      if markers[ButtonIds[idx]].data.0 != None {
        disabled := disabled[idx := true];
        classNames := classNames[idx := "button-disabled"];
      }
    }
  }

  // ---------------------------------------------------------------- elapsed time and cracks

  /** Seconds from the first timestamp to each timestamp. */
  function ElapsedSeconds(times: seq<Instant>): seq<real> {
    seq(|times|, i requires 0 <= i < |times| => times[i] - times[0])
  }

  /** The elapsed series is aligned with the timestamps, starts at zero, keeps
      the gaps between samples, and does not decrease when the timestamps do
      not. */
  lemma ElapsedSecondsProperties(times: seq<Instant>)
    ensures |ElapsedSeconds(times)| == |times|
    ensures times != [] ==> ElapsedSeconds(times)[0] == 0.0
    ensures forall i, j :: 0 <= i < |times| && 0 <= j < |times| ==>
              ElapsedSeconds(times)[j] - ElapsedSeconds(times)[i] == times[j] - times[i]
    ensures (forall i, j :: 0 <= i <= j < |times| ==> times[i] <= times[j]) ==>
              forall i, j :: 0 <= i <= j < |times| ==> ElapsedSeconds(times)[i] <= ElapsedSeconds(times)[j]
  {
  }

  /** Converts timestamps into seconds elapsed since the first one; no
      timestamps give no elapsed times. */
  method DatetimesToElapsedSeconds(datetimeList: seq<Instant>) returns (elapsed: seq<real>)
    ensures |elapsed| == |datetimeList|
    ensures datetimeList != [] ==> elapsed[0] == 0.0
    ensures forall i :: 0 <= i < |elapsed| ==> elapsed[i] == datetimeList[i] - datetimeList[0]
    ensures elapsed == ElapsedSeconds(datetimeList)
  {
    if datetimeList == [] {
      return [];
    }
    var referenceTime := datetimeList[0];
    elapsed := [];
    for i := 0 to |datetimeList|
      invariant |elapsed| == i
      invariant forall j :: 0 <= j < i ==> elapsed[j] == datetimeList[j] - referenceTime
    {
      elapsed := elapsed + [datetimeList[i] - referenceTime];
    }
  }

  /** Seconds from `start` to a marker's time, absent when the marker is unset. */
  function OffsetFrom(time: Option<Instant>, start: Instant): Option<real> {
    match time
    case Some(t) => Some(t - start)
    case None => None
  }

  /** The crack columns of a roast row, in the order first-crack offset,
      first-crack temperature, second-crack offset, second-crack
      temperature. Offsets are relative to `startTime`; temperatures are
      copied as they are. */
  method PrepCrackData(events: Markers, startTime: Instant) returns (output: seq<Option<real>>)
    requires FirstCrackKey in events && SecondCrackKey in events
    ensures |output| == 4
    ensures output[0] == OffsetFrom(events[FirstCrackKey].data.1, startTime)
    ensures output[1] == events[FirstCrackKey].data.0
    ensures output[2] == OffsetFrom(events[SecondCrackKey].data.1, startTime)
    ensures output[3] == events[SecondCrackKey].data.0
    ensures forall i :: 0 <= i < 4 && output[i].Some? && i % 2 == 0 ==>
              events[ButtonIds[i / 2]].data.1 == Some(startTime + output[i].value)
  {
    output := [];
    var keys := [FirstCrackKey, SecondCrackKey];
    for k := 0 to 2
      invariant |output| == 2 * k
      invariant forall j :: 0 <= j < k ==>
                  output[2 * j] == OffsetFrom(events[keys[j]].data.1, startTime) &&
                  output[2 * j + 1] == events[keys[j]].data.0
    {
      var (temp, t) := events[keys[k]].data;
      var deltaT := if t.Some? then Some(t.value - startTime) else None;
      output := output + [deltaT, temp];
    }
    assert output[2 * 1] == OffsetFrom(events[keys[1]].data.1, startTime);
  }

  // ---------------------------------------------------------------- the roast row

  /** `row` is the roast row written for a recording of `temps` at `times`
      with `markers` and the user's `beanInfo`: it starts at the first
      sample, keeps the temperatures in order, stores the elapsed seconds of
      every sample and the crack offsets and temperatures of the markers. */
  ghost predicate IsRowFor(row: Roast, temps: seq<real>, times: seq<Instant>, markers: Markers, beanInfo: Option<string>) {
    && times != []
    && FirstCrackKey in markers && SecondCrackKey in markers
    && row.startTime == times[0]
    && JsonLoads(row.secFromStart) == ElapsedSeconds(times)
    && JsonLoads(row.temperatureF) == temps
    && row.beanInfo == beanInfo
    && row.firstCrackStartTime == OffsetFrom(markers[FirstCrackKey].data.1, times[0])
    && row.firstCrackStartTemp == markers[FirstCrackKey].data.0
    && row.secondCrackStartTime == OffsetFrom(markers[SecondCrackKey].data.1, times[0])
    && row.secondCrackStartTemp == markers[SecondCrackKey].data.0
  }

  /** A saved row reads back, through the plotting code, as the recording it
      was written from: the same temperatures, the elapsed seconds of the
      recorded timestamps (starting at 0), the first timestamp as start time
      and the marker's temperature and offset for each crack. */
  lemma SavedRowReadsBack(row: Roast, temps: seq<real>, times: seq<Instant>, markers: Markers, beanInfo: Option<string>)
    requires IsRowFor(row, temps, times, markers, beanInfo)
    ensures PlotUtils.RowAsDict(row)["temp_data"] == PlotUtils.Series(temps)
    ensures PlotUtils.RowAsDict(row)["time_data"] == PlotUtils.Series(ElapsedSeconds(times))
    ensures PlotUtils.RowAsDict(row)["time_data"].xs[0] == 0.0
    ensures PlotUtils.RowAsDict(row)["start_time"] == PlotUtils.Timestamp(times[0])
    ensures PlotUtils.RowAsDict(row)["first_crack_start_temp"] == PlotUtils.Number(markers[FirstCrackKey].data.0)
    ensures PlotUtils.RowAsDict(row)["second_crack_start_temp"] == PlotUtils.Number(markers[SecondCrackKey].data.0)
  {
  }

  // ---------------------------------------------------------------- the page state

  /** What the record switch is told to show: nothing new, or a value. */
  datatype SwitchUpdate = NoUpdate | SetSwitch(on: bool)

  /** The module-level state of the data-collection page. */
  class RecordingState {
    var tempRecorded: Deque<real>
    var timeRecorded: Deque<Instant>
    var tempPlot: Deque<real>
    var timePlot: Deque<Instant>
    var roastEventMarkers: Markers
    /** Whether the sampler should also fill the recording buffers. */
    var recording: bool
    /** Raised by the sampler, cleared by the page once it has seen it. */
    var forceStopRecording: bool
    /** The rows committed to the roast table, oldest first. */
    var saved: seq<Roast>

    ghost predicate Valid()
      reads this
    {
      && tempRecorded.Valid() && timeRecorded.Valid()
      && tempPlot.Valid() && timePlot.Valid()
      && tempRecorded.maxlen == RecordCapacity && timeRecorded.maxlen == RecordCapacity
      && tempPlot.maxlen == PlotWindowSec && timePlot.maxlen == PlotWindowSec
      && |tempRecorded.items| == |timeRecorded.items|
      && |tempPlot.items| == |timePlot.items|
      && roastEventMarkers.Keys == {FirstCrackKey, SecondCrackKey}
    }

    /** The state when the page is loaded: empty buffers, unset markers, not
        recording, no stop pending. */
    constructor ()
      ensures Valid()
      ensures tempRecorded.items == [] && timeRecorded.items == []
      ensures tempPlot.items == [] && timePlot.items == []
      ensures roastEventMarkers == FreshMarkers
      ensures !recording && !forceStopRecording && saved == []
    {
      var recorded := InitializeDeques(2, RecordCapacity);
      var plotted := InitializeDeques(2, PlotWindowSec);
      tempRecorded, timeRecorded := recorded[0], recorded[1];
      tempPlot, timePlot := plotted[0], plotted[1];
      roastEventMarkers := InitializeRoastEventMarkers();
      recording, forceStopRecording := false, false;
      saved := [];
    }

    /** A recorded sample, as the sampler appends it under the data lock:
        both recording buffers keep their last `RecordCapacity` entries. */
    method AppendRecorded(temp: real, time: Instant)
      requires Valid()
      modifies this
      ensures Valid()
      ensures tempRecorded.items == LastN(old(tempRecorded.items) + [temp], RecordCapacity)
      ensures timeRecorded.items == LastN(old(timeRecorded.items) + [time], RecordCapacity)
      ensures tempPlot == old(tempPlot) && timePlot == old(timePlot)
      ensures roastEventMarkers == old(roastEventMarkers) && saved == old(saved)
      ensures recording == old(recording) && forceStopRecording == old(forceStopRecording)
    {
      tempRecorded := tempRecorded.Append(temp);
      timeRecorded := timeRecorded.Append(time);
    }

    /** A live sample, as the sampler appends it under the data lock: both
        plot buffers keep their last `PlotWindowSec` entries. */
    method AppendPlot(temp: real, time: Instant)
      requires Valid()
      modifies this
      ensures Valid()
      ensures tempPlot.items == LastN(old(tempPlot.items) + [temp], PlotWindowSec)
      ensures timePlot.items == LastN(old(timePlot.items) + [time], PlotWindowSec)
      ensures tempRecorded == old(tempRecorded) && timeRecorded == old(timeRecorded)
      ensures roastEventMarkers == old(roastEventMarkers) && saved == old(saved)
      ensures recording == old(recording) && forceStopRecording == old(forceStopRecording)
    {
      tempPlot := tempPlot.Append(temp);
      timePlot := timePlot.Append(time);
    }

    /** The sampler raising the forced-stop flag. */
    method SetForceStop()
      requires Valid()
      modifies this`forceStopRecording
      ensures Valid() && forceStopRecording
    {
      forceStopRecording := true;
    }

    /** The state after a write, given the state before it: with nothing
        recorded nothing changes; otherwise one row for the recording is
        appended to the table, the recording buffers are empty and the
        markers are fresh. */
    ghost predicate WrittenFrom(temps: seq<real>, times: seq<Instant>, markers: Markers,
                                store: seq<Roast>, beanInfo: Option<string>)
      reads this
    {
      if temps == [] then
        && tempRecorded.items == temps && timeRecorded.items == times
        && roastEventMarkers == markers && saved == store
      else
        && tempRecorded.items == [] && timeRecorded.items == []
        && roastEventMarkers == FreshMarkers
        && |saved| == |store| + 1 && saved[..|store|] == store
        && IsRowFor(saved[|store|], temps, times, markers, beanInfo)
    }

    /** Hands the recording to the roast table: under the lock it snapshots
        and clears the recording buffers and replaces the markers with fresh
        ones, then writes one row built from the snapshot. An empty
        recording is dropped with a warning and nothing is written. */
    method WriteDataToDb(beanInfo: Option<string>)
      requires Valid()
      modifies this
      ensures Valid()
      ensures WrittenFrom(old(tempRecorded.items), old(timeRecorded.items), old(roastEventMarkers), old(saved), beanInfo)
      ensures tempRecorded.maxlen == old(tempRecorded.maxlen) && timeRecorded.maxlen == old(timeRecorded.maxlen)
      ensures tempPlot == old(tempPlot) && timePlot == old(timePlot)
      ensures recording == old(recording) && forceStopRecording == old(forceStopRecording)
    {
      if tempRecorded.items == [] {
        return;
      }
      var temps := tempRecorded.items;
      var times := timeRecorded.items;
      var markers := roastEventMarkers;
      tempRecorded := tempRecorded.Clear();
      timeRecorded := timeRecorded.Clear();
      roastEventMarkers := InitializeRoastEventMarkers();

      var crackInfo := PrepCrackData(markers, times[0]);
      var elapsed := DatetimesToElapsedSeconds(times);
      var newRoast := Roast(
        times[0], JsonDumps(elapsed), JsonDumps(temps), beanInfo,
        crackInfo[0], crackInfo[1], crackInfo[2], crackInfo[3]);
      saved := saved + [newRoast];
    }

    /** The record switch: turning it on starts recording and enables the
        event buttons; turning it off stops recording, writes the recording
        to the table and disables the buttons. The switch value is echoed. */
    method ToggleRecording(isOn: bool, beanInfo: Option<string>)
      returns (on: bool, disabled: seq<bool>, classNames: seq<string>)
      requires Valid()
      modifies this
      ensures Valid()
      ensures recording == isOn && on == isOn
      ensures |disabled| == |ButtonIds| && |classNames| == |ButtonIds|
      ensures forall i :: 0 <= i < |ButtonIds| ==>
                disabled[i] == !isOn && classNames[i] == ButtonClass(!isOn)
      ensures isOn ==>
                && tempRecorded == old(tempRecorded) && timeRecorded == old(timeRecorded)
                && roastEventMarkers == old(roastEventMarkers) && saved == old(saved)
      ensures !isOn ==>
                WrittenFrom(old(tempRecorded.items), old(timeRecorded.items), old(roastEventMarkers), old(saved), beanInfo)
      ensures tempPlot == old(tempPlot) && timePlot == old(timePlot)
      ensures forceStopRecording == old(forceStopRecording)
    {
      recording := isOn;
      var numMarkers := |roastEventMarkers|;
      assert roastEventMarkers.Keys == {FirstCrackKey, SecondCrackKey};
      assert numMarkers == |ButtonIds|;
      if !isOn {
        WriteDataToDb(beanInfo);
        return isOn, seq(numMarkers, _ => true), seq(numMarkers, _ => "button-disabled");
      }
      return isOn, seq(numMarkers, _ => false), seq(numMarkers, _ => "button-enabled");
    }

    /** An event button was clicked: the clicked marker takes the latest
        recorded temperature and time (the last sample, never a later one),
        the other markers stay, and every button whose marker is set is
        disabled. A click before the first sample finds the recording buffers
        empty: reading their last element raises, and no marker and no button
        changes. */
    method EventButtonClicked(event: string) returns (r: ClickOutcome)
      requires Valid()
      requires event in roastEventMarkers
      modifies this
      ensures Valid()
      ensures old(timeRecorded.items) == [] || old(tempRecorded.items) == [] ==>
                r == NoSampleYet && roastEventMarkers == old(roastEventMarkers)
      ensures old(timeRecorded.items) != [] && old(tempRecorded.items) != [] ==>
                && r.Buttons?
                && roastEventMarkers == old(roastEventMarkers)[event := Marker(
                     old(roastEventMarkers)[event].name,
                     (Some(old(tempRecorded.items)[|old(tempRecorded.items)| - 1]),
                      Some(old(timeRecorded.items)[|old(timeRecorded.items)| - 1])))]
      ensures r.Buttons? ==>
                && |r.disabled| == |ButtonIds| && |r.classNames| == |ButtonIds|
                && (forall i :: 0 <= i < |ButtonIds| ==>
                      && r.disabled[i] == roastEventMarkers[ButtonIds[i]].data.0.Some?
                      && r.classNames[i] == ButtonClass(r.disabled[i]))
                && (forall i :: 0 <= i < |ButtonIds| && ButtonIds[i] == event ==> r.disabled[i])
      ensures tempRecorded == old(tempRecorded) && timeRecorded == old(timeRecorded)
      ensures tempPlot == old(tempPlot) && timePlot == old(timePlot)
      ensures saved == old(saved)
      ensures recording == old(recording) && forceStopRecording == old(forceStopRecording)
    {
      if timeRecorded.items == [] || tempRecorded.items == [] {
        return NoSampleYet;
      }
      var eventTime := timeRecorded.items[|timeRecorded.items| - 1];
      var eventTemp := tempRecorded.items[|tempRecorded.items| - 1];
      roastEventMarkers := roastEventMarkers[event := roastEventMarkers[event].(data := (Some(eventTemp), Some(eventTime)))];
      var disabled, classNames := ButtonStates(roastEventMarkers);
      r := Buttons(disabled, classNames);
    }

    /** The periodic check of the forced-stop flag. A raised flag is cleared
        and, if the switch is on, the switch is turned off; otherwise the
        switch is left as it is and nothing changes. */
    method CheckBufferAndForceStop(currentSwitchState: bool) returns (r: SwitchUpdate)
      requires Valid()
      modifies this`forceStopRecording
      ensures Valid()
      ensures !forceStopRecording
      ensures r == (if old(forceStopRecording) && currentSwitchState then SetSwitch(false) else NoUpdate)
    {
      if forceStopRecording {
        forceStopRecording := false;
        if currentSwitchState {
          return SetSwitch(false);
        }
      }
      return NoUpdate;
    }
  }

  /** The row of a three-sample roast at 20, 21 and 22 degrees Celsius, one
      second apart, with the first crack marked at the second sample: elapsed seconds [0, 1, 2], the
      first crack 1 s in at the second temperature, no second crack. */
  lemma ThreeSampleRoastRow(row: Roast, markers: Markers, beanInfo: Option<string>)
    requires IsRowFor(row, [68.0, 69.8, 71.6], [100.0, 101.0, 102.0], markers, beanInfo)
    requires markers[FirstCrackKey].data == (Some(69.8), Some(101.0))
    requires markers[SecondCrackKey].data == (None, None)
    ensures JsonLoads(row.temperatureF) == [TempUtils.CToF(20.0), TempUtils.CToF(21.0), TempUtils.CToF(22.0)]
    ensures JsonLoads(row.secFromStart) == [0.0, 1.0, 2.0]
    ensures row.startTime == 100.0
    ensures row.firstCrackStartTime == Some(1.0) && row.firstCrackStartTemp == Some(69.8)
    ensures row.secondCrackStartTime == None && row.secondCrackStartTemp == None
  {
    assert ElapsedSeconds([100.0, 101.0, 102.0]) == [0.0, 1.0, 2.0];
  }

  /** A whole roast as the page sees it: the switch is turned on, three
      samples are recorded one second apart, the first crack is marked after
      the second sample, and the switch is turned off. Exactly one row is
      written, for exactly those samples and markers. */
  method RecordOneRoast()
  {
    var page := new RecordingState();
    var on, disabled, classNames := page.ToggleRecording(true, None);
    page.AppendRecorded(68.0, 100.0);
    page.AppendRecorded(69.8, 101.0);
    assert page.tempRecorded.items == [68.0, 69.8];
    assert page.timeRecorded.items == [100.0, 101.0];
    var clicked := page.EventButtonClicked(FirstCrackKey);
    assert clicked == Buttons([true, false], ["button-disabled", "button-enabled"]);
    page.AppendRecorded(71.6, 102.0);
    assert page.tempRecorded.items == [68.0, 69.8, 71.6];
    assert page.timeRecorded.items == [100.0, 101.0, 102.0];
    ghost var markers := page.roastEventMarkers;
    assert markers[FirstCrackKey].data == (Some(69.8), Some(101.0));
    assert markers[SecondCrackKey].data == (None, None);
    on, disabled, classNames := page.ToggleRecording(false, Some("Ethiopia"));
    assert |page.saved| == 1;
    assert IsRowFor(page.saved[0], [68.0, 69.8, 71.6], [100.0, 101.0, 102.0], markers, Some("Ethiopia"));
    assert page.tempRecorded.items == [] && disabled == [true, true];
    ThreeSampleRoastRow(page.saved[0], markers, Some("Ethiopia"));
    assert page.saved[0].firstCrackStartTime == Some(1.0);
  }

  /** Turning the switch off right after turning it on, with no sample in
      between, writes no row. */
  method StopWithoutSamples()
  {
    var page := new RecordingState();
    var on, disabled, classNames := page.ToggleRecording(true, None);
    on, disabled, classNames := page.ToggleRecording(false, None);
    assert page.saved == [] && !page.recording && disabled == [true, true];
  }
}
