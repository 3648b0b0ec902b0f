/** The "From / To" bar of `src/components/DateRangeFilter.js`: two date
    pills, each opening a native date picker, and the handlers that close the
    picker and forward a chosen date to the parent. */
module DateRangeFilter {
  import opened Common
  import opened Readings

  datatype Platform = Android | IOS

  /** The `type` of a picker's change event. The handlers test only for
      "dismissed"; every other type ("set", "neutralButtonPressed", ...)
      takes the same path, so the model has one case for all of them. */
  datatype PickerEvent = NotDismissed | Dismissed

  /** What a date pill shows: "--" without a date, else the locale date of it. */
  datatype DateText = Dashes | LocaleDate(date: DateTime)

  /** `formatDate` */
  function FormatDate(date: Option<DateTime>): (r: DateText)
    ensures r == Dashes <==> date.None?
    ensures date.Some? ==> r == LocaleDate(date.value)
  {
    match date
    case None => Dashes
    case Some(d) => LocaleDate(d)
  }

  /** The date a change event forwards to `onStartChange` / `onEndChange`. */
  function Forwarded(event: PickerEvent, selected: Option<DateTime>): (r: Option<DateTime>)
    ensures event == Dismissed ==> r.None?
    ensures event == NotDismissed ==> r == selected
  {
    if event == Dismissed then None else selected
  }

  /** The range a picker lets the user choose from. */
  datatype Picker = Picker(value: DateTime, minimum: Option<DateTime>, maximum: DateTime)

  predicate Selectable(p: Picker, d: DateTime) {
    (p.minimum.None? || NotAfter(p.minimum.value, d)) && NotAfter(d, p.maximum)
  }

  /** The start picker: at most the end date. */
  function StartPicker(startDate: DateTime, endDate: DateTime): (p: Picker)
    ensures forall d :: Selectable(p, d) <==> NotAfter(d, endDate)
  {
    Picker(startDate, None, endDate)
  }

  /** The end picker: between the start date and today. */
  function EndPicker(startDate: DateTime, endDate: DateTime, today: DateTime): (p: Picker)
    ensures forall d :: Selectable(p, d) <==> NotAfter(startDate, d) && NotAfter(d, today)
  {
    Picker(endDate, Some(startDate), today)
  }

  /** Whatever the pickers let the user choose keeps the range ordered and
      the end no later than today. */
  lemma PickersKeepRangeOrdered(startDate: DateTime, endDate: DateTime, today: DateTime, d: DateTime)
    requires NotAfter(startDate, endDate) && NotAfter(endDate, today)
    ensures Selectable(StartPicker(startDate, endDate), d) ==> NotAfter(d, endDate) && NotAfter(d, today)
    ensures Selectable(EndPicker(startDate, endDate, today), d) ==> NotAfter(startDate, d) && NotAfter(d, today)
  {
  }

  class DatePickers {
    var showStart: bool
    var showEnd: bool

    constructor ()
      ensures !showStart && !showEnd
    {
      showStart, showEnd := false, false;
    }

    /** The pickers on screen, with their bounds. */
    function Visible(startDate: DateTime, endDate: DateTime, today: DateTime): (r: seq<Picker>)
      reads this
      ensures |r| == (if showStart then 1 else 0) + (if showEnd then 1 else 0)
      ensures showStart ==> r[0] == StartPicker(startDate, endDate)
      ensures showEnd ==> r[|r| - 1] == EndPicker(startDate, endDate, today)
    {
      (if showStart then [StartPicker(startDate, endDate)] else []) +
      (if showEnd then [EndPicker(startDate, endDate, today)] else [])
    }

    /** Pressing the "From" pill. */
    method PressStart()
      modifies this
      ensures showStart && showEnd == old(showEnd)
    {
      showStart := true;
    }

    /** Pressing the "To" pill. */
    method PressEnd()
      modifies this
      ensures showEnd && showStart == old(showStart)
    {
      showEnd := true;
    }

    /** `handleStartChange`; returns the date passed to `onStartChange`, if any.
        On Android the picker is closed first, on both platforms it ends closed. */
    method HandleStartChange(platform: Platform, event: PickerEvent, selected: Option<DateTime>)
      returns (forwarded: Option<DateTime>)
      modifies this
      ensures forwarded == Forwarded(event, selected)
      ensures !showStart && showEnd == old(showEnd)
    {
      if platform == Android {
        showStart := false;
      }
      forwarded := None;
      if event == Dismissed {
        showStart := false;
        return;
      }
      if selected.Some? {
        forwarded := selected;
      }
      showStart := false;
    }

    /** `handleEndChange`, the same for the end picker. */
    method HandleEndChange(platform: Platform, event: PickerEvent, selected: Option<DateTime>)
      returns (forwarded: Option<DateTime>)
      modifies this
      ensures forwarded == Forwarded(event, selected)
      ensures !showEnd && showStart == old(showStart)
    {
      if platform == Android {
        showEnd := false;
      }
      forwarded := None;
      if event == Dismissed {
        showEnd := false;
        return;
      }
      if selected.Some? {
        forwarded := selected;
      }
      showEnd := false;
    }
  }

  /** Opening the start picker and answering it leaves no picker on screen
      and forwards exactly the chosen date, on either platform. */
  method PickStart(platform: Platform, event: PickerEvent, selected: Option<DateTime>,
                   startDate: DateTime, endDate: DateTime, today: DateTime)
    returns (forwarded: Option<DateTime>, onScreen: seq<Picker>)
    ensures forwarded.Some? <==> event == NotDismissed && selected.Some?
    ensures forwarded.Some? ==> forwarded == selected
    ensures onScreen == []
  {
    var pickers := new DatePickers();
    pickers.PressStart();
    forwarded := pickers.HandleStartChange(platform, event, selected);
    onScreen := pickers.Visible(startDate, endDate, today);
  }
}
