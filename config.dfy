/** The routine builder sheet: the form fields for a new routine, the
    handlers that edit them, and the record it emits when done. */
module Config {
  import opened Routine

  /** The maxLength of the name and description inputs. */
  const NameMaxLength: nat := 15
  const DescriptionMaxLength: nat := 80

  /** The theme palette, one button per entry, in display order. */
  const ColorOptions: seq<string> := ["#fff", "#777", "#666", "#999", "orange", "green", "##115DC7"]

  const InitialColor: string := "orange"

  /** Border width of the palette button whose colour is selected. */
  const SelectedBorderWidth: nat := 5

  /** Shown in place of the emoji until one is picked. */
  const DefaultEmoji: string := "\U{1F3AF}"

  /** The bounds the builder's inputs keep: a count of at least 1, a name
      and description within their caps, and a palette colour. */
  predicate InBounds(timesPerDay: int, routineName: string, routineDescription: string, selectedColor: string) {
    timesPerDay >= 1
    && |routineName| <= NameMaxLength
    && |routineDescription| <= DescriptionMaxLength
    && selectedColor in ColorOptions
  }

  /** A record the builder can emit. */
  predicate WellFormed(c: ConfigData) {
    InBounds(c.timesPerDay, c.routineName, c.routineDescription, c.selectedColor)
  }

  /** The text a TextInput with the given maxLength passes to its change
      handler when text is entered: the entry cut to the cap. */
  function Capped(text: string, cap: nat): (r: string)
    ensures |r| <= cap
    ensures r <= text
    ensures |r| == if |text| <= cap then |text| else cap
  {
    if |text| <= cap then text else text[..cap]
  }

  /** Capping twice is capping once, and text within the cap passes intact. */
  lemma CappedIdempotent(text: string, cap: nat)
    ensures Capped(Capped(text, cap), cap) == Capped(text, cap)
    ensures |text| <= cap ==> Capped(text, cap) == text
  {
  }

  /** The minus button, Math.max(prev - 1, 1): the counter never goes below
      1, steps down by one above 1, and stays at 1 from 1. */
  function DecrementedTimes(n: int): (r: int)
    ensures r >= 1
    ensures n > 1 ==> r == n - 1
    ensures n <= 1 ==> r == 1
  {
    if n - 1 > 1 then n - 1 else 1
  }

  /** The plus button, prev + 1: the count grows, and from any count of at
      least 1 the minus button brings it back. */
  function IncrementedTimes(n: int): (r: int)
    ensures r > n
    ensures n >= 1 ==> DecrementedTimes(r) == n
  {
    n + 1
  }

  /** A decrement undoes an increment from any count of at least 1; an
      increment undoes a decrement exactly when the count was above 1. */
  lemma IncrementDecrementInverse(n: int)
    requires n >= 1
    ensures DecrementedTimes(IncrementedTimes(n)) == n
    ensures IncrementedTimes(DecrementedTimes(n)) == n <==> n > 1
  {
  }

  /** Border width of a palette button, given the selected colour. */
  function BorderWidth(selectedColor: string, color: string): (width: nat)
    ensures width == SelectedBorderWidth <==> selectedColor == color
    ensures width != SelectedBorderWidth ==> width == 0
  {
    if selectedColor == color then SelectedBorderWidth else 0
  }

  /** The palette buttons drawn with the selection border. */
  function Highlighted(selectedColor: string): (buttons: set<nat>)
    ensures forall i: nat :: i in buttons <==> i < |ColorOptions| && ColorOptions[i] == selectedColor
    ensures selectedColor !in ColorOptions ==> buttons == {}
  {
    set i: nat | i < |ColorOptions| && BorderWidth(selectedColor, ColorOptions[i]) == SelectedBorderWidth
  }

  /** The palette has seven distinct entries. */
  lemma PaletteDistinct()
    ensures |ColorOptions| == 7
    ensures forall i, j :: 0 <= i < j < |ColorOptions| ==> ColorOptions[i] != ColorOptions[j]
  {
  }

  /** After choosing palette entry i, button i and no other shows the
      selection border. */
  lemma SelectionHighlightsOne(i: nat)
    requires i < |ColorOptions|
    ensures Highlighted(ColorOptions[i]) == {i}
  {
    PaletteDistinct();
    forall j: nat | j in Highlighted(ColorOptions[i]) ensures j == i {
      assert ColorOptions[j] == ColorOptions[i];
    }
  }

  /** The emoji button's label, selectedEmoji || the default: an absent or
      empty emoji falls back to the default. */
  function EmojiShown(emoji: Option<string>): (r: string)
    ensures r != []
    ensures emoji.Some? && emoji.value != [] ==> r == emoji.value
    ensures !(emoji.Some? && emoji.value != []) ==> r == DefaultEmoji
  {
    if emoji.Some? && emoji.value != [] then emoji.value else DefaultEmoji
  }

  /** What the builder asks of the reminder service for the current switch
      and date: a daily reminder at the date's hour and minute, or cancelling
      every reminder. */
  datatype ReminderRequest = ScheduleDaily(hour: int, minute: int) | CancelAll

  function Reminder(notificationsEnabled: bool, date: Date): (r: ReminderRequest)
    ensures r.ScheduleDaily? <==> notificationsEnabled
    ensures r.ScheduleDaily? ==> r.hour == date.hour && r.minute == date.minute
  {
    if notificationsEnabled then ScheduleDaily(date.hour, date.minute) else CancelAll
  }

  class ConfigState {
    var selectedColor: string
    var timesPerDay: int
    var selectedDate: Date
    var showDatePicker: bool
    var notificationsEnabled: bool
    var selectedEmoji: Option<string>
    var showEmojiPicker: bool
    var routineName: string
    var routineDescription: string

    ghost predicate Valid()
      reads this
    {
      InBounds(timesPerDay, routineName, routineDescription, selectedColor)
    }

    /** A fresh sheet; now is the moment it opens (new Date()). */
    constructor (now: Date)
      ensures Valid()
      ensures selectedColor == InitialColor && timesPerDay == 1 && selectedDate == now
      ensures !showDatePicker && !notificationsEnabled && selectedEmoji == None && !showEmojiPicker
      ensures routineName == [] && routineDescription == []
    {
      selectedColor := InitialColor;
      timesPerDay := 1;
      selectedDate := now;
      showDatePicker := false;
      notificationsEnabled := false;
      selectedEmoji := None;
      showEmojiPicker := false;
      routineName := [];
      routineDescription := [];
    }

    method DecrementTimesPerDay()
      requires Valid()
      modifies this`timesPerDay
      ensures Valid()
      ensures timesPerDay == DecrementedTimes(old(timesPerDay))
    {
      timesPerDay := DecrementedTimes(timesPerDay);
    }

    method IncrementTimesPerDay()
      requires Valid()
      modifies this`timesPerDay
      ensures Valid()
      ensures timesPerDay == IncrementedTimes(old(timesPerDay))
    {
      timesPerDay := IncrementedTimes(timesPerDay);
    }

    /** Text entered into the name input. */
    method SetRoutineName(text: string)
      requires Valid()
      modifies this`routineName
      ensures Valid()
      ensures routineName == Capped(text, NameMaxLength)
    {
      routineName := Capped(text, NameMaxLength);
    }

    /** Text entered into the description input. */
    method SetRoutineDescription(text: string)
      requires Valid()
      modifies this`routineDescription
      ensures Valid()
      ensures routineDescription == Capped(text, DescriptionMaxLength)
    {
      routineDescription := Capped(text, DescriptionMaxLength);
    }

    /** A tap on palette button index. */
    method SelectColor(index: nat)
      requires Valid()
      requires index < |ColorOptions|
      modifies this`selectedColor
      ensures Valid()
      ensures selectedColor == ColorOptions[index]
    {
      selectedColor := ColorOptions[index];
    }

    method ToggleNotifications()
      requires Valid()
      modifies this`notificationsEnabled
      ensures Valid()
      ensures notificationsEnabled == !old(notificationsEnabled)
    {
      notificationsEnabled := !notificationsEnabled;
    }

    /** An emoji picked in the picker is kept and the picker closes. */
    method HandleEmojiSelection(emoji: string)
      requires Valid()
      modifies this`selectedEmoji, this`showEmojiPicker
      ensures Valid()
      ensures selectedEmoji == Some(emoji) && !showEmojiPicker
    {
      selectedEmoji := Some(emoji);
      showEmojiPicker := false;
    }

    method ToggleEmojiPicker()
      requires Valid()
      modifies this`showEmojiPicker
      ensures Valid()
      ensures showEmojiPicker == !old(showEmojiPicker)
    {
      showEmojiPicker := !showEmojiPicker;
    }

    /** The picker's close button and its close request. */
    method CloseEmojiPicker()
      requires Valid()
      modifies this`showEmojiPicker
      ensures Valid()
      ensures !showEmojiPicker
    {
      showEmojiPicker := false;
    }

    method ToggleDatePicker()
      requires Valid()
      modifies this`showDatePicker
      ensures Valid()
      ensures showDatePicker == !old(showDatePicker)
    {
      showDatePicker := !showDatePicker;
    }

    /** The reminder the sheet currently asks for. */
    function CurrentReminder(): (r: ReminderRequest)
      reads this
      ensures r.ScheduleDaily? <==> notificationsEnabled
      ensures r.ScheduleDaily? ==> r.hour == selectedDate.hour && r.minute == selectedDate.minute
    {
      Reminder(notificationsEnabled, selectedDate)
    }

    /** The done button: the seven fields, as they are, in one record, which
      is well formed. */
    method HandleDone() returns (configData: ConfigData)
      requires Valid()
      ensures configData.selectedEmoji == selectedEmoji
      ensures configData.routineName == routineName
      ensures configData.routineDescription == routineDescription
      ensures configData.selectedColor == selectedColor
      ensures configData.timesPerDay == timesPerDay
      ensures configData.selectedDate == selectedDate
      ensures configData.notificationsEnabled == notificationsEnabled
      ensures WellFormed(configData)
    {
      configData := ConfigData(selectedEmoji, routineName, routineDescription, selectedColor,
                               timesPerDay, selectedDate, notificationsEnabled);
    }
  }

  /** Two flips of the notifications switch, then two of the emoji picker,
      leave the sheet exactly as it was. */
  method ToggleTwiceRestores(sheet: ConfigState)
    requires sheet.Valid()
    modifies sheet
    ensures sheet.Valid()
    ensures unchanged(sheet)
  {
    sheet.ToggleNotifications();
    sheet.ToggleNotifications();
    sheet.ToggleEmojiPicker();
    sheet.ToggleEmojiPicker();
  }
}
