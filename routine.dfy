/** The values that pass between the two screens: the record the routine
    builder emits when it is done, and the date it carries. */
module Routine {

  datatype Option<T> = None | Some(value: T)

  /** The parts of a JavaScript Date that the screens read: the full year,
      the zero-based month (getMonth), the day of the month (getDate) and the
      time of day at which the daily reminder is set. */
  datatype Date = Date(year: int, month0: int, day: int, hour: int, minute: int)

  /** The record the builder hands to the home screen (its seven fields, by
      the names the source gives them). The emoji is absent until one is
      picked. The daily target is a count, so it is a natural number; the
      builder keeps it at least 1. */
  datatype ConfigData = ConfigData(
    selectedEmoji: Option<string>,
    routineName: string,
    routineDescription: string,
    selectedColor: string,
    timesPerDay: nat,
    selectedDate: Date,
    notificationsEnabled: bool)
}
