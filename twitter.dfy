/**
 * The value types handed over by the `twitter` library, as far as main.py
 * uses them: a user, one timeline entry (status), the calendar date that
 * `datetime.date.fromtimestamp` produces, and the outcome of asking the API
 * for a user's timeline.
 */
module Twitter {
  import opened Wrappers

  /** `twitter.User`: every field is optional; main.py builds one from a screen name alone. */
  datatype User = User(id: Option<int>, name: Option<string>, screenName: Option<string>)

  /**
   * `twitter.Status`: main.py reads `text`, `user` and `created_at_in_seconds`.
   * `id` is kept because each haiku record holds its whole entry, and two posts
   * with the same text, user and time are still different entries.
   */
  datatype Entry = Entry(id: Option<int>, text: string, user: User, createdAtInSeconds: int)

  /** `datetime.date`. */
  datatype Date = Date(year: int, month: int, day: int)

  /** `Api.GetUserTimeline` either returns the entries, newest first, or raises. */
  datatype TimelineFetch = Fetched(entries: seq<Entry>) | Failed
}
