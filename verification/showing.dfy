/**
 The showings a planning request is made of, and the test that decides
 whether two of them can both be attended. Times are whole minutes.
 */
module Showings {

  /** Minimum time between the end of one showing and the start of the next,
      when the caller gives none (20 minutes). */
  const DefaultGap: int := 20

  /** One projection of a movie in a cinema. Nothing forces `beginning < end`:
      the constructor stores the four values as given. */
  datatype Showing = Showing(idxMovie: int, idxCinema: int, beginning: int, end: int)

  /** Time needed to go from one cinema to another. No travel data exists yet,
      so every pair of cinemas is zero minutes apart. */
  function TimeToChangeCinema(idxCineFrom: int, idxCineTo: int): int
  {
    0
  }

  /** `s2` can be attended after `s`: it starts once `s` has ended, the gap has
      elapsed and the attendee has reached the cinema of `s2`. */
  predicate CanAttendBoth(s: Showing, s2: Showing, gap: int)
  {
    s2.beginning >= s.end + gap + TimeToChangeCinema(s.idxCinema, s2.idxCinema)
  }

  /** The pairs a temporal constraint rules out: `s2` starts no earlier than `s`
      and too soon after it. Only the direction in which `s2` starts no earlier
      is considered, so every pair is seen from its earlier-starting side. */
  predicate Conflicts(s: Showing, s2: Showing, gap: int)
  {
    s2.beginning >= s.beginning && !CanAttendBoth(s, s2, gap)
  }

  /** With no travel time, a showing conflicts with `s` exactly when it starts
      in the half-open window from the start of `s` to the end of `s` plus the gap. */
  lemma ConflictWindow(s: Showing, s2: Showing, gap: int)
    ensures Conflicts(s, s2, gap) <==> s.beginning <= s2.beginning < s.end + gap
  {
  }

  /** Back-to-back attendance is allowed: a showing that starts exactly when the
      gap after `s` has elapsed does not conflict with `s`. */
  lemma BackToBackAllowed(s: Showing, s2: Showing, gap: int)
    requires s2.beginning == s.end + gap + TimeToChangeCinema(s.idxCinema, s2.idxCinema)
    ensures CanAttendBoth(s, s2, gap)
    ensures !Conflicts(s, s2, gap)
  {
  }
}
