/**
 `schedule_meeting`: a stub that ignores its query and always confirms the
 same slot; nothing is booked.
 */
module Scheduler {

  /** The one reply the scheduler ever gives. */
  const Confirmation: string := "Meeting scheduled successfully for tomorrow at 11 AM."

  /** `schedule_meeting(query)`: total, defined for every query including "". */
  function ScheduleMeeting(query: string): (r: string)
    ensures r == Confirmation
  {
    Confirmation
  }

  /** The reply does not depend on the query. */
  lemma InputIndependent(a: string, b: string)
    ensures ScheduleMeeting(a) == ScheduleMeeting(b)
  {
  }
}
