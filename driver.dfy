// The simulation driver: runs the event list in batches of PAUSE_INTERVAL
// events and asks the operator after each full batch whether to go on.

module SimulationDriver {

  /** Events processed between two operator prompts. */
  const PAUSE_INTERVAL: nat := 1000

  datatype Outcome =
    | Completed  // the event list ran out of events
    | Stopped    // the operator declined to continue

  /** An operator reply that lets the simulation continue. */
  predicate Affirmative(response: string)
  {
    response == "y" || response == "Y"
  }

  /** Number of leading affirmative replies in `answers`: how many prompts the operator accepts before declining. */
  function Approvals(answers: seq<string>): (k: nat)
    ensures k <= |answers|
    ensures forall i | 0 <= i < k :: Affirmative(answers[i])
    ensures k < |answers| ==> !Affirmative(answers[k])
  {
    if answers == [] || !Affirmative(answers[0]) then 0 else 1 + Approvals(answers[1..])
  }

  /**
   * The batched event loop. `pending` is the number of events the run will
   * process, counting those that running an event schedules during the run:
   * doNextEvent reports true that many times and false after that. The
   * operator's replies to the prompts are `answers`, and a prompt after the
   * replies run out reads an empty reply. The loop completes exactly when the
   * events run out within the first Approvals(answers) + 1 batches, and
   * otherwise stops right after that many batches.
   */
  method RunSimulation(pending: nat, answers: seq<string>) returns (eventCount: nat, outcome: Outcome)
    ensures eventCount <= pending
    ensures outcome == Completed <==> pending < PAUSE_INTERVAL * (Approvals(answers) + 1)
    ensures outcome == Completed ==> eventCount == pending
    ensures outcome == Stopped ==> eventCount == PAUSE_INTERVAL * (Approvals(answers) + 1)
  {
    eventCount := 0;
    var remaining := pending;  // events still in the event list
    var prompts := 0;          // replies read so far
    while true
      invariant eventCount + remaining == pending
      invariant eventCount == PAUSE_INTERVAL * prompts
      invariant prompts <= Approvals(answers)
      decreases remaining
    {
      // Process a batch of events
      var i := 0;
      while i < PAUSE_INTERVAL
        invariant 0 <= i <= PAUSE_INTERVAL
        invariant eventCount + remaining == pending
        invariant eventCount == PAUSE_INTERVAL * prompts + i
      {
        var more := remaining > 0;  // doNextEvent()
        if !more {
          outcome := Completed;
          return;
        }
        remaining := remaining - 1;
        eventCount := eventCount + 1;
        i := i + 1;
      }

      // Prompt the operator
      var response := if prompts < |answers| then answers[prompts] else "";
      prompts := prompts + 1;
      if !Affirmative(response) {
        outcome := Stopped;
        return;
      }
    }
  }
}
