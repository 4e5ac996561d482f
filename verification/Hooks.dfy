/** The vocabulary hooks and spans share (`hooks/base.py`, `events/spans.py`). */
module Hooks {
  /** What a hook tells the runner to do with a tool call. */
  datatype HookAction = CONTINUE | SKIP | REQUIRE_APPROVAL {
    /** `_ACTION_PRIORITY`: higher is more restrictive. */
    function Priority(): nat {
      match this
      case CONTINUE => 0
      case SKIP => 1
      case REQUIRE_APPROVAL => 2
    }
  }

  datatype SpanSubject = RUN | TURN | STEP | TOOL_CALL | SUBAGENT | HANDOFF | LLM_CALL | JUDGE | ROUTE

  datatype SpanPhase = START | PROGRESS | COMPLETE | ERROR | CANCELLED {
    /** The phases after which the emitter forgets a span's start time. */
    predicate Ends() { COMPLETE? || ERROR? || CANCELLED? }
  }
}
