/** The agent configuration constants of backend/config/settings.py. */
module Settings {

  /** Evaluation budget of one refinement run. */
  const MAX_ITERATIONS: nat := 3

  /** Every criterion of the latest score at or above this value stops the loop. */
  const SCORE_THRESHOLD: real := 0.9

  /** Every criterion moving by less than this value stops the loop (stagnation). */
  const IMPROVEMENT_THRESHOLD: real := 0.05

  /** The chat model the backend agent asks for; not the catalogue's DEFAULT_MODEL. */
  const DEFAULT_MODEL: string := "gpt-4"
}
