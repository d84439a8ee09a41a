/**
 * The marker the language model is told to emit when its context is not
 * enough, and that the router looks for in its reply. Both the prompt
 * template and the router conditions spell it the same way, case included.
 */
module Sentinel {
  const NO_ANSWER: string := "NO_ANSWER"
}
