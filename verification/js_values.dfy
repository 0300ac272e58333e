/**
 * JavaScript truthiness for the few kinds of values the overlays test with `if (x)`.
 * A missing value (`null`, `undefined`) is `None`.
 */
module JsValues {
  import opened Wrappers

  /** A message or class name is truthy when present and not the empty string. */
  predicate TruthyText(s: Option<string>) {
    s.Some? && s.value != ""
  }

  /** A number such as `durationMs` is truthy when present and not zero. */
  predicate TruthyNumber(n: Option<int>) {
    n.Some? && n.value != 0
  }

  /** A flag such as `cancellable` is truthy only when it is present and `true`. */
  predicate TruthyFlag(b: Option<bool>) {
    b == Some(true)
  }
}
