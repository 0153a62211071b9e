/** What several modules need and none of them is about. */
module Wrappers {
  datatype Option<+T> = None | Some(value: T)

  lemma CancelFactor(x: real, y: real, k: real)
    requires k > 0.0 && x * k == y * k
    ensures x == y
  {
    assert x * k / k == x && y * k / k == y;
  }
}
