/** The small vocabulary shared by the models. */
module Common {
  datatype Option<+T> = None | Some(value: T)

  /** A canonical device identity; the empty string stands for "no device". */
  type Ski = string

  function Min(a: int, b: int): int {
    if a <= b then a else b
  }

  function Sum(s: seq<nat>): nat {
    if s == [] then 0 else Sum(s[..|s| - 1]) + s[|s| - 1]
  }
}
