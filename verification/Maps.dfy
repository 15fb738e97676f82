// Small vocabulary shared by the models: optional values and the zero default
// that a Go map gives for a missing key.
module Maps {

  datatype Option<+T> = None | Some(value: T)

  // m[key] of a Go map with integer values: a missing key reads as zero.
  function At(m: map<string, int>, key: string): int {
    if key in m then m[key] else 0
  }

  // m[key] += amount.
  function Plus(m: map<string, int>, key: string, amount: int): map<string, int> {
    m[key := At(m, key) + amount]
  }

  function Bit(b: bool): nat {
    if b then 1 else 0
  }
}
