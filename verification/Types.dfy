// Names shared by all contracts: addresses, error values, keys and clock types.
module Types {

  // A 20-byte account or contract address. Only equality matters to the contracts.
  datatype Address = Address(id: nat)

  // The error values of server/contract/common.go that the modelled code returns.
  // NoError stands for a nil error.
  datatype Error =
    | NoError
    | ErrRes
    | ErrInput
    | ErrEmpty
    | ErrExist
    | ErrValue
    | ErrRoleType
    | ErrBalanceNotEnough
    | ErrPermission
    | ErrNonce

  // Key of the per-role, per-token maps.
  datatype MultiKey = MultiKey(role: nat, token: nat)

  const U64: int := 0x1_0000_0000_0000_0000

  // Clock readings and byte counts are uint64 in the source.
  type u64 = n: int | 0 <= n < U64

  // Unsigned 64-bit subtraction and addition, which wrap around.
  function Sub64(a: u64, b: u64): u64 {
    if b <= a then a - b else a - b + U64
  }

  function Add64(a: u64, b: u64): u64 {
    if a + b < U64 then a + b else a + b - U64
  }

  const DAY: int := 86400

  // Value stored under k, or 0 when there is none.
  function Get<K>(m: map<K, int>, k: K): int {
    if k in m then m[k] else 0
  }

  function Min(a: int, b: int): int {
    if a <= b then a else b
  }

  function Max(a: int, b: int): int {
    if a <= b then b else a
  }

  // No element occurs twice.
  ghost predicate Distinct<T(!new)>(xs: seq<T>) {
    forall i, j :: 0 <= i < j < |xs| ==> xs[i] != xs[j]
  }
}
