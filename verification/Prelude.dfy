/** Small vocabulary shared by the component models. */
module Prelude {

  datatype Option<+T> = None | Some(value: T)

  datatype Result<+T, +E> = Ok(value: T) | Err(error: E)

  const U64_MAX: nat := 0xFFFF_FFFF_FFFF_FFFF

  /** Rust's `u64::saturating_add(1)`. */
  function SaturatingIncrement(n: nat): nat {
    if n < U64_MAX then n + 1 else n
  }

  /** Rust's `saturating_sub` on unsigned integers. */
  function SaturatingSub(a: nat, b: nat): nat {
    if b <= a then a - b else 0
  }
}

/** Rearrangements of concatenations, kept apart because they are costly inside larger proofs. */
module Concatenation {

  lemma AppendLast<T>(a: seq<T>, s: seq<T>)
    requires s != []
    ensures a + s == (a + s[..|s| - 1]) + [s[|s| - 1]]
  {
  }

  lemma TakeNext<T>(a: seq<T>, s: seq<T>, n: nat)
    requires n < |s|
    ensures a + s[..n + 1] == (a + s[..n]) + [s[n]]
    ensures s[..n + 1][..n] == s[..n] && s[..n + 1] == s[..n] + [s[n]]
  {
  }

  lemma TakeEnds<T>(a: seq<T>, s: seq<T>)
    ensures s[..|s|] == s && s[..0] == [] && a + s[..0] == a
  {
  }
}
