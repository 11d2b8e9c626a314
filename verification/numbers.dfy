/** Numbers that several components share. */
module Numbers {
  const U64_MAX: nat := 0xffff_ffff_ffff_ffff

  function Min(a: int, b: int): int { if a < b then a else b }
  function Max(a: int, b: int): int { if a < b then b else a }
}
