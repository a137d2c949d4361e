/** What the deposit and bonus-mint flows share: choosing the token's decimals
    from the available metadata, and funding a pool instruction with native
    SOL, which must first be wrapped into a token account. */
module PoolFunding {
  import opened Common

  /** Position `i` holds the first value present. */
  predicate FirstPresent(candidates: seq<Option<nat>>, i: int) {
    0 <= i < |candidates| && candidates[i].Some? && forall j :: 0 <= j < i ==> candidates[j].None?
  }

  /** `a ?? b ?? … ?? 0`: the first value present, or 0 when none is. Unlike
      `||`, a present 0 is kept. */
  function FirstDecimals(candidates: seq<Option<nat>>): (d: nat)
    ensures (forall i :: 0 <= i < |candidates| ==> candidates[i].None?) ==> d == 0
    ensures forall i :: FirstPresent(candidates, i) ==> d == candidates[i].value
  {
    if |candidates| == 0 then 0
    else if candidates[0].Some? then candidates[0].value
    else
      var d := FirstDecimals(candidates[1..]);
      assert forall i :: FirstPresent(candidates, i) ==> FirstPresent(candidates[1..], i - 1);
      d
  }

  /** The instructions that wrap `amount` lamports for `user` when the pool's
      token is the native mint, asking for the wSOL account to be created
      exactly when the user has none; nothing for any other mint. */
  function WrapPrefix(sdk: Sdk, user: PublicKey, mint: PublicKey, amount: int, wsolExists: bool)
    : (w: seq<Instruction>)
    ensures sdk.isNativeMint(mint) ==> w == sdk.wrapSol(user, amount, !wsolExists)
    ensures !sdk.isNativeMint(mint) ==> w == []
  {
    if sdk.isNativeMint(mint) then sdk.wrapSol(user, amount, !wsolExists) else []
  }

  /** The batch sent for one pool instruction `ix`: the wrap prefix, then `ix`. */
  function FundedBatch(sdk: Sdk, user: PublicKey, mint: PublicKey, amount: int, wsolExists: bool, ix: Instruction)
    : (b: seq<Instruction>)
    ensures |b| > 0 && b[|b| - 1] == ix
    ensures b[..|b| - 1] == WrapPrefix(sdk, user, mint, amount, wsolExists)
    ensures !sdk.isNativeMint(mint) ==> b == [ix]
  {
    WrapPrefix(sdk, user, mint, amount, wsolExists) + [ix]
  }

  /** For the native mint the batch is the SDK's wrap instructions, whose
      account-creation flag is the negation of `wsolExists`, followed by `ix`. */
  lemma FundedBatchNative(sdk: Sdk, user: PublicKey, mint: PublicKey, amount: int, wsolExists: bool, ix: Instruction)
    requires sdk.isNativeMint(mint)
    ensures FundedBatch(sdk, user, mint, amount, wsolExists, ix) == sdk.wrapSol(user, amount, !wsolExists) + [ix]
    ensures |FundedBatch(sdk, user, mint, amount, wsolExists, ix)| == |sdk.wrapSol(user, amount, !wsolExists)| + 1
  {
  }
}
