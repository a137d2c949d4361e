/** The bonus-mint action of a pool: the decimals it uses, the batch it sends
    and what follows the send, which differs between the native mint and every
    other mint. */
module PoolMintBonus {
  import opened Common
  import opened TokenList
  import opened PoolFunding
  import opened PoolDeposit

  const BONUS_TOAST: string := "Bonus Tokens Minted"

  /** The decimals of the amount: the registry entry's when there is one and it
      has decimals, 0 otherwise. */
  function BonusDecimals(jupiterToken: Option<RegistryToken>): (d: nat)
    ensures jupiterToken.None? ==> d == 0
    ensures jupiterToken.Some? ==>
      d == (if jupiterToken.value.decimals.Some? then jupiterToken.value.decimals.value else 0)
  {
    var candidates := [if jupiterToken.Some? then jupiterToken.value.decimals else None];
    assert candidates[0].Some? ==> FirstPresent(candidates, 0);
    FirstDecimals(candidates)
  }

  /** What one call of `mintBonusTokens` does: its effects in order, and
      whether an error escapes the call instead of being logged. */
  datatype Outcome = Outcome(effects: seq<Effect>, escapes: bool)

  /** The batch sent: the wrap prefix (native mint only), then the one mint
      instruction. */
  function BonusBatch(sdk: Sdk, pool: Pool, user: PublicKey, amount: int, wsolExists: bool)
    : (b: seq<Instruction>)
    ensures sdk.isNativeMint(pool.underlyingTokenMint) ==>
      b == sdk.wrapSol(user, amount, !wsolExists) + [sdk.mintBonusTokens(pool.publicKey, pool.underlyingTokenMint, amount)]
    ensures !sdk.isNativeMint(pool.underlyingTokenMint) ==>
      b == [sdk.mintBonusTokens(pool.publicKey, pool.underlyingTokenMint, amount)]
  {
    FundedBatch(sdk, user, pool.underlyingTokenMint, amount, wsolExists,
      sdk.mintBonusTokens(pool.publicKey, pool.underlyingTokenMint, amount))
  }

  /** `mintBonusTokens` as written. The native branch returns the pending send
      from inside `try` without awaiting it, so its failure is not caught: it
      escapes unlogged. Its success is followed by nothing. The other branch
      awaits the send, then invalidates the pool's cache entry and toasts, and
      logs a failure. */
  function MintBonusAsWritten(sdk: Sdk, pool: Pool, user: PublicKey, amount: int, wsolExists: bool, sendOk: bool)
    : (o: Outcome)
    ensures |o.effects| >= 1 && o.effects[0] == Send(BonusBatch(sdk, pool, user, amount, wsolExists))
    ensures sdk.isNativeMint(pool.underlyingTokenMint) ==>
      o.effects == [Send(BonusBatch(sdk, pool, user, amount, wsolExists))]
  {
    var batch := BonusBatch(sdk, pool, user, amount, wsolExists);
    if sdk.isNativeMint(pool.underlyingTokenMint) then
      Outcome([Send(batch)], !sendOk)
    else if sendOk then
      Outcome([Send(batch), Invalidate(PoolCacheKey(pool.publicKey)), Toast(BONUS_TOAST)], false)
    else
      Outcome([Send(batch), LogError], false)
  }

  /** `mintBonusTokens` with the native send awaited, so that the `catch`
      covers both branches; the native branch still returns right after it. */
  function MintBonus(sdk: Sdk, pool: Pool, user: PublicKey, amount: int, wsolExists: bool, sendOk: bool)
    : (o: Outcome)
    ensures !o.escapes
    ensures |o.effects| >= 1 && o.effects[0] == Send(BonusBatch(sdk, pool, user, amount, wsolExists))
    ensures !sendOk <==> LogError in o.effects
    ensures !sendOk ==> o.effects == [Send(BonusBatch(sdk, pool, user, amount, wsolExists)), LogError]
    ensures sendOk && sdk.isNativeMint(pool.underlyingTokenMint) ==>
      o.effects == [Send(BonusBatch(sdk, pool, user, amount, wsolExists))]
  {
    var batch := BonusBatch(sdk, pool, user, amount, wsolExists);
    if sdk.isNativeMint(pool.underlyingTokenMint) then
      if sendOk then Outcome([Send(batch)], false) else Outcome([Send(batch), LogError], false)
    else if sendOk then
      Outcome([Send(batch), Invalidate(PoolCacheKey(pool.publicKey)), Toast(BONUS_TOAST)], false)
    else
      Outcome([Send(batch), LogError], false)
  }

  /** For the native mint the batch is the wrap instructions then the mint
      instruction, and nothing at all follows a successful send: the action
      returns right after it. A failed send is followed by the logged
      error alone. */
  lemma NativeBranch(sdk: Sdk, pool: Pool, user: PublicKey, amount: int, wsolExists: bool, sendOk: bool)
    requires sdk.isNativeMint(pool.underlyingTokenMint)
    ensures var o := MintBonus(sdk, pool, user, amount, wsolExists, sendOk);
      o.effects[0] == Send(sdk.wrapSol(user, amount, !wsolExists)
        + [sdk.mintBonusTokens(pool.publicKey, pool.underlyingTokenMint, amount)])
      && forall e :: e in o.effects ==> !e.Invalidate? && !e.Toast?
    ensures !sendOk ==>
      (MintBonus(sdk, pool, user, amount, wsolExists, sendOk).effects
       == [Send(BonusBatch(sdk, pool, user, amount, wsolExists)), LogError])
    ensures sendOk ==>
      MintBonus(sdk, pool, user, amount, wsolExists, sendOk).effects
        == [Send(BonusBatch(sdk, pool, user, amount, wsolExists))]
  {
    FundedBatchNative(sdk, user, pool.underlyingTokenMint, amount, wsolExists,
      sdk.mintBonusTokens(pool.publicKey, pool.underlyingTokenMint, amount));
  }

  /** For any other mint the mint instruction is sent alone; on success the
      pool's cache entry is invalidated and then the toast is shown, and on
      failure the error is logged and nothing else follows. */
  lemma OtherBranch(sdk: Sdk, pool: Pool, user: PublicKey, amount: int, wsolExists: bool)
    requires !sdk.isNativeMint(pool.underlyingTokenMint)
    ensures MintBonus(sdk, pool, user, amount, wsolExists, true).effects ==
      [Send([sdk.mintBonusTokens(pool.publicKey, pool.underlyingTokenMint, amount)]),
       Invalidate(PoolCacheKey(pool.publicKey)), Toast(BONUS_TOAST)]
    ensures MintBonus(sdk, pool, user, amount, wsolExists, false).effects ==
      [Send([sdk.mintBonusTokens(pool.publicKey, pool.underlyingTokenMint, amount)]), LogError]
  {
  }

  /** The as-written action agrees with the corrected one except when a native
      send fails: then the error escapes, and the send is the only effect. */
  lemma AsWrittenDiffers(sdk: Sdk, pool: Pool, user: PublicKey, amount: int, wsolExists: bool, sendOk: bool)
    ensures var w := MintBonusAsWritten(sdk, pool, user, amount, wsolExists, sendOk);
      w.escapes <==> sdk.isNativeMint(pool.underlyingTokenMint) && !sendOk
    ensures var w := MintBonusAsWritten(sdk, pool, user, amount, wsolExists, sendOk);
      !w.escapes ==> w == MintBonus(sdk, pool, user, amount, wsolExists, sendOk)
    ensures var w := MintBonusAsWritten(sdk, pool, user, amount, wsolExists, sendOk);
      w.escapes ==> LogError !in w.effects
    ensures var w := MintBonusAsWritten(sdk, pool, user, amount, wsolExists, sendOk);
      w.escapes ==> w.effects == [Send(BonusBatch(sdk, pool, user, amount, wsolExists))]
  {
  }

  /** The action on the world: the corrected behaviour, appended to the log. */
  method MintBonusTokens(world: World, sdk: Sdk, pool: Pool, user: PublicKey, amount: int, wsolExists: bool, sendOk: bool)
    modifies world
    ensures world.log == old(world.log) + MintBonus(sdk, pool, user, amount, wsolExists, sendOk).effects
  {
    ghost var batch := BonusBatch(sdk, pool, user, amount, wsolExists);
    var mintInstructions := sdk.mintBonusTokens(pool.publicKey, pool.underlyingTokenMint, amount);
    if sdk.isNativeMint(pool.underlyingTokenMint) {
      var wrapSolInstructions := sdk.wrapSol(user, amount, !wsolExists);
      assert wrapSolInstructions + [mintInstructions] == batch;
      world.Emit(Send(wrapSolInstructions + [mintInstructions]));
      if !sendOk {
        world.Emit(LogError);
      }
      return;
    }
    assert [mintInstructions] == batch;
    world.Emit(Send([mintInstructions]));
    if !sendOk {
      world.Emit(LogError);
      return;
    }
    world.Emit(Invalidate(PoolCacheKey(pool.publicKey)));
    world.Emit(Toast(BONUS_TOAST));
  }
}
