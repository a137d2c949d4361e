/** The create-pool view: which authority a new pool gets, the pool address it
    derives, when the Create button is enabled, and the instruction batch the
    create action submits. */
module CreatePool {
  import opened Common
  import opened TokenList

  /** Compute units requested ahead of the pool-creation instructions. */
  const COMPUTE_UNIT_LIMIT: nat := 400000

  /** The decoded global program state; only its creation switch matters here. */
  datatype GambaState = GambaState(poolCreationAllowed: bool)

  /** The authority of the pool to create: the wallet for a private pool, the
      system program for a public one. */
  function Authority(isPrivate: bool, wallet: PublicKey): (a: PublicKey)
    ensures a == wallet || a == SYSTEM_PROGRAM
    ensures isPrivate ==> a == wallet
    ensures !isPrivate ==> a == SYSTEM_PROGRAM
  {
    if isPrivate then wallet else SYSTEM_PROGRAM
  }

  /** `selectedPoolId`: derived from the selected mint and the authority, absent
      while no token is selected. */
  function SelectedPoolId(sdk: Sdk, selected: Option<Token>, isPrivate: bool, wallet: PublicKey): (p: Option<PublicKey>)
    ensures p.Some? <==> selected.Some?
    ensures selected.Some? ==> p.value == sdk.poolAddress(selected.value.mint, Some(Authority(isPrivate, wallet)))
  {
    if selected.None? then None
    else Some(sdk.poolAddress(selected.value.mint, Some(Authority(isPrivate, wallet))))
  }

  /** A public pool's address depends on the mint alone, whoever is connected;
      a private pool's address is the one a public pool would get if the wallet
      were the system program. */
  lemma PoolIdAuthority(sdk: Sdk, t: Token, w1: PublicKey, w2: PublicKey)
    ensures SelectedPoolId(sdk, Some(t), false, w1) == SelectedPoolId(sdk, Some(t), false, w2)
    ensures SelectedPoolId(sdk, Some(t), true, w1) == Some(sdk.poolAddress(t.mint, Some(w1)))
    ensures w1 == SYSTEM_PROGRAM ==>
      SelectedPoolId(sdk, Some(t), true, w1) == SelectedPoolId(sdk, Some(t), false, w2)
  {
  }

  /** The submitted batch: the compute-budget directive first, then the SDK's
      pool-creation instructions in their order. */
  function CreatePoolBatch(sdk: Sdk, mint: PublicKey, authority: PublicKey, slot: nat): (b: seq<Instruction>)
    ensures |b| == 1 + |sdk.createPool(mint, authority, slot)|
    ensures b[0] == SetComputeUnitLimit(COMPUTE_UNIT_LIMIT)
    ensures b[1..] == sdk.createPool(mint, authority, slot)
  {
    [SetComputeUnitLimit(COMPUTE_UNIT_LIMIT)] + sdk.createPool(mint, authority, slot)
  }

  // ---------------------------------------------------------------------------
  // The Create button

  /** The button's `disabled` expression as written: the program state is read
      without optional chaining, so an absent state throws once the earlier
      disjuncts are all false. */
  function CreateDisabledAsWritten(selected: bool, isLoading: bool, state: Option<GambaState>, poolExists: bool)
    : (r: Result<bool, JsError>)
    ensures r.Err? <==> selected && !isLoading && state.None?
  {
    if !selected then Ok(true)
    else if isLoading then Ok(true)
    else if state.None? then Err(TypeError)
    else if !state.value.poolCreationAllowed then Ok(true)
    else Ok(poolExists)
  }

  /** With a token selected, the lookup settled and the program state not yet
      loaded, evaluating the as-written expression throws. */
  lemma CreateDisabledAsWrittenThrows()
    ensures CreateDisabledAsWritten(true, false, None, false) == Err(TypeError)
  {
  }

  /** The button's `disabled` value, reading an absent program state as
      "creation not allowed", as the warning banner of the same view does. */
  function CreateDisabled(selected: bool, isLoading: bool, state: Option<GambaState>, poolExists: bool): (d: bool)
    ensures state.None? ==> d
    ensures !d ==> selected && !isLoading && !poolExists
  {
    !selected || isLoading || !(state.Some? && state.value.poolCreationAllowed) || poolExists
  }

  /** The button is enabled exactly when a token is selected, the pool lookup
      has settled, creation is allowed and no pool exists at the derived address;
      wherever the as-written expression yields a value, it is this one. */
  lemma CreateDisabledCases(selected: bool, isLoading: bool, state: Option<GambaState>, poolExists: bool)
    ensures !CreateDisabled(selected, isLoading, state, poolExists) <==>
      selected && !isLoading && state == Some(GambaState(true)) && !poolExists
    ensures CreateDisabledAsWritten(selected, isLoading, state, poolExists).Ok? ==>
      CreateDisabledAsWritten(selected, isLoading, state, poolExists).value
        == CreateDisabled(selected, isLoading, state, poolExists)
    ensures state.None? ==> CreateDisabled(selected, isLoading, state, poolExists)
  {
  }

  // ---------------------------------------------------------------------------
  // The view's state and its create action

  class CreatePoolView {
    var selectedToken: Option<Token>
    var isPrivate: bool

    constructor ()
      ensures selectedToken == None && !isPrivate
    {
      selectedToken := None;
      isPrivate := false;
    }

    method SelectToken(t: Token)
      modifies this
      ensures selectedToken == Some(t) && isPrivate == old(isPrivate)
    {
      selectedToken := Some(t);
    }

    method SetPrivate(value: bool)
      modifies this
      ensures isPrivate == value && selectedToken == old(selectedToken)
    {
      isPrivate := value;
    }

    /** `createPool`: nothing without a selected token; otherwise fetch the slot
        (`slot` is None when that fails), send the batch, and go to the new
        pool's page once the send succeeds. Every failure is logged and
        swallowed. */
    method CreatePool(world: World, sdk: Sdk, wallet: PublicKey, slot: Option<nat>, sendOk: bool)
      modifies world
      ensures selectedToken.None? ==> world.log == old(world.log)
      ensures selectedToken.Some? && slot.None? ==> world.log == old(world.log) + [LogError]
      ensures selectedToken.Some? && slot.Some? ==>
        var authority := Authority(isPrivate, wallet);
        var batch := CreatePoolBatch(sdk, selectedToken.value.mint, authority, slot.value);
        var pool := sdk.poolAddress(selectedToken.value.mint, Some(authority));
        world.log == old(world.log) + [Send(batch)]
          + (if sendOk then [Navigate(PoolRoute(pool))] else [LogError])
    {
      if selectedToken.None? {
        return;
      }
      var mint := selectedToken.value.mint;
      var authority := Authority(isPrivate, wallet);
      var pool := sdk.poolAddress(mint, Some(authority));
      if slot.None? {
        world.Emit(LogError);
        return;
      }
      var combined := [SetComputeUnitLimit(COMPUTE_UNIT_LIMIT)] + sdk.createPool(mint, authority, slot.value);
      world.Emit(Send(combined));
      if !sendOk {
        world.Emit(LogError);
        return;
      }
      world.Emit(Navigate(PoolRoute(pool)));
    }
  }
}
