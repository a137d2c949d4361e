/** The deposit view of a pool: the decimals it works in, the LP amount it
    shows, when the Deposit button is enabled, and the deposit action. */
module PoolDeposit {
  import opened Common
  import opened TokenList
  import opened PoolFunding

  /** The pool record the view is given. */
  datatype Pool = Pool(publicKey: PublicKey, underlyingTokenMint: PublicKey)

  const DEPOSIT_TOAST: string := "\U{1FAE1} Deposited to pool"

  /** The decimals of the pool's token: the registry entry's, else the token
      metadata's, else 0. */
  function DepositDecimals(registry: seq<RegistryToken>, mint: PublicKey, metaDecimals: Option<nat>): (d: nat)
    ensures FindByMint(registry, mint).Some? && FindByMint(registry, mint).value.decimals.Some? ==>
      d == FindByMint(registry, mint).value.decimals.value
    ensures (FindByMint(registry, mint).None? || FindByMint(registry, mint).value.decimals.None?) ==>
      d == (if metaDecimals.Some? then metaDecimals.value else 0)
  {
    var jt := FindByMint(registry, mint);
    var candidates := [if jt.Some? then jt.value.decimals else None, metaDecimals];
    assert candidates[0].Some? ==> FirstPresent(candidates, 0);
    assert candidates[0].None? && metaDecimals.Some? ==> FirstPresent(candidates, 1);
    FirstDecimals(candidates)
  }

  // ---------------------------------------------------------------------------
  // The LP amount shown under "Receive"

  function Pow10(d: nat): (p: nat)
    ensures p >= 1
  {
    if d == 0 then 1 else 10 * Pow10(d - 1)
  }

  function Abs(x: int): nat {
    if x < 0 then -x else x
  }

  /** The quotient of `n` by `d` on naturals: the largest `q` with
      `q * d <= n`. */
  function Quot(n: nat, d: nat): (q: nat)
    requires d > 0
    ensures q * d <= n < q * d + d
    decreases n
  {
    if n < d then 0 else 1 + Quot(n - d, d)
  }

  /** BigInt `/`: throws on a zero divisor; otherwise the quotient's magnitude
      is the quotient of the magnitudes (it truncates toward zero) and a
      non-zero quotient is positive exactly when the operands' signs agree. */
  function TruncDiv(a: int, b: int): (r: Result<int, JsError>)
    ensures r.Err? <==> b == 0
    ensures b != 0 ==> Abs(r.value) * Abs(b) <= Abs(a) < Abs(r.value) * Abs(b) + Abs(b)
    ensures b != 0 && r.value != 0 ==> ((r.value > 0) <==> ((a > 0) == (b > 0)))
  {
    if b == 0 then Err(RangeError)
    else
      var q: int := Quot(Abs(a), Abs(b));
      if (a >= 0) == (b > 0) then Ok(q) else Ok(-q)
  }

  /** `calculatedAmount`: `amount * 10^d / ratioScaled` in BigInt arithmetic,
      where `ratioScaled` is the pool ratio already scaled by `10^d`. */
  function LpAmount(amount: int, decimals: nat, ratioScaled: int): (r: Result<int, JsError>)
    ensures r.Err? <==> ratioScaled == 0
  {
    TruncDiv(amount * Pow10(decimals), ratioScaled)
  }

  /** For a non-negative amount and a positive ratio the LP amount is the floor
      of the quotient: the largest q with q * ratioScaled <= amount * 10^d. */
  lemma LpAmountFloor(amount: int, decimals: nat, ratioScaled: int)
    requires amount >= 0 && ratioScaled > 0
    ensures LpAmount(amount, decimals, ratioScaled).Ok?
    ensures var q := LpAmount(amount, decimals, ratioScaled).value;
      q >= 0 && q * ratioScaled <= amount * Pow10(decimals) < (q + 1) * ratioScaled
  {
    var n := amount * Pow10(decimals);
    assert n >= 0;
    assert Abs(n) == n && Abs(ratioScaled) == ratioScaled;
    var q := Quot(n, ratioScaled);
    assert LpAmount(amount, decimals, ratioScaled).value == q;
    assert (q + 1) * ratioScaled == q * ratioScaled + ratioScaled;
  }

  /** Truncation makes the LP amount odd-symmetric in the amount, unlike a
      flooring division. */
  lemma LpAmountNegated(amount: int, decimals: nat, ratioScaled: int)
    requires ratioScaled != 0
    ensures LpAmount(-amount, decimals, ratioScaled).value == -LpAmount(amount, decimals, ratioScaled).value
  {
    assert -amount * Pow10(decimals) == -(amount * Pow10(decimals));
  }

  /** A concrete case where truncation and flooring differ: -1 unit at ratio 2
      gives 0 LP, not -1. */
  lemma LpAmountTruncates()
    ensures LpAmount(-1, 0, 2) == Ok(0)
  {
  }

  /** The Deposit button is disabled while a deposit runs or when the amount is 0. */
  function DepositDisabled(loading: bool, amount: int): (d: bool)
    ensures amount == 0 ==> d
    ensures !d <==> !loading && amount != 0
  {
    loading || amount == 0
  }

  // ---------------------------------------------------------------------------
  // The deposit action

  /** The batch `deposit` sends: the pool's deposit instruction, preceded by
      the wrap instructions when the pool's token is the native mint. */
  function DepositBatch(sdk: Sdk, pool: Pool, user: PublicKey, amount: int, wsolExists: bool)
    : seq<Instruction>
  {
    FundedBatch(sdk, user, pool.underlyingTokenMint, amount, wsolExists,
      sdk.depositToPool(pool.publicKey, pool.underlyingTokenMint, amount))
  }

  /** For the native mint the deposit batch is the wrap instructions then the
      deposit instruction; for any other mint it is the deposit instruction
      alone. */
  lemma DepositBatchShape(sdk: Sdk, pool: Pool, user: PublicKey, amount: int, wsolExists: bool)
    ensures sdk.isNativeMint(pool.underlyingTokenMint) ==>
      DepositBatch(sdk, pool, user, amount, wsolExists)
        == sdk.wrapSol(user, amount, !wsolExists) + [sdk.depositToPool(pool.publicKey, pool.underlyingTokenMint, amount)]
    ensures !sdk.isNativeMint(pool.underlyingTokenMint) ==>
      DepositBatch(sdk, pool, user, amount, wsolExists)
        == [sdk.depositToPool(pool.publicKey, pool.underlyingTokenMint, amount)]
  {
  }

  /** What one call of `deposit` does when it sends `batch`, in order:
      loading on, the send, on success the cache invalidation, navigation and
      toast, and loading off. */
  function DepositEffects(batch: seq<Instruction>, pool: Pool, sendOk: bool): (effects: seq<Effect>)
    ensures |effects| == if sendOk then 6 else 3
    ensures effects[0] == SetLoading(true) && effects[|effects| - 1] == SetLoading(false)
    ensures effects[1] == Send(batch)
    ensures forall k :: 1 < k < |effects| - 1 ==> !effects[k].Send? && !effects[k].SetLoading?
  {
    [SetLoading(true), Send(batch)]
    + (if sendOk
       then [Invalidate(PoolCacheKey(pool.publicKey)), Navigate(PoolRoute(pool.publicKey)), Toast(DEPOSIT_TOAST)]
       else [])
    + [SetLoading(false)]
  }

  /** After a successful send the pool's cache entry is invalidated before the
      view navigates to the pool, and the toast comes last; a failed send is
      followed by nothing but lowering the flag. */
  lemma DepositFollowUp(batch: seq<Instruction>, pool: Pool, sendOk: bool)
    ensures var effects := DepositEffects(batch, pool, sendOk);
      sendOk ==>
        (effects[2] == Invalidate(PoolCacheKey(pool.publicKey))
         && effects[3] == Navigate(PoolRoute(pool.publicKey)) && effects[4] == Toast(DEPOSIT_TOAST))
    ensures var effects := DepositEffects(batch, pool, sendOk);
      !sendOk ==> forall e :: e in effects ==> !e.Invalidate? && !e.Navigate? && !e.Toast?
  {
    if !sendOk {
      assert DepositEffects(batch, pool, sendOk) == [SetLoading(true), Send(batch), SetLoading(false)];
    }
  }

  /** What follows a successful deposit send: the pool's cache entry is
      invalidated, the view navigates to the pool, and the toast is shown. */
  method AnnounceDeposit(world: World, pool: Pool)
    modifies world
    ensures world.log == old(world.log)
      + [Invalidate(PoolCacheKey(pool.publicKey)), Navigate(PoolRoute(pool.publicKey)), Toast(DEPOSIT_TOAST)]
  {
    world.Emit(Invalidate(PoolCacheKey(pool.publicKey)));
    world.Emit(Navigate(PoolRoute(pool.publicKey)));
    world.Emit(Toast(DEPOSIT_TOAST));
  }

  class PoolDepositView {
    var loading: bool

    constructor ()
      ensures !loading
    {
      loading := false;
    }

    /** `deposit`: raise the loading flag, build the deposit instruction, prefix
        the wrap instructions for the native mint, send; on success invalidate
        the pool's cache entry, navigate to the pool and toast. A failed send
        is rethrown (`ok == false`). The flag is lowered on both paths. */
    method Deposit(world: World, sdk: Sdk, pool: Pool, user: PublicKey, amount: int, wsolExists: bool, sendOk: bool)
      returns (ok: bool)
      modifies this, world
      ensures !loading && ok == sendOk
      ensures world.log == old(world.log)
        + DepositEffects(DepositBatch(sdk, pool, user, amount, wsolExists), pool, sendOk)
    {
      ghost var log0 := world.log;
      ghost var followUp: seq<Effect> := if sendOk
        then [Invalidate(PoolCacheKey(pool.publicKey)), Navigate(PoolRoute(pool.publicKey)), Toast(DEPOSIT_TOAST)]
        else [];
      loading := true;
      world.Emit(SetLoading(true));
      var instructions := DepositBatch(sdk, pool, user, amount, wsolExists);
      assert DepositEffects(instructions, pool, sendOk)
        == [SetLoading(true), Send(instructions)] + followUp + [SetLoading(false)];
      world.Emit(Send(instructions));
      if sendOk {
        AnnounceDeposit(world, pool);
      }
      assert world.log == log0 + [SetLoading(true), Send(instructions)] + followUp;
      loading := false;
      world.Emit(SetLoading(false));
      ok := sendOk;
    }
  }

  /** While the deposit runs the button is disabled; once it has finished the
      button depends on the amount alone. */
  method DepositLeavesButton(world: World, sdk: Sdk, pool: Pool, user: PublicKey, amount: int, wsolExists: bool, sendOk: bool)
    returns (disabled: bool)
    modifies world
    ensures disabled <==> amount == 0
  {
    var view := new PoolDepositView();
    var _ := view.Deposit(world, sdk, pool, user, amount, wsolExists, sendOk);
    disabled := DepositDisabled(view.loading, amount);
  }
}
