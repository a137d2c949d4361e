/** Shared vocabulary of the explorer's transaction flows: addresses, the opaque
    instructions built by the on-chain program's SDK, the SDK calls themselves
    (left uninterpreted) and the ordered log of side effects a view produces. */
module Common {

  datatype Option<+T> = None | Some(value: T)

  datatype Result<+T, +E> = Ok(value: T) | Err(error: E)

  /** A JavaScript exception raised while evaluating an expression. */
  datatype JsError = TypeError | RangeError

  /** A Solana address in its base58 text form. Base58 is a bijection on keys,
      so `PublicKey.equals` is string equality here. */
  type PublicKey = string

  /** The system program id, used as the authority of public pools. */
  const SYSTEM_PROGRAM: PublicKey := "11111111111111111111111111111111"

  /** Instructions are opaque values produced by the SDK; only the compute-budget
      directive is built by the explorer itself. */
  datatype Instruction =
    | SetComputeUnitLimit(units: nat)
    | Opaque(id: nat)

  /** The arguments the play hook hands to the provider's `play` builder. */
  datatype PlayArgs = PlayArgs(
    wager: int,
    bet: seq<int>,
    clientSeed: string,
    pool: PublicKey,
    token: PublicKey,
    creator: PublicKey,
    creatorFee: int,
    jackpotFee: int,
    metadata: string,
    useBonus: bool)

  /** The SDK functions the views call, as uninterpreted total functions. */
  datatype Sdk = Sdk(
    nativeMint: PublicKey,
    isNativeMint: PublicKey -> bool,
    poolAddress: (PublicKey, Option<PublicKey>) -> PublicKey,
    createPool: (PublicKey, PublicKey, nat) -> seq<Instruction>,
    depositToPool: (PublicKey, PublicKey, int) -> Instruction,
    mintBonusTokens: (PublicKey, PublicKey, int) -> Instruction,
    wrapSol: (PublicKey, int, bool) -> seq<Instruction>,
    play: PlayArgs -> Instruction)

  /** What a view does to the world outside its own state, in order. */
  datatype Effect =
    | SetLoading(on: bool)
    | Send(batch: seq<Instruction>)
    | Invalidate(key: string)
    | Navigate(route: string)
    | Toast(title: string)
    | LogError
    | Fetch(signatureLimit: nat)

  /** The outside world as the views see it: an append-only effect log. */
  class World {
    var log: seq<Effect>

    constructor ()
      ensures log == []
    {
      log := [];
    }

    method Emit(e: Effect)
      modifies this
      ensures log == old(log) + [e]
    {
      log := log + [e];
    }
  }

  /** Cache key of a pool record (`pool-<address>`). */
  function PoolCacheKey(pool: PublicKey): (k: string)
    ensures |k| == 5 + |pool| && k[..5] == "pool-" && k[5..] == pool
  {
    "pool-" + pool
  }

  /** Client-side route of a pool page (`/pool/<address>`). */
  function PoolRoute(pool: PublicKey): (r: string)
    ensures |r| == 6 + |pool| && r[..6] == "/pool/" && r[6..] == pool
  {
    "/pool/" + pool
  }
}
