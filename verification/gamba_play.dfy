/** The play hook: normalising a play request, refusing it when no wallet is
    connected, and the flags the hook derives from the game account. */
module GambaPlay {
  import opened Common
  import opened Text

  /** An element of the request's metadata list: a string or a number. */
  datatype MetaItem = Str(s: string) | Num(n: int)

  /** A play request; optional fields are None when left out. */
  datatype PlayInput = PlayInput(
    wager: int,
    bet: seq<int>,
    creator: PublicKey,
    creatorFee: Option<int>,
    jackpotFee: Option<int>,
    clientSeed: Option<string>,
    token: Option<PublicKey>,
    metadata: Option<seq<MetaItem>>,
    useBonus: Option<bool>)

  datatype PlayError = NotConnected

  /** `x ?? d`. */
  function OrDefault<T>(x: Option<T>, d: T): T {
    if x.Some? then x.value else d
  }

  function MetaText(m: MetaItem): string {
    match m
    case Str(s) => s
    case Num(n) => IntToString(n)
  }

  /** `metadata?.join(':') ?? ''`. */
  function Metadata(items: Option<seq<MetaItem>>): (s: string)
    ensures items.None? ==> s == ""
    ensures items.Some? && |items.value| == 1 ==> s == MetaText(items.value[0])
  {
    if items.None? then ""
    else Join(seq(|items.value|, i requires 0 <= i < |items.value| => MetaText(items.value[i])))
  }

  /** The joined metadata splits back into its elements as long as there is at
      least one element and no string element holds a ':'. */
  lemma MetadataSplits(items: seq<MetaItem>)
    requires |items| > 0
    requires forall i :: 0 <= i < |items| && items[i].Str? ==> NoSep(items[i].s)
    ensures |Split(Metadata(Some(items)))| == |items|
    ensures forall i :: 0 <= i < |items| ==> Split(Metadata(Some(items)))[i] == MetaText(items[i])
  {
    var texts := seq(|items|, i requires 0 <= i < |items| => MetaText(items[i]));
    forall i | 0 <= i < |texts|
      ensures NoSep(texts[i])
    {
      if items[i].Num? {
        IntToStringNoSep(items[i].n);
      }
    }
    SplitJoin(texts);
  }

  /** The request as handed to the provider: defaults filled in and the pool
      derived from the normalised token. */
  function Normalize(sdk: Sdk, input: PlayInput): (a: PlayArgs)
    ensures a.token == OrDefault(input.token, sdk.nativeMint)
    ensures a.pool == sdk.poolAddress(a.token, None)
    ensures a.wager == input.wager && a.bet == input.bet && a.creator == input.creator
    ensures a.metadata == Metadata(input.metadata)
  {
    var token := OrDefault(input.token, sdk.nativeMint);
    PlayArgs(
      input.wager,
      input.bet,
      OrDefault(input.clientSeed, ""),
      sdk.poolAddress(token, None),
      token,
      input.creator,
      OrDefault(input.creatorFee, 0),
      OrDefault(input.jackpotFee, 0),
      Metadata(input.metadata),
      OrDefault(input.useBonus, false))
  }

  /** A request that leaves every optional field out plays on the native
      mint's pool with no fees, an empty client seed, empty metadata and no
      bonus; a field that is given is used as it is. */
  lemma NormalizeDefaults(sdk: Sdk, input: PlayInput)
    ensures input.creatorFee.None? ==> Normalize(sdk, input).creatorFee == 0
    ensures input.jackpotFee.None? ==> Normalize(sdk, input).jackpotFee == 0
    ensures input.clientSeed.None? ==> Normalize(sdk, input).clientSeed == ""
    ensures input.useBonus.None? ==> !Normalize(sdk, input).useBonus
    ensures input.metadata.None? ==> Normalize(sdk, input).metadata == ""
    ensures input.token.None? ==> Normalize(sdk, input).pool == sdk.poolAddress(sdk.nativeMint, None)
    ensures input.creatorFee.Some? ==> Normalize(sdk, input).creatorFee == input.creatorFee.value
    ensures input.jackpotFee.Some? ==> Normalize(sdk, input).jackpotFee == input.jackpotFee.value
    ensures input.clientSeed.Some? ==> Normalize(sdk, input).clientSeed == input.clientSeed.value
    ensures input.useBonus.Some? ==> Normalize(sdk, input).useBonus == input.useBonus.value
  {
  }

  /** The metadata handed to the provider splits back at ':' into the texts of
      the given elements, as long as none of the strings holds a ':'. */
  lemma NormalizeMetadata(sdk: Sdk, input: PlayInput)
    requires input.metadata.Some? && |input.metadata.value| > 0
    requires forall i :: 0 <= i < |input.metadata.value| && input.metadata.value[i].Str? ==>
      NoSep(input.metadata.value[i].s)
    ensures |Split(Normalize(sdk, input).metadata)| == |input.metadata.value|
    ensures forall i :: 0 <= i < |input.metadata.value| ==>
      Split(Normalize(sdk, input).metadata)[i] == MetaText(input.metadata.value[i])
  {
    MetadataSplits(input.metadata.value);
  }

  /** `play` refuses with NOT_CONNECTED when no wallet is connected. */
  function PlayRequest(sdk: Sdk, input: PlayInput, connected: bool): (r: Result<PlayArgs, PlayError>)
    ensures r.Err? <==> !connected
    ensures r.Err? ==> r.error == NotConnected
    ensures r.Ok? ==> r.value == Normalize(sdk, input)
  {
    if !connected then Err(NotConnected) else Ok(Normalize(sdk, input))
  }

  /** `play`: the guard runs before anything is sent; a connected request sends
      the provider's play instruction. */
  method Play(world: World, sdk: Sdk, input: PlayInput, connected: bool) returns (r: Result<PlayArgs, PlayError>)
    modifies world
    ensures r == PlayRequest(sdk, input, connected)
    ensures !connected ==> world.log == old(world.log)
    ensures connected ==> world.log == old(world.log) + [Send([sdk.play(r.value)])]
  {
    var creator := input.creator;
    var creatorFee := OrDefault(input.creatorFee, 0);
    var jackpotFee := OrDefault(input.jackpotFee, 0);
    var meta := Metadata(input.metadata);
    var token := OrDefault(input.token, sdk.nativeMint);
    if !connected {
      return Err(NotConnected);
    }
    var pool := sdk.poolAddress(token, None);
    var args := PlayArgs(input.wager, input.bet, OrDefault(input.clientSeed, ""), pool, token,
      creator, creatorFee, jackpotFee, meta, OrDefault(input.useBonus, false));
    world.Emit(Send([sdk.play(args)]));
    r := Ok(args);
  }

  // ---------------------------------------------------------------------------
  // Flags derived from the game account

  /** The shared submission state. */
  datatype TxState = Idle | Sending | Sent | Error

  datatype GameStatus = GameStatus(resultRequested: bool)

  /** The decoded game account of the user. */
  datatype Game = Game(nonce: Option<nat>, status: GameStatus)

  /** `isPlaying`: a transaction is being sent or a result has been requested. */
  function IsPlaying(state: TxState, game: Option<Game>): (p: bool)
    ensures p <==> state == Sending || (game.Some? && game.value.status.resultRequested)
  {
    state.Sending? || (game.Some? && game.value.status.resultRequested)
  }

  /** `userCreated`: the user's game account exists. A user who has none has
      no nonce beyond the default and plays only while a send is pending. */
  function UserCreated(game: Option<Game>): (u: bool)
    ensures u <==> game != None
    ensures !u ==> PrevNonce(game) == 0 && forall state :: IsPlaying(state, game) <==> state == Sending
  {
    game.Some?
  }

  /** The previous nonce used to predict the next result: 0 without a game
      account or a nonce. */
  function PrevNonce(game: Option<Game>): (n: nat)
    ensures game.None? ==> n == 0
    ensures game.Some? && game.value.nonce.Some? ==> n == game.value.nonce.value
    ensures game.Some? && game.value.nonce.None? ==> n == 0
  {
    if game.Some? then OrDefault(game.value.nonce, 0) else 0
  }

  /** Without a game account nothing but a pending send counts as playing,
      the user counts as not created and the nonce starts at 0. */
  lemma NoGameAccount(state: TxState)
    ensures IsPlaying(state, None) <==> state == Sending
    ensures !UserCreated(None) && PrevNonce(None) == 0
  {
  }
}
