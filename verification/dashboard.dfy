/** The dashboard's recent-plays table: relative-time labels, the filter that
    keeps only game results, and the load action with its one-shot initial
    trigger. */
module Dashboard {
  import opened Common
  import opened Text

  const MS_PER_MINUTE: nat := 60000
  const MS_PER_HOUR: nat := 3600000

  /** Flooring to seconds and then to minutes is flooring to minutes. */
  lemma MinutesOfMillis(x: int)
    ensures (x / 1000) / 60 == x / MS_PER_MINUTE
  {
    var q, r := x / 1000, x % 1000;
    var q2, r2 := q / 60, q % 60;
    assert x == 60000 * q2 + (1000 * r2 + r);
    assert 0 <= 1000 * r2 + r < 60000;
  }

  /** Flooring to minutes and then to hours is flooring to hours. */
  lemma HoursOfMillis(x: int)
    ensures (x / MS_PER_MINUTE) / 60 == x / MS_PER_HOUR
  {
    var q, r := x / 60000, x % 60000;
    var q2, r2 := q / 60, q % 60;
    assert x == 3600000 * q2 + (60000 * r2 + r);
    assert 0 <= 60000 * r2 + r < 3600000;
  }

  /** Which label `timeAgo` picks, with the count it prints. */
  datatype Age = Hours(h: nat) | Minutes(m: nat) | JustNow

  /** The decision of `timeAgo` on `diff = now - time` milliseconds: seconds,
      minutes and hours by successive flooring divisions, hours first. */
  function Bucket(diff: int): (a: Age)
    ensures a.Hours? <==> diff >= MS_PER_HOUR
    ensures a.Hours? ==> a.h == diff / MS_PER_HOUR
    ensures a.Minutes? <==> MS_PER_MINUTE <= diff < MS_PER_HOUR
    ensures a.Minutes? ==> a.m == diff / MS_PER_MINUTE && 1 <= a.m < 60
    ensures a.JustNow? <==> diff < MS_PER_MINUTE
  {
    var seconds := diff / 1000;
    var minutes := seconds / 60;
    var hours := minutes / 60;
    MinutesOfMillis(diff);
    HoursOfMillis(diff);
    if hours >= 1 then Hours(hours) else if minutes >= 1 then Minutes(minutes) else JustNow
  }

  /** The label of a bucket: the count followed by "h ago" or "m ago", or
      "Just now". */
  function Render(a: Age): (s: string)
    ensures a.JustNow? <==> s == "Just now"
    ensures a.Hours? ==> |s| > 5 && s[..|s| - 5] == NatToString(a.h) && s[|s| - 5..] == "h ago"
    ensures a.Minutes? ==> |s| > 5 && s[..|s| - 5] == NatToString(a.m) && s[|s| - 5..] == "m ago"
  {
    match a
    case Hours(h) =>
      var s := NatToString(h) + "h ago";
      assert s[..|s| - 5] == NatToString(h) && s[|s| - 1] != "Just now"[7];
      s
    case Minutes(m) =>
      var s := NatToString(m) + "m ago";
      assert s[..|s| - 5] == NatToString(m) && s[|s| - 1] != "Just now"[7];
      s
    case JustNow => "Just now"
  }

  /** `timeAgo`, on the difference between now and the event's time. */
  function TimeAgo(diff: int): (s: string)
    ensures diff >= MS_PER_HOUR ==> s == NatToString(diff / MS_PER_HOUR) + "h ago"
    ensures MS_PER_MINUTE <= diff < MS_PER_HOUR ==> s == NatToString(diff / MS_PER_MINUTE) + "m ago"
    ensures diff < MS_PER_MINUTE <==> s == "Just now"
  {
    var a := Bucket(diff);
    assert a.Hours? ==> (Render(a))[|Render(a)| - 5..] == "h ago";
    assert a.Minutes? ==> (Render(a))[|Render(a)| - 5..] == "m ago";
    Render(a)
  }

  /** Reads a label back: the inverse of `Render`. */
  function ParseAge(s: string): Option<Age> {
    if s == "Just now" then Some(JustNow)
    else if |s| > 5 && IsDigits(s[..|s| - 5]) && s[|s| - 5..] == "h ago" then Some(Hours(ParseDigits(s[..|s| - 5])))
    else if |s| > 5 && IsDigits(s[..|s| - 5]) && s[|s| - 5..] == "m ago" then Some(Minutes(ParseDigits(s[..|s| - 5])))
    else None
  }

  /** The label determines the bucket and the count: distinct buckets are
      never rendered the same way. */
  lemma TimeAgoRoundTrip(diff: int)
    ensures ParseAge(TimeAgo(diff)) == Some(Bucket(diff))
  {
    var a := Bucket(diff);
    var s := Render(a);
    match a
    case Hours(h) =>
      assert s[..|s| - 5] == NatToString(h);
      ParseNatToString(h);
    case Minutes(m) =>
      assert s[..|s| - 5] == NatToString(m);
      ParseNatToString(m);
    case JustNow =>
  }

  // ---------------------------------------------------------------------------
  // Fetched transactions and the results filter

  datatype GameResult = GameResult(wager: int, payout: int, profit: int)
  datatype Event = Event(gameResult: Option<GameResult>)
  datatype Transaction = Transaction(signature: string, time: int, event: Event)

  /** `results`: the fetched transactions that carry a game result, in order. */
  function Results(txs: seq<Transaction>): (r: seq<Transaction>)
    ensures |r| <= |txs|
    ensures forall t :: t in r <==> t in txs && t.event.gameResult.Some?
  {
    if |txs| == 0 then []
    else (if txs[0].event.gameResult.Some? then [txs[0]] else []) + Results(txs[1..])
  }

  /** Filtering keeps the original order: it commutes with concatenation, so
      loading another page only appends to the results. */
  lemma {:induction false} ResultsAppend(a: seq<Transaction>, b: seq<Transaction>)
    ensures Results(a + b) == Results(a) + Results(b)
    decreases |a|
  {
    if |a| == 0 {
      assert a + b == b;
    } else {
      assert (a + b)[0] == a[0] && (a + b)[1..] == a[1..] + b;
      ResultsAppend(a[1..], b);
    }
  }

  /** Results of an accumulated list are a prefix of the results after more
      pages are appended. */
  lemma ResultsGrow(a: seq<Transaction>, page: seq<Transaction>)
    ensures Results(a) <= Results(a + page)
  {
    ResultsAppend(a, page);
  }

  // ---------------------------------------------------------------------------
  // The recent-plays component

  /** Signatures requested per load. */
  const SIGNATURE_LIMIT: nat := 40

  class RecentPlays {
    var loading: bool
    var initialFetch: bool
    var transactions: seq<Transaction>
    /** How many loads the mount effect has started. */
    ghost var initialLoads: nat

    ghost predicate Valid()
      reads this
    {
      initialLoads == (if initialFetch then 1 else 0)
    }

    constructor ()
      ensures Valid() && !loading && !initialFetch && transactions == []
    {
      loading := false;
      initialFetch := false;
      transactions := [];
      initialLoads := 0;
    }

    /** `load`: loading is on while the fetch runs and off afterwards whether
        the fetch succeeds or throws (`page` is None when it throws, and the
        error propagates as `ok == false`). A fetched page is appended. */
    method Load(world: World, page: Option<seq<Transaction>>) returns (ok: bool)
      modifies this, world
      ensures !loading && ok == page.Some?
      ensures world.log == old(world.log) + [SetLoading(true), Fetch(SIGNATURE_LIMIT), SetLoading(false)]
      ensures transactions == old(transactions) + (if page.Some? then page.value else [])
      ensures initialFetch == old(initialFetch) && initialLoads == old(initialLoads)
    {
      loading := true;
      world.Emit(SetLoading(true));
      world.Emit(Fetch(SIGNATURE_LIMIT));
      if page.Some? {
        transactions := transactions + page.value;
      }
      loading := false;
      world.Emit(SetLoading(false));
      ok := page.Some?;
    }

    /** The mount effect: it starts a load only the first time it runs. */
    method MountEffect(world: World, page: Option<seq<Transaction>>)
      requires Valid()
      modifies this, world
      ensures Valid() && initialFetch && initialLoads == 1
      ensures old(initialFetch) ==>
        world.log == old(world.log) && transactions == old(transactions) && loading == old(loading)
      ensures !old(initialFetch) ==>
        world.log == old(world.log) + [SetLoading(true), Fetch(SIGNATURE_LIMIT), SetLoading(false)]
      ensures !old(initialFetch) ==>
        !loading && transactions == old(transactions) + (if page.Some? then page.value else [])
    {
      if initialFetch {
        return;
      }
      initialFetch := true;
      initialLoads := initialLoads + 1;
      var _ := Load(world, page);
    }
  }

  /** However often the effect runs, it starts at most one load. */
  method EffectRunsTwice(world: World, page1: Option<seq<Transaction>>, page2: Option<seq<Transaction>>)
    returns (view: RecentPlays)
    modifies world
    ensures view.initialLoads == 1 && !view.loading
    ensures view.transactions == (if page1.Some? then page1.value else [])
    ensures world.log == old(world.log) + [SetLoading(true), Fetch(SIGNATURE_LIMIT), SetLoading(false)]
  {
    view := new RecentPlays();
    view.MountEffect(world, page1);
    view.MountEffect(world, page2);
  }
}
