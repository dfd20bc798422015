/** Shared vocabulary of the Pain/Gain strategy: bars, directions, colours and
    small sequence helpers that mirror the pandas operations the strategy uses. */
module Market {

  datatype Option<T> = None | Some(value: T)

  /** One OHLC bar; `time` is in minutes for the replay engines and in seconds
      for the live engine (each module says which). */
  datatype Bar = Bar(time: int, open: real, high: real, low: real, close: real)

  /** The trade side of an order or a signal ('BUY' / 'SELL'). */
  datatype Action = Buy | Sell

  /** The direction of the dominant D1 wick ('UP' / 'DOWN' / 'NONE'). */
  datatype Direction = Up | Down | NoDirection

  /** The two bots: PainBot sells, GainBot buys. */
  datatype BotType = Pain | Gain

  /** Colour label of an EMA indicator. */
  datatype Color = Green | Red

  datatype Timeframe = D1 | H4 | H1 | M30 | M15 | M5 | M1

  /** The side a bot trades. */
  function BotAction(bot: BotType): Action {
    if bot == Pain then Sell else Buy
  }

  /** The colour that confirms a trade side: GREEN for BUY, RED for SELL. */
  function ConfirmingColor(a: Action): Color {
    if a == Buy then Green else Red
  }

  /** Daily bias from a wick direction: UP gives BUY, DOWN gives SELL. */
  function BiasOf(d: Direction): Option<Action> {
    match d
    case Up => Some(Buy)
    case Down => Some(Sell)
    case NoDirection => None
  }

  /** The wick direction a bias stands for ('BUY' -> 'UP', 'SELL' -> 'DOWN'). */
  function DirectionOf(a: Action): Direction {
    if a == Buy then Up else Down
  }

  function Abs(x: real): real {
    if x < 0.0 then -x else x
  }

  function Max(x: real, y: real): real {
    if x < y then y else x
  }

  function Min(x: real, y: real): real {
    if x < y then x else y
  }

  function Last<T>(s: seq<T>): T
    requires |s| > 0
  {
    s[|s| - 1]
  }

  lemma ConcatAssoc<T>(a: seq<T>, b: seq<T>, c: seq<T>)
    ensures a + b + c == a + (b + c)
  {
  }

  /** pandas `tail(n)`: the last n elements, or all of them when fewer. */
  function Tail<T>(s: seq<T>, n: nat): (r: seq<T>)
    ensures |r| == if |s| < n then |s| else n
    ensures r == s[|s| - |r|..]
  {
    if |s| <= n then s else s[|s| - n..]
  }

  /** pandas `head(n)`: the first n elements, or all of them when fewer. */
  function Head<T>(s: seq<T>, n: nat): (r: seq<T>)
    ensures |r| == if |s| < n then |s| else n
    ensures r == s[..|r|]
  {
    if |s| <= n then s else s[..n]
  }

  function Closes(bars: seq<Bar>): (r: seq<real>)
    ensures |r| == |bars|
    ensures forall i :: 0 <= i < |bars| ==> r[i] == bars[i].close
  {
    seq(|bars|, i requires 0 <= i < |bars| => bars[i].close)
  }

  /** A bar series as the broker delivers it: strictly increasing times. */
  ghost predicate Increasing(bars: seq<Bar>) {
    forall i, j :: 0 <= i < j < |bars| ==> bars[i].time < bars[j].time
  }

  function Sum(xs: seq<real>): real {
    if xs == [] then 0.0 else Sum(xs[..|xs| - 1]) + xs[|xs| - 1]
  }

  lemma SumAppend(xs: seq<real>, x: real)
    ensures Sum(xs + [x]) == Sum(xs) + x
  {
    assert (xs + [x])[..|xs|] == xs;
  }
}
