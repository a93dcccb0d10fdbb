/**
 * The live rate board (src/components/LiveExchangeRates.js): which pairs
 * are major, the CSS class of each tile, the order of the tiles, and the
 * view state that the stream manager's callbacks update.
 *
 * A rate map is the entry list of a decoded JSON object (`Object.entries`),
 * so its keys are distinct. The order `localeCompare` gives within a
 * group is a parameter, assumed to be a strict order that never ties on
 * distinct names; code-point order is one such collation.
 */
module RateBoard {
  import opened Common
  import ExchangeRates

  type Entries<R> = seq<(string, R)>

  const GoldPair: string := "GRAM ALTIN"
  const MajorPairs: seq<string> := ["USD/TRY", "EUR/TRY", "GBP/TRY", "USD/EUR", "EUR/USD", "GRAM ALTIN"]

  /** `isMajorPair`. */
  function IsMajorPair(pair: string): (r: bool)
    ensures r <==> (pair == "USD/TRY" || pair == "EUR/TRY" || pair == "GBP/TRY"
                    || pair == "USD/EUR" || pair == "EUR/USD" || pair == GoldPair)
  {
    pair in MajorPairs
  }

  /** `getItemClassName`. */
  function ItemClassName(pair: string): (c: string)
    ensures c == "goldRateItem" <==> pair == GoldPair
    ensures c == "majorRateItem" <==> IsMajorPair(pair) && pair != GoldPair
    ensures c == "rateItem" <==> !IsMajorPair(pair)
  {
    if pair == GoldPair then "goldRateItem"
    else if IsMajorPair(pair) then "majorRateItem"
    else "rateItem"
  }

  /**
   * The order `localeCompare` puts two pair names in: `less(a, b)` when
   * `a.localeCompare(b) < 0`. The browser's collation is left abstract.
   */
  type Collation = (string, string) -> bool

  /** A collation that is a strict order and never ties on distinct names. */
  ghost predicate StrictTotal(less: Collation) {
    && (forall a :: !less(a, a))
    && (forall a, b, c :: less(a, b) && less(b, c) ==> less(a, c))
    && (forall a, b :: a != b ==> less(a, b) || less(b, a))
  }

  /** Lexicographic order on code points: one collation that meets `StrictTotal`. */
  predicate StrLess(a: string, b: string)
    decreases |a|
  {
    if |a| == 0 then |b| > 0
    else if |b| == 0 then false
    else if a[0] != b[0] then a[0] < b[0]
    else StrLess(a[1..], b[1..])
  }

  lemma {:induction false} StrLessIrreflexive(a: string)
    ensures !StrLess(a, a)
    decreases |a|
  {
    if |a| > 0 {
      StrLessIrreflexive(a[1..]);
    }
  }

  lemma {:induction false} StrLessTransitive(a: string, b: string, c: string)
    requires StrLess(a, b) && StrLess(b, c)
    ensures StrLess(a, c)
    decreases |a|
  {
    if |a| > 0 && |b| > 0 && |c| > 0 && a[0] == b[0] && b[0] == c[0] {
      StrLessTransitive(a[1..], b[1..], c[1..]);
    }
  }

  lemma {:induction false} StrLessTotal(a: string, b: string)
    requires a != b
    ensures StrLess(a, b) || StrLess(b, a)
    decreases |a|
  {
    if |a| > 0 && |b| > 0 && a[0] == b[0] {
      assert a == [a[0]] + a[1..] && b == [b[0]] + b[1..];
      StrLessTotal(a[1..], b[1..]);
    }
  }

  /** Code-point order is a collation the board lemmas accept. */
  lemma StrLessIsStrictTotal()
    ensures StrictTotal(StrLess)
  {
    forall a {
      StrLessIrreflexive(a);
    }
    forall a, b, c | StrLess(a, b) && StrLess(b, c) {
      StrLessTransitive(a, b, c);
    }
    forall a, b | a != b {
      StrLessTotal(a, b);
    }
  }

  /** `a.localeCompare(b)` under the collation `less`: zero only on equal strings. */
  function LocaleCompare(less: Collation, a: string, b: string): int {
    if a == b then 0 else if less(a, b) then -1 else 1
  }

  /** The comparator passed to `sort`: gold first, then majors, then the rest, each group by `localeCompare`. */
  function Compare(less: Collation, a: string, b: string): int {
    if a == GoldPair then -1
    else if b == GoldPair then 1
    else if IsMajorPair(a) && !IsMajorPair(b) then -1
    else if !IsMajorPair(a) && IsMajorPair(b) then 1
    else LocaleCompare(less, a, b)
  }

  /** The group a pair's tile is drawn in: 0 gold, 1 other major pairs, 2 the rest. */
  function Rank(pair: string): (r: nat)
    ensures r <= 2
    ensures r == 0 <==> pair == GoldPair
    ensures r <= 1 <==> IsMajorPair(pair)
  {
    if pair == GoldPair then 0 else if IsMajorPair(pair) then 1 else 2
  }

  /** The board order stated without the comparator: by group, then by the collation. */
  predicate KeyLess(less: Collation, a: string, b: string) {
    Rank(a) < Rank(b) || (Rank(a) == Rank(b) && less(a, b))
  }

  lemma KeyLessIrreflexive(less: Collation, a: string)
    requires StrictTotal(less)
    ensures !KeyLess(less, a, a)
  {
  }

  lemma KeyLessTransitive(less: Collation, a: string, b: string, c: string)
    requires StrictTotal(less)
    requires KeyLess(less, a, b) && KeyLess(less, b, c)
    ensures KeyLess(less, a, c)
  {
  }

  lemma KeyLessTotal(less: Collation, a: string, b: string)
    requires StrictTotal(less)
    requires a != b
    ensures KeyLess(less, a, b) || KeyLess(less, b, a)
  {
  }

  /** On distinct pairs the comparator never ties, and "a before b" is exactly `KeyLess(a, b)`. */
  lemma CompareMatchesRank(less: Collation, a: string, b: string)
    requires StrictTotal(less)
    requires a != b
    ensures Compare(less, a, b) != 0
    ensures Compare(less, a, b) < 0 <==> KeyLess(less, a, b)
    ensures Compare(less, a, b) < 0 <==> Compare(less, b, a) > 0
  {
  }

  predicate DistinctKeys<R>(s: Entries<R>) {
    forall i, j :: 0 <= i < j < |s| ==> s[i].0 != s[j].0
  }

  /** Every tile precedes every later tile in the board order. */
  predicate Ordered<R>(less: Collation, s: Entries<R>) {
    forall i, j :: 0 <= i < j < |s| ==> KeyLess(less, s[i].0, s[j].0)
  }

  /** Insert one entry into a board sorted with `Compare`. */
  function Insert<R>(less: Collation, e: (string, R), sorted: Entries<R>): Entries<R> {
    if sorted == [] then [e]
    else if Compare(less, e.0, sorted[0].0) < 0 then [e] + sorted
    else [sorted[0]] + Insert(less, e, sorted[1..])
  }

  /**
   * `Object.entries(rates).sort(comparator)` under the collation `less`.
   * Any sorting algorithm gives this result for entries with distinct
   * keys (see `SortBoardUnique`).
   */
  function SortBoard<R>(less: Collation, entries: Entries<R>): Entries<R> {
    if entries == [] then [] else Insert(less, entries[0], SortBoard(less, entries[1..]))
  }

  lemma PrependOrdered<R>(less: Collation, e: (string, R), s: Entries<R>)
    requires Ordered(less, s)
    requires forall k :: 0 <= k < |s| ==> KeyLess(less, e.0, s[k].0)
    ensures Ordered(less, [e] + s)
  {
    var r := [e] + s;
    forall i, j | 0 <= i < j < |r|
      ensures KeyLess(less, r[i].0, r[j].0)
    {
      assert r[j] == s[j - 1];
      if i > 0 {
        assert r[i] == s[i - 1];
      }
    }
  }

  lemma TailOrdered<R>(less: Collation, s: Entries<R>)
    requires Ordered(less, s) && s != []
    ensures Ordered(less, s[1..])
  {
    var tail := s[1..];
    forall i, j | 0 <= i < j < |tail|
      ensures KeyLess(less, tail[i].0, tail[j].0)
    {
      assert tail[i] == s[i + 1] && tail[j] == s[j + 1];
    }
  }

  lemma {:induction false} InsertMultiset<R>(less: Collation, e: (string, R), s: Entries<R>)
    ensures multiset(Insert(less, e, s)) == multiset(s) + multiset{e}
    decreases |s|
  {
    if s != [] {
      assert s == [s[0]] + s[1..];
      if Compare(less, e.0, s[0].0) >= 0 {
        InsertMultiset(less, e, s[1..]);
      }
    }
  }

  lemma {:induction false} InsertOrdered<R>(less: Collation, e: (string, R), s: Entries<R>)
    requires StrictTotal(less)
    requires Ordered(less, s)
    requires forall k :: 0 <= k < |s| ==> s[k].0 != e.0
    ensures Ordered(less, Insert(less, e, s))
    decreases |s|
  {
    if s == [] {
    } else if Compare(less, e.0, s[0].0) < 0 {
      CompareMatchesRank(less, e.0, s[0].0);
      forall k | 0 <= k < |s|
        ensures KeyLess(less, e.0, s[k].0)
      {
        if k > 0 {
          KeyLessTransitive(less, e.0, s[0].0, s[k].0);
        }
      }
      PrependOrdered(less, e, s);
    } else {
      CompareMatchesRank(less, e.0, s[0].0);
      KeyLessTotal(less, e.0, s[0].0);
      var tail := s[1..];
      TailOrdered(less, s);
      InsertOrdered(less, e, tail);
      InsertMultiset(less, e, tail);
      var t := Insert(less, e, tail);
      forall k | 0 <= k < |t|
        ensures KeyLess(less, s[0].0, t[k].0)
      {
        assert t[k] in multiset(t);
        if t[k] != e {
          assert t[k] in multiset(tail);
          var m :| 0 <= m < |tail| && tail[m] == t[k];
          assert s[m + 1] == t[k];
        }
      }
      PrependOrdered(less, s[0], t);
    }
  }

  /** The sorted board is a permutation of the entries, in board order. */
  lemma {:induction false} SortBoardCorrect<R>(less: Collation, entries: Entries<R>)
    requires StrictTotal(less)
    requires DistinctKeys(entries)
    ensures multiset(SortBoard(less, entries)) == multiset(entries)
    ensures Ordered(less, SortBoard(less, entries))
    decreases |entries|
  {
    if entries != [] {
      var tail := entries[1..];
      assert DistinctKeys(tail) by {
        forall i, j | 0 <= i < j < |tail|
          ensures tail[i].0 != tail[j].0
        {
          assert tail[i] == entries[i + 1] && tail[j] == entries[j + 1];
        }
      }
      SortBoardCorrect(less, tail);
      var sorted := SortBoard(less, tail);
      forall k | 0 <= k < |sorted|
        ensures sorted[k].0 != entries[0].0
      {
        assert sorted[k] in multiset(tail);
        var m :| 0 <= m < |tail| && tail[m] == sorted[k];
        assert entries[m + 1] == sorted[k];
      }
      InsertMultiset(less, entries[0], sorted);
      InsertOrdered(less, entries[0], sorted);
      assert entries == [entries[0]] + tail;
    }
  }

  /**
   * What a reader of the board sees: the gold tile comes first, every
   * major pair comes before every other pair, and pairs of the same group
   * are in collation order; no pair is added or dropped.
   */
  lemma BoardLayout<R>(less: Collation, entries: Entries<R>)
    requires StrictTotal(less)
    requires DistinctKeys(entries)
    ensures multiset(SortBoard(less, entries)) == multiset(entries)
    ensures forall k :: 0 <= k < |SortBoard(less, entries)| && SortBoard(less, entries)[k].0 == GoldPair ==> k == 0
    ensures forall i, j :: 0 <= i < j < |SortBoard(less, entries)| && IsMajorPair(SortBoard(less, entries)[j].0) ==>
              IsMajorPair(SortBoard(less, entries)[i].0)
    ensures forall i, j ::
              (0 <= i < j < |SortBoard(less, entries)|
               && Rank(SortBoard(less, entries)[i].0) == Rank(SortBoard(less, entries)[j].0)) ==>
              less(SortBoard(less, entries)[i].0, SortBoard(less, entries)[j].0)
  {
    SortBoardCorrect(less, entries);
    var s := SortBoard(less, entries);
    forall k | 0 < k < |s|
      ensures s[k].0 != GoldPair
    {
      assert KeyLess(less, s[0].0, s[k].0);
    }
  }

  /** Each comparison `sort` makes between two tiles of the result returns "first before second". */
  lemma SortBoardAgreesWithComparator<R>(less: Collation, entries: Entries<R>)
    requires StrictTotal(less)
    requires DistinctKeys(entries)
    ensures forall i, j :: 0 <= i < j < |SortBoard(less, entries)| ==>
              Compare(less, SortBoard(less, entries)[i].0, SortBoard(less, entries)[j].0) < 0
  {
    SortBoardCorrect(less, entries);
    var s := SortBoard(less, entries);
    forall i, j | 0 <= i < j < |s|
      ensures Compare(less, s[i].0, s[j].0) < 0
    {
      KeyLessIrreflexive(less, s[i].0);
      CompareMatchesRank(less, s[i].0, s[j].0);
    }
  }

  /** The first entry of an ordered sequence is its least element, so two ordered permutations start alike. */
  lemma OrderedHeads<R>(less: Collation, s: Entries<R>, t: Entries<R>)
    requires StrictTotal(less)
    requires Ordered(less, s) && Ordered(less, t) && multiset(s) == multiset(t) && s != []
    ensures t != [] && s[0] == t[0]
  {
    assert s[0] in multiset(t);
    assert t[0] in multiset(s);
    if s[0] != t[0] {
      var p :| 0 <= p < |t| && t[p] == s[0];
      var q :| 0 <= q < |s| && s[q] == t[0];
      assert KeyLess(less, t[0].0, s[0].0) && KeyLess(less, s[0].0, t[0].0);
      KeyLessTransitive(less, s[0].0, t[0].0, s[0].0);
      KeyLessIrreflexive(less, s[0].0);
    }
  }

  lemma TailMultiset<R>(s: Entries<R>)
    requires s != []
    ensures multiset(s[1..]) == multiset(s) - multiset{s[0]}
  {
    assert s == [s[0]] + s[1..];
  }

  /** Two ordered permutations of the same entries are equal. */
  lemma {:induction false} OrderedUnique<R>(less: Collation, s: Entries<R>, t: Entries<R>)
    requires StrictTotal(less)
    requires Ordered(less, s) && Ordered(less, t) && multiset(s) == multiset(t)
    ensures s == t
    decreases |s|
  {
    if s != [] {
      OrderedHeads(less, s, t);
      TailMultiset(s);
      TailMultiset(t);
      TailOrdered(less, s);
      TailOrdered(less, t);
      OrderedUnique(less, s[1..], t[1..]);
      assert s == [s[0]] + s[1..] && t == [t[0]] + t[1..];
    }
  }

  /**
   * Whatever algorithm the JavaScript engine's `sort` runs, a result that
   * is a permutation of the entries (keys still distinct) on which the
   * comparator says "first before second" for every pair is `SortBoard`.
   */
  lemma SortBoardUnique<R>(less: Collation, entries: Entries<R>, t: Entries<R>)
    requires StrictTotal(less)
    requires DistinctKeys(entries) && DistinctKeys(t)
    requires multiset(t) == multiset(entries)
    requires forall i, j :: 0 <= i < j < |t| ==> Compare(less, t[i].0, t[j].0) < 0
    ensures t == SortBoard(less, entries)
  {
    SortBoardCorrect(less, entries);
    forall i, j | 0 <= i < j < |t|
      ensures KeyLess(less, t[i].0, t[j].0)
    {
      CompareMatchesRank(less, t[i].0, t[j].0);
    }
    OrderedUnique(less, t, SortBoard(less, entries));
  }

  /** One tile of the board: the pair, its CSS class and its rate. */
  datatype Tile<R> = Tile(pair: string, className: string, rate: R)

  /** The tiles of the board, in display order: `.map(([pair, rate]) => <div className=...>)`. */
  function Tiles<R>(less: Collation, entries: Entries<R>): seq<Tile<R>> {
    var sorted := SortBoard(less, entries);
    seq(|sorted|, k requires 0 <= k < |sorted| => Tile(sorted[k].0, ItemClassName(sorted[k].0), sorted[k].1))
  }

  /** Tile k shows the k-th sorted entry, with the class of its pair. */
  lemma TileAt<R>(less: Collation, entries: Entries<R>, k: nat)
    requires k < |SortBoard(less, entries)|
    ensures |Tiles(less, entries)| == |SortBoard(less, entries)|
    ensures Tiles(less, entries)[k]
            == Tile(SortBoard(less, entries)[k].0, ItemClassName(SortBoard(less, entries)[k].0), SortBoard(less, entries)[k].1)
  {
  }

  /** The board shows one tile per entry of the rate map, with that entry's rate, and nothing else. */
  lemma TilesShowEntries<R>(less: Collation, entries: Entries<R>)
    requires StrictTotal(less)
    requires DistinctKeys(entries)
    ensures |Tiles(less, entries)| == |entries|
    ensures forall k :: 0 <= k < |Tiles(less, entries)| ==>
              (Tiles(less, entries)[k].pair, Tiles(less, entries)[k].rate) in entries
    ensures forall e :: e in entries ==>
              exists k :: 0 <= k < |Tiles(less, entries)| && Tiles(less, entries)[k].pair == e.0
                                                         && Tiles(less, entries)[k].rate == e.1
  {
    SortBoardCorrect(less, entries);
    SortLength(less, entries);
    var s := SortBoard(less, entries);
    var tiles := Tiles(less, entries);
    forall k | 0 <= k < |tiles|
      ensures (tiles[k].pair, tiles[k].rate) in entries
    {
      TileAt(less, entries, k);
      assert s[k] in multiset(s);
    }
    forall e | e in entries
      ensures exists k :: 0 <= k < |tiles| && tiles[k].pair == e.0 && tiles[k].rate == e.1
    {
      assert e in multiset(s);
      var k :| 0 <= k < |s| && s[k] == e;
      TileAt(less, entries, k);
    }
  }

  /** The classes run `goldRateItem` (first tile only), then `majorRateItem`, then `rateItem`. */
  lemma TilesClassOrder<R>(less: Collation, entries: Entries<R>)
    requires StrictTotal(less)
    requires DistinctKeys(entries)
    ensures forall k :: 0 <= k < |Tiles(less, entries)| && Tiles(less, entries)[k].className == "goldRateItem" ==> k == 0
    ensures forall i, j :: 0 <= i < j < |Tiles(less, entries)| && Tiles(less, entries)[j].className != "rateItem" ==>
              Tiles(less, entries)[i].className != "rateItem"
  {
    BoardLayout(less, entries);
    var s := SortBoard(less, entries);
    var tiles := Tiles(less, entries);
    forall k | 0 <= k < |tiles| && tiles[k].className == "goldRateItem"
      ensures k == 0
    {
      TileAt(less, entries, k);
    }
    forall i, j | 0 <= i < j < |tiles| && tiles[j].className != "rateItem"
      ensures tiles[i].className != "rateItem"
    {
      TileAt(less, entries, i);
      TileAt(less, entries, j);
      assert IsMajorPair(s[j].0);
    }
  }

  /** The listener ids of the view's two handlers, as the stream manager records them. */
  const RatesHandler: ExchangeRates.Listener := ExchangeRates.Listener(0)
  const ConnectionHandler: ExchangeRates.Listener := ExchangeRates.Listener(1)

  /**
   * The component's state: the rate map, the connection flag, the time of
   * the last update, and the `isMounted` flag its cleanup clears.
   */
  class LiveRatesView<R> {
    var rates: Entries<R>
    var isConnected: bool
    var lastUpdated: Option<int>
    var isMounted: bool

    /** First render: empty map, disconnected, no effect run yet. */
    constructor ()
      ensures rates == [] && !isConnected && lastUpdated == None && !isMounted
    {
      rates := [];
      isConnected := false;
      lastUpdated := None;
      isMounted := false;
    }

    /**
     * The mount effect: a fresh `isMounted` flag, set, and a `connect` with
     * two handlers only, so the view never receives notifications.
     */
    method Mount(service: ExchangeRates.ExchangeRateService<Entries<R>>, token: Option<string>)
      requires service.Valid()
      modifies this`isMounted, service
      ensures isMounted
      ensures service.Valid()
      ensures service.onRatesUpdate == Some(RatesHandler) && service.onConnectionChange == Some(ConnectionHandler)
      ensures service.onNotification == None
      ensures service.socket == Some(|old(service.sockets)|) && !service.reconnectInterval
      ensures service.sockets == ExchangeRates.SocketsAfterTeardown(old(service.sockets), old(service.socket))
                                 + [ExchangeRates.Socket(ExchangeRates.ConnectionUrl(token), ExchangeRates.Connecting, true)]
      ensures service.trace == old(service.trace) + ExchangeRates.TeardownEffects(old(service.sockets), old(service.socket), old(service.reconnectInterval))
                               + [ExchangeRates.SocketCreated(|old(service.sockets)|, ExchangeRates.ConnectionUrl(token))]
    {
      isMounted := true;
      service.Connect(Some(RatesHandler), Some(ConnectionHandler), None, token);
    }

    /** `handleRatesUpdate`: replaces the whole map (no merge) while mounted. */
    method HandleRatesUpdate(newRates: Entries<R>, now: int)
      modifies this`rates, this`lastUpdated
      ensures isMounted ==> rates == newRates && lastUpdated == Some(now)
      ensures !isMounted ==> rates == old(rates) && lastUpdated == old(lastUpdated)
    {
      if isMounted {
        rates := newRates;
        lastUpdated := Some(now);
      }
    }

    /** `handleConnectionChange`: records the flag while mounted. */
    method HandleConnectionChange(connected: bool)
      modifies this`isConnected
      ensures isConnected == if isMounted then connected else old(isConnected)
    {
      if isMounted {
        isConnected := connected;
      }
    }

    /** The cleanup: later handler calls change nothing, and the stream is torn down. */
    method Unmount(service: ExchangeRates.ExchangeRateService<Entries<R>>)
      requires service.Consistent()
      modifies this`isMounted, service
      ensures !isMounted
      ensures service.Valid() && service.socket == None && !service.reconnectInterval
      ensures service.onRatesUpdate == old(service.onRatesUpdate)
      ensures service.onConnectionChange == old(service.onConnectionChange)
      ensures service.onNotification == old(service.onNotification)
      ensures forall i :: 0 <= i < |service.sockets| ==> !service.sockets[i].attached && !ExchangeRates.Live(service.sockets[i].state)
      ensures service.sockets == ExchangeRates.SocketsAfterTeardown(old(service.sockets), old(service.socket))
      ensures service.trace == old(service.trace) + ExchangeRates.TeardownEffects(old(service.sockets), old(service.socket), old(service.reconnectInterval))
    {
      isMounted := false;
      service.Disconnect();
    }

    /** The refresh button. */
    method ManualRefresh(service: ExchangeRates.ExchangeRateService<Entries<R>>, token: Option<string>)
      requires service.Valid()
      modifies service
      ensures service.Valid()
      ensures service.onRatesUpdate == old(service.onRatesUpdate)
      ensures service.onConnectionChange == old(service.onConnectionChange)
      ensures old(service.IsOpen()) ==>
        && service.socket == old(service.socket) && service.sockets == old(service.sockets)
        && service.onNotification == old(service.onNotification)
        && service.reconnectInterval == old(service.reconnectInterval)
        && service.trace == old(service.trace) + [ExchangeRates.FrameSent(old(service.socket).value, ExchangeRates.RefreshRequest)]
      ensures !old(service.IsOpen()) ==>
        && service.onNotification == None && service.socket == Some(|old(service.sockets)|) && !service.reconnectInterval
        && service.sockets == ExchangeRates.SocketsAfterTeardown(old(service.sockets), old(service.socket))
                              + [ExchangeRates.Socket(ExchangeRates.ConnectionUrl(token), ExchangeRates.Connecting, true)]
        && service.trace == old(service.trace) + ExchangeRates.TeardownEffects(old(service.sockets), old(service.socket), old(service.reconnectInterval))
                            + [ExchangeRates.SocketCreated(|old(service.sockets)|, ExchangeRates.ConnectionUrl(token))]
    {
      service.RequestRates(token);
    }

    /** The "stale data" warning: a map to show, but no live connection. */
    predicate ShowsStaleWarning()
      reads this
    {
      |rates| > 0 && !isConnected
    }

    /** The loading text: nothing to show yet. */
    predicate ShowsLoading()
      reads this
    {
      |rates| == 0
    }
  }

  /** The board and the loading text exclude each other; the warning only goes with the board. */
  lemma DisplayConditions<R>(less: Collation, v: LiveRatesView<R>)
    ensures v.ShowsLoading() <==> |Tiles(less, v.rates)| == 0
    ensures v.ShowsStaleWarning() ==> !v.ShowsLoading()
    ensures v.ShowsStaleWarning() <==> !v.ShowsLoading() && !v.isConnected
  {
    SortLength(less, v.rates);
  }

  lemma {:induction false} SortLength<R>(less: Collation, entries: Entries<R>)
    ensures |SortBoard(less, entries)| == |entries|
    decreases |entries|
  {
    if entries != [] {
      SortLength(less, entries[1..]);
      InsertLength(less, entries[0], SortBoard(less, entries[1..]));
    }
  }

  lemma {:induction false} InsertLength<R>(less: Collation, e: (string, R), s: Entries<R>)
    ensures |Insert(less, e, s)| == |s| + 1
    decreases |s|
  {
    if s != [] && Compare(less, e.0, s[0].0) >= 0 {
      InsertLength(less, e, s[1..]);
    }
  }

  /** Two consecutive snapshots: only the second one's pairs remain. */
  method SnapshotReplacementScenario(first: Entries<int>, second: Entries<int>, t1: int, t2: int)
  {
    var service := new ExchangeRates.ExchangeRateService<Entries<int>>(_ => None);
    var v := new LiveRatesView<int>();
    v.Mount(service, None);
    v.HandleRatesUpdate(first, t1);
    v.HandleRatesUpdate(second, t2);
    assert v.rates == second && v.lastUpdated == Some(t2);
  }

  /** After unmount a late snapshot is ignored; after a new mount the next one is shown. */
  method RemountScenario(first: Entries<int>, second: Entries<int>, t1: int, t2: int)
  {
    var service := new ExchangeRates.ExchangeRateService<Entries<int>>(_ => None);
    var v := new LiveRatesView<int>();
    v.Mount(service, None);
    v.Unmount(service);
    v.HandleRatesUpdate(first, t1);
    assert v.rates == [] && v.lastUpdated == None;
    v.Mount(service, None);
    v.HandleRatesUpdate(second, t2);
    assert v.rates == second && v.lastUpdated == Some(t2);
  }
}
