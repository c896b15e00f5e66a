/** The scraping driver (`scraper.py`): for each active registry entry with a known vendor,
    call the vendor's collector on each start URL, keep the items of the calls that
    succeed, and hand everything collected to the feed sink once at the end.

    The vendor table maps each vendor to an abstract function of the start URL and the
    entry name that returns the items or the exception raised; the console messages and
    the sink call are recorded as events. */
module Scraper {
  import opened Wrappers
  import opened Sequences

  /** One registry entry: `active` is the truthiness of `c.get("active")`, and `starts` is
      `c.get("starts", [])`. */
  datatype Entry = Entry(active: bool, vendor: string, name: string, starts: seq<string>)

  /** The vendors `VENDOR_COLLECTORS` has a collector for. */
  const VENDORS: set<string> := {"generic", "pageup", "applynow", "pulse_api"}

  /** A collector called as `collector(start_url, name)`: the items returned, or the
      exception raised. */
  type Collector<Item> = (string, string) -> Result<seq<Item>, string>

  /** `VENDOR_COLLECTORS`: the collector of each vendor. */
  type Table<Item> = map<string, Collector<Item>>

  /** What the driver does that can be observed besides its result: the warning for an
      unknown vendor, the message before and after each collector call, the error message
      for a call that raised, and the final call of the sink. */
  datatype Event<Item> =
    | NoCollector(vendor: string, name: string)
    | Scanning(name: string, vendor: string, url: string)
    | Found(name: string, count: nat)
    | Failed(name: string, url: string, error: string)
    | Sink(items: seq<Item>)

  /** An entry is scanned when it is active and its vendor has a collector. */
  predicate Runs<Item>(c: Entry, table: Table<Item>) {
    c.active && c.vendor in table
  }

  /** The items a call contributes: its result when it returned, nothing when it raised. */
  function ItemsOf<Item>(r: Result<seq<Item>, string>): seq<Item> {
    if r.Ok? then r.value else []
  }

  /** The events of one call: the scanning message, then the count or the error. */
  function CallEvents<Item>(c: Entry, url: string, r: Result<seq<Item>, string>): seq<Event<Item>> {
    [Scanning(c.name, c.vendor, url)] + (if r.Ok? then [Found(c.name, |r.value|)] else [Failed(c.name, url, r.error)])
  }

  /** The items collected from the start URLs `starts` of entry `c`, in order. */
  function StartItems<Item>(c: Entry, starts: seq<string>, collect: Collector<Item>): seq<Item> {
    if starts == [] then []
    else StartItems(c, starts[..|starts| - 1], collect) + ItemsOf(collect(starts[|starts| - 1], c.name))
  }

  function StartEvents<Item>(c: Entry, starts: seq<string>, collect: Collector<Item>): seq<Event<Item>> {
    if starts == [] then []
    else
      var url := starts[|starts| - 1];
      StartEvents(c, starts[..|starts| - 1], collect) + CallEvents(c, url, collect(url, c.name))
  }

  /** The items entry `c` contributes. */
  function EntryItems<Item>(c: Entry, table: Table<Item>): seq<Item> {
    if Runs(c, table) then StartItems(c, c.starts, table[c.vendor]) else []
  }

  function EntryEvents<Item>(c: Entry, table: Table<Item>): seq<Event<Item>> {
    if !c.active then []
    else if c.vendor !in table then [NoCollector(c.vendor, c.name)]
    else StartEvents(c, c.starts, table[c.vendor])
  }


  /** `all_items` after the loop over `registry`. */
  function AllItems<Item>(registry: seq<Entry>, table: Table<Item>): seq<Item> {
    if registry == [] then []
    else AllItems(registry[..|registry| - 1], table) + EntryItems(registry[|registry| - 1], table)
  }

  function AllEvents<Item>(registry: seq<Entry>, table: Table<Item>): seq<Event<Item>> {
    if registry == [] then []
    else AllEvents(registry[..|registry| - 1], table) + EntryEvents(registry[|registry| - 1], table)
  }

  /** `main` over the registry and `VENDOR_COLLECTORS`: walk the registry, skip inactive
      entries and entries without a collector, call the collector on each start URL and
      keep what the calls that return give, then call the sink with everything kept. */
  method Run<Item>(registry: seq<Entry>, table: Table<Item>) returns (allItems: seq<Item>, log: seq<Event<Item>>)
    requires table.Keys == VENDORS
    ensures allItems == AllItems(registry, table)
    ensures log == AllEvents(registry, table) + [Sink(allItems)]
  {
    allItems := [];
    log := [];
    for k := 0 to |registry|
      invariant allItems == AllItems(registry[..k], table)
      invariant log == AllEvents(registry[..k], table)
    {
      var c := registry[k];
      AllStep(registry, k, table);
      if !c.active {
        assert allItems + [] == allItems && log + [] == log;
        continue;
      }
      if c.vendor !in table {
        log := log + [NoCollector(c.vendor, c.name)];
        assert allItems + [] == allItems;
        continue;
      }
      allItems, log := ScanStarts(c, table[c.vendor], allItems, log);
    }
    assert registry[..|registry|] == registry;
    log := log + [Sink(allItems)];
  }

  /** The loop over one entry's start URLs: a call that raises adds its error message and no
      items, and the loop goes on with the next start URL. */
  method ScanStarts<Item>(c: Entry, collect: Collector<Item>, items0: seq<Item>, log0: seq<Event<Item>>)
    returns (items: seq<Item>, log: seq<Event<Item>>)
    ensures items == items0 + StartItems(c, c.starts, collect)
    ensures log == log0 + StartEvents(c, c.starts, collect)
  {
    items := items0;
    log := log0;
    for i := 0 to |c.starts|
      invariant items == items0 + StartItems(c, c.starts[..i], collect)
      invariant log == log0 + StartEvents(c, c.starts[..i], collect)
    {
      StartStep(c, c.starts, i, collect);
      items, log := ScanOne(c, c.starts[i], collect, items, log);
    }
    assert c.starts[..|c.starts|] == c.starts;
  }

  /** One start URL: announce it, call the collector, then either report the count and keep
      the items or report the error. */
  method ScanOne<Item>(c: Entry, startUrl: string, collect: Collector<Item>, items0: seq<Item>, log0: seq<Event<Item>>)
    returns (items: seq<Item>, log: seq<Event<Item>>)
    ensures items == items0 + ItemsOf(collect(startUrl, c.name))
    ensures log == log0 + CallEvents(c, startUrl, collect(startUrl, c.name))
  {
    items := items0;
    log := log0 + [Scanning(c.name, c.vendor, startUrl)];
    var results := collect(startUrl, c.name);
    match results {
      case Ok(found) =>
        log := log + [Found(c.name, |found|)];
        items := items + found;
      case Err(e) =>
        log := log + [Failed(c.name, startUrl, e)];
        assert items + [] == items;
    }
  }

  /** Extending the registry prefix by one entry adds that entry's items and events. */
  lemma AllStep<Item>(registry: seq<Entry>, k: int, table: Table<Item>)
    requires 0 <= k < |registry|
    ensures AllItems(registry[..k + 1], table) == AllItems(registry[..k], table) + EntryItems(registry[k], table)
    ensures AllEvents(registry[..k + 1], table) == AllEvents(registry[..k], table) + EntryEvents(registry[k], table)
  {
    assert registry[..k + 1][..k] == registry[..k];
  }

  /** Extending the start-URL prefix by one URL adds that call's items and events. */
  lemma StartStep<Item>(c: Entry, starts: seq<string>, i: int, collect: Collector<Item>)
    requires 0 <= i < |starts|
    ensures StartItems(c, starts[..i + 1], collect) == StartItems(c, starts[..i], collect) + ItemsOf(collect(starts[i], c.name))
    ensures StartEvents(c, starts[..i + 1], collect) == StartEvents(c, starts[..i], collect) + CallEvents(c, starts[i], collect(starts[i], c.name))
  {
    assert starts[..i + 1][..i] == starts[..i];
  }

  // ---------------------------------------------------------------------------------------
  // Properties of the driver.

  /** The items of a registry are those of its first part followed by those of the rest:
      entries contribute in registry order. */
  lemma {:induction false} AllItemsAppend<Item>(a: seq<Entry>, b: seq<Entry>, table: Table<Item>)
    ensures AllItems(a + b, table) == AllItems(a, table) + AllItems(b, table)
    decreases |b|
  {
    if b == [] {
      assert a + b == a;
    } else {
      var b0 := b[..|b| - 1];
      assert (a + b)[..|a + b| - 1] == a + b0;
      assert (a + b)[|a + b| - 1] == b[|b| - 1];
      AllItemsAppend(a, b0, table);
    }
  }

  /** Within an entry, the start URLs contribute in `starts` order. */
  lemma {:induction false} StartItemsAppend<Item>(c: Entry, a: seq<string>, b: seq<string>, collect: Collector<Item>)
    ensures StartItems(c, a + b, collect) == StartItems(c, a, collect) + StartItems(c, b, collect)
    decreases |b|
  {
    if b == [] {
      assert a + b == a;
    } else {
      var b0 := b[..|b| - 1];
      assert (a + b)[..|a + b| - 1] == a + b0;
      assert (a + b)[|a + b| - 1] == b[|b| - 1];
      StartItemsAppend(c, a, b0, collect);
    }
  }

  /** A start URL whose call raises contributes nothing, and the start URLs after it still
      contribute theirs: the result is as if that URL were not listed. */
  lemma FailureIsolated<Item>(c: Entry, collect: Collector<Item>, i: int)
    requires 0 <= i < |c.starts| && collect(c.starts[i], c.name).Err?
    ensures StartItems(c, c.starts, collect) == StartItems(c, c.starts[..i] + c.starts[i + 1..], collect)
  {
    var s := c.starts;
    var a, b := s[..i], s[i + 1..];
    assert s == a + [s[i]] + b;
    StartItemsAppend(c, a + [s[i]], b, collect);
    StartItemsAppend(c, a, [s[i]], collect);
    StartItemsAppend(c, a, b, collect);
    StartItemsOne(c, s[i], collect);
  }

  /** A single start URL contributes the items of its call. */
  lemma StartItemsOne<Item>(c: Entry, url: string, collect: Collector<Item>)
    ensures StartItems(c, [url], collect) == ItemsOf(collect(url, c.name))
  {
    assert [url][..0] == [];
  }

  /** The items of the start URLs are exactly the items of the calls that return. */
  lemma {:induction false} StartItemsAreResults<Item>(c: Entry, starts: seq<string>, collect: Collector<Item>)
    ensures forall x :: x in StartItems(c, starts, collect) <==>
      exists i :: 0 <= i < |starts| && collect(starts[i], c.name).Ok? && x in collect(starts[i], c.name).value
  {
    if starts != [] {
      var init := starts[..|starts| - 1];
      StartItemsAreResults(c, init, collect);
      forall x ensures x in StartItems(c, starts, collect) <==>
        exists i :: 0 <= i < |starts| && collect(starts[i], c.name).Ok? && x in collect(starts[i], c.name).value
      {
        if x in StartItems(c, init, collect) {
          var i :| 0 <= i < |init| && collect(init[i], c.name).Ok? && x in collect(init[i], c.name).value;
          assert init[i] == starts[i];
        }
        if exists i :: 0 <= i < |starts| && collect(starts[i], c.name).Ok? && x in collect(starts[i], c.name).value {
          var i :| 0 <= i < |starts| && collect(starts[i], c.name).Ok? && x in collect(starts[i], c.name).value;
          if i < |init| {
            assert init[i] == starts[i];
          }
        }
      }
    }
  }

  /** An inactive entry contributes no items, no collector call and no message; an active
      entry whose vendor has no collector contributes no items and no call, only its
      warning. */
  lemma IdleEntries<Item>(c: Entry, table: Table<Item>)
    ensures !c.active ==> EntryItems(c, table) == [] && EntryEvents(c, table) == []
    ensures c.active && c.vendor !in table ==>
      EntryItems(c, table) == [] && EntryEvents(c, table) == [NoCollector(c.vendor, c.name)]
  {
  }

  /** Dropping the entries that are not scanned leaves the collected items unchanged. */
  lemma {:induction false} OnlyRunningEntriesCount<Item>(registry: seq<Entry>, table: Table<Item>)
    ensures AllItems(registry, table) == AllItems(Filter(c => Runs(c, table), registry), table)
  {
    var p := c => Runs(c, table);
    if registry != [] {
      var init := registry[..|registry| - 1];
      var c := registry[|registry| - 1];
      OnlyRunningEntriesCount(init, table);
      assert registry == init + [c];
      FilterAppend(p, init, [c]);
      AllItemsAppend(Filter(p, init), Filter(p, [c]), table);
      assert Filter(p, [c]) == if p(c) then [c] else [];
      if p(c) {
        assert [c][..0] == [];
      }
    }
  }

  predicate IsScan<Item>(e: Event<Item>) {
    e.Scanning?
  }

  predicate IsSink<Item>(e: Event<Item>) {
    e.Sink?
  }

  /** One collector call per start URL, and no sink call among an entry's events. */
  lemma {:induction false} StartCalls<Item>(c: Entry, starts: seq<string>, collect: Collector<Item>)
    ensures |Filter(IsScan, StartEvents(c, starts, collect))| == |starts|
    ensures Filter(IsSink, StartEvents(c, starts, collect)) == []
  {
    if starts != [] {
      var url := starts[|starts| - 1];
      var init := starts[..|starts| - 1];
      StartCalls(c, init, collect);
      var ev := CallEvents(c, url, collect(url, c.name));
      FilterAppend(IsScan, StartEvents(c, init, collect), ev);
      FilterAppend(IsSink, StartEvents(c, init, collect), ev);
      assert ev == [ev[0]] + [ev[1]];
      FilterAppend(IsScan, [ev[0]], [ev[1]]);
      FilterAppend(IsSink, [ev[0]], [ev[1]]);
    }
  }

  /** A scanned entry calls its collector once per start URL; any other entry calls none. */
  lemma EntryCalls<Item>(c: Entry, table: Table<Item>)
    ensures |Filter(IsScan, EntryEvents(c, table))| == if Runs(c, table) then |c.starts| else 0
    ensures Filter(IsSink, EntryEvents(c, table)) == []
  {
    if Runs(c, table) {
      StartCalls(c, c.starts, table[c.vendor]);
    }
  }

  /** The number of collector calls: one for each start URL of each scanned entry. */
  function CallCount<Item>(registry: seq<Entry>, table: Table<Item>): nat {
    if registry == [] then 0
    else
      var c := registry[|registry| - 1];
      CallCount(registry[..|registry| - 1], table) + (if Runs(c, table) then |c.starts| else 0)
  }

  /** The driver calls a collector once per start URL of each scanned entry and never the
      sink before the end. */
  lemma {:induction false} AllCalls<Item>(registry: seq<Entry>, table: Table<Item>)
    ensures |Filter(IsScan, AllEvents(registry, table))| == CallCount(registry, table)
    ensures Filter(IsSink, AllEvents(registry, table)) == []
  {
    if registry != [] {
      var init := registry[..|registry| - 1];
      var c := registry[|registry| - 1];
      AllCalls(init, table);
      EntryCalls(c, table);
      FilterAppend(IsScan, AllEvents(init, table), EntryEvents(c, table));
      FilterAppend(IsSink, AllEvents(init, table), EntryEvents(c, table));
    }
  }

  /** The sink is called exactly once, as the last event, with all the items collected. */
  lemma SinkOnceLast<Item>(registry: seq<Entry>, table: Table<Item>)
    ensures var log := AllEvents(registry, table) + [Sink(AllItems(registry, table))];
      Filter(IsSink, log) == [Sink(AllItems(registry, table))] && log[|log| - 1] == Sink(AllItems(registry, table))
  {
    var items := AllItems(registry, table);
    AllCalls(registry, table);
    FilterAppend(IsSink, AllEvents(registry, table), [Sink(items)]);
  }
}
