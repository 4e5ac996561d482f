/** `assemble_context`: small sections whole, large ones by search, an optional graph section,
    then the total-budget trim and the corpus handle.

    Search, graph expansion and "first line of the content" are oracles. */
module ContextAssembly {
  import opened Common
  import opened BudgetTrim

  datatype Memory = Memory(sections: map<Section, seq<Item>>, corpusEverAttached: bool)

  datatype Hit = Hit(section: Section, itemId: string)

  datatype Request = Request(sections: seq<Section>, budget: int, priority: Option<seq<Section>>,
                             threshold: int, pin: Option<bool>, graphEnabled: bool)

  datatype Oracles = Oracles(search: seq<Section> -> seq<Hit>, expand: Raw -> seq<Item>,
                             firstLine: string -> string)

  // -------------------------------------------------------------------------- gathering

  /** The dictionary of sections, with its insertion order. */
  datatype Dict = Dict(keys: seq<Section>, raw: Raw) {
    function Put(mt: Section, items: seq<Item>): Dict {
      Dict(if mt in keys then keys else keys + [mt], raw[mt := items])
    }
  }

  predicate IsLarge(m: Memory, threshold: int, mt: Section) {
    mt in m.sections && |m.sections[mt]| >= threshold
  }

  function Small(m: Memory, threshold: int, sections: seq<Section>): Dict
    decreases |sections|
  {
    if sections == [] then Dict([], map[])
    else
      var d, mt := Small(m, threshold, sections[..|sections| - 1]), sections[|sections| - 1];
      if mt !in m.sections || IsLarge(m, threshold, mt) then d else d.Put(mt, m.sections[mt])
  }

  function Large(m: Memory, threshold: int, sections: seq<Section>): seq<Section>
    decreases |sections|
  {
    if sections == [] then []
    else Large(m, threshold, sections[..|sections| - 1])
         + (if IsLarge(m, threshold, sections[|sections| - 1]) then [sections[|sections| - 1]] else [])
  }

  function HitIn(hits: seq<Hit>, mt: Section, id: string): bool { Hit(mt, id) in hits }

  /** The section's items that were hit, in insertion order. */
  function Selected(items: seq<Item>, hits: seq<Hit>, mt: Section): seq<Item>
    decreases |items|
  {
    if items == [] then []
    else Selected(Butlast(items), hits, mt)
         + (if HitIn(hits, mt, items[|items| - 1].id) then [items[|items| - 1]] else [])
  }

  function Searched(m: Memory, hits: seq<Hit>, large: seq<Section>, d: Dict): Dict
    decreases |large|
  {
    if large == [] then d
    else
      var mt := large[|large| - 1];
      var items := if mt in m.sections then m.sections[mt] else [];
      Searched(m, hits, large[..|large| - 1], d).Put(mt, Selected(items, hits, mt))
  }

  function Gathered(m: Memory, r: Request, o: Oracles): Dict {
    var small, large := Small(m, r.threshold, r.sections), Large(m, r.threshold, r.sections);
    var d := if large == [] then small else Searched(m, o.search(large), large, small);
    if r.graphEnabled && FINDINGS in d.raw && o.expand(d.raw) != []
    then d.Put(GRAPH, o.expand(d.raw)) else d
  }

  // --------------------------------------------------------------------------- the handle

  const MAX_HANDLE_FILENAMES: nat := 12

  predicate Truthy(item: Item, name: string) { name in item.metadata && item.metadata[name] != "" }

  function FirstTruthy(item: Item, names: seq<string>): string {
    if names == [] then ""
    else if Truthy(item, names[0]) then item.metadata[names[0]]
    else FirstTruthy(item, names[1..])
  }

  /** The name an item goes by; empty when it has none. */
  function Anchor(item: Item, o: Oracles): string {
    var name := FirstTruthy(item, ["filename", "uri", "source_uri", "name", "source"]);
    if name != "" then name else o.firstLine(item.content)
  }

  lemma {:induction false} FirstTruthyIsFirst(item: Item, names: seq<string>, k: nat)
    requires k <= |names| && forall j :: 0 <= j < k ==> !Truthy(item, names[j])
    ensures k < |names| && Truthy(item, names[k]) ==> FirstTruthy(item, names) == item.metadata[names[k]]
    ensures k == |names| ==> FirstTruthy(item, names) == ""
    decreases |names|
  {
    if k > 0 { FirstTruthyIsFirst(item, names[1..], k - 1); }
  }

  /** An item goes by its file name; failing that by its URI, its source's URI, its name or its
      source, in that order; and failing those by the first line of its content. */
  lemma {:induction false} AnchorIsFirstKnown(item: Item, o: Oracles, k: nat)
    requires k <= 5
    requires forall j :: 0 <= j < k ==> !Truthy(item, ["filename", "uri", "source_uri", "name", "source"][j])
    ensures var names := ["filename", "uri", "source_uri", "name", "source"];
            && (k < 5 && Truthy(item, names[k]) ==> Anchor(item, o) == item.metadata[names[k]])
            && (k == 5 ==> Anchor(item, o) == o.firstLine(item.content))
  {
    FirstTruthyIsFirst(item, ["filename", "uri", "source_uri", "name", "source"], k);
  }

  function Anchors(items: seq<Item>, o: Oracles): seq<string> {
    seq(|items|, i requires 0 <= i < |items| => Anchor(items[i], o))
  }

  /** The distinct non-empty names, each at its first occurrence. */
  function Firsts(names: seq<string>): seq<string>
    decreases |names|
  {
    if names == [] then []
    else
      var f, last := Firsts(names[..|names| - 1]), names[|names| - 1];
      if last == "" || last in f then f else f + [last]
  }

  function Capped(names: seq<string>): seq<string> {
    if |names| <= MAX_HANDLE_FILENAMES then names else names[..MAX_HANDLE_FILENAMES]
  }

  function HandleOf(documents: seq<Item>, o: Oracles): Handle {
    var names := Capped(Firsts(Anchors(documents, o)));
    var more := if names != [] && |documents| > |names| then Some(|documents| - |names|) else None;
    Handle(|documents|, names, more)
  }

  predicate DistinctNames(names: seq<string>) {
    forall i, j :: 0 <= i < j < |names| ==> names[i] != names[j]
  }

  /** `Firsts` keeps every non-empty name once, in the order of first occurrence. */
  lemma {:induction false} FirstsAreFirstOccurrences(names: seq<string>)
    ensures var f := Firsts(names);
            && DistinctNames(f)
            && (forall x :: x in f <==> x in names && x != "")
            && forall n :: 0 <= n <= |names| ==> Firsts(names[..n]) <= f
    decreases |names|
  {
    if names != [] {
      var init := names[..|names| - 1];
      FirstsAreFirstOccurrences(init);
      forall n | 0 <= n <= |names| ensures Firsts(names[..n]) <= Firsts(names) {
        if n < |names| { assert names[..n] == init[..n]; } else { assert names[..n] == names; }
      }
      assert forall x :: x in names <==> x in init || x == names[|names| - 1];
    }
  }

  lemma {:induction false} FirstsLength(names: seq<string>)
    ensures |Firsts(names)| <= |names|
    ensures |Firsts(names)| == |names| <==> DistinctNames(names) && "" !in names
    decreases |names|
  {
    if names != [] {
      var init, last := names[..|names| - 1], names[|names| - 1];
      FirstsLength(init);
      FirstsAreFirstOccurrences(init);
      assert names == init + [last];
      if DistinctNames(names) && "" !in names {
        assert forall i :: 0 <= i < |init| ==> names[i] != last;
      }
      if |Firsts(names)| == |names| {
        assert last !in init;
      }
    }
  }

  /** The handle lists at most twelve names, the first distinct ones; the "more" count is shown
      when names are listed and documents remain, and counts those: it is the number of further
      names exactly when every document has a name of its own. */
  lemma HandleListsFirstNames(documents: seq<Item>, o: Oracles)
    ensures var h, all := HandleOf(documents, o), Firsts(Anchors(documents, o));
            && |h.names| <= 12 && DistinctNames(h.names) && h.names <= all
            && (h.names == all || |h.names| == 12)
            && h.total == |documents|
            && (h.more.Some? <==> h.names != [] && |documents| > |h.names|)
            && (h.more.Some? ==> h.more.value + |h.names| == |documents|)
            && (h.names != [] ==>
                  ((if h.more.Some? then h.more.value else 0) == |all| - |h.names|
                   <==> DistinctNames(Anchors(documents, o)) && "" !in Anchors(documents, o)))
  {
    FirstsAreFirstOccurrences(Anchors(documents, o));
    FirstsLength(Anchors(documents, o));
  }

  // --------------------------------------------------------------------------- end to end

  function HandleItem(documents: seq<Item>, o: Oracles, tokens: nat): Item {
    Item("", "", tokens, map[], Some(HandleOf(documents, o)))
  }

  function Pinned(m: Memory, r: Request): bool {
    if r.pin.Some? then r.pin.value else m.corpusEverAttached
  }

  predicate WellFormed(d: Dict) { Distinct(d.keys) && Members(d.keys) == d.raw.Keys }

  function DocumentsOf(raw: Raw): seq<Item> { if DOCUMENTS in raw then raw[DOCUMENTS] else [] }

  /** The trimmed sections, before the handle. */
  function TrimmedTo(d: Dict, r: Request): Raw
    requires WellFormed(d)
  {
    MembersHold(d);
    WithinBudgetOrTrimmed(d.raw, d.keys, r.priority, r.budget)
  }

  /** The handle goes in when the trim emptied a section that held documents. */
  predicate NeedsHandle(m: Memory, r: Request, d: Dict, trimmed: Raw)
    requires WellFormed(d)
  {
    MembersHold(d);
    Total(d.raw, d.keys) > r.budget && Pinned(m, r)
    && DocumentsOf(d.raw) != [] && DocumentsOf(trimmed) == []
  }

  lemma MembersHold(d: Dict)
    requires WellFormed(d)
    ensures Holds(d.raw, d.keys)
  {
    assert forall x :: x in d.keys <==> x in Members(d.keys);
  }

  lemma PutWellFormed(d: Dict, mt: Section, items: seq<Item>)
    requires WellFormed(d)
    ensures WellFormed(d.Put(mt, items))
  {
    var e := d.Put(mt, items);
    if mt !in d.keys {
      assert e.keys[..|d.keys|] == d.keys;
    }
    assert Members(e.keys) == Members(d.keys) + {mt};
  }

  lemma {:induction false} SmallWellFormed(m: Memory, threshold: int, sections: seq<Section>)
    ensures WellFormed(Small(m, threshold, sections))
    decreases |sections|
  {
    if sections != [] {
      var init, mt := sections[..|sections| - 1], sections[|sections| - 1];
      SmallWellFormed(m, threshold, init);
      if mt in m.sections { PutWellFormed(Small(m, threshold, init), mt, m.sections[mt]); }
    }
  }

  lemma {:induction false} SearchedWellFormed(m: Memory, hits: seq<Hit>, large: seq<Section>, d: Dict)
    requires WellFormed(d)
    ensures WellFormed(Searched(m, hits, large, d))
    decreases |large|
  {
    if large != [] {
      var init, mt := large[..|large| - 1], large[|large| - 1];
      SearchedWellFormed(m, hits, init, d);
      PutWellFormed(Searched(m, hits, init, d), mt,
                    Selected(if mt in m.sections then m.sections[mt] else [], hits, mt));
    }
  }

  lemma GatheredWellFormed(m: Memory, r: Request, o: Oracles)
    ensures WellFormed(Gathered(m, r, o))
  {
    var small, large := Small(m, r.threshold, r.sections), Large(m, r.threshold, r.sections);
    SmallWellFormed(m, r.threshold, r.sections);
    SearchedWellFormed(m, o.search(large), large, small);
    var d := if large == [] then small else Searched(m, o.search(large), large, small);
    PutWellFormed(d, GRAPH, o.expand(d.raw));
  }

  /** What becomes of the sections once gathered. */
  function Finished(m: Memory, r: Request, o: Oracles, d: Dict, handleTokens: nat): Raw
    requires WellFormed(d)
  {
    var trimmed := TrimmedTo(d, r);
    if NeedsHandle(m, r, d, trimmed)
    then trimmed[DOCUMENTS := [HandleItem(DocumentsOf(d.raw), o, handleTokens)]] else trimmed
  }

  function Assembled(m: Memory, r: Request, o: Oracles, handleTokens: nat): Raw {
    GatheredWellFormed(m, r, o);
    Finished(m, r, o, Gathered(m, r, o), handleTokens)
  }

  /** Trimming keeps the same sections, each a suffix of what it was. */
  lemma TrimmedKeepsSuffixes(d: Dict, r: Request)
    requires WellFormed(d)
    ensures Suffixes(TrimmedTo(d, r), d.raw)
  {
    MembersHold(d);
    if Total(d.raw, d.keys) > r.budget {
      TrimmedAllIsSuffixes(d.raw, d.keys, r.priority, Total(d.raw, d.keys) - r.budget);
    } else {
      forall x | x in d.raw ensures IsSuffix(d.raw[x], d.raw[x]) { }
    }
  }

  lemma TrimmedMeetsBudget(d: Dict, r: Request)
    requires WellFormed(d)
    ensures WithinBudget(TrimmedTo(d, r), d.keys, r.budget)
  {
    MembersHold(d);
    if Total(d.raw, d.keys) > r.budget {
      TrimmedAllMeetsBudget(d.raw, d.keys, r.priority, r.budget, Total(d.raw, d.keys) - r.budget);
    }
  }

  /** The budget is met by everything but the handle; the handle appears, alone in its section,
      exactly when pinning holds and the trim emptied a section of documents; and no other
      section is anything but a suffix of what was gathered. */
  lemma AssembledMeetsBudget(m: Memory, r: Request, o: Oracles, handleTokens: nat)
    ensures WellFormed(Gathered(m, r, o))
    ensures var d := Gathered(m, r, o);
            var trimmed, out := TrimmedTo(d, r), Assembled(m, r, o, handleTokens);
            && out.Keys == trimmed.Keys == d.raw.Keys
            && WithinBudget(trimmed, d.keys, r.budget)
            && (NeedsHandle(m, r, d, trimmed) ==>
                  && DOCUMENTS in out && |out[DOCUMENTS]| == 1
                  && out[DOCUMENTS][0].handle == Some(HandleOf(DocumentsOf(d.raw), o)))
            && forall x :: x in out && !(x == DOCUMENTS && NeedsHandle(m, r, d, trimmed)) ==>
                 out[x] == trimmed[x] && IsSuffix(out[x], d.raw[x])
  {
    GatheredWellFormed(m, r, o);
    TrimmedMeetsBudget(Gathered(m, r, o), r);
    TrimmedKeepsSuffixes(Gathered(m, r, o), r);
  }

  /** What was gathered comes from the memory: below the threshold a section is whole, above it
      it is the items the search hit, in the memory's order. */
  lemma {:induction false} SmallIsWhole(m: Memory, threshold: int, sections: seq<Section>, mt: Section)
    ensures mt in Small(m, threshold, sections).raw
            <==> mt in sections && mt in m.sections && !IsLarge(m, threshold, mt)
    ensures mt in Small(m, threshold, sections).raw ==> Small(m, threshold, sections).raw[mt] == m.sections[mt]
    decreases |sections|
  {
    if sections != [] { SmallIsWhole(m, threshold, sections[..|sections| - 1], mt); }
  }

  lemma {:induction false} LargeMembers(m: Memory, threshold: int, sections: seq<Section>, mt: Section)
    ensures mt in Large(m, threshold, sections) <==> mt in sections && IsLarge(m, threshold, mt)
    decreases |sections|
  {
    if sections != [] { LargeMembers(m, threshold, sections[..|sections| - 1], mt); }
  }

  lemma {:induction false} SearchedIsSelected(m: Memory, hits: seq<Hit>, large: seq<Section>, d: Dict, mt: Section)
    ensures var s := Searched(m, hits, large, d);
            && (mt in s.raw <==> mt in d.raw || mt in large)
            && (mt in large ==>
                  s.raw[mt] == Selected(if mt in m.sections then m.sections[mt] else [], hits, mt))
            && (mt in d.raw && mt !in large ==> s.raw[mt] == d.raw[mt])
    decreases |large|
  {
    if large != [] { SearchedIsSelected(m, hits, large[..|large| - 1], d, mt); }
  }

  lemma GatheredComesFromMemory(m: Memory, r: Request, o: Oracles, mt: Section)
    requires mt != GRAPH
    ensures var raw := Gathered(m, r, o).raw;
            && (mt in raw <==> mt in r.sections && mt in m.sections)
            && (mt in raw ==>
                  raw[mt] == if |m.sections[mt]| < r.threshold then m.sections[mt]
                             else Selected(m.sections[mt], o.search(Large(m, r.threshold, r.sections)), mt))
  {
    var large := Large(m, r.threshold, r.sections);
    SmallIsWhole(m, r.threshold, r.sections, mt);
    LargeMembers(m, r.threshold, r.sections, mt);
    SearchedIsSelected(m, o.search(large), large, Small(m, r.threshold, r.sections), mt);
  }

  // ------------------------------------------------------------- what is gathered, in full

  function InMemory(m: Memory, threshold: int, large: bool): Section -> bool {
    (mt: Section) => mt in m.sections && (|m.sections[mt]| >= threshold) == large
  }

  function WasHit(hits: seq<Hit>, mt: Section): Item -> bool { (item: Item) => Hit(mt, item.id) in hits }

  lemma {:induction false} SelectedAreHits(items: seq<Item>, hits: seq<Hit>, mt: Section)
    ensures Picks(Selected(items, hits, mt), items, WasHit(hits, mt))
    decreases |items|
  {
    if items == [] {
      PicksNothing(WasHit(hits, mt));
    } else {
      SelectedAreHits(Butlast(items), hits, mt);
      PicksLast(Selected(Butlast(items), hits, mt), items, WasHit(hits, mt));
    }
  }

  lemma {:induction false} LargeArePicked(m: Memory, threshold: int, sections: seq<Section>)
    ensures Picks(Large(m, threshold, sections), sections, InMemory(m, threshold, true))
    decreases |sections|
  {
    if sections == [] {
      PicksNothing(InMemory(m, threshold, true));
    } else {
      LargeArePicked(m, threshold, Butlast(sections));
      PicksLast(Large(m, threshold, Butlast(sections)), sections, InMemory(m, threshold, true));
    }
  }

  /** The small sections among those asked for. */
  function Few(m: Memory, threshold: int, sections: seq<Section>): seq<Section>
    decreases |sections|
  {
    if sections == [] then []
    else Few(m, threshold, Butlast(sections))
         + (if InMemory(m, threshold, false)(sections[|sections| - 1]) then [sections[|sections| - 1]] else [])
  }

  lemma {:induction false} FewArePicked(m: Memory, threshold: int, sections: seq<Section>)
    ensures Picks(Few(m, threshold, sections), sections, InMemory(m, threshold, false))
    decreases |sections|
  {
    if sections == [] {
      PicksNothing(InMemory(m, threshold, false));
    } else {
      FewArePicked(m, threshold, Butlast(sections));
      PicksLast(Few(m, threshold, Butlast(sections)), sections, InMemory(m, threshold, false));
    }
  }

  /** They go into the dictionary in the order asked for, each at its first place. */
  lemma {:induction false} SmallInOrder(m: Memory, threshold: int, sections: seq<Section>)
    ensures Small(m, threshold, sections).keys == Dedup(Few(m, threshold, sections))
    decreases |sections|
  {
    if sections != [] {
      SmallInOrder(m, threshold, Butlast(sections));
      var before := Few(m, threshold, Butlast(sections));
      assert before + [] == before;
      DedupSnoc(Few(m, threshold, Butlast(sections)), sections[|sections| - 1]);
    }
  }

  lemma {:induction false} SearchedInOrder(m: Memory, hits: seq<Hit>, large: seq<Section>, d: Dict, keys: seq<Section>)
    requires d.keys == Dedup(keys)
    ensures Searched(m, hits, large, d).keys == Dedup(keys + large)
    decreases |large|
  {
    if large == [] {
      assert keys + large == keys;
    } else {
      SearchedInOrder(m, hits, large[..|large| - 1], d, keys);
      assert (keys + large)[..|keys + large| - 1] == keys + large[..|large| - 1];
    }
  }

  /** Every section asked for that the memory has, whole when small, and when large its items that
      were hit, in their own order. */
  ghost predicate FromMemory(m: Memory, r: Request, hits: seq<Hit>, base: Raw) {
    && (forall mt :: mt in base <==> mt in r.sections && mt in m.sections)
    && forall mt :: mt in base ==>
         if |m.sections[mt]| < r.threshold then base[mt] == m.sections[mt]
         else Picks(base[mt], m.sections[mt], WasHit(hits, mt))
  }

  /** The small sections in the order asked for, then the large ones. */
  ghost predicate InAskedOrder(m: Memory, r: Request, large: seq<Section>, keys: seq<Section>) {
    exists small :: Picks(small, r.sections, InMemory(m, r.threshold, false)) && keys == Dedup(small + large)
  }

  lemma SearchedIsFromMemory(m: Memory, r: Request, hits: seq<Hit>)
    ensures var large, small := Large(m, r.threshold, r.sections), Small(m, r.threshold, r.sections);
            FromMemory(m, r, hits, Searched(m, hits, large, small).raw)
  {
    var large, small := Large(m, r.threshold, r.sections), Small(m, r.threshold, r.sections);
    var base := Searched(m, hits, large, small).raw;
    forall mt
      ensures mt in base <==> mt in r.sections && mt in m.sections
      ensures mt in base ==> if |m.sections[mt]| < r.threshold then base[mt] == m.sections[mt]
                             else Picks(base[mt], m.sections[mt], WasHit(hits, mt))
    {
      SmallIsWhole(m, r.threshold, r.sections, mt);
      LargeMembers(m, r.threshold, r.sections, mt);
      SearchedIsSelected(m, hits, large, small, mt);
      if mt in base { SelectedAreHits(m.sections[mt], hits, mt); }
    }
  }

  lemma SearchedInAskedOrder(m: Memory, r: Request, hits: seq<Hit>)
    ensures var large := Large(m, r.threshold, r.sections);
            InAskedOrder(m, r, large, Searched(m, hits, large, Small(m, r.threshold, r.sections)).keys)
  {
    FewArePicked(m, r.threshold, r.sections);
    SmallInOrder(m, r.threshold, r.sections);
    SearchedInOrder(m, hits, Large(m, r.threshold, r.sections), Small(m, r.threshold, r.sections),
                    Few(m, r.threshold, r.sections));
  }

  /** The one search is asked for the large sections, in order; what was gathered is what comes
      from the memory, and after it, when the graph is on, findings are there and the expansion of
      all that finds something, its items as the graph section. */
  lemma GatheredExactly(m: Memory, r: Request, o: Oracles) returns (base: Dict, large: seq<Section>)
    ensures Picks(large, r.sections, InMemory(m, r.threshold, true))
    ensures FromMemory(m, r, o.search(large), base.raw) && InAskedOrder(m, r, large, base.keys)
    ensures Gathered(m, r, o) == if r.graphEnabled && FINDINGS in base.raw && o.expand(base.raw) != []
                                 then Dict(if GRAPH in base.keys then base.keys else base.keys + [GRAPH],
                                           base.raw[GRAPH := o.expand(base.raw)])
                                 else base
  {
    large := Large(m, r.threshold, r.sections);
    base := Searched(m, o.search(large), large, Small(m, r.threshold, r.sections));
    LargeArePicked(m, r.threshold, r.sections);
    SearchedIsFromMemory(m, r, o.search(large));
    SearchedInAskedOrder(m, r, o.search(large));
  }

  /** The trim before the handle takes away the fewest items that meet the budget, in the order of
      yielding; nothing when the budget was met. */
  lemma TrimmedIsLeast(d: Dict, r: Request)
    requires WellFormed(d)
    ensures Holds(d.raw, Turns(d.keys, r.priority))
    ensures LeastTrimmed(d.raw, Turns(d.keys, r.priority), r.budget, TrimmedTo(d, r))
  {
    MembersHold(d);
    LeastIsTrimmed(d.raw, d.keys, r.priority, r.budget);
  }

  /** The budget was exceeded, pinning was asked for (or left open, and a corpus was ever attached),
      and there were documents of which none is left. */
  predicate LosesDocuments(m: Memory, r: Request, d: Dict, trimmed: Raw)
    requires Holds(d.raw, d.keys)
  {
    && Total(d.raw, d.keys) > r.budget && (r.pin == Some(true) || (r.pin.None? && m.corpusEverAttached))
    && DOCUMENTS in d.raw && d.raw[DOCUMENTS] != [] && DOCUMENTS in trimmed && trimmed[DOCUMENTS] == []
  }

  lemma NeedsHandleExactly(m: Memory, r: Request, d: Dict, trimmed: Raw)
    requires WellFormed(d) && trimmed.Keys == d.raw.Keys
    ensures Holds(d.raw, d.keys) && (NeedsHandle(m, r, d, trimmed) <==> LosesDocuments(m, r, d, trimmed))
  {
    MembersHold(d);
  }

  /** The one item that takes the place of trimmed documents goes in exactly then, and nothing else
      is changed by it. */
  lemma HandleExactly(m: Memory, r: Request, o: Oracles, d: Dict, handleTokens: nat)
    requires WellFormed(d)
    ensures Holds(d.raw, d.keys)
    ensures var trimmed := TrimmedTo(d, r);
            Finished(m, r, o, d, handleTokens)
            == if LosesDocuments(m, r, d, trimmed)
               then trimmed[DOCUMENTS := [Item("", "", handleTokens, map[], Some(HandleOf(d.raw[DOCUMENTS], o)))]]
               else trimmed
  {
    TrimmedKeepsSuffixes(d, r);
    NeedsHandleExactly(m, r, d, TrimmedTo(d, r));
  }

  // -------------------------------------------------------------------------- the methods

  /** Lists the names, stopping at the cap. */
  method BuildHandle(documents: seq<Item>, o: Oracles) returns (h: Option<Handle>)
    ensures h == if documents == [] then None else Some(HandleOf(documents, o))
  {
    if documents == [] {
      return None;
    }
    ghost var all := Anchors(documents, o);
    var names: seq<string> := [];
    var i := 0;
    while i < |documents| && |names| < MAX_HANDLE_FILENAMES
      invariant 0 <= i <= |documents| && |names| <= MAX_HANDLE_FILENAMES
      invariant names == Firsts(all[..i])
    {
      var anchor := Anchor(documents[i], o);
      assert all[..i + 1][..i] == all[..i];
      if anchor != "" && anchor !in names {
        names := names + [anchor];
      }
      i := i + 1;
    }
    CappedNames(all, i);
    var total := |documents|;
    h := Some(Handle(total, names, if names != [] && total > |names| then Some(total - |names|) else None));
  }

  /** Stopping at the cap loses nothing that would be listed. */
  lemma {:induction false} CappedNames(all: seq<string>, i: nat)
    requires i <= |all| && |Firsts(all[..i])| <= MAX_HANDLE_FILENAMES
    requires i == |all| || |Firsts(all[..i])| == MAX_HANDLE_FILENAMES
    ensures Firsts(all[..i]) == Capped(Firsts(all))
  {
    FirstsAreFirstOccurrences(all);
    if i == |all| { assert all[..i] == all; }
  }

  method Gather(m: Memory, r: Request, o: Oracles, c: Context)
    requires c.Valid() && c.keys == [] && c.raw == map[]
    modifies c
    ensures c.Valid() && Dict(c.keys, c.raw) == Gathered(m, r, o)
  {
    var large: seq<Section> := [];
    for i := 0 to |r.sections|
      invariant c.Valid() && Dict(c.keys, c.raw) == Small(m, r.threshold, r.sections[..i])
      invariant large == Large(m, r.threshold, r.sections[..i])
    {
      assert r.sections[..i + 1][..i] == r.sections[..i];
      var mt := r.sections[i];
      if mt in m.sections {
        if |m.sections[mt]| >= r.threshold {
          large := large + [mt];
        } else {
          c.Put(mt, m.sections[mt]);
        }
      }
    }
    assert r.sections[..|r.sections|] == r.sections;
    if large != [] {
      Retrieve(m, o.search(large), large, c);
    }
    if r.graphEnabled && FINDINGS in c.raw {
      var items := o.expand(c.raw);
      if items != [] {
        c.Put(GRAPH, items);
      }
    }
  }

  method Retrieve(m: Memory, hits: seq<Hit>, large: seq<Section>, c: Context)
    requires c.Valid()
    modifies c
    ensures c.Valid() && Dict(c.keys, c.raw) == Searched(m, hits, large, Dict(old(c.keys), old(c.raw)))
  {
    ghost var start := Dict(c.keys, c.raw);
    for i := 0 to |large|
      invariant c.Valid() && Dict(c.keys, c.raw) == Searched(m, hits, large[..i], start)
    {
      assert large[..i + 1][..i] == large[..i];
      var mt := large[i];
      c.Put(mt, Selected(if mt in m.sections then m.sections[mt] else [], hits, mt));
    }
    assert large[..|large|] == large;
  }

  /** The trim phase, for a dictionary over the budget. */
  method TrimPhase(r: Request, total: nat, c: Context)
    requires c.Valid() && Holds(c.raw, c.keys) && total == Total(c.raw, c.keys) && total > r.budget
    modifies c
    ensures WellFormed(Dict(old(c.keys), old(c.raw)))
    ensures c.raw == TrimmedTo(Dict(old(c.keys), old(c.raw)), r)
  {
    ghost var d := Dict(c.keys, c.raw);
    MembersHold(d);
    var order := c.TrimToBudget(r.budget, total, r.priority);
  }

  /** Puts the handle where the documents were, if it is needed. */
  method PinHandle(m: Memory, r: Request, o: Oracles, documents: seq<Item>, trimmed: Raw, handleTokens: nat)
    returns (out: Raw)
    ensures out == if Pinned(m, r) && documents != [] && DocumentsOf(trimmed) == []
                   then trimmed[DOCUMENTS := [HandleItem(documents, o, handleTokens)]] else trimmed
  {
    out := trimmed;
    if Pinned(m, r) && documents != [] && DocumentsOf(trimmed) == [] {
      var handle := BuildHandle(documents, o);
      if handle.Some? {
        out := out[DOCUMENTS := [Item("", "", handleTokens, map[], handle)]];
      }
    }
  }

  /** `handleTokens` is the size of the handle line. */
  method AssembleContext(m: Memory, r: Request, o: Oracles, handleTokens: nat) returns (out: Raw)
    ensures out == Assembled(m, r, o, handleTokens)
  {
    GatheredWellFormed(m, r, o);
    var c := new Context();
    Gather(m, r, o, c);
    ghost var d := Dict(c.keys, c.raw);
    MembersHold(d);
    var total := c.TotalTokens();
    if total <= r.budget {
      return c.raw;
    }
    var preTrimDocuments := DocumentsOf(c.raw);
    TrimPhase(r, total, c);
    out := PinHandle(m, r, o, preTrimDocuments, c.raw, handleTokens);
  }
}
