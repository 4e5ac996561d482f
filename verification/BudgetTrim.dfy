/** `_trim_to_budget`: nested loops popping items off the front of sections, lowest priority
    first, until the excess is freed; and what that amounts to. */
module BudgetTrim {
  import opened Common

  datatype Section = DOCUMENTS | FINDINGS | GRAPH | SECTION(name: string)

  /** The synthetic line that stands in for trimmed documents: how many there were, the names
      listed, and the "+ n more" count when shown. */
  datatype Handle = Handle(total: nat, names: seq<string>, more: Option<nat>)

  datatype Item = Item(id: string, content: string, tokens: nat, metadata: map<string, string>,
                       handle: Option<Handle>)

  type Raw = map<Section, seq<Item>>

  function Tokens(items: seq<Item>): nat {
    if items == [] then 0 else items[0].tokens + Tokens(items[1..])
  }

  lemma {:induction false} TokensConcat(a: seq<Item>, b: seq<Item>)
    ensures Tokens(a + b) == Tokens(a) + Tokens(b)
    decreases |a|
  {
    if a == [] {
      assert a + b == b;
    } else {
      TokensConcat(a[1..], b);
      assert (a + b)[1..] == a[1..] + b;
    }
  }

  // ------------------------------------------------------------- dropping from the front

  /** What remains after dropping the shortest prefix that frees at least `excess`. */
  function Rest(items: seq<Item>, excess: int): seq<Item> {
    if items == [] || excess <= 0 then items else Rest(items[1..], excess - items[0].tokens)
  }

  /** `k` items are the shortest prefix of total at least `excess` (all of them if none is). */
  predicate ShortestDrop(items: seq<Item>, excess: int, k: nat) {
    && k <= |items|
    && (k == |items| || Tokens(items[..k]) >= excess)
    && forall j :: 0 <= j < k ==> Tokens(items[..j]) < excess
  }

  lemma {:induction false} RestIsShortestDrop(items: seq<Item>, excess: int) returns (k: nat)
    ensures ShortestDrop(items, excess, k) && Rest(items, excess) == items[k..]
    ensures Tokens(items) - Tokens(Rest(items, excess)) == Tokens(items[..k])
    decreases |items|
  {
    if items == [] || excess <= 0 {
      k := 0;
    } else {
      var m := RestIsShortestDrop(items[1..], excess - items[0].tokens);
      k := m + 1;
      forall j | 0 < j <= k ensures Tokens(items[..j]) == items[0].tokens + Tokens(items[1..][..j - 1]) {
        assert items[..j][1..] == items[1..][..j - 1];
      }
      assert items[k..] == items[1..][m..];
    }
  }

  /** Dropping from a concatenation drops from its first half, then from its second. */
  lemma {:induction false} RestConcat(a: seq<Item>, b: seq<Item>, excess: int)
    ensures var freed := Tokens(a) - Tokens(Rest(a, excess));
            Rest(a + b, excess) == Rest(a, excess) + Rest(b, excess - freed)
    ensures Rest(a, excess) == [] || excess - (Tokens(a) - Tokens(Rest(a, excess))) <= 0
    decreases |a|
  {
    if a == [] || excess <= 0 {
      assert a == [] ==> a + b == b;
    } else {
      RestConcat(a[1..], b, excess - a[0].tokens);
      assert (a + b)[1..] == a[1..] + b;
    }
  }

  /** Two sections dropped from in turn: what is kept, and what is still owed. */
  lemma {:induction false} DropInTurn(a: seq<Item>, b: seq<Item>, excess: int, owed: int)
    requires owed == excess - (Tokens(a) - Tokens(Rest(a, excess)))
    ensures Rest(a + b, excess) == Rest(a, excess) + Rest(b, owed)
    ensures owed - (Tokens(b) - Tokens(Rest(b, owed)))
            == excess - (Tokens(a + b) - Tokens(Rest(a + b, excess)))
  {
    RestConcat(a, b, excess);
    TokensConcat(a, b);
    TokensConcat(Rest(a, excess), Rest(b, owed));
  }

  lemma {:induction false} RestIsSmaller(items: seq<Item>, excess: int)
    ensures Tokens(Rest(items, excess)) <= Tokens(items)
    decreases |items|
  {
    if items != [] && excess > 0 { RestIsSmaller(items[1..], excess - items[0].tokens); }
  }

  // ---------------------------------------------------------------------- the trim order

  function Present(order: seq<Section>, keys: seq<Section>): seq<Section> {
    if order == [] then []
    else (if order[0] in keys then [order[0]] else []) + Present(order[1..], keys)
  }

  function Absent(keys: seq<Section>, ordered: seq<Section>): seq<Section> {
    if keys == [] then []
    else (if keys[0] in ordered then [] else [keys[0]]) + Absent(keys[1..], ordered)
  }

  function Reversed(s: seq<Section>): seq<Section> {
    if s == [] then [] else Reversed(s[1..]) + [s[0]]
  }

  /** Sections without a priority first, then the prioritised ones from last to first. */
  function TrimOrder(keys: seq<Section>, priority: Option<seq<Section>>): seq<Section> {
    if priority.Some? && priority.value != [] then
      var ordered := Present(priority.value, keys);
      Absent(keys, ordered) + Reversed(ordered)
    else keys
  }

  lemma {:induction false} PresentMembers(order: seq<Section>, keys: seq<Section>)
    ensures forall x :: x in Present(order, keys) <==> x in order && x in keys
    decreases |order|
  {
    if order != [] { PresentMembers(order[1..], keys); }
  }

  lemma {:induction false} AbsentMembers(keys: seq<Section>, ordered: seq<Section>)
    ensures forall x :: x in Absent(keys, ordered) <==> x in keys && x !in ordered
    decreases |keys|
  {
    if keys != [] { AbsentMembers(keys[1..], ordered); }
  }

  lemma {:induction false} ReversedMembers(s: seq<Section>)
    ensures forall x :: x in Reversed(s) <==> x in s
    decreases |s|
  {
    if s != [] { ReversedMembers(s[1..]); }
  }

  /** Every section is trimmed, and nothing else. */
  lemma TrimOrderCovers(keys: seq<Section>, priority: Option<seq<Section>>)
    ensures Members(TrimOrder(keys, priority)) == Members(keys)
  {
    if priority.Some? && priority.value != [] {
      var ordered := Present(priority.value, keys);
      PresentMembers(priority.value, keys);
      AbsentMembers(keys, ordered);
      ReversedMembers(ordered);
    }
  }

  // --------------------------------------------------------------------------- trimming

  datatype Trim = Trim(raw: Raw, excess: int)

  function Visit(t: Trim, mt: Section): Trim
    requires mt in t.raw
  {
    if t.excess <= 0 then t
    else
      var rest := Rest(t.raw[mt], t.excess);
      Trim(t.raw[mt := rest], t.excess - (Tokens(t.raw[mt]) - Tokens(rest)))
  }

  predicate Holds(raw: Raw, order: seq<Section>) { forall x :: x in order ==> x in raw }

  function Trimmed(raw: Raw, order: seq<Section>, excess: int): (t: Trim)
    requires Holds(raw, order)
    ensures t.raw.Keys == raw.Keys
    decreases |order|
  {
    if order == [] then Trim(raw, excess)
    else Visit(Trimmed(raw, order[..|order| - 1], excess), order[|order| - 1])
  }

  function Flat(raw: Raw, order: seq<Section>): seq<Item>
    requires Holds(raw, order)
    decreases |order|
  {
    if order == [] then []
    else Flat(raw, order[..|order| - 1]) + raw[order[|order| - 1]]
  }

  predicate Distinct(order: seq<Section>)
    decreases |order|
  {
    order == [] || (order[|order| - 1] !in order[..|order| - 1] && Distinct(order[..|order| - 1]))
  }

  function Members(order: seq<Section>): set<Section> { set x | x in order }

  function Dedup(order: seq<Section>): seq<Section>
    decreases |order|
  {
    if order == [] then []
    else
      var d, last := Dedup(order[..|order| - 1]), order[|order| - 1];
      if last in d then d else d + [last]
  }

  lemma {:induction false} DedupSnoc(s: seq<Section>, x: Section)
    ensures Dedup(s + [x]) == if x in Dedup(s) then Dedup(s) else Dedup(s) + [x]
  {
    assert (s + [x])[..|s|] == s;
  }

  lemma SnocMembers(init: seq<Section>, last: Section)
    ensures forall x :: x in init + [last] <==> x in init || x == last
    ensures Distinct(init + [last]) <==> last !in init && Distinct(init)
  {
    assert (init + [last])[..|init|] == init;
  }

  lemma {:induction false} DedupKeepsMembers(order: seq<Section>)
    ensures Distinct(Dedup(order)) && forall x :: x in Dedup(order) <==> x in order
    decreases |order|
  {
    if order != [] {
      var init, last := order[..|order| - 1], order[|order| - 1];
      DedupKeepsMembers(init);
      SnocMembers(Dedup(init), last);
      SnocMembers(init, last);
      assert order == init + [last];
    }
  }

  /** A section that has been visited is empty, or there is nothing left to free. */
  lemma {:induction false} VisitedIsSettled(raw: Raw, order: seq<Section>, excess: int, mt: Section)
    requires Holds(raw, order) && mt in order
    ensures var t := Trimmed(raw, order, excess); t.raw[mt] == [] || t.excess <= 0
    decreases |order|
  {
    var init, last := order[..|order| - 1], order[|order| - 1];
    var t := Trimmed(raw, init, excess);
    if mt != last { VisitedIsSettled(raw, init, excess, mt); }
    RestConcat(t.raw[last], [], t.excess);
    RestIsSmaller(t.raw[last], t.excess);
  }

  /** Listing a section twice changes nothing. */
  lemma {:induction false} DuplicatesAreIdle(raw: Raw, order: seq<Section>, excess: int)
    requires Holds(raw, order)
    ensures Distinct(Dedup(order)) && Holds(raw, Dedup(order))
    ensures Trimmed(raw, order, excess) == Trimmed(raw, Dedup(order), excess)
    decreases |order|
  {
    DedupKeepsMembers(order);
    if order != [] {
      var init, last := order[..|order| - 1], order[|order| - 1];
      DedupKeepsMembers(init);
      DuplicatesAreIdle(raw, init, excess);
      if last in init {
        VisitedIsSettled(raw, init, excess, last);
        var t := Trimmed(raw, init, excess);
        assert t.raw[last] == [] ==> t.raw[last := []] == t.raw;
      } else {
        assert Dedup(order)[..|Dedup(init)|] == Dedup(init);
      }
    }
  }

  lemma {:induction false} FlatUntouched(raw: Raw, order: seq<Section>, mt: Section, items: seq<Item>)
    requires Holds(raw, order) && mt !in order
    ensures Flat(raw[mt := items], order) == Flat(raw, order)
    decreases |order|
  {
    if order != [] { FlatUntouched(raw, order[..|order| - 1], mt, items); }
  }

  lemma {:induction false} UntouchedOutside(raw: Raw, order: seq<Section>, excess: int, mt: Section)
    requires Holds(raw, order) && mt in raw && mt !in order
    ensures Trimmed(raw, order, excess).raw[mt] == raw[mt]
    decreases |order|
  {
    if order != [] { UntouchedOutside(raw, order[..|order| - 1], excess, mt); }
  }

  lemma {:induction false} FlatAfterVisit(t: Trim, init: seq<Section>, last: Section)
    requires Holds(t.raw, init) && last in t.raw && last !in init
    ensures var u := Visit(t, last);
            Flat(u.raw, init) == Flat(t.raw, init) && u.raw[last] == Rest(t.raw[last], t.excess)
            && u.excess == t.excess - (Tokens(t.raw[last]) - Tokens(u.raw[last]))
  {
    FlatUntouched(t.raw, init, last, Rest(t.raw[last], t.excess));
  }

  /** The nested loops drop, from the concatenation in trim order, the shortest prefix of total
      at least the excess. */
  lemma {:induction false} TrimDropsShortestPrefix(raw: Raw, order: seq<Section>, excess: int)
    requires Holds(raw, order) && Distinct(order)
    ensures var t := Trimmed(raw, order, excess);
            && Flat(t.raw, order) == Rest(Flat(raw, order), excess)
            && t.excess == excess - (Tokens(Flat(raw, order)) - Tokens(Flat(t.raw, order)))
    decreases |order|
  {
    if order != [] {
      var init, last := order[..|order| - 1], order[|order| - 1];
      TrimDropsShortestPrefix(raw, init, excess);
      UntouchedOutside(raw, init, excess, last);
      var t := Trimmed(raw, init, excess);
      FlatAfterVisit(t, init, last);
      DropInTurn(Flat(raw, init), raw[last], excess, t.excess);
    }
  }

  predicate IsSuffix(s: seq<Item>, whole: seq<Item>) {
    |s| <= |whole| && s == whole[|whole| - |s|..]
  }

  lemma RestIsSuffix(items: seq<Item>, excess: int)
    ensures IsSuffix(Rest(items, excess), items)
  {
    var k := RestIsShortestDrop(items, excess);
  }

  lemma {:induction false} LastKeepsEarlier(raw: Raw, order: seq<Section>, excess: int, j: nat)
    requires Holds(raw, order) && Distinct(order) && j < |order| - 1
    ensures var init := order[..|order| - 1];
            order[j] == init[j]
            && Trimmed(raw, order, excess).raw[order[j]] == Trimmed(raw, init, excess).raw[init[j]]
  {
    assert order[j] in order[..|order| - 1];
  }

  /** Each section keeps a suffix of itself. */
  lemma {:induction false} TrimKeepsSuffix(raw: Raw, order: seq<Section>, excess: int, i: nat)
    requires Holds(raw, order) && Distinct(order) && i < |order|
    ensures IsSuffix(Trimmed(raw, order, excess).raw[order[i]], raw[order[i]])
    decreases |order|
  {
    var init, last := order[..|order| - 1], order[|order| - 1];
    if i < |init| {
      TrimKeepsSuffix(raw, init, excess, i);
      LastKeepsEarlier(raw, order, excess, i);
    } else {
      UntouchedOutside(raw, init, excess, last);
      RestIsSuffix(raw[last], Trimmed(raw, init, excess).excess);
    }
  }

  /** A section loses items only when every section before it in trim order has been emptied. */
  lemma {:induction false} TrimEmptiesEarlier(raw: Raw, order: seq<Section>, excess: int, i: nat, j: nat)
    requires Holds(raw, order) && Distinct(order) && j < i < |order|
    requires Trimmed(raw, order, excess).raw[order[i]] != raw[order[i]]
    ensures Trimmed(raw, order, excess).raw[order[j]] == []
    decreases |order|
  {
    var init, last := order[..|order| - 1], order[|order| - 1];
    LastKeepsEarlier(raw, order, excess, j);
    if i < |init| {
      LastKeepsEarlier(raw, order, excess, i);
      TrimEmptiesEarlier(raw, init, excess, i, j);
    } else {
      UntouchedOutside(raw, init, excess, last);
      VisitedIsSettled(raw, init, excess, init[j]);
    }
  }

  /** Each section keeps a suffix of itself, and loses items only when every section before it
      in trim order has been emptied. */
  lemma {:induction false} TrimIsBySuffix(raw: Raw, order: seq<Section>, excess: int, i: nat)
    requires Holds(raw, order) && Distinct(order) && i < |order|
    ensures var t := Trimmed(raw, order, excess);
            && IsSuffix(t.raw[order[i]], raw[order[i]])
            && (t.raw[order[i]] != raw[order[i]] ==> forall j :: 0 <= j < i ==> t.raw[order[j]] == [])
  {
    TrimKeepsSuffix(raw, order, excess, i);
    var t := Trimmed(raw, order, excess);
    if t.raw[order[i]] != raw[order[i]] {
      forall j | 0 <= j < i ensures t.raw[order[j]] == [] { TrimEmptiesEarlier(raw, order, excess, i, j); }
    }
  }

  // --------------------------------------------------------------------------- the budget

  function Total(raw: Raw, keys: seq<Section>): nat
    requires Holds(raw, keys)
    decreases |keys|
  {
    if keys == [] then 0
    else Total(raw, keys[..|keys| - 1]) + Tokens(raw[keys[|keys| - 1]])
  }

  lemma {:induction false} TotalChanges(raw: Raw, keys: seq<Section>, mt: Section, items: seq<Item>)
    requires Holds(raw, keys) && Distinct(keys)
    ensures Total(raw[mt := items], keys)
            == Total(raw, keys) + (if mt in keys then Tokens(items) - Tokens(raw[mt]) else 0)
    decreases |keys|
  {
    if keys != [] { TotalChanges(raw, keys[..|keys| - 1], mt, items); }
  }

  lemma {:induction false} ExcessAccountsForTotal(raw: Raw, keys: seq<Section>, order: seq<Section>, excess: int)
    requires Holds(raw, keys) && Distinct(keys) && Holds(raw, order)
    requires forall x :: x in order ==> x in keys
    ensures var t := Trimmed(raw, order, excess);
            Total(t.raw, keys) - t.excess == Total(raw, keys) - excess
    decreases |order|
  {
    if order != [] {
      var init, last := order[..|order| - 1], order[|order| - 1];
      ExcessAccountsForTotal(raw, keys, init, excess);
      var t := Trimmed(raw, init, excess);
      TotalChanges(t.raw, keys, last, Rest(t.raw[last], t.excess));
    }
  }

  lemma {:induction false} EmptyTotal(raw: Raw, keys: seq<Section>)
    requires Holds(raw, keys) && forall x :: x in keys ==> raw[x] == []
    ensures Total(raw, keys) == 0
    decreases |keys|
  {
    if keys != [] { EmptyTotal(raw, keys[..|keys| - 1]); }
  }

  lemma CoveredHolds(raw: Raw, keys: seq<Section>, order: seq<Section>)
    requires Members(order) == Members(keys) && Members(keys) <= raw.Keys
    ensures Holds(raw, order) && Holds(raw, keys)
    ensures forall x :: x in order <==> x in keys
  {
    assert forall x :: x in order <==> x in Members(order);
    assert forall x :: x in keys <==> x in Members(keys);
  }

  /** Trimming every section, in any order and with or without repetitions, meets the budget. */
  lemma TrimMeetsBudget(raw: Raw, keys: seq<Section>, order: seq<Section>, budget: int, excess: int)
    requires Holds(raw, keys) && Holds(raw, order) && Distinct(keys) && Members(order) == Members(keys)
    requires excess == Total(raw, keys) - budget
    ensures Total(Trimmed(raw, order, excess).raw, keys) <= if budget >= 0 then budget else 0
  {
    assert forall x :: x in order <==> x in Members(order);
    assert forall x :: x in keys <==> x in Members(keys);
    ExcessAccountsForTotal(raw, keys, order, excess);
    var t := Trimmed(raw, order, excess);
    if t.excess > 0 {
      forall x | x in keys ensures t.raw[x] == [] { VisitedIsSettled(raw, order, excess, x); }
      EmptyTotal(t.raw, keys);
    }
  }

  /** All sections trimmed in their trim order. */
  function TrimmedAll(raw: Raw, keys: seq<Section>, priority: Option<seq<Section>>, excess: int): Raw
    requires Members(keys) <= raw.Keys
  {
    TrimOrderCovers(keys, priority);
    CoveredHolds(raw, keys, TrimOrder(keys, priority));
    Trimmed(raw, TrimOrder(keys, priority), excess).raw
  }

  lemma {:induction false} DistinctIsItsDedup(order: seq<Section>)
    requires Distinct(order)
    ensures Dedup(order) == order
    decreases |order|
  {
    if order != [] { DistinctIsItsDedup(order[..|order| - 1]); }
  }

  lemma {:induction false} DistinctFirst(s: seq<Section>)
    requires s != []
    ensures Distinct(s) <==> s[0] !in s[1..] && Distinct(s[1..])
    decreases |s|
  {
    if |s| > 1 {
      var init, rest := s[..|s| - 1], s[1..];
      DistinctFirst(init);
      assert init[1..] == rest[..|rest| - 1] && rest[|rest| - 1] == s[|s| - 1];
      assert forall x :: x in rest <==> x in init[1..] || x == s[|s| - 1];
      assert forall x :: x in init <==> x == s[0] || x in init[1..];
    }
  }

  lemma {:induction false} DistinctConcat(a: seq<Section>, b: seq<Section>)
    requires Distinct(a) && Distinct(b) && forall x :: x in a ==> x !in b
    ensures Distinct(a + b)
    decreases |b|
  {
    if b == [] {
      assert a + b == a;
    } else {
      DistinctConcat(a, b[..|b| - 1]);
      assert (a + b)[..|a + b| - 1] == a + b[..|b| - 1];
    }
  }

  lemma {:induction false} PresentDistinct(order: seq<Section>, keys: seq<Section>)
    requires Distinct(order)
    ensures Distinct(Present(order, keys))
    decreases |order|
  {
    if order != [] {
      DistinctFirst(order);
      PresentDistinct(order[1..], keys);
      PresentMembers(order[1..], keys);
      DistinctConcat(if order[0] in keys then [order[0]] else [], Present(order[1..], keys));
    }
  }

  lemma {:induction false} AbsentDistinct(keys: seq<Section>, ordered: seq<Section>)
    requires Distinct(keys)
    ensures Distinct(Absent(keys, ordered))
    decreases |keys|
  {
    if keys != [] {
      DistinctFirst(keys);
      AbsentDistinct(keys[1..], ordered);
      AbsentMembers(keys[1..], ordered);
      DistinctConcat(if keys[0] in ordered then [] else [keys[0]], Absent(keys[1..], ordered));
    }
  }

  lemma {:induction false} ReversedDistinct(s: seq<Section>)
    requires Distinct(s)
    ensures Distinct(Reversed(s))
    decreases |s|
  {
    if s != [] {
      DistinctFirst(s);
      ReversedDistinct(s[1..]);
      ReversedMembers(s[1..]);
      DistinctConcat(Reversed(s[1..]), [s[0]]);
    }
  }

  /** A priority order without duplicates gives a trim order without duplicates. */
  lemma TrimOrderDistinct(keys: seq<Section>, priority: Option<seq<Section>>)
    requires Distinct(keys) && (priority.Some? ==> Distinct(priority.value))
    ensures Distinct(TrimOrder(keys, priority))
  {
    if priority.Some? && priority.value != [] {
      var ordered := Present(priority.value, keys);
      PresentDistinct(priority.value, keys);
      AbsentDistinct(keys, ordered);
      ReversedDistinct(ordered);
      AbsentMembers(keys, ordered);
      ReversedMembers(ordered);
      DistinctConcat(Absent(keys, ordered), Reversed(ordered));
    }
  }

  /** The order the helper trims in, each section at its first turn. */
  function Turns(keys: seq<Section>, priority: Option<seq<Section>>): seq<Section> {
    Dedup(TrimOrder(keys, priority))
  }

  lemma {:induction false} TurnsDropShortestPrefix(raw: Raw, keys: seq<Section>, priority: Option<seq<Section>>,
                                                   excess: int)
    requires Members(keys) <= raw.Keys
    ensures var order := Turns(keys, priority);
            && Distinct(order) && Members(order) == Members(keys) && Holds(raw, order)
            && Holds(TrimmedAll(raw, keys, priority, excess), order)
            && Flat(TrimmedAll(raw, keys, priority, excess), order) == Rest(Flat(raw, order), excess)
  {
    var all := TrimOrder(keys, priority);
    TrimOrderCovers(keys, priority);
    CoveredHolds(raw, keys, all);
    DuplicatesAreIdle(raw, all, excess);
    DedupKeepsMembers(all);
    assert Members(Dedup(all)) == Members(all);
    TrimDropsShortestPrefix(raw, Dedup(all), excess);
  }

  /** The whole helper leaves, of the concatenation of all sections in trim order, what remains
      after dropping its shortest prefix of total at least the excess; the trim order names each
      section once, in the order of yielding (`TurnsYield`), and is the computed one when the
      priority order has no duplicates. */
  lemma {:induction false} TrimmedAllDropsShortestPrefix(raw: Raw, keys: seq<Section>,
                                                         priority: Option<seq<Section>>, excess: int)
    requires Members(keys) <= raw.Keys
    ensures var order := Turns(keys, priority);
            && Distinct(order) && Members(order) == Members(keys) && Holds(raw, order)
            && Holds(TrimmedAll(raw, keys, priority, excess), order)
            && Flat(TrimmedAll(raw, keys, priority, excess), order) == Rest(Flat(raw, order), excess)
    ensures Distinct(keys) && (priority.Some? ==> Distinct(priority.value)) ==>
              Turns(keys, priority) == TrimOrder(keys, priority)
  {
    TurnsDropShortestPrefix(raw, keys, priority, excess);
    if Distinct(keys) && (priority.Some? ==> Distinct(priority.value)) {
      TrimOrderDistinct(keys, priority);
      DistinctIsItsDedup(TrimOrder(keys, priority));
    }
  }

  // ------------------------------------------------------------------- who is trimmed first

  /** `x` occurs before the first `y`. */
  predicate Sooner(s: seq<Section>, x: Section, y: Section) {
    exists n :: 0 <= n <= |s| && x in s[..n] && y !in s[..n]
  }

  /** `x` occurs after the last `y`. */
  predicate Later(s: seq<Section>, x: Section, y: Section) {
    exists n :: 0 <= n <= |s| && x in s[n..] && y !in s[n..]
  }

  /** `x` is to be trimmed before `y`: the lower in priority first, a section without a priority
      before any that has one, and among those without (all of them, when no priority is given)
      the one that was put in first. */
  predicate Yields(keys: seq<Section>, priority: Option<seq<Section>>, x: Section, y: Section) {
    var listed := if priority.Some? then priority.value else [];
    if x in listed && y in listed then Later(listed, x, y)
    else if x in listed || y in listed then y in listed
    else Sooner(keys, x, y)
  }

  lemma SoonerConcat(s: seq<Section>, t: seq<Section>, x: Section, y: Section)
    ensures Sooner(s, x, y) ==> Sooner(s + t, x, y)
    ensures x in s && y !in s ==> Sooner(s + t, x, y)
    ensures x !in s && y !in s && Sooner(t, x, y) ==> Sooner(s + t, x, y)
  {
    if n :| 0 <= n <= |s| && x in s[..n] && y !in s[..n] { assert (s + t)[..n] == s[..n]; }
    assert (s + t)[..|s|] == s;
    if n :| 0 <= n <= |t| && x in t[..n] && y !in t[..n] { assert (s + t)[..|s| + n] == s + t[..n]; }
  }

  lemma SoonerCons(a: Section, s: seq<Section>, x: Section, y: Section)
    ensures Sooner([a] + s, x, y) <==> a != y && (a == x || Sooner(s, x, y))
  {
    var all := [a] + s;
    if n :| 0 <= n <= |all| && x in all[..n] && y !in all[..n] {
      assert all[..n] == [a] + s[..n - 1];
    }
    if a != y && a == x { assert all[..1] == [a]; }
    if n :| 0 <= n <= |s| && x in s[..n] && y !in s[..n] { assert all[..n + 1] == [a] + s[..n]; }
  }

  lemma {:induction false} AbsentKeepsOrder(keys: seq<Section>, ordered: seq<Section>, x: Section, y: Section)
    requires Sooner(keys, x, y) && x !in ordered
    ensures Sooner(Absent(keys, ordered), x, y)
    decreases |keys|
  {
    var rest := Absent(keys[1..], ordered);
    assert keys == [keys[0]] + keys[1..];
    SoonerCons(keys[0], keys[1..], x, y);
    SoonerCons(keys[0], rest, x, y);
    if keys[0] != x { AbsentKeepsOrder(keys[1..], ordered, x, y); }
    if keys[0] in ordered { assert Absent(keys, ordered) == rest; }
  }

  lemma LaterCons(a: Section, s: seq<Section>, x: Section, y: Section)
    ensures Later(s, x, y) ==> Later([a] + s, x, y)
    ensures Later([a] + s, x, y) ==> Later(s, x, y) || (y !in [a] + s && x == a)
  {
    var all := [a] + s;
    if n :| 0 <= n <= |s| && x in s[n..] && y !in s[n..] { assert all[n + 1..] == s[n..]; }
    if n :| 0 <= n <= |all| && x in all[n..] && y !in all[n..] {
      if n > 0 { assert all[n..] == s[n - 1..]; } else { assert all[n..] == all && s[0..] == s; }
    }
  }

  lemma {:induction false} PresentKeepsOrder(order: seq<Section>, keys: seq<Section>, x: Section, y: Section)
    requires Later(order, x, y) && x in keys
    ensures Later(Present(order, keys), x, y)
    decreases |order|
  {
    var rest := Present(order[1..], keys);
    assert order == [order[0]] + order[1..];
    LaterCons(order[0], order[1..], x, y);
    if Later(order[1..], x, y) {
      PresentKeepsOrder(order[1..], keys, x, y);
      LaterCons(order[0], rest, x, y);
      assert [] + rest == rest;
    } else {
      PresentMembers(order, keys);
      var all := Present(order, keys);
      assert all[0..] == all;
    }
  }

  lemma {:induction false} ReversedTurnsOrder(s: seq<Section>, x: Section, y: Section)
    requires Later(s, x, y)
    ensures Sooner(Reversed(s), x, y)
    decreases |s|
  {
    assert s == [s[0]] + s[1..];
    LaterCons(s[0], s[1..], x, y);
    if Later(s[1..], x, y) {
      ReversedTurnsOrder(s[1..], x, y);
      SoonerConcat(Reversed(s[1..]), [s[0]], x, y);
    } else {
      ReversedMembers(s);
      var r := Reversed(s);
      assert r[..|r|] == r;
    }
  }

  /** The computed order puts what yields first. */
  lemma {:induction false} TrimOrderYields(keys: seq<Section>, priority: Option<seq<Section>>, x: Section, y: Section)
    requires x in keys && y in keys && Yields(keys, priority, x, y)
    ensures Sooner(TrimOrder(keys, priority), x, y)
  {
    if priority.Some? && priority.value != [] {
      var listed := priority.value;
      var ordered := Present(listed, keys);
      PresentMembers(listed, keys);
      AbsentMembers(keys, ordered);
      if x in listed && y in listed {
        PresentKeepsOrder(listed, keys, x, y);
        ReversedTurnsOrder(ordered, x, y);
      } else if x !in listed && y !in listed {
        AbsentKeepsOrder(keys, ordered, x, y);
      }
      SoonerConcat(Absent(keys, ordered), Reversed(ordered), x, y);
    }
  }

  lemma {:induction false} EmptyStays(raw: Raw, order: seq<Section>, excess: int, n: nat, x: Section)
    requires Holds(raw, order) && n <= |order| && x in raw
    requires Trimmed(raw, order[..n], excess).raw[x] == []
    ensures Trimmed(raw, order, excess).raw[x] == []
    decreases |order|
  {
    if n == |order| {
      assert order[..n] == order;
    } else {
      assert order[..|order| - 1][..n] == order[..n];
      EmptyStays(raw, order[..|order| - 1], excess, n, x);
    }
  }

  lemma {:induction false} SoonerIsEmptied(raw: Raw, order: seq<Section>, excess: int, x: Section, y: Section)
    requires Holds(raw, order) && x in raw && y in raw && Sooner(order, x, y)
    ensures Trimmed(raw, order, excess).raw[y] != raw[y] ==> Trimmed(raw, order, excess).raw[x] == []
  {
    var n :| 0 <= n <= |order| && x in order[..n] && y !in order[..n];
    VisitedIsSettled(raw, order[..n], excess, x);
    if Trimmed(raw, order[..n], excess).excess <= 0 {
      SettledTail(raw, order, excess, n);
      UntouchedOutside(raw, order[..n], excess, y);
    } else {
      EmptyStays(raw, order, excess, n, x);
    }
  }

  /** A section loses an item only when every section that yields to it has been emptied. */
  lemma {:induction false} PriorityIsRespected(raw: Raw, keys: seq<Section>, priority: Option<seq<Section>>,
                                               excess: int, x: Section, y: Section)
    requires Members(keys) <= raw.Keys && x in keys && y in keys && Yields(keys, priority, x, y)
    ensures var after := TrimmedAll(raw, keys, priority, excess);
            x in after && y in after && (after[y] != raw[y] ==> after[x] == [])
  {
    assert x in Members(keys) && y in Members(keys);
    TrimOrderCovers(keys, priority);
    CoveredHolds(raw, keys, TrimOrder(keys, priority));
    TrimOrderYields(keys, priority, x, y);
    SoonerIsEmptied(raw, TrimOrder(keys, priority), excess, x, y);
  }

  /** In particular, with a priority order without duplicates, the section at place `i` loses an
      item only when every section of lower priority, and every one without, has been emptied. */
  lemma {:induction false} HighPriorityGoesLast(raw: Raw, keys: seq<Section>, priority: seq<Section>, excess: int,
                                                i: nat, lower: Section)
    requires Members(keys) <= raw.Keys && Distinct(priority)
    requires i < |priority| && priority[i] in keys && lower in keys && lower !in priority[..i + 1]
    ensures var after, high := TrimmedAll(raw, keys, Some(priority), excess), priority[i];
            lower in after && high in after && (after[high] != raw[high] ==> after[lower] == [])
  {
    if lower in priority {
      DistinctSplits(priority, i);
      assert priority == priority[..i + 1] + priority[i + 1..];
      assert Later(priority, lower, priority[i]);
    }
    PriorityIsRespected(raw, keys, Some(priority), excess, lower, priority[i]);
  }

  lemma {:induction false} DistinctSplits(s: seq<Section>, i: nat)
    requires Distinct(s) && i < |s|
    ensures s[i] !in s[i + 1..]
    decreases |s|
  {
    var init := s[..|s| - 1];
    if i < |init| {
      DistinctSplits(init, i);
      assert s[i + 1..] == init[i + 1..] + [s[|s| - 1]];
    }
  }

  /** Of two sections there are, one yields to the other. */
  lemma {:induction false} OneYields(keys: seq<Section>, priority: Option<seq<Section>>, x: Section, y: Section)
    requires x in keys && y in keys && x != y
    ensures Yields(keys, priority, x, y) || Yields(keys, priority, y, x)
  {
    SoonerTotal(keys, x, y);
    if priority.Some? && x in priority.value && y in priority.value { LaterTotal(priority.value, x, y); }
  }

  lemma {:induction false} SoonerTotal(s: seq<Section>, x: Section, y: Section)
    requires x in s && x != y
    ensures Sooner(s, x, y) || Sooner(s, y, x)
    decreases |s|
  {
    var init, last := s[..|s| - 1], s[|s| - 1];
    assert s == init + [last];
    if x in init {
      SoonerTotal(init, x, y);
    } else {
      assert s[..|s|] == s && init[..|init|] == init;
      if y !in s { assert Sooner(s, x, y); } else { assert y in init && Sooner(init, y, x); }
    }
    SoonerConcat(init, [last], x, y);
    SoonerConcat(init, [last], y, x);
  }

  lemma {:induction false} LaterTotal(s: seq<Section>, x: Section, y: Section)
    requires x in s && x != y
    ensures Later(s, x, y) || Later(s, y, x)
    decreases |s|
  {
    assert s == [s[0]] + s[1..];
    if x in s[1..] {
      LaterTotal(s[1..], x, y);
    } else {
      assert s[0..] == s && s[1..][0..] == s[1..];
      if y !in s { assert Later(s, x, y); } else { assert y in s[1..] && Later(s[1..], y, x); }
    }
    LaterCons(s[0], s[1..], x, y);
    LaterCons(s[0], s[1..], y, x);
  }

  lemma SoonerAsymmetric(s: seq<Section>, x: Section, y: Section)
    requires Sooner(s, x, y)
    ensures !Sooner(s, y, x)
  {
    var n :| 0 <= n <= |s| && x in s[..n] && y !in s[..n];
    forall m | 0 <= m <= |s| ensures y in s[..m] ==> x in s[..m] {
      if m <= n {
        assert forall z :: z in s[..m] ==> z in s[..n];
      } else {
        assert forall z :: z in s[..n] ==> z in s[..m];
      }
    }
  }

  lemma {:induction false} DedupIsInOrder(s: seq<Section>, i: nat, j: nat)
    requires i < j < |Dedup(s)|
    ensures Sooner(s, Dedup(s)[i], Dedup(s)[j])
    decreases |s|
  {
    var init, last := s[..|s| - 1], s[|s| - 1];
    var d := Dedup(init);
    DedupKeepsMembers(init);
    assert s == init + [last];
    if j < |d| {
      DedupIsInOrder(init, i, j);
    } else {
      assert Dedup(s)[i] in d && last !in d && Dedup(s)[j] == last;
    }
    SoonerConcat(init, [last], Dedup(s)[i], Dedup(s)[j]);
  }

  /** The order the helper trims in, each section at its first turn, is the order of yielding. */
  lemma {:induction false} TurnsYield(keys: seq<Section>, priority: Option<seq<Section>>, i: nat, j: nat)
    requires i < j < |Turns(keys, priority)|
    ensures Yields(keys, priority, Turns(keys, priority)[i], Turns(keys, priority)[j])
  {
    var order := TrimOrder(keys, priority);
    var x, y := Turns(keys, priority)[i], Turns(keys, priority)[j];
    TrimOrderCovers(keys, priority);
    DedupKeepsMembers(order);
    assert x in Members(order) && y in Members(order);
    DedupIsInOrder(order, i, j);
    SoonerAsymmetric(order, x, y);
    assert x != y by {
      var n :| 0 <= n <= |order| && x in order[..n] && y !in order[..n];
    }
    OneYields(keys, priority, x, y);
    if Yields(keys, priority, y, x) && !Yields(keys, priority, x, y) { TrimOrderYields(keys, priority, y, x); }
  }

  lemma {:induction false} TotalIsFlat(raw: Raw, keys: seq<Section>)
    requires Holds(raw, keys)
    ensures Total(raw, keys) == Tokens(Flat(raw, keys))
    decreases |keys|
  {
    if keys != [] {
      TotalIsFlat(raw, keys[..|keys| - 1]);
      TokensConcat(Flat(raw, keys[..|keys| - 1]), raw[keys[|keys| - 1]]);
    }
  }

  /** The total does not depend on the order the sections are taken in. */
  lemma {:induction false} TotalInAnyOrder(raw: Raw, keys: seq<Section>, order: seq<Section>)
    requires Holds(raw, keys) && Holds(raw, order) && Distinct(keys) && Distinct(order)
    requires Members(order) == Members(keys)
    ensures Total(raw, keys) == Tokens(Flat(raw, order))
  {
    var excess := Total(raw, keys) + Tokens(Flat(raw, order)) + 1;
    var t := Trimmed(raw, order, excess);
    assert forall x :: x in order <==> x in Members(order);
    assert forall x :: x in keys <==> x in Members(keys);
    TrimDropsShortestPrefix(raw, order, excess);
    ExcessAccountsForTotal(raw, keys, order, excess);
    forall x | x in order ensures t.raw[x] == [] { VisitedIsSettled(raw, order, excess, x); }
    EmptyTotal(t.raw, keys);
    EmptyTotal(t.raw, order);
    TotalIsFlat(t.raw, order);
  }

  function TokensFrom(items: seq<Item>, j: nat): nat
    requires j <= |items|
  {
    Tokens(items[j..])
  }

  /** `k` items from the front are the fewest whose loss brings the total within the budget (all
      of them, when only a negative budget is left). */
  predicate FewestFromFront(items: seq<Item>, budget: int, k: nat) {
    && k <= |items|
    && (k == |items| || TokensFrom(items, k) <= budget)
    && forall j :: 0 <= j < k ==> TokensFrom(items, j) > budget
  }

  lemma {:induction false} ShortestIsFewest(items: seq<Item>, budget: int) returns (k: nat)
    ensures FewestFromFront(items, budget, k) && Rest(items, Tokens(items) - budget) == items[k..]
  {
    k := RestIsShortestDrop(items, Tokens(items) - budget);
    forall j | 0 <= j <= |items| ensures Tokens(items) == Tokens(items[..j]) + TokensFrom(items, j) {
      assert items == items[..j] + items[j..];
      TokensConcat(items[..j], items[j..]);
    }
  }

  /** `after` is what is left once the fewest items have gone. */
  ghost predicate LeastTrimmed(raw: Raw, order: seq<Section>, budget: int, after: Raw)
    requires Holds(raw, order)
  {
    Holds(after, order)
    && exists k: nat :: FewestFromFront(Flat(raw, order), budget, k) && Flat(after, order) == Flat(raw, order)[k..]
  }

  lemma {:induction false} LeastInOrder(raw: Raw, keys: seq<Section>, order: seq<Section>, after: Raw, budget: int)
    requires Holds(raw, keys) && Holds(raw, order) && Distinct(keys) && Distinct(order)
    requires Members(order) == Members(keys) && Holds(after, order)
    requires Flat(after, order) == Rest(Flat(raw, order), Total(raw, keys) - budget)
    ensures LeastTrimmed(raw, order, budget, after)
  {
    var items := Flat(raw, order);
    assert Total(raw, keys) == Tokens(items) by { TotalInAnyOrder(raw, keys, order); }
    var k := ShortestIsFewest(items, budget);
    assert FewestFromFront(items, budget, k) && Flat(after, order) == items[k..];
  }

  lemma {:induction false} DroppedToBudget(raw: Raw, keys: seq<Section>, priority: Option<seq<Section>>, budget: int,
                                           after: Raw)
    requires Distinct(keys) && Members(keys) <= raw.Keys && Holds(raw, keys)
    requires after == TrimmedAll(raw, keys, priority, Total(raw, keys) - budget)
    ensures var order := Turns(keys, priority);
            && Distinct(order) && Members(order) == Members(keys) && Holds(raw, order) && Holds(after, order)
            && Flat(after, order) == Rest(Flat(raw, order), Total(raw, keys) - budget)
  {
    TurnsDropShortestPrefix(raw, keys, priority, Total(raw, keys) - budget);
  }

  /** The helper frees no more than it has to: of all sections in the order of yielding it drops
      the fewest items from the front that bring the total within the budget. */
  lemma {:induction false} TrimmingIsLeast(raw: Raw, keys: seq<Section>, priority: Option<seq<Section>>, budget: int,
                                           after: Raw)
    requires Distinct(keys) && Members(keys) <= raw.Keys && Holds(raw, keys)
    requires after == TrimmedAll(raw, keys, priority, Total(raw, keys) - budget)
    ensures Holds(raw, Turns(keys, priority)) && LeastTrimmed(raw, Turns(keys, priority), budget, after)
  {
    DroppedToBudget(raw, keys, priority, budget, after);
    LeastInOrder(raw, keys, Turns(keys, priority), after, budget);
  }

  /** Within the budget nothing need go. */
  lemma {:induction false} NothingIsLeast(raw: Raw, keys: seq<Section>, order: seq<Section>, budget: int)
    requires Distinct(keys) && Holds(raw, keys) && Total(raw, keys) <= budget
    requires Distinct(order) && Members(order) == Members(keys) && Holds(raw, order)
    ensures LeastTrimmed(raw, order, budget, raw)
  {
    var items := Flat(raw, order);
    TotalInAnyOrder(raw, keys, order);
    assert items[0..] == items;
    assert FewestFromFront(items, budget, 0);
  }

  lemma {:induction false} TurnsCover(raw: Raw, keys: seq<Section>, priority: Option<seq<Section>>)
    requires Members(keys) <= raw.Keys
    ensures var order := Turns(keys, priority);
            Distinct(order) && Members(order) == Members(keys) && Holds(raw, order)
  {
    TurnsDropShortestPrefix(raw, keys, priority, 0);
  }

  /** Trimming only when over the budget. */
  function WithinBudgetOrTrimmed(raw: Raw, keys: seq<Section>, priority: Option<seq<Section>>, budget: int): Raw
    requires Holds(raw, keys) && Members(keys) <= raw.Keys
  {
    if Total(raw, keys) <= budget then raw else TrimmedAll(raw, keys, priority, Total(raw, keys) - budget)
  }

  lemma {:induction false} LeastIsTrimmed(raw: Raw, keys: seq<Section>, priority: Option<seq<Section>>, budget: int)
    requires Distinct(keys) && Holds(raw, keys) && Members(keys) <= raw.Keys
    ensures Holds(raw, Turns(keys, priority))
    ensures LeastTrimmed(raw, Turns(keys, priority), budget, WithinBudgetOrTrimmed(raw, keys, priority, budget))
  {
    TurnsCover(raw, keys, priority);
    if Total(raw, keys) <= budget {
      NothingIsLeast(raw, keys, Turns(keys, priority), budget);
    } else {
      TrimmingIsLeast(raw, keys, priority, budget, TrimmedAll(raw, keys, priority, Total(raw, keys) - budget));
    }
  }

  /** All the sections there were, within the budget (or empty, for a negative one). */
  predicate WithinBudget(raw: Raw, keys: seq<Section>, budget: int) {
    Holds(raw, keys) && Total(raw, keys) <= if budget >= 0 then budget else 0
  }

  lemma TrimmedAllMeetsBudget(raw: Raw, keys: seq<Section>, priority: Option<seq<Section>>, budget: int, excess: int)
    requires Distinct(keys) && Members(keys) == raw.Keys && Holds(raw, keys)
    requires excess == Total(raw, keys) - budget
    ensures WithinBudget(TrimmedAll(raw, keys, priority, excess), keys, budget)
  {
    var order := TrimOrder(keys, priority);
    TrimOrderCovers(keys, priority);
    CoveredHolds(raw, keys, order);
    TrimMeetsBudget(raw, keys, order, budget, excess);
  }

  lemma {:induction false} TrimmedSuffix(raw: Raw, order: seq<Section>, excess: int, x: Section)
    requires Holds(raw, order) && x in raw
    ensures IsSuffix(Trimmed(raw, order, excess).raw[x], raw[x])
  {
    DuplicatesAreIdle(raw, order, excess);
    var d := Dedup(order);
    if x in d {
      var i :| 0 <= i < |d| && d[i] == x;
      TrimIsBySuffix(raw, d, excess, i);
    } else {
      UntouchedOutside(raw, d, excess, x);
    }
  }

  /** The same sections, each a suffix of what it was. */
  predicate Suffixes(after: Raw, before: Raw) {
    after.Keys == before.Keys && forall x :: x in after ==> IsSuffix(after[x], before[x])
  }

  lemma TrimmedAllIsSuffixes(raw: Raw, keys: seq<Section>, priority: Option<seq<Section>>, excess: int)
    requires Members(keys) <= raw.Keys
    ensures Suffixes(TrimmedAll(raw, keys, priority, excess), raw)
  {
    var order := TrimOrder(keys, priority);
    TrimOrderCovers(keys, priority);
    CoveredHolds(raw, keys, order);
    forall x | x in raw ensures IsSuffix(Trimmed(raw, order, excess).raw[x], raw[x]) {
      TrimmedSuffix(raw, order, excess, x);
    }
  }

  /** Where the outer loop stands after `i` sections. */
  ghost predicate Reached(start: Raw, order: seq<Section>, owed: int, i: nat, t: Trim)
    requires Holds(start, order) && i <= |order|
  {
    t == Trimmed(start, order[..i], owed)
  }

  lemma {:induction false} ReachedNext(start: Raw, order: seq<Section>, owed: int, i: nat, t: Trim)
    requires Holds(start, order) && i < |order| && Reached(start, order, owed, i, t)
    ensures order[i] in t.raw && Reached(start, order, owed, i + 1, Visit(t, order[i]))
  {
    assert order[..i + 1][..i] == order[..i];
  }

  lemma {:induction false} ReachedEnd(start: Raw, order: seq<Section>, owed: int, i: nat, t: Trim)
    requires Holds(start, order) && i <= |order| && Reached(start, order, owed, i, t)
    requires i == |order| || t.excess <= 0
    ensures t == Trimmed(start, order, owed)
  {
    SettledTail(start, order, owed, i);
  }

  // ---------------------------------------------------------------------------- the class

  /** The two dictionaries trimmed in place; `keys` is their insertion order. */
  class Context {
    var keys: seq<Section>
    var raw: Raw
    var sectionTokens: map<Section, int>

    ghost predicate Valid()
      reads this
    {
      && Distinct(keys) && raw.Keys == Members(keys)
      && sectionTokens.Keys == raw.Keys
      && forall x {:trigger sectionTokens[x]} :: x in raw ==> sectionTokens[x] == Tokens(raw[x])
    }

    constructor ()
      ensures Valid() && keys == [] && raw == map[]
    {
      keys, raw, sectionTokens := [], map[], map[];
    }

    /** `raw[mt] = items`, with its token sum. */
    method Put(mt: Section, items: seq<Item>)
      requires Valid()
      modifies this
      ensures Valid() && raw == old(raw)[mt := items]
      ensures keys == if mt in old(keys) then old(keys) else old(keys) + [mt]
    {
      if mt !in raw {
        assert (keys + [mt])[..|keys|] == keys && mt !in Members(keys);
        keys := keys + [mt];
      }
      raw := raw[mt := items];
      sectionTokens := sectionTokens[mt := Tokens(items)];
    }

    method TotalTokens() returns (total: nat)
      requires Valid()
      ensures total == Total(raw, keys)
    {
      total := 0;
      for i := 0 to |keys|
        invariant total == Total(raw, keys[..i])
      {
        assert keys[..i + 1][..i] == keys[..i];
        total := total + sectionTokens[keys[i]];
      }
      assert keys[..|keys|] == keys;
    }

    /** `items.pop(0)`, with the section's token count. */
    method Pop(mt: Section) returns (freed: nat)
      requires Valid() && mt in raw && raw[mt] != []
      modifies this`raw, this`sectionTokens
      ensures Valid() && freed == old(raw[mt][0]).tokens
      ensures raw == old(raw)[mt := old(raw[mt])[1..]]
    {
      freed := raw[mt][0].tokens;
      raw := raw[mt := raw[mt][1..]];
      sectionTokens := sectionTokens[mt := sectionTokens[mt] - freed];
    }

    /** The inner loop: pop from the front of one section. */
    method TrimSection(mt: Section, owed: int) returns (excess: int)
      requires Valid() && mt in raw && owed > 0
      modifies this`raw, this`sectionTokens
      ensures Valid() && Trim(raw, excess) == Visit(Trim(old(raw), owed), mt)
    {
      excess := owed;
      ghost var start := raw;
      while raw[mt] != [] && excess > 0
        invariant Valid() && mt in raw && raw == start[mt := raw[mt]]
        invariant Dropped(start[mt], owed, raw[mt], excess)
        decreases |raw[mt]|
      {
        DropOne(start[mt], owed, raw[mt], excess);
        var freed := Pop(mt);
        excess := excess - freed;
      }
    }

    /** The outer loop. */
    method TrimInOrder(trimOrder: seq<Section>, owed: int) returns (excess: int)
      requires Valid() && Holds(raw, trimOrder)
      modifies this`raw, this`sectionTokens
      ensures Valid() && Trim(raw, excess) == Trimmed(old(raw), trimOrder, owed)
    {
      ghost var start := raw;
      excess := owed;
      var i := 0;
      while i < |trimOrder| && excess > 0
        invariant 0 <= i <= |trimOrder| && Valid()
        invariant Reached(start, trimOrder, owed, i, Trim(raw, excess))
      {
        ReachedNext(start, trimOrder, owed, i, Trim(raw, excess));
        excess := TrimSection(trimOrder[i], excess);
        i := i + 1;
      }
      ReachedEnd(start, trimOrder, owed, i, Trim(raw, excess));
    }

    /** Trimming from a given order of all sections. */
    method TrimExcess(trimOrder: seq<Section>, budget: int, ghost total: int, excess: int)
      requires Valid() && Members(trimOrder) == Members(keys) && Holds(raw, trimOrder)
      requires total == Total(raw, keys) && excess == total - budget
      modifies this`raw, this`sectionTokens
      ensures Valid() && raw == Trimmed(old(raw), trimOrder, excess).raw
      ensures Total(raw, keys) <= if budget >= 0 then budget else 0
    {
      ghost var t := Trimmed(raw, trimOrder, excess);
      TrimMeetsBudget(raw, keys, trimOrder, budget, excess);
      var left := TrimInOrder(trimOrder, excess);
      assert raw == t.raw;
    }

    method TrimToBudget(budget: int, total: int, priority: Option<seq<Section>>)
      returns (trimOrder: seq<Section>)
      requires Valid() && total == Total(raw, keys)
      modifies this`raw, this`sectionTokens
      ensures Valid() && trimOrder == TrimOrder(keys, priority)
      ensures raw == TrimmedAll(old(raw), keys, priority, total - budget)
      ensures Total(raw, keys) <= if budget >= 0 then budget else 0
    {
      trimOrder := TrimOrder(keys, priority);
      TrimOrderCovers(keys, priority);
      CoveredHolds(raw, keys, trimOrder);
      TrimExcess(trimOrder, budget, total, total - budget);
    }
  }

  /** Where the inner loop stands: `items` and `excess` are left of `whole` and `owed`. */
  predicate Dropped(whole: seq<Item>, owed: int, items: seq<Item>, excess: int) {
    && Rest(items, excess) == Rest(whole, owed)
    && excess == owed - (Tokens(whole) - Tokens(items))
  }

  lemma {:induction false} DropOne(whole: seq<Item>, owed: int, items: seq<Item>, excess: int)
    requires Dropped(whole, owed, items, excess) && items != [] && excess > 0
    ensures Dropped(whole, owed, items[1..], excess - items[0].tokens)
  {
  }

  /** Once nothing is owed, the remaining visits do nothing. */
  lemma {:induction false} SettledTail(raw: Raw, order: seq<Section>, excess: int, i: nat)
    requires Holds(raw, order) && i <= |order|
    requires i == |order| || Trimmed(raw, order[..i], excess).excess <= 0
    ensures Trimmed(raw, order, excess) == Trimmed(raw, order[..i], excess)
    decreases |order|
  {
    if i == |order| {
      assert order[..i] == order;
    } else {
      assert order[..|order| - 1][..i] == order[..i];
      SettledTail(raw, order[..|order| - 1], excess, i);
    }
  }
}
