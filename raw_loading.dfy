/** The test suite's loading of raw items into an ocean backend
    (`data2es`): each item dict is normalised in place, then the items are
    sent to the backend in packs of at most `max_items_bulk`; and the two
    refresh loops that update enriched items and count them. */
module RawLoading {
  import opened Py

  // ------------------------------------------------------------------ state

  /** A Python dict that the code mutates in place. */
  class Doc {
    var fields: Fields

    constructor (fields: Fields)
      ensures this.fields == fields
    {
      this.fields := fields;
    }
  }

  /** The ocean backend as `data2es` sees it: its bulk size, the
      collaborators it calls (`datetime.fromtimestamp(..).isoformat()` and
      `_fix_item`, given as the dict contents they produce) and the packs
      passed so far to `_items_to_es`. */
  class Ocean {
    const maxItemsBulk: int
    const fromTimestamp: Value -> Result<Value>
    const fixItem: Fields -> Result<Fields>
    var sent: seq<seq<Doc>>

    constructor (maxItemsBulk: int, fromTimestamp: Value -> Result<Value>, fixItem: Fields -> Result<Fields>)
      ensures this.maxItemsBulk == maxItemsBulk
      ensures this.fromTimestamp == fromTimestamp && this.fixItem == fixItem
      ensures sent == []
    {
      this.maxItemsBulk := maxItemsBulk;
      this.fromTimestamp := fromTimestamp;
      this.fixItem := fixItem;
      sent := [];
    }

    /** `_items_to_es(items_pack)`: the pack is recorded; the number of
        items it reports as inserted is the pack's size. */
    method ItemsToEs(pack: seq<Doc>) returns (inserted: int)
      modifies this
      ensures sent == old(sent) + [pack]
      ensures inserted == |pack|
    {
      sent := sent + [pack];
      inserted := |pack|;
    }
  }

  // ------------------------------------------------------------- ocean_item

  /** The keys `ocean_item` writes before `_fix_item`. */
  const WrittenKeys: set<string> := {"uuid", "ocean-unique-id", "metadata__updated_on", "metadata__timestamp"}

  /** Lines 48-53: the item's unique id is its `uuid`, or else its `id`,
      which then also becomes its `uuid`; without either, KeyError. */
  function NormaliseId(fields: Fields): (r: Result<Fields>)
    ensures r.Ok? <==> "uuid" in fields || "id" in fields
    ensures r.Err? ==> r.error == KeyError
    ensures r.Ok? ==>
              && r.value.Keys == fields.Keys + {"uuid", "ocean-unique-id"}
              && r.value["ocean-unique-id"] == r.value["uuid"]
              && r.value["uuid"] == (if "uuid" in fields then fields["uuid"] else fields["id"])
              && forall k :: k in fields && k != "uuid" && k != "ocean-unique-id" ==> r.value[k] == fields[k]
  {
    if "uuid" in fields then Ok(fields["ocean-unique-id" := fields["uuid"]])
    else if "id" in fields then Ok(fields["uuid" := fields["id"]]["ocean-unique-id" := fields["id"]])
    else Err(KeyError)
  }

  /** Lines 56-61: when the item has `from`, its converted value is stored
      under `to`; nothing else changes. */
  function Stamp(fields: Fields, from: string, to: string, convert: Value -> Result<Value>): (r: Result<Fields>)
    ensures from !in fields ==> r == Ok(fields)
    ensures from in fields ==> (r.Ok? <==> convert(fields[from]).Ok?)
    ensures from in fields && r.Ok? ==>
              && r.value.Keys == fields.Keys + {to}
              && convert(fields[from]) == Ok(r.value[to])
              && forall k :: k in fields && k != to ==> r.value[k] == fields[k]
    ensures r.Err? ==> from in fields && r == Err(convert(fields[from]).error)
  {
    if from in fields then
      var v :- convert(fields[from]);
      Ok(fields[to := v])
    else Ok(fields)
  }

  /** Lines 48-61: the item's contents once its id and its metadata dates
      are set. */
  function Prepared(fields: Fields, convert: Value -> Result<Value>): (r: Result<Fields>)
    ensures r.Ok? <==> && ("uuid" in fields || "id" in fields)
                       && ("updated_on" in fields ==> convert(fields["updated_on"]).Ok?)
                       && ("timestamp" in fields ==> convert(fields["timestamp"]).Ok?)
  {
    var f1 :- NormaliseId(fields);
    var f2 :- Stamp(f1, "updated_on", "metadata__updated_on", convert);
    Stamp(f2, "timestamp", "metadata__timestamp", convert)
  }

  /** A prepared item keeps every key it had, holds the same value under
      every key `ocean_item` does not write, and has its unique id and its
      converted dates. */
  lemma PreparedFields(fields: Fields, convert: Value -> Result<Value>)
    requires Prepared(fields, convert).Ok?
    ensures var p := Prepared(fields, convert).value;
            && fields.Keys <= p.Keys
            && (forall k :: k in fields && k !in WrittenKeys ==> p[k] == fields[k])
            && "uuid" in p && "ocean-unique-id" in p
            && p["ocean-unique-id"] == p["uuid"] == (if "uuid" in fields then fields["uuid"] else fields["id"])
            && ("updated_on" in fields ==> convert(fields["updated_on"]) == Ok(p["metadata__updated_on"]))
            && ("timestamp" in fields ==> convert(fields["timestamp"]) == Ok(p["metadata__timestamp"]))
  {
    var f1 := NormaliseId(fields).value;
    var f2 := Stamp(f1, "updated_on", "metadata__updated_on", convert).value;
    var p := Stamp(f2, "timestamp", "metadata__timestamp", convert).value;
    assert "timestamp" in fields ==> "timestamp" in f2;
    assert "updated_on" in fields ==> "updated_on" in f1 && f1["updated_on"] == fields["updated_on"];
  }

  /** What one call of `ocean_item` leaves in the item, and the exception
      it raised, if any. An exception leaves the assignments made before it
      in place. */
  datatype Run = Run(fields: Fields, raised: Option<Exc>)

  /** The steps of `ocean_item`, each of which may raise. */
  datatype Step =
    | SetId                                 // lines 48-53
    | SetDate(from: string, to: string)     // lines 56-61
    | Fix                                   // lines 63-67

  const OceanItemSteps: seq<Step> :=
    [SetId, SetDate("updated_on", "metadata__updated_on"), SetDate("timestamp", "metadata__timestamp"), Fix]

  /** One step on the item's contents. A KeyError from `_fix_item` is
      swallowed and leaves the item as it was. */
  function Apply(step: Step, fields: Fields, convert: Value -> Result<Value>, fix: Fields -> Result<Fields>): Result<Fields>
  {
    match step
    case SetId => NormaliseId(fields)
    case SetDate(from, to) => Stamp(fields, from, to, convert)
    case Fix =>
      match fix(fields)
      case Ok(f) => Ok(f)
      case Err(KeyError) => Ok(fields)
      case Err(e) => Err(e)
  }

  /** The steps in order, stopping at the first that raises. */
  function RunSteps(fields: Fields, steps: seq<Step>, convert: Value -> Result<Value>, fix: Fields -> Result<Fields>): Run
    decreases |steps|
  {
    if steps == [] then Run(fields, None)
    else
      match Apply(steps[0], fields, convert, fix)
      case Err(e) => Run(fields, Some(e))
      case Ok(f) => RunSteps(f, steps[1..], convert, fix)
  }

  /** Lines 46-69: one call of `ocean_item`. */
  function OceanItemRun(fields: Fields, convert: Value -> Result<Value>, fix: Fields -> Result<Fields>): (r: Run)
    ensures "uuid" !in fields && "id" !in fields ==> r == Run(fields, Some(KeyError))
  {
    RunSteps(fields, OceanItemSteps, convert, fix)
  }

  /** `ocean_item` completes exactly when the item can be prepared and
      `_fix_item` then succeeds or raises KeyError, and leaves the fixed
      item, or the prepared one when `_fix_item` raised KeyError. An item
      without `uuid` or `id` raises KeyError and is left as it was. */
  lemma OceanItemOutcome(fields: Fields, convert: Value -> Result<Value>, fix: Fields -> Result<Fields>)
    ensures var r := OceanItemRun(fields, convert, fix);
            && ("uuid" !in fields && "id" !in fields ==> r == Run(fields, Some(KeyError)))
            && (r.raised.None? <==>
                  Prepared(fields, convert).Ok? &&
                  (fix(Prepared(fields, convert).value).Ok? || fix(Prepared(fields, convert).value).error == KeyError))
            && (r.raised.None? ==>
                  var p := Prepared(fields, convert).value;
                  r.fields == (if fix(p).Ok? then fix(p).value else p))
  {
    var steps := OceanItemSteps;
    if NormaliseId(fields).Ok? {
      var f1 := NormaliseId(fields).value;
      assert RunSteps(fields, steps, convert, fix) == RunSteps(f1, steps[1..], convert, fix);
      var f2r := Stamp(f1, "updated_on", "metadata__updated_on", convert);
      if f2r.Ok? {
        assert RunSteps(f1, steps[1..], convert, fix) == RunSteps(f2r.value, steps[2..], convert, fix);
        var pr := Stamp(f2r.value, "timestamp", "metadata__timestamp", convert);
        if pr.Ok? {
          assert RunSteps(f2r.value, steps[2..], convert, fix) == RunSteps(pr.value, steps[3..], convert, fix);
        }
      }
    }
  }

  /** Lines 48-53 on the dict in place; on a raise it is left as it was. */
  method SetIdInPlace(item: Doc) returns (raised: Option<Exc>)
    modifies item
    ensures NormaliseId(old(item.fields)) == if raised.None? then Ok(item.fields) else Err(raised.value)
    ensures raised.Some? ==> item.fields == old(item.fields)
  {
    if "uuid" in item.fields {
      item.fields := item.fields["ocean-unique-id" := item.fields["uuid"]];
    } else {
      if "id" !in item.fields {
        return Some(KeyError);
      }
      item.fields := item.fields["uuid" := item.fields["id"]];
      item.fields := item.fields["ocean-unique-id" := item.fields["id"]];
    }
    raised := None;
  }

  /** Lines 56-61, one date at a time, on the dict in place. */
  method SetDateInPlace(ocean: Ocean, item: Doc, from: string, to: string) returns (raised: Option<Exc>)
    modifies item
    ensures Stamp(old(item.fields), from, to, ocean.fromTimestamp) ==
            if raised.None? then Ok(item.fields) else Err(raised.value)
    ensures raised.Some? ==> item.fields == old(item.fields)
  {
    raised := None;
    if from in item.fields {
      var date := ocean.fromTimestamp(item.fields[from]);
      if date.Err? {
        return Some(date.error);
      }
      item.fields := item.fields[to := date.value];
    }
  }

  /** Lines 63-67 on the dict in place. */
  method FixInPlace(ocean: Ocean, item: Doc) returns (raised: Option<Exc>)
    modifies item
    ensures Apply(Fix, old(item.fields), ocean.fromTimestamp, ocean.fixItem) ==
            if raised.None? then Ok(item.fields) else Err(raised.value)
    ensures raised.Some? ==> item.fields == old(item.fields)
  {
    raised := None;
    var fixed := ocean.fixItem(item.fields);
    match fixed {
      case Ok(f) => item.fields := f;
      case Err(KeyError) =>
      case Err(e) => raised := Some(e);
    }
  }

  /** `ocean_item(item)`: normalises the dict in place and returns the same
      dict, or raises. */
  method OceanItem(ocean: Ocean, item: Doc) returns (r: Result<Doc>)
    modifies item
    ensures var run := OceanItemRun(old(item.fields), ocean.fromTimestamp, ocean.fixItem);
            && item.fields == run.fields
            && (r.Ok? <==> run.raised.None?)
            && (r.Ok? ==> r.value == item)
            && (r.Err? ==> run.raised == Some(r.error))
  {
    var steps := OceanItemSteps;
    var convert, fix := ocean.fromTimestamp, ocean.fixItem;
    ghost var f0 := item.fields;
    var raised := SetIdInPlace(item);
    if raised.Some? {
      assert RunSteps(f0, steps, convert, fix) == Run(f0, raised);
      return Err(raised.value);
    }
    ghost var f1 := item.fields;
    assert RunSteps(f0, steps, convert, fix) == RunSteps(f1, steps[1..], convert, fix);
    raised := SetDateInPlace(ocean, item, "updated_on", "metadata__updated_on");
    if raised.Some? {
      assert RunSteps(f1, steps[1..], convert, fix) == Run(f1, raised);
      return Err(raised.value);
    }
    ghost var f2 := item.fields;
    assert RunSteps(f1, steps[1..], convert, fix) == RunSteps(f2, steps[2..], convert, fix);
    raised := SetDateInPlace(ocean, item, "timestamp", "metadata__timestamp");
    if raised.Some? {
      assert RunSteps(f2, steps[2..], convert, fix) == Run(f2, raised);
      return Err(raised.value);
    }
    ghost var f3 := item.fields;
    assert RunSteps(f2, steps[2..], convert, fix) == RunSteps(f3, steps[3..], convert, fix);
    raised := FixInPlace(ocean, item);
    if raised.Some? {
      assert RunSteps(f3, steps[3..], convert, fix) == Run(f3, raised);
      return Err(raised.value);
    }
    assert RunSteps(f3, steps[3..], convert, fix) == RunSteps(item.fields, [], convert, fix);
    r := Ok(item);
  }

  // ---------------------------------------------------------------- batching

  /** After the loop has taken `xs`: the packs already flushed and the pack
      being filled. A full pack (`len >= bulk`) is flushed just before the
      next item is added to a new one. */
  function State<T>(xs: seq<T>, bulk: int): (seq<seq<T>>, seq<T>)
    decreases |xs|
  {
    if xs == [] then ([], [])
    else
      var (flushed, pack) := State(xs[..|xs| - 1], bulk);
      if |pack| >= bulk then (flushed + [pack], [xs[|xs| - 1]])
      else (flushed, pack + [xs[|xs| - 1]])
  }

  /** Taking one more item. */
  lemma StateStep<T>(xs: seq<T>, x: T, bulk: int)
    ensures var (flushed, pack) := State(xs, bulk);
            State(xs + [x], bulk) ==
              if |pack| >= bulk then (flushed + [pack], [x]) else (flushed, pack + [x])
  {
    assert (xs + [x])[..|xs|] == xs;
  }

  /** The packs laid end to end. */
  function Flatten<T>(packs: seq<seq<T>>): seq<T>
    decreases |packs|
  {
    if packs == [] then [] else Flatten(packs[..|packs| - 1]) + packs[|packs| - 1]
  }

  /** Laying out one more pack appends its items. */
  lemma {:induction false} FlattenAppend<T>(packs: seq<seq<T>>, pack: seq<T>)
    ensures Flatten(packs + [pack]) == Flatten(packs) + pack
  {
    assert (packs + [pack])[..|packs|] == packs;
  }

  /** The flushed packs and the open pack hold the items taken, in order. */
  lemma {:induction false} StateHoldsItems<T>(xs: seq<T>, bulk: int)
    ensures Flatten(State(xs, bulk).0) + State(xs, bulk).1 == xs
    decreases |xs|
  {
    if xs != [] {
      var front := xs[..|xs| - 1];
      StateHoldsItems(front, bulk);
      var (flushed, pack) := State(front, bulk);
      if |pack| >= bulk {
        FlattenAppend(flushed, pack);
      }
      assert xs == front + [xs[|xs| - 1]];
    }
  }

  /** Every pack `_items_to_es` receives: the flushed ones and the last.
      Laid end to end they are exactly the items, in order. */
  function Batches<T>(xs: seq<T>, bulk: int): (r: seq<seq<T>>)
    ensures |r| >= 1
    ensures Flatten(r) == xs
  {
    StateHoldsItems(xs, bulk);
    FlattenAppend(State(xs, bulk).0, State(xs, bulk).1);
    State(xs, bulk).0 + [State(xs, bulk).1]
  }

  /** With a bulk size of at least one, every flushed pack is full and the
      open pack holds between one and `bulk` items, or none before the
      first item. */
  lemma {:induction false} StateSizes<T>(xs: seq<T>, bulk: int)
    requires bulk >= 1
    ensures forall i :: 0 <= i < |State(xs, bulk).0| ==> |State(xs, bulk).0[i]| == bulk
    ensures xs == [] <==> State(xs, bulk).1 == []
    ensures |State(xs, bulk).1| <= bulk
    decreases |xs|
  {
    if xs != [] {
      StateSizes(xs[..|xs| - 1], bulk);
    }
  }

  /** With a bulk size of at least one, `ceil(n / bulk)` packs are sent for
      `n >= 1` items, that is the `c` with `(c - 1) * bulk < n <= c * bulk`
      (one empty pack for none); every pack but the last is
      full and the last holds between one and `bulk` items. */
  lemma {:induction false} BatchCount<T>(xs: seq<T>, bulk: int)
    requires bulk >= 1
    ensures xs == [] ==> |Batches(xs, bulk)| == 1
    ensures xs != [] ==> (|Batches(xs, bulk)| - 1) * bulk < |xs| <= |Batches(xs, bulk)| * bulk
    ensures forall i :: 0 <= i < |Batches(xs, bulk)| - 1 ==> |Batches(xs, bulk)[i]| == bulk
    ensures var last := Batches(xs, bulk)[|Batches(xs, bulk)| - 1];
            if xs == [] then last == [] else 1 <= |last| <= bulk
    decreases |xs|
  {
    StateSizes(xs, bulk);
    var (flushed, pack) := State(xs, bulk);
    if xs != [] {
      StateHoldsItems(xs, bulk);
      FlattenFull(flushed, bulk);
      assert |xs| == |flushed| * bulk + |pack|;
      assert (|flushed| + 1) * bulk == |flushed| * bulk + bulk;
    }
  }

  /** Full packs lay out `bulk` items each. */
  lemma {:induction false} FlattenFull<T>(packs: seq<seq<T>>, bulk: int)
    requires forall i :: 0 <= i < |packs| ==> |packs[i]| == bulk
    ensures |Flatten(packs)| == |packs| * bulk
    decreases |packs|
  {
    if packs != [] {
      var front := packs[..|packs| - 1];
      assert forall i :: 0 <= i < |front| ==> front[i] == packs[i];
      FlattenFull(front, bulk);
      assert |Flatten(packs)| == |Flatten(front)| + |packs[|packs| - 1]|;
      assert |packs| * bulk == |front| * bulk + bulk;
    }
  }

  /** With a bulk size of zero or less, every item finds the pack full: the
      first call sends an empty pack and every item then goes alone. */
  lemma {:induction false} BatchesOfNoBulk<T>(xs: seq<T>, bulk: int)
    requires bulk <= 0
    ensures |Batches(xs, bulk)| == |xs| + 1
    ensures Batches(xs, bulk)[0] == []
    ensures forall i :: 0 <= i < |xs| ==> Batches(xs, bulk)[i + 1] == [xs[i]]
    decreases |xs|
  {
    if xs != [] {
      var front := xs[..|xs| - 1];
      BatchesOfNoBulk(front, bulk);
      assert forall i :: 0 <= i < |front| ==> front[i] == xs[i];
    }
  }

  // ----------------------------------------------------------------- data2es

  /** Lines 75-78: a full pack is sent before the item starts a new one.
      With `taken` the items already added, the packs sent and the open
      pack move on to those of `taken + [item]`. */
  method AddToPack(ocean: Ocean, ghost sent0: seq<seq<Doc>>, ghost taken: seq<Doc>, pack: seq<Doc>, item: Doc)
    returns (next: seq<Doc>)
    requires pack == State(taken, ocean.maxItemsBulk).1
    requires ocean.sent == sent0 + State(taken, ocean.maxItemsBulk).0
    modifies ocean
    ensures next == State(taken + [item], ocean.maxItemsBulk).1
    ensures ocean.sent == sent0 + State(taken + [item], ocean.maxItemsBulk).0
  {
    StateStep(taken, item, ocean.maxItemsBulk);
    next := pack;
    if |next| >= ocean.maxItemsBulk {
      var _ := ocean.ItemsToEs(next);
      next := [];
    }
    next := next + [item];
  }

  /** Lines 74-78: one turn of the loop. The item is run through
      `ocean_item`; unless that raised, it is added to the packs. */
  method LoadOne(ocean: Ocean, ghost sent0: seq<seq<Doc>>, ghost taken: seq<Doc>, pack: seq<Doc>, item: Doc)
    returns (next: seq<Doc>, raised: Option<Exc>)
    requires pack == State(taken, ocean.maxItemsBulk).1
    requires ocean.sent == sent0 + State(taken, ocean.maxItemsBulk).0
    modifies ocean, item
    ensures OceanItemRun(old(item.fields), ocean.fromTimestamp, ocean.fixItem) == Run(item.fields, raised)
    ensures raised.None? ==> next == State(taken + [item], ocean.maxItemsBulk).1
    ensures raised.None? ==> ocean.sent == sent0 + State(taken + [item], ocean.maxItemsBulk).0
    ensures raised.Some? ==> ocean.sent == old(ocean.sent)
  {
    var done := OceanItem(ocean, item);
    if done.Err? {
      return pack, Some(done.error);
    }
    next := AddToPack(ocean, sent0, taken, pack, item);
    raised := None;
  }

  /** `ocean_item` turned `before` into `after` without raising. */
  predicate Normalised(ocean: Ocean, before: Fields, after: Fields)
  {
    OceanItemRun(before, ocean.fromTimestamp, ocean.fixItem) == Run(after, None)
  }

  /** The contents of the item dicts. */
  function Contents(items: seq<Doc>): (r: seq<Fields>)
    reads items
    ensures |r| == |items|
    ensures forall i :: 0 <= i < |items| ==> r[i] == items[i].fields
  {
    if items == [] then [] else Contents(items[..|items| - 1]) + [items[|items| - 1].fields]
  }

  /** The items are distinct dicts. */
  predicate Distinct(items: seq<Doc>)
  {
    forall i, j :: 0 <= i < j < |items| ==> items[i] != items[j]
  }

  /** Lines 73-78: one turn of the loop over `items`, on item `i`. The
      items before it are done, the others still hold `olds`; the item is
      run through `ocean_item` and, unless that raised, added to the
      packs. */
  method LoadStep(items: seq<Doc>, ocean: Ocean, i: nat, pack: seq<Doc>, ghost sent0: seq<seq<Doc>>, ghost olds: seq<Fields>)
    returns (next: seq<Doc>, raised: Option<Exc>)
    requires Distinct(items) && i < |items| == |olds|
    requires pack == State(items[..i], ocean.maxItemsBulk).1
    requires ocean.sent == sent0 + State(items[..i], ocean.maxItemsBulk).0
    requires forall j :: 0 <= j < i ==> Normalised(ocean, olds[j], items[j].fields)
    requires forall j :: i <= j < |items| ==> items[j].fields == olds[j]
    modifies ocean, items[i]
    ensures forall j :: 0 <= j < i ==> Normalised(ocean, olds[j], items[j].fields)
    ensures forall j :: i < j < |items| ==> items[j].fields == olds[j]
    ensures OceanItemRun(olds[i], ocean.fromTimestamp, ocean.fixItem) == Run(items[i].fields, raised)
    ensures raised.None? ==> next == State(items[..i + 1], ocean.maxItemsBulk).1
    ensures raised.None? ==> ocean.sent == sent0 + State(items[..i + 1], ocean.maxItemsBulk).0
    ensures raised.Some? ==> ocean.sent == old(ocean.sent)
  {
    assert items[..i + 1] == items[..i] + [items[i]];
    next, raised := LoadOne(ocean, sent0, items[..i], pack, items[i]);
  }

  /** Lines 45-81: `data2es(items, ocean)`. The first `done` items have
      been run through `ocean_item` without raising. On success that is
      all of them and the backend has received the packs of the batching
      above; the result is what the last call reports. When `ocean_item`
      raises on the next item, that item holds what the raise left, the
      rest are untouched, and only the packs flushed before it were
      sent. */
  method Data2Es(items: seq<Doc>, ocean: Ocean) returns (r: Result<int>, ghost done: nat)
    requires Distinct(items)
    modifies ocean, items
    ensures done <= |items|
    ensures forall i :: 0 <= i < done ==> Normalised(ocean, old(items[i].fields), items[i].fields)
    ensures r.Ok? ==>
              && done == |items|
              && ocean.sent == old(ocean.sent) + Batches(items, ocean.maxItemsBulk)
              && r.value == |State(items, ocean.maxItemsBulk).1|
    ensures r.Err? ==>
              && done < |items|
              && OceanItemRun(old(items[done].fields), ocean.fromTimestamp, ocean.fixItem) ==
                 Run(items[done].fields, Some(r.error))
              && (forall i :: done < i < |items| ==> items[i].fields == old(items[i].fields))
              && ocean.sent == old(ocean.sent) + State(items[..done], ocean.maxItemsBulk).0
  {
    ghost var olds := Contents(items);
    var pack: seq<Doc> := [];
    var i := 0;
    while i < |items|
      invariant 0 <= i <= |items|
      invariant pack == State(items[..i], ocean.maxItemsBulk).1
      invariant ocean.sent == old(ocean.sent) + State(items[..i], ocean.maxItemsBulk).0
      invariant forall j :: 0 <= j < i ==> Normalised(ocean, olds[j], items[j].fields)
      invariant forall j :: i <= j < |items| ==> items[j].fields == olds[j]
    {
      var raised;
      pack, raised := LoadStep(items, ocean, i, pack, old(ocean.sent), olds);
      if raised.Some? {
        r, done := Err(raised.value), i;
        return;
      }
      i := i + 1;
    }
    assert items[..i] == items;
    var inserted := ocean.ItemsToEs(pack);
    r, done := Ok(inserted), i;
  }

  // ------------------------------------------------------- refresh loops

  /** The enrich backend the refresh loops use: its `roles` attribute, if
      it has one, and the collaborators giving the identities of an
      enriched item and its project (each as the fields to merge in). */
  class EnrichBackend {
    const roles: Option<Value>
    const itemShFromId: (Fields, Value) -> Fields
    const itemProject: Fields -> Fields

    constructor (roles: Option<Value>, itemShFromId: (Fields, Value) -> Fields, itemProject: Fields -> Fields)
      ensures this.roles == roles && this.itemShFromId == itemShFromId && this.itemProject == itemProject
    {
      this.roles := roles;
      this.itemShFromId := itemShFromId;
      this.itemProject := itemProject;
    }

    /** `enrich_backend.roles`, or None when the attribute is missing. */
    function RolesOrNone(): (r: Value)
      ensures roles.Some? ==> r == roles.value
      ensures roles.None? ==> r == PyNone
    {
      if roles.Some? then roles.value else PyNone
    }
  }

  /** Lines 84-97: `refresh_identities` over the fetched items: each is
      updated with its identities and the result is how many there were. */
  method RefreshIdentities(backend: EnrichBackend, eitems: seq<Doc>) returns (total: int)
    requires Distinct(eitems)
    modifies eitems
    ensures total == |eitems|
    ensures forall i :: 0 <= i < |eitems| ==>
              eitems[i].fields == old(eitems[i].fields) + backend.itemShFromId(old(eitems[i].fields), backend.RolesOrNone())
  {
    total := 0;
    var i := 0;
    while i < |eitems|
      invariant 0 <= i <= |eitems| && total == i
      invariant forall j :: 0 <= j < i ==>
                  eitems[j].fields == old(eitems[j].fields) + backend.itemShFromId(old(eitems[j].fields), backend.RolesOrNone())
      invariant forall j :: i <= j < |eitems| ==> eitems[j].fields == old(eitems[j].fields)
    {
      var eitem := eitems[i];
      var roles := backend.RolesOrNone();
      var newIdentities := backend.itemShFromId(eitem.fields, roles);
      eitem.fields := eitem.fields + newIdentities;
      total := total + 1;
      i := i + 1;
    }
  }

  /** Lines 100-108: `refresh_projects` over the fetched items: each is
      updated with its project and the result is how many there were. */
  method RefreshProjects(backend: EnrichBackend, eitems: seq<Doc>) returns (total: int)
    requires Distinct(eitems)
    modifies eitems
    ensures total == |eitems|
    ensures forall i :: 0 <= i < |eitems| ==>
              eitems[i].fields == old(eitems[i].fields) + backend.itemProject(old(eitems[i].fields))
  {
    total := 0;
    var i := 0;
    while i < |eitems|
      invariant 0 <= i <= |eitems| && total == i
      invariant forall j :: 0 <= j < i ==>
                  eitems[j].fields == old(eitems[j].fields) + backend.itemProject(old(eitems[j].fields))
      invariant forall j :: i <= j < |eitems| ==> eitems[j].fields == old(eitems[j].fields)
    {
      var eitem := eitems[i];
      var newProject := backend.itemProject(eitem.fields);
      eitem.fields := eitem.fields + newProject;
      total := total + 1;
      i := i + 1;
    }
  }
}
