/**
 * The state `PromptManager` owns, as a value, with the transitions and queries over it that do
 * not depend on the object: resolving id lists, the recents list, the favourite toggle, the
 * merge by id that both loading and importing perform, and the category and usage summaries.
 */
module Library {
  import opened Wrappers
  import opened Seqs
  import opened Strings
  import opened PromptModel
  import opened DefaultPrompts
  import opened Search

  /**
   * `_prompts`, with its keys in insertion order (the iteration order of a `Map`),
   * `_recentPrompts`, and `_favorites` in insertion order (the iteration order of a `Set`).
   */
  datatype Store = Store(
    prompts: map<string, Prompt>,
    order: seq<string>,
    recent: seq<string>,
    favorites: seq<string>)

  /** `order` lists every key of `prompts` exactly once. */
  predicate KeysInOrder(prompts: map<string, Prompt>, order: seq<string>) {
    Distinct(order) && (forall k :: k in order ==> k in prompts) && (forall k :: k in prompts ==> k in order)
  }

  /** Every record is stored under its own id. */
  predicate KeyedById(prompts: map<string, Prompt>) {
    forall k :: k in prompts ==> prompts[k].id == k
  }

  // ---------------------------------------------------------------------------------------------
  // Resolving id lists

  /**
   * `ids.map(id => this._prompts.get(id)).filter(p => p !== undefined)`: the records of the
   * stored ids, in the order of `ids`; ids with no record are dropped.
   */
  function Resolve(prompts: map<string, Prompt>, ids: seq<string>): seq<Prompt> {
    if ids == [] then []
    else if ids[0] in prompts then [prompts[ids[0]]] + Resolve(prompts, ids[1..])
    else Resolve(prompts, ids[1..])
  }

  /** Every resolved record is the stored record of an id in the list. */
  lemma {:induction false} ResolveFrom(prompts: map<string, Prompt>, ids: seq<string>)
    ensures |Resolve(prompts, ids)| <= |ids|
    ensures forall p :: p in Resolve(prompts, ids) ==> exists k :: k in ids && k in prompts && prompts[k] == p
  {
    if ids != [] {
      ResolveFrom(prompts, ids[1..]);
      assert forall k :: k in ids[1..] ==> k in ids;
    }
  }

  /** Every stored id of the list contributes its record. */
  lemma {:induction false} ResolveCovers(prompts: map<string, Prompt>, ids: seq<string>)
    ensures forall k :: k in ids && k in prompts ==> prompts[k] in Resolve(prompts, ids)
  {
    if ids != [] {
      ResolveCovers(prompts, ids[1..]);
      assert forall k :: k in ids ==> k == ids[0] || k in ids[1..];
    }
  }

  /** When every id is stored, the resolved records line up with the ids. */
  lemma {:induction false} ResolveAligned(prompts: map<string, Prompt>, ids: seq<string>)
    requires forall k :: k in ids ==> k in prompts
    ensures |Resolve(prompts, ids)| == |ids|
    ensures forall i :: 0 <= i < |ids| ==> Resolve(prompts, ids)[i] == prompts[ids[i]]
  {
    if ids != [] {
      assert forall k :: k in ids[1..] ==> k in ids;
      ResolveAligned(prompts, ids[1..]);
    }
  }

  /**
   * The resolved records are stored ones named in `ids`, every stored id contributes its record,
   * and when every id is stored the result lines up with `ids`.
   */
  lemma ResolveFacts(prompts: map<string, Prompt>, ids: seq<string>)
    ensures var r := Resolve(prompts, ids);
            |r| <= |ids| &&
            (forall p :: p in r ==> exists k :: k in ids && k in prompts && prompts[k] == p) &&
            (forall k :: k in ids && k in prompts ==> prompts[k] in r) &&
            ((forall k :: k in ids ==> k in prompts) ==>
               |r| == |ids| && forall i :: 0 <= i < |ids| ==> r[i] == prompts[ids[i]])
  {
    ResolveFrom(prompts, ids);
    ResolveCovers(prompts, ids);
    if forall k :: k in ids ==> k in prompts {
      ResolveAligned(prompts, ids);
    }
  }

  /** Resolving a list extended by one id extends the result by that id's record, if stored. */
  lemma {:induction false} ResolveSnoc(prompts: map<string, Prompt>, ids: seq<string>, k: string)
    ensures Resolve(prompts, ids + [k]) == Resolve(prompts, ids) + (if k in prompts then [prompts[k]] else [])
  {
    if ids == [] {
      assert ids + [k] == [k];
    } else {
      assert (ids + [k])[1..] == ids[1..] + [k];
      ResolveSnoc(prompts, ids[1..], k);
    }
  }

  /** `Array.from(this._prompts.values())`. */
  function Values(st: Store): seq<Prompt> {
    Resolve(st.prompts, st.order)
  }

  /** An order listing every key once has one entry per record. */
  lemma OrderCount(prompts: map<string, Prompt>, order: seq<string>)
    requires KeysInOrder(prompts, order)
    ensures |order| == |prompts|
  {
    DistinctCardinality(order);
    assert prompts.Keys == set x | x in order;
  }

  /** With `order` listing the keys, the values are exactly the stored records, one per key. */
  lemma ValuesOfStore(st: Store)
    requires KeysInOrder(st.prompts, st.order)
    ensures |Values(st)| == |st.order| == |st.prompts|
    ensures forall i :: 0 <= i < |st.order| ==> Values(st)[i] == st.prompts[st.order[i]]
    ensures forall p :: p in Values(st) <==> p in st.prompts.Values
  {
    var r := Values(st);
    ResolveFacts(st.prompts, st.order);
    OrderCount(st.prompts, st.order);
    forall p | p in st.prompts.Values ensures p in r {
      var k :| k in st.prompts && st.prompts[k] == p;
      assert k in st.order;
    }
    forall p | p in r ensures p in st.prompts.Values {
      var k :| k in st.order && k in st.prompts && st.prompts[k] == p;
    }
  }

  /**
   * `updatePrompt` changes the record in place, under its old key: the map stays keyed by id
   * exactly when the update sets no `id`, or sets the one it already has.
   */
  lemma UpdateKeyedById(prompts: map<string, Prompt>, id: string, u: PromptUpdate, now: int)
    requires KeyedById(prompts) && id in prompts
    ensures KeyedById(prompts[id := ApplyUpdate(prompts[id], u, now)]) <==> u.id.None? || u.id.value == id
  {
    var after := prompts[id := ApplyUpdate(prompts[id], u, now)];
    assert after[id].id == (if u.id.Some? then u.id.value else id);
  }

  /** `deletePrompt` removes the id from the map and from the key order alike. */
  lemma DeleteKeysInOrder(prompts: map<string, Prompt>, order: seq<string>, id: string)
    requires KeysInOrder(prompts, order)
    ensures KeysInOrder(prompts - {id}, Remove(order, id))
  {
    var rest := Remove(order, id);
    forall k | k in prompts - {id} ensures k in rest {
      assert k in order && k != id;
    }
  }

  // ---------------------------------------------------------------------------------------------
  // The recents list

  /**
   * The cap `markAsUsed` applies: the `max-recent-prompts` setting, or 10 when there are no
   * settings or the setting is 0 (`get_int(...) || 10`).
   */
  function MaxRecent(setting: Option<int>): (n: int)
    ensures n != 0
  {
    if setting.None? || setting.value == 0 then 10 else setting.value
  }

  /** The list `markAsUsed` builds before cutting it: `id` in front of the others. */
  lemma MovedFacts(recent: seq<string>, id: string)
    ensures var moved := [id] + Remove(recent, id);
            moved[0] == id && (forall i :: 0 < i < |moved| ==> moved[i] != id) &&
            (forall x :: x in moved ==> x == id || x in recent) &&
            (Distinct(recent) ==> Distinct(moved))
  {
    var others := Remove(recent, id);
    assert forall i :: 0 < i < |[id] + others| ==> ([id] + others)[i] == others[i - 1];
    assert forall i :: 0 <= i < |others| ==> others[i] in others;
  }

  /**
   * `markAsUsed`'s update of `_recentPrompts`: remove `id`, put it in front, and cut the list to
   * `maxRecent` entries with `slice(0, maxRecent)` when it is longer.
   */
  function PromoteRecent(recent: seq<string>, id: string, setting: Option<int>): (r: seq<string>)
    ensures forall x :: x in r ==> x == id || x in recent
    ensures forall i :: 0 < i < |r| ==> r[i] != id
    ensures Distinct(recent) ==> Distinct(r)
    ensures IsSubsequence(r, [id] + Remove(recent, id))
    ensures MaxRecent(setting) > 0 ==>
              0 < |r| <= MaxRecent(setting) && r[0] == id &&
              |r| == (if 1 + |Remove(recent, id)| < MaxRecent(setting) then 1 + |Remove(recent, id)| else MaxRecent(setting)) &&
              r[1..] == Remove(recent, id)[..|r| - 1]
  {
    var moved := [id] + Remove(recent, id);
    MovedFacts(recent, id);
    var k := if |moved| > MaxRecent(setting) then SliceEnd(|moved|, MaxRecent(setting)) else |moved|;
    PrefixFacts(moved, k);
    assert forall i :: 0 <= i < k ==> moved[..k][i] == moved[i];
    assert k == |moved| ==> moved[..k] == moved;
    assert |moved| > MaxRecent(setting) ==> moved[..k] == Slice(moved, MaxRecent(setting));
    assert k > 0 ==> moved[..k][1..] == Remove(recent, id)[..k - 1];
    if |moved| > MaxRecent(setting) then Slice(moved, MaxRecent(setting)) else moved
  }

  /** Using the same prompt twice in a row leaves the recents list as using it once. */
  lemma PromoteTwice(recent: seq<string>, id: string, setting: Option<int>)
    requires MaxRecent(setting) > 0
    ensures PromoteRecent(PromoteRecent(recent, id, setting), id, setting) == PromoteRecent(recent, id, setting)
  {
    var once := PromoteRecent(recent, id, setting);
    assert once == [once[0]] + once[1..];
    RemoveAbsent(once[1..], id);
    RemoveConcat([id], once[1..], id);
  }

  /** The recents list after using `ids` one after another, the last one most recently. */
  function UseAll(recent: seq<string>, ids: seq<string>, setting: Option<int>): seq<string>
    decreases |ids|
  {
    if ids == [] then recent
    else PromoteRecent(UseAll(recent, ids[..|ids| - 1], setting), ids[|ids| - 1], setting)
  }

  /** Removing an id that a prefix does not hold keeps that prefix. */
  lemma RemoveKeepsPrefix(s: seq<string>, p: seq<string>, id: string)
    requires |p| <= |s| && s[..|p|] == p && id !in p
    ensures |p| <= |Remove(s, id)| && Remove(s, id)[..|p|] == p
  {
    assert s == p + s[|p|..];
    RemoveConcat(p, s[|p|..], id);
    RemoveAbsent(p, id);
  }

  /** Using `id` puts it in front of whatever prefix of the list does not hold it. */
  lemma PromoteFront(before: seq<string>, id: string, setting: Option<int>, front: seq<string>)
    requires MaxRecent(setting) > 0 && |front| <= |before| && before[..|front|] == front && id !in front
    ensures var n := if |front| + 1 < MaxRecent(setting) then |front| + 1 else MaxRecent(setting);
            n <= |PromoteRecent(before, id, setting)| &&
            PromoteRecent(before, id, setting)[..n] == ([id] + front)[..n]
  {
    var after := PromoteRecent(before, id, setting);
    RemoveKeepsPrefix(before, front, id);
    var n := if |front| + 1 < MaxRecent(setting) then |front| + 1 else MaxRecent(setting);
    forall i | 0 <= i < n ensures after[i] == ([id] + front)[i] {
      if i > 0 {
        assert after[i] == after[1..][i - 1];
        assert Remove(before, id)[..|front|][i - 1] == front[i - 1];
      }
    }
  }

  /**
   * After a run of distinct prompts is used, the recents list starts with them, most recent
   * first, as far as the cap allows.
   */
  lemma {:induction false} UseAllFront(recent: seq<string>, ids: seq<string>, setting: Option<int>)
    requires MaxRecent(setting) > 0 && Distinct(ids)
    ensures var n := if |ids| < MaxRecent(setting) then |ids| else MaxRecent(setting);
            n <= |UseAll(recent, ids, setting)| && UseAll(recent, ids, setting)[..n] == Reverse(ids)[..n]
    ensures ids != [] ==> |UseAll(recent, ids, setting)| <= MaxRecent(setting)
    decreases |ids|
  {
    if ids != [] {
      DistinctSnoc(ids);
      UseAllFront(recent, ids[..|ids| - 1], setting);
      UseAllStep(UseAll(recent, ids[..|ids| - 1], setting), ids, setting);
    }
  }

  /** The step of `UseAllFront`: the last id, new to the run before it, goes in front of it. */
  lemma UseAllStep(before: seq<string>, ids: seq<string>, setting: Option<int>)
    requires MaxRecent(setting) > 0 && ids != [] && ids[|ids| - 1] !in ids[..|ids| - 1]
    requires var n0 := if |ids| - 1 < MaxRecent(setting) then |ids| - 1 else MaxRecent(setting);
             n0 <= |before| && before[..n0] == Reverse(ids[..|ids| - 1])[..n0]
    ensures var n := if |ids| < MaxRecent(setting) then |ids| else MaxRecent(setting);
            var after := PromoteRecent(before, ids[|ids| - 1], setting);
            n <= |after| <= MaxRecent(setting) && after[..n] == Reverse(ids)[..n]
  {
    var init := ids[..|ids| - 1];
    var last := ids[|ids| - 1];
    var max := MaxRecent(setting);
    var n0 := if |init| < max then |init| else max;
    var front := Reverse(init)[..n0];
    ReversePrefixElements(init, n0);
    PromoteFront(before, last, setting, front);
    assert Reverse(ids) == [last] + Reverse(init) by {
      ReverseSnoc(init, last);
      assert init + [last] == ids;
    }
    var n := if |ids| < max then |ids| else max;
    assert n == if |front| + 1 < max then |front| + 1 else max;
    assert ([last] + front)[..n] == Reverse(ids)[..n] by {
      assert forall i :: 0 < i < n ==> ([last] + front)[i] == Reverse(init)[i - 1];
    }
  }

  /**
   * Using more distinct prompts than the cap leaves exactly the cap's worth of them, most recent
   * first, whatever the list held before.
   */
  lemma RecentCap(recent: seq<string>, ids: seq<string>, setting: Option<int>)
    requires MaxRecent(setting) > 0 && Distinct(ids) && |ids| >= MaxRecent(setting)
    ensures UseAll(recent, ids, setting) == Reverse(ids)[..MaxRecent(setting)]
  {
    UseAllFront(recent, ids, setting);
  }

  // ---------------------------------------------------------------------------------------------
  // Favourites

  /** `toggleFavorite` on the `Set`: delete the id when present, otherwise add it at the end. */
  function Toggle(favorites: seq<string>, id: string): (r: seq<string>)
    ensures id in r <==> id !in favorites
    ensures forall x :: x != id ==> (x in r <==> x in favorites)
    ensures Distinct(favorites) ==> Distinct(r)
  {
    if id in favorites then Remove(favorites, id) else favorites + [id]
  }

  /**
   * Toggling the same id twice restores the set; when the id was not a favourite it restores
   * the insertion order as well.
   */
  lemma ToggleTwice(favorites: seq<string>, id: string)
    ensures forall x :: x in Toggle(Toggle(favorites, id), id) <==> x in favorites
    ensures id !in favorites ==> Toggle(Toggle(favorites, id), id) == favorites
  {
    var once := Toggle(favorites, id);
    if id !in favorites {
      assert once == favorites + [id];
      RemoveSnoc(favorites, id, id);
      RemoveAbsent(favorites, id);
    } else {
      assert id !in once;
      assert Toggle(once, id) == once + [id];
    }
  }

  // ---------------------------------------------------------------------------------------------
  // Merging records by id

  /** The map and key order after a merge, with `importData`'s three counters. */
  datatype Merge = Merge(
    prompts: map<string, Prompt>,
    order: seq<string>,
    imported: nat,
    skipped: nat,
    updated: nat)

  /**
   * One pass of `importData`'s `forEach`: a new id is inserted (and goes to the end of the key
   * order); an existing id is replaced in place under `overwrite` and left alone otherwise.
   */
  function ImportOne(m: Merge, p: Prompt, overwrite: bool): Merge {
    if p.id in m.prompts then
      if overwrite then m.(prompts := m.prompts[p.id := p], updated := m.updated + 1)
      else m.(skipped := m.skipped + 1)
    else m.(prompts := m.prompts[p.id := p], order := m.order + [p.id], imported := m.imported + 1)
  }

  /** No later record of `s` has the id of `s[i]`: the one an overwriting merge keeps. */
  predicate LastOfId(s: seq<Prompt>, i: int)
    requires 0 <= i < |s|
  {
    forall j :: i < j < |s| ==> s[j].id != s[i].id
  }

  /** No earlier record of `s` has the id of `s[i]`: the one a skipping merge keeps. */
  predicate FirstOfId(s: seq<Prompt>, i: int)
    requires 0 <= i < |s|
  {
    forall j :: 0 <= j < i ==> s[j].id != s[i].id
  }

  /**
   * The records of `incoming` merged, in order, into the merge so far: the `forEach` of
   * `importData`, and, from the empty map with every record taken, those of `_parseLoadedData`
   * and `_loadDefaultPrompts`.
   */
  function MergeAll(m: Merge, incoming: seq<Prompt>, overwrite: bool): (r: Merge)
    ensures m.prompts.Keys <= r.prompts.Keys
    decreases |incoming|
  {
    if incoming == [] then m
    else MergeAll(ImportOne(m, incoming[0], overwrite), incoming[1..], overwrite)
  }

  /** After a merge the keys are the old keys and the incoming ids. */
  lemma {:induction false} MergeKeys(m: Merge, incoming: seq<Prompt>, overwrite: bool)
    ensures var r := MergeAll(m, incoming, overwrite);
            forall k :: k in r.prompts <==> k in m.prompts || k in Ids(incoming)
    decreases |incoming|
  {
    if incoming != [] {
      IdsUncons(incoming);
      MergeKeys(ImportOne(m, incoming[0], overwrite), incoming[1..], overwrite);
    }
  }

  /** One record of a merge taken off the front of what remains to be merged. */
  lemma MergeStep(m: Merge, incoming: seq<Prompt>, i: nat, overwrite: bool)
    requires i < |incoming|
    ensures MergeAll(m, incoming[i..], overwrite) == MergeAll(ImportOne(m, incoming[i], overwrite), incoming[i + 1..], overwrite)
  {
    assert incoming[i..][1..] == incoming[i + 1..];
  }

  /** The merge `importData` starts from: the stored records and no counts. */
  function Start(prompts: map<string, Prompt>, order: seq<string>): Merge {
    Merge(prompts, order, 0, 0, 0)
  }

  /** A merge appends each inserted key to the key order, so the order keeps listing the keys. */
  lemma {:induction false} MergeKeysInOrder(m: Merge, incoming: seq<Prompt>, overwrite: bool)
    requires KeysInOrder(m.prompts, m.order)
    ensures var r := MergeAll(m, incoming, overwrite);
            KeysInOrder(r.prompts, r.order)
    decreases |incoming|
  {
    if incoming != [] {
      MergeKeysInOrder(ImportOne(m, incoming[0], overwrite), incoming[1..], overwrite);
    }
  }

  /**
   * Every incoming record is counted once, as imported, skipped or updated; only inserted
   * records extend the key order, which keeps its old keys in front.
   */
  lemma {:induction false} MergeCounts(m: Merge, incoming: seq<Prompt>, overwrite: bool)
    ensures var r := MergeAll(m, incoming, overwrite);
            r.imported + r.skipped + r.updated == m.imported + m.skipped + m.updated + |incoming| &&
            r.imported >= m.imported && |r.order| == |m.order| + (r.imported - m.imported) &&
            r.order[..|m.order|] == m.order &&
            (!overwrite ==> r.updated == m.updated)
    decreases |incoming|
  {
    if incoming != [] {
      var next := ImportOne(m, incoming[0], overwrite);
      MergeCounts(next, incoming[1..], overwrite);
      var r := MergeAll(next, incoming[1..], overwrite);
      assert r.order[..|next.order|][..|m.order|] == r.order[..|m.order|];
    }
  }

  /** A merge adds one key per record it inserts. */
  lemma {:induction false} MergeCount(m: Merge, incoming: seq<Prompt>, overwrite: bool)
    ensures var r := MergeAll(m, incoming, overwrite);
            |r.prompts| - |m.prompts| == r.imported - m.imported
    decreases |incoming|
  {
    if incoming != [] {
      MergeCount(ImportOne(m, incoming[0], overwrite), incoming[1..], overwrite);
    }
  }

  /** Merging by id stores every record under its own id, if the map did so before. */
  lemma {:induction false} MergeKeyedById(m: Merge, incoming: seq<Prompt>, overwrite: bool)
    requires KeyedById(m.prompts)
    ensures KeyedById(MergeAll(m, incoming, overwrite).prompts)
    decreases |incoming|
  {
    if incoming != [] {
      MergeKeyedById(ImportOne(m, incoming[0], overwrite), incoming[1..], overwrite);
    }
  }

  /**
   * After a merge every record is an incoming one or the one stored before under the same key,
   * and a key no incoming record names keeps its record.
   */
  lemma {:induction false} MergeProvenance(m: Merge, incoming: seq<Prompt>, overwrite: bool)
    ensures var r := MergeAll(m, incoming, overwrite);
            (forall k :: k in r.prompts ==> r.prompts[k] in incoming || (k in m.prompts && r.prompts[k] == m.prompts[k])) &&
            (forall k :: k in m.prompts && k !in Ids(incoming) ==> r.prompts[k] == m.prompts[k])
    decreases |incoming|
  {
    if incoming != [] {
      MergeProvenance(ImportOne(m, incoming[0], overwrite), incoming[1..], overwrite);
      IdsUncons(incoming);
    }
  }

  /** A merge that does not overwrite leaves every existing record as it was. */
  lemma {:induction false} MergeSkipKeepsExisting(m: Merge, incoming: seq<Prompt>)
    ensures var r := MergeAll(m, incoming, false);
            forall k :: k in m.prompts ==> r.prompts[k] == m.prompts[k]
    decreases |incoming|
  {
    if incoming != [] {
      MergeSkipKeepsExisting(ImportOne(m, incoming[0], false), incoming[1..]);
    }
  }

  /** Under `overwrite`, the last incoming record with an id is the one stored under it. */
  lemma {:induction false} MergeOverwriteLastWins(m: Merge, incoming: seq<Prompt>, i: nat)
    requires i < |incoming| && LastOfId(incoming, i)
    ensures incoming[i].id in MergeAll(m, incoming, true).prompts
    ensures MergeAll(m, incoming, true).prompts[incoming[i].id] == incoming[i]
    decreases |incoming|
  {
    var next := ImportOne(m, incoming[0], true);
    if i == 0 {
      MergeProvenance(next, incoming[1..], true);
      assert incoming[0].id !in Ids(incoming[1..]) by {
        assert forall j :: 0 <= j < |incoming[1..]| ==> incoming[1..][j] == incoming[j + 1];
      }
    } else {
      assert incoming[1..][i - 1] == incoming[i];
      assert LastOfId(incoming[1..], i - 1);
      MergeOverwriteLastWins(next, incoming[1..], i - 1);
    }
  }

  /** Without `overwrite`, the first incoming record with a new id is the one stored under it. */
  lemma {:induction false} MergeSkipFirstWins(m: Merge, incoming: seq<Prompt>, i: nat)
    requires i < |incoming| && incoming[i].id !in m.prompts && FirstOfId(incoming, i)
    ensures incoming[i].id in MergeAll(m, incoming, false).prompts
    ensures MergeAll(m, incoming, false).prompts[incoming[i].id] == incoming[i]
    decreases |incoming|
  {
    var next := ImportOne(m, incoming[0], false);
    if i == 0 {
      MergeSkipKeepsExisting(next, incoming[1..]);
    } else {
      assert incoming[1..][i - 1] == incoming[i];
      assert FirstOfId(incoming[1..], i - 1);
      MergeSkipFirstWins(next, incoming[1..], i - 1);
    }
  }

  /**
   * Records with distinct ids, none of them stored yet, are all inserted, and their ids follow
   * the existing keys in the order they came.
   */
  lemma {:induction false} MergeFresh(m: Merge, incoming: seq<Prompt>, overwrite: bool)
    requires Distinct(Ids(incoming)) && forall p :: p in incoming ==> p.id !in m.prompts
    ensures var r := MergeAll(m, incoming, overwrite);
            r.order == m.order + Ids(incoming) && r.imported == m.imported + |incoming|
    decreases |incoming|
  {
    if incoming == [] {
      assert m.order + Ids(incoming) == m.order;
    } else {
      var rest := incoming[1..];
      var next := ImportOne(m, incoming[0], overwrite);
      IdsUncons(incoming);
      DistinctUncons(Ids(incoming));
      assert forall p :: p in rest ==> p.id in Ids(rest) && p in incoming;
      MergeFresh(next, rest, overwrite);
      ConcatAssoc(m.order, [incoming[0].id], Ids(rest));
    }
  }

  // ---------------------------------------------------------------------------------------------
  // The stored document

  /**
   * The properties of a parsed `prompts.json` document (or of an object handed to `importData`)
   * that the manager reads; `None` stands for a missing or falsy property.
   */
  datatype Document = Document(
    prompts: Option<seq<Prompt>>,
    recentPrompts: Option<seq<string>>,
    favorites: Option<seq<string>>)

  /** The document `_savePrompts` and `exportData` build (the version and date are left out). */
  function SaveDocument(st: Store): Document {
    Document(Some(Values(st)), Some(st.recent), Some(st.favorites))
  }

  /** The state `_parseLoadedData` builds on a freshly constructed manager. */
  function ParseLoaded(doc: Document): (st: Store)
    ensures KeysInOrder(st.prompts, st.order) && KeyedById(st.prompts) && Distinct(st.favorites)
    ensures st.recent == doc.recentPrompts.GetOr([])
    ensures forall x :: x in st.favorites ==> doc.favorites.Some? && x in doc.favorites.value
    ensures doc.favorites.Some? ==> forall x :: x in doc.favorites.value ==> x in st.favorites
  {
    var m := MergeAll(Start(map[], []), doc.prompts.GetOr([]), true);
    MergeKeysInOrder(Start(map[], []), doc.prompts.GetOr([]), true);
    MergeKeyedById(Start(map[], []), doc.prompts.GetOr([]), true);
    Store(m.prompts, m.order, doc.recentPrompts.GetOr([]), Dedup(doc.favorites.GetOr([])))
  }

  /** The ids of the stored records, in iteration order, are the key order. */
  lemma IdsOfValues(st: Store)
    requires KeysInOrder(st.prompts, st.order) && KeyedById(st.prompts)
    ensures Ids(Values(st)) == st.order
  {
    ValuesOfStore(st);
  }

  /** Reloading the saved records rebuilds the key order. */
  lemma ReloadOrder(st: Store)
    requires KeysInOrder(st.prompts, st.order) && KeyedById(st.prompts)
    ensures MergeAll(Start(map[], []), Values(st), true).order == st.order
  {
    ValuesOfStore(st);
    IdsOfValues(st);
    MergeFresh(Start(map[], []), Values(st), true);
    assert [] + st.order == st.order;
  }

  /** Reloading the saved records stores each key's record again. */
  lemma ReloadAt(st: Store, i: nat)
    requires KeysInOrder(st.prompts, st.order) && KeyedById(st.prompts) && i < |st.order|
    ensures st.order[i] in MergeAll(Start(map[], []), Values(st), true).prompts
    ensures MergeAll(Start(map[], []), Values(st), true).prompts[st.order[i]] == st.prompts[st.order[i]]
  {
    var vs := Values(st);
    ValuesOfStore(st);
    assert vs[i].id == st.order[i];
    assert LastOfId(vs, i);
    MergeOverwriteLastWins(Start(map[], []), vs, i);
  }

  /** Reloading the saved records stores each key again, with its record. */
  lemma ReloadKey(st: Store, k: string)
    requires KeysInOrder(st.prompts, st.order) && KeyedById(st.prompts) && k in st.prompts
    ensures var m := MergeAll(Start(map[], []), Values(st), true);
            k in m.prompts && m.prompts[k] == st.prompts[k]
  {
    var i :| 0 <= i < |st.order| && st.order[i] == k;
    IdsOfValues(st);
    ReloadAt(st, i);
  }

  /** Reloading the saved records rebuilds the map. */
  lemma ReloadRecords(st: Store)
    requires KeysInOrder(st.prompts, st.order) && KeyedById(st.prompts)
    ensures MergeAll(Start(map[], []), Values(st), true).prompts == st.prompts
  {
    var m := MergeAll(Start(map[], []), Values(st), true).prompts;
    ReloadKeys(st);
    forall k | k in st.prompts ensures m[k] == st.prompts[k] {
      ReloadKey(st, k);
    }
    MapsEqual(m, st.prompts);
  }

  /** Reloading the saved records stores exactly the saved keys. */
  lemma ReloadKeys(st: Store)
    requires KeysInOrder(st.prompts, st.order) && KeyedById(st.prompts)
    ensures var m := MergeAll(Start(map[], []), Values(st), true).prompts;
            forall k :: k in m <==> k in st.prompts
  {
    IdsOfValues(st);
    MergeKeys(Start(map[], []), Values(st), true);
  }

  /** Two maps with the same keys and the same value at each key are equal. */
  lemma MapsEqual(a: map<string, Prompt>, b: map<string, Prompt>)
    requires forall k :: k in a <==> k in b
    requires forall k :: k in b ==> a[k] == b[k]
    ensures a == b
  {
  }

  /** Saving the state and loading the saved document gives back the same state. */
  lemma SaveThenLoad(st: Store)
    requires KeysInOrder(st.prompts, st.order) && KeyedById(st.prompts) && Distinct(st.favorites)
    ensures ParseLoaded(SaveDocument(st)) == st
  {
    ReloadOrder(st);
    ReloadRecords(st);
  }

  /** The state `_loadDefaultPrompts` builds on a freshly constructed manager. */
  function Seeded(now: int): Store {
    var m := MergeAll(Start(map[], []), GetAll(now), true);
    Store(m.prompts, m.order, [], [])
  }

  /** The seeded state holds the catalogue records under their ids. */
  lemma SeededKeys(now: int)
    ensures var st := Seeded(now);
            KeysInOrder(st.prompts, st.order) && KeyedById(st.prompts) && st.recent == [] && st.favorites == []
  {
    MergeKeysInOrder(Start(map[], []), GetAll(now), true);
    MergeKeyedById(Start(map[], []), GetAll(now), true);
  }

  /** Loading records with distinct ids into an empty map keeps their ids in order. */
  lemma LoadDistinctOrder(records: seq<Prompt>)
    requires Distinct(Ids(records))
    ensures MergeAll(Start(map[], []), records, true).order == Ids(records)
  {
    MergeFresh(Start(map[], []), records, true);
    assert [] + Ids(records) == Ids(records);
  }

  /** Loading records with distinct ids into an empty map stores one key per record. */
  lemma LoadDistinctCount(records: seq<Prompt>)
    requires Distinct(Ids(records))
    ensures |MergeAll(Start(map[], []), records, true).prompts| == |records|
  {
    MergeFresh(Start(map[], []), records, true);
    MergeCount(Start(map[], []), records, true);
    assert |Start(map[], []).prompts| == 0;
  }

  /** The seeded keys come in catalogue order, one per catalogue record. */
  lemma SeededOrder(now: int)
    ensures Seeded(now).order == SeedIds() && |Seeded(now).prompts| == SeedCount
  {
    LoadDistinctOrder(GetAll(now));
    LoadDistinctCount(GetAll(now));
  }

  /** No seeded record is custom or has been used. */
  lemma SeededRecords(now: int)
    ensures var st := Seeded(now);
            forall k :: k in st.prompts ==> !st.prompts[k].isCustom && st.prompts[k].usageCount == 0
  {
    MergeProvenance(Start(map[], []), GetAll(now), true);
  }

  // ---------------------------------------------------------------------------------------------
  // Categories

  /** Each element comes before every later one in the default string sort order. */
  predicate StrictlySorted(s: seq<string>) {
    forall i, j :: 0 <= i < j < |s| ==> StrLess(s[i], s[j])
  }

  /** `x` placed in a sorted list of distinct strings, unless it is already there. */
  function InsertSorted(s: seq<string>, x: string): (r: seq<string>)
    requires StrictlySorted(s)
    ensures StrictlySorted(r)
    ensures forall y :: y in r <==> y in s || y == x
  {
    if s == [] then [x]
    else if x == s[0] then s
    else if StrLess(x, s[0]) then
      assert forall j :: 0 <= j < |s| ==> StrLess(x, s[j]) by {
        forall j | 0 < j < |s| ensures StrLess(x, s[j]) {
          StrLessTransitive(x, s[0], s[j]);
        }
      }
      [x] + s
    else
      StrLessTotal(x, s[0]);
      var tail := InsertSorted(s[1..], x);
      assert forall y :: y in s <==> y == s[0] || y in s[1..];
      assert forall j :: 0 <= j < |tail| ==> StrLess(s[0], tail[j]) by {
        forall j | 0 <= j < |tail| ensures StrLess(s[0], tail[j]) {
          assert tail[j] in tail;
        }
      }
      [s[0]] + tail
  }

  /** `Array.from(new Set(xs)).sort()`. */
  function SortedSet(xs: seq<string>): (r: seq<string>)
    ensures StrictlySorted(r)
    ensures forall y :: y in r <==> y in xs
  {
    if xs == [] then []
    else
      assert forall y :: y in xs <==> y == xs[0] || y in xs[1..];
      InsertSorted(SortedSet(xs[1..]), xs[0])
  }

  /** Two strictly sorted lists with the same elements are the same list. */
  lemma {:induction false} StrictlySortedUnique(a: seq<string>, b: seq<string>)
    requires StrictlySorted(a) && StrictlySorted(b)
    requires forall y :: y in a <==> y in b
    ensures a == b
    decreases |a|
  {
    assert a != [] ==> a[0] in b;
    assert b != [] ==> b[0] in a;
    if a != [] && b != [] {
      if a[0] != b[0] {
        var i :| 0 <= i < |a| && a[i] == b[0];
        var j :| 0 <= j < |b| && b[j] == a[0];
        assert i > 0 && j > 0;
        assert StrLess(b[j], b[0]);
        StrLessAsymmetric(b[0], b[j]);
        assert false;
      }
      SortedTail(a);
      SortedTail(b);
      StrictlySortedUnique(a[1..], b[1..]);
      assert a == [a[0]] + a[1..] && b == [b[0]] + b[1..];
    }
  }

  /** The tail of a strictly sorted list is strictly sorted and holds every element but the head. */
  lemma SortedTail(a: seq<string>)
    requires StrictlySorted(a) && a != []
    ensures StrictlySorted(a[1..])
    ensures forall y :: y in a[1..] <==> y in a && y != a[0]
  {
    forall y | y in a[1..] ensures y != a[0] {
      var i :| 0 <= i < |a[1..]| && a[1..][i] == y;
      assert StrLess(a[0], a[i + 1]);
      StrLessIrreflexive(a[0]);
    }
    assert forall y :: y in a ==> y == a[0] || y in a[1..];
  }

  /** `getCategories`' result. */
  datatype Categories = Categories(aiModels: seq<string>, applications: seq<string>)

  /**
   * `getCategories`: the distinct AI models and the distinct applications of the records, each
   * list sorted.
   */
  function GetCategories(records: seq<Prompt>): (c: Categories)
    ensures StrictlySorted(c.aiModels) && StrictlySorted(c.applications)
    ensures forall m :: m in c.aiModels <==> exists p :: p in records && p.category.aiModel == m
    ensures forall a :: a in c.applications <==> exists p :: p in records && p.category.application == a
  {
    var c := Categories(SortedSet(Models(records)), SortedSet(Applications(records)));
    assert forall p :: p in records ==> p.category.aiModel in Models(records) && p.category.application in Applications(records) by {
      forall p | p in records ensures p.category.aiModel in Models(records) && p.category.application in Applications(records) {
        var i :| 0 <= i < |records| && records[i] == p;
        assert Models(records)[i] == p.category.aiModel;
        assert Applications(records)[i] == p.category.application;
      }
    }
    c
  }

  /** The category lists depend only on which records there are, not on their order. */
  lemma CategoriesIgnoreOrder(r1: seq<Prompt>, r2: seq<Prompt>)
    requires forall p :: p in r1 <==> p in r2
    ensures GetCategories(r1) == GetCategories(r2)
  {
    var c1 := GetCategories(r1);
    var c2 := GetCategories(r2);
    StrictlySortedUnique(c1.aiModels, c2.aiModels);
    StrictlySortedUnique(c1.applications, c2.applications);
  }

  // ---------------------------------------------------------------------------------------------
  // Statistics

  /** `getStatistics`' result; `defaults` is the `default` property. */
  datatype Statistics = Statistics(
    total: nat,
    custom: nat,
    defaults: int,
    favorites: nat,
    recent: nat,
    mostUsed: seq<Prompt>)

  /** The number of records `mostUsed` lists. */
  const MostUsedCount := 5

  predicate IsCustom(p: Prompt) {
    p.isCustom
  }

  predicate IsDefault(p: Prompt) {
    !p.isCustom
  }

  /** `getStatistics` on the state. */
  function GetStatistics(st: Store): (s: Statistics)
    ensures s.total == |st.prompts| && s.favorites == |st.favorites| && s.recent == |st.recent|
    ensures s.custom == |Filter(Values(st), IsCustom)|
    ensures s.defaults == s.total - s.custom
    ensures s.mostUsed == Slice(SortByUsage(Values(st)), MostUsedCount)
  {
    var all := Values(st);
    Statistics(
      total := |st.prompts|,
      custom := |Filter(all, IsCustom)|,
      defaults := |st.prompts| - |Filter(all, IsCustom)|,
      favorites := |st.favorites|,
      recent := |st.recent|,
      mostUsed := Slice(SortByUsage(all), MostUsedCount))
  }

  /** On a consistent state the default count is the number of records that are not custom. */
  lemma StatisticsCounts(st: Store)
    requires KeysInOrder(st.prompts, st.order)
    ensures GetStatistics(st).defaults == |Filter(Values(st), IsDefault)|
  {
    ValuesOfStore(st);
    FilterSplit(Values(st), IsCustom, IsDefault);
  }

  /**
   * `mostUsed` lists records of the state, most used first, five of them or all when there are
   * fewer, and no record more often than the state holds it.
   */
  lemma MostUsedShape(st: Store)
    requires KeysInOrder(st.prompts, st.order)
    ensures var top := GetStatistics(st).mostUsed;
            ByUsage(top) &&
            |top| == (if |st.prompts| < MostUsedCount then |st.prompts| else MostUsedCount) &&
            forall p :: p in top ==> p in st.prompts.Values
    ensures multiset(GetStatistics(st).mostUsed) <= multiset(Values(st))
  {
    ValuesOfStore(st);
    RankingPrefixShape(Values(st), MostUsedCount);
  }

  /** Every record left out of `mostUsed` is used no more than the least used one listed. */
  lemma MostUsedRest(st: Store)
    requires KeysInOrder(st.prompts, st.order)
    ensures var top := GetStatistics(st).mostUsed;
            forall q :: q in st.prompts.Values && q !in top ==> top != [] && q.usageCount <= top[|top| - 1].usageCount
  {
    forall q | q in st.prompts.Values && q !in GetStatistics(st).mostUsed
      ensures var top := GetStatistics(st).mostUsed;
              top != [] && q.usageCount <= top[|top| - 1].usageCount
    {
      MostUsedTop(st, q);
    }
  }

  /** A record left out of `mostUsed` is used no more than the least used one listed. */
  lemma MostUsedTop(st: Store, q: Prompt)
    requires KeysInOrder(st.prompts, st.order)
    requires q in st.prompts.Values && q !in GetStatistics(st).mostUsed
    ensures var top := GetStatistics(st).mostUsed;
            top != [] && q.usageCount <= top[|top| - 1].usageCount
  {
    ValuesOfStore(st);
    RankingPrefix(Values(st), MostUsedCount, q);
  }
}
