/**
 * `PromptManager`: the object that owns the prompt records, the recents list and the favourites,
 * writes them to `prompts.json` after every change, and answers the queries of the interface.
 *
 * The file is the field `saved`: the last document `_savePrompts` wrote, `None` before the first
 * write. The document a start-up finds on disk, and the object `importData` parses, are
 * parameters; the clock is the parameter `now`, the generated id of `addPrompt` the parameter
 * `id`, and the `max-recent-prompts` setting the parameter `setting`.
 */
module Manager {
  import opened Wrappers
  import opened Seqs
  import opened PromptModel
  import opened DefaultPrompts
  import opened Search
  import opened Library
  import opened CsvExport
  import opened MarkdownExport

  /** The object `importData` returns. */
  datatype ImportReport = ImportReport(imported: nat, skipped: nat, updated: nat, total: nat)

  /** What `exportData` returns: the document `JSON.stringify` writes out, or the text of a CSV or Markdown export. */
  datatype Exported = Json(document: Document) | Text(text: string)

  /** The `for ... of` loop of `searchPrompts`: each record that matches pushed onto `results`. */
  method CollectMatches(all: seq<Prompt>, query: string, filters: SearchFilters) returns (found: seq<Prompt>)
    ensures found == Found(all, query, filters)
  {
    found := [];
    var i := 0;
    while i < |all|
      invariant 0 <= i <= |all|
      invariant found == Found(all[..i], query, filters)
    {
      var p := all[i];
      FoundStep(all, i, query, filters);
      if Matches(p, query, filters) {
        found := found + [p];
      }
      i := i + 1;
    }
    assert all[..i] == all;
  }

  class PromptManager {
    /** `_prompts`, a `Map` from id to record; `order` is its iteration order. */
    var prompts: map<string, Prompt>
    var order: seq<string>
    /** `_recentPrompts`, most recent first. */
    var recent: seq<string>
    /** `_favorites`, a `Set`, in insertion order. */
    var favorites: seq<string>
    /** The contents of `prompts.json` as last written. */
    var saved: Option<Document>

    /** The fields as one value. */
    function State(): Store
      reads this
    {
      Store(prompts, order, recent, favorites)
    }

    /** The key order lists the map's keys once each, and the favourites form a set. */
    predicate Valid()
      reads this
    {
      KeysInOrder(prompts, order) && Distinct(favorites)
    }

    /**
     * The constructor with `_loadPrompts`: the records of the stored document when one could be
     * read, and otherwise the built-in catalogue, which is then written out.
     */
    constructor(loaded: Option<Document>, now: int)
      ensures Valid()
      ensures loaded.Some? ==> State() == ParseLoaded(loaded.value) && saved == None
      ensures loaded.None? ==> State() == Seeded(now) && saved == Some(SaveDocument(Seeded(now)))
    {
      prompts := map[];
      order := [];
      recent := [];
      favorites := [];
      saved := None;
      new;
      if loaded.Some? {
        ParseLoadedData(loaded.value);
      } else {
        LoadDefaultPrompts(now);
        SeededKeys(now);
      }
    }

    /** `_savePrompts`: the state written to `prompts.json`. */
    method SavePrompts()
      modifies this
      ensures saved == Some(SaveDocument(State()))
      ensures prompts == old(prompts) && order == old(order)
      ensures recent == old(recent) && favorites == old(favorites)
    {
      saved := Some(SaveDocument(State()));
    }

    /**
     * The records merged by id, one after another, into the map: a new id is set and appended to
     * the insertion order, a stored one is replaced in place under `overwrite` and kept otherwise.
     * This is the `forEach` of `importData`, and with `overwrite` it is the `forEach` of
     * `this._prompts.set(prompt.id, prompt)` in `_parseLoadedData` and `_loadDefaultPrompts`.
     */
    method MergeRecords(records: seq<Prompt>, overwrite: bool) returns (imported: nat, skipped: nat, updated: nat)
      modifies this
      ensures MergeAll(Start(old(prompts), old(order)), records, overwrite) == Merge(prompts, order, imported, skipped, updated)
      ensures recent == old(recent) && favorites == old(favorites) && saved == old(saved)
    {
      imported, skipped, updated := 0, 0, 0;
      var i := 0;
      while i < |records|
        invariant 0 <= i <= |records|
        invariant MergeAll(Merge(prompts, order, imported, skipped, updated), records[i..], overwrite) ==
                  MergeAll(Start(old(prompts), old(order)), records, overwrite)
        invariant recent == old(recent) && favorites == old(favorites) && saved == old(saved)
      {
        var p := records[i];
        MergeStep(Merge(prompts, order, imported, skipped, updated), records, i, overwrite);
        if p.id in prompts {
          if overwrite {
            prompts := prompts[p.id := p];
            updated := updated + 1;
          } else {
            skipped := skipped + 1;
          }
        } else {
          prompts := prompts[p.id := p];
          order := order + [p.id];
          imported := imported + 1;
        }
        i := i + 1;
      }
      assert records[i..] == [];
    }

    /** `_parseLoadedData`: the stored records set one by one, then the recents and favourites that are present. */
    method ParseLoadedData(doc: Document)
      requires Valid()
      modifies this
      ensures Valid()
      ensures var m := MergeAll(Start(old(prompts), old(order)), doc.prompts.GetOr([]), true);
              prompts == m.prompts && order == m.order
      ensures recent == (if doc.recentPrompts.Some? then doc.recentPrompts.value else old(recent))
      ensures favorites == (if doc.favorites.Some? then Dedup(doc.favorites.value) else old(favorites))
      ensures saved == old(saved)
    {
      MergeKeysInOrder(Start(prompts, order), doc.prompts.GetOr([]), true);
      if doc.prompts.Some? {
        var _, _, _ := MergeRecords(doc.prompts.value, true);
      }
      if doc.recentPrompts.Some? {
        recent := doc.recentPrompts.value;
      }
      if doc.favorites.Some? {
        favorites := Dedup(doc.favorites.value);
      }
    }

    /** `_loadDefaultPrompts`: the built-in records set one by one, then written out. */
    method LoadDefaultPrompts(now: int)
      requires Valid()
      modifies this
      ensures Valid()
      ensures var m := MergeAll(Start(old(prompts), old(order)), GetAll(now), true);
              prompts == m.prompts && order == m.order
      ensures recent == old(recent) && favorites == old(favorites)
      ensures saved == Some(SaveDocument(State()))
    {
      MergeKeysInOrder(Start(prompts, order), GetAll(now), true);
      var _, _, _ := MergeRecords(GetAll(now), true);
      SavePrompts();
    }

    /** `getAllPrompts`: every stored record once, in insertion order. */
    function GetAllPrompts(): (r: seq<Prompt>)
      requires Valid()
      reads this
      ensures |r| == |prompts| == |order| && forall p :: p in r <==> p in prompts.Values
      ensures forall i :: 0 <= i < |order| ==> r[i] == prompts[order[i]]
    {
      ValuesOfStore(State());
      Values(State())
    }

    /** `getPrompt`: the record stored under `id`, if any. */
    function GetPrompt(id: string): (r: Option<Prompt>)
      reads this
      ensures r.Some? <==> id in prompts
      ensures r.Some? ==> r.value == prompts[id]
    {
      if id in prompts then Some(prompts[id]) else None
    }

    /**
     * `addPrompt`: a new custom record under the generated `id`, stored and written out. A new id
     * goes to the end of the insertion order; an id already stored keeps its place, as `Map.set`
     * does.
     */
    method AddPrompt(data: PromptData, id: string, now: int) returns (p: Prompt)
      requires Valid()
      modifies this
      ensures Valid()
      ensures p == NewPrompt(data, id, now)
      ensures prompts == old(prompts)[id := p]
      ensures order == if id in old(prompts) then old(order) else old(order) + [id]
      ensures recent == old(recent) && favorites == old(favorites)
      ensures saved == Some(SaveDocument(State()))
      ensures GetPrompt(id) == Some(p)
    {
      p := NewPrompt(data, id, now);
      if id !in prompts {
        order := order + [id];
      }
      prompts := prompts[id := p];
      SavePrompts();
    }

    /**
     * `updatePrompt`: `null` for an unknown id; otherwise the fields of `updates` copied onto the
     * record, which stays under its key, and the state written out.
     */
    method UpdatePrompt(id: string, updates: PromptUpdate, now: int) returns (r: Option<Prompt>)
      requires Valid()
      modifies this
      ensures Valid()
      ensures id !in old(prompts) ==> r == None && unchanged(this)
      ensures id in old(prompts) ==>
                r == Some(ApplyUpdate(old(prompts)[id], updates, now)) &&
                prompts == old(prompts)[id := r.value] && order == old(order) &&
                recent == old(recent) && favorites == old(favorites) &&
                saved == Some(SaveDocument(State()))
    {
      if id !in prompts {
        return None;
      }
      var updated := ApplyUpdate(prompts[id], updates, now);
      prompts := prompts[id := updated];
      SavePrompts();
      r := Some(updated);
    }

    /**
     * `deletePrompt`: `true` when the id was stored, after removing its record, its favourite
     * mark and its entries in the recents list and writing the state out; `false` and no change
     * otherwise.
     */
    method DeletePrompt(id: string) returns (deleted: bool)
      requires Valid()
      modifies this
      ensures Valid()
      ensures deleted == (id in old(prompts))
      ensures !deleted ==> unchanged(this)
      ensures deleted ==>
                prompts == old(prompts) - {id} && order == Remove(old(order), id) &&
                favorites == Remove(old(favorites), id) && recent == Remove(old(recent), id) &&
                saved == Some(SaveDocument(State()))
      ensures deleted ==> id !in prompts && id !in order && id !in favorites && id !in recent
    {
      if id !in prompts {
        return false;
      }
      DeleteKeysInOrder(prompts, order, id);
      prompts := prompts - {id};
      order := Remove(order, id);
      favorites := Remove(favorites, id);
      recent := Remove(recent, id);
      SavePrompts();
      deleted := true;
    }

    /**
     * `markAsUsed`: nothing for an unknown id; otherwise one more use stamped `now`, the id moved
     * to the front of the recents list, the list cut to the configured length, and the state
     * written out.
     */
    method MarkAsUsed(id: string, now: int, setting: Option<int>)
      requires Valid()
      modifies this
      ensures Valid()
      ensures id !in old(prompts) ==> unchanged(this)
      ensures id in old(prompts) ==>
                prompts == old(prompts)[id := MarkUsed(old(prompts)[id], now)] && order == old(order) &&
                recent == PromoteRecent(old(recent), id, setting) && favorites == old(favorites) &&
                saved == Some(SaveDocument(State()))
    {
      if id !in prompts {
        return;
      }
      prompts := prompts[id := MarkUsed(prompts[id], now)];
      recent := Remove(recent, id);
      recent := [id] + recent;
      var maxRecent := MaxRecent(setting);
      if |recent| > maxRecent {
        recent := Slice(recent, maxRecent);
      }
      SavePrompts();
    }

    /** `toggleFavorite`: the mark flipped, the state written out, and whether the id is now a favourite. */
    method ToggleFavorite(id: string) returns (isFavorite: bool)
      requires Valid()
      modifies this
      ensures Valid()
      ensures favorites == Toggle(old(favorites), id)
      ensures isFavorite == (id in favorites) && isFavorite == (id !in old(favorites))
      ensures prompts == old(prompts) && order == old(order) && recent == old(recent)
      ensures saved == Some(SaveDocument(State()))
    {
      if id in favorites {
        favorites := Remove(favorites, id);
      } else {
        favorites := favorites + [id];
      }
      SavePrompts();
      isFavorite := id in favorites;
    }

    /** `getRecentPrompts`: the stored records of the recents list, most recent first. */
    function GetRecentPrompts(): (r: seq<Prompt>)
      reads this
      ensures |r| <= |recent|
      ensures forall p :: p in r ==> p in prompts.Values
      ensures forall k :: k in recent && k in prompts ==> prompts[k] in r
      ensures (forall k :: k in recent ==> k in prompts) ==>
                |r| == |recent| && forall i :: 0 <= i < |recent| ==> r[i] == prompts[recent[i]]
    {
      ResolveFacts(prompts, recent);
      Resolve(prompts, recent)
    }

    /** `getFavoritePrompts`: the stored records of the favourites, in the order they were marked. */
    function GetFavoritePrompts(): (r: seq<Prompt>)
      reads this
      ensures |r| <= |favorites|
      ensures forall p :: p in r ==> p in prompts.Values
      ensures forall k :: k in favorites && k in prompts ==> prompts[k] in r
      ensures (forall k :: k in favorites ==> k in prompts) ==>
                |r| == |favorites| && forall i :: 0 <= i < |favorites| ==> r[i] == prompts[favorites[i]]
    {
      ResolveFacts(prompts, favorites);
      Resolve(prompts, favorites)
    }

    /**
     * `searchPrompts`: the records that pass the filters and contain the query, most used first.
     */
    method SearchPrompts(query: string, filters: SearchFilters) returns (results: seq<Prompt>)
      requires Valid()
      ensures ByUsage(results)
      ensures multiset(results) == multiset(Found(GetAllPrompts(), query, filters))
      ensures forall p :: p in results <==> p in prompts.Values && Matches(p, query, filters)
    {
      var all := GetAllPrompts();
      var found := CollectMatches(all, query, filters);
      results := SortByUsage(found);
      assert forall p :: p in results <==> p in found by {
        forall p ensures p in results <==> p in found {
          assert p in results <==> multiset(results)[p] > 0;
        }
      }
    }

    /**
     * `exportData`: the saved document for "json", the CSV or Markdown text of the records for
     * "csv" or "markdown", and an error naming any other format. The Markdown export fails when
     * a record's AI model is the name of an inherited object property. The JSON document loads
     * back as the present state.
     */
    method ExportData(format: string, dateText: string) returns (r: Result<Exported>)
      requires Valid()
      ensures format == "json" ==> r == Ok(Json(SaveDocument(State())))
      ensures format == "csv" ==> r == Ok(Text(CsvAsWritten(GetAllPrompts())))
      ensures format == "markdown" && !GroupingFails(GetAllPrompts()) ==> r == Ok(Text(Markdown(GetAllPrompts(), dateText)))
      ensures format == "markdown" && GroupingFails(GetAllPrompts()) ==> r == Err(PushFailure)
      ensures format != "json" && format != "csv" && format != "markdown" ==>
                r == Err("Unsupported export format: " + format)
      ensures format == "json" && KeyedById(prompts) ==> ParseLoaded(r.value.document) == State()
    {
      var all := GetAllPrompts();
      if format == "json" {
        if KeyedById(prompts) {
          SaveThenLoad(State());
        }
        r := Ok(Json(SaveDocument(State())));
      } else if format == "csv" {
        var text := ExportAsCsv(all);
        r := Ok(Text(text));
      } else if format == "markdown" {
        var md := ExportAsMarkdown(all, dateText);
        if md.Ok? {
          r := Ok(Text(md.value));
        } else {
          r := Err(md.message);
        }
      } else {
        r := Err("Unsupported export format: " + format);
      }
    }

    /**
     * `importData`: an error when the data could not be parsed, with nothing changed; otherwise
     * each incoming record merged by id (replacing a stored one only for the "overwrite"
     * strategy), the state written out, and the three counts, which add up to the number of
     * incoming records.
     */
    method ImportData(parsed: Result<Document>, mergeStrategy: string) returns (r: Result<ImportReport>)
      requires Valid()
      modifies this
      ensures Valid()
      ensures parsed.Err? ==> r == Err("Failed to import data: " + parsed.message) && unchanged(this)
      ensures parsed.Ok? ==>
                var m := MergeAll(Start(old(prompts), old(order)), parsed.value.prompts.GetOr([]), mergeStrategy == "overwrite");
                prompts == m.prompts && order == m.order &&
                recent == old(recent) && favorites == old(favorites) &&
                saved == Some(SaveDocument(State())) &&
                r == Ok(ImportReport(m.imported, m.skipped, m.updated, m.imported + m.skipped + m.updated))
      ensures parsed.Ok? ==> r.Ok? && r.value.total == |parsed.value.prompts.GetOr([])|
    {
      if parsed.Err? {
        return Err("Failed to import data: " + parsed.message);
      }
      var incoming := parsed.value.prompts.GetOr([]);
      var overwrite := mergeStrategy == "overwrite";
      MergeKeysInOrder(Start(prompts, order), incoming, overwrite);
      MergeCounts(Start(prompts, order), incoming, overwrite);
      var imported, skipped, updated := MergeRecords(incoming, overwrite);
      SavePrompts();
      r := Ok(ImportReport(imported, skipped, updated, imported + skipped + updated));
    }

    /** `getCategories`: the distinct AI models and applications of the stored records, each sorted. */
    function GetCategories(): (c: Categories)
      requires Valid()
      reads this
      ensures StrictlySorted(c.aiModels) && StrictlySorted(c.applications)
      ensures forall m :: m in c.aiModels <==> exists p :: p in prompts.Values && p.category.aiModel == m
      ensures forall a :: a in c.applications <==> exists p :: p in prompts.Values && p.category.application == a
    {
      ValuesOfStore(State());
      Library.GetCategories(GetAllPrompts())
    }

    /** `getStatistics`: the counts of the state and its five most used records. */
    function GetStatistics(): (s: Statistics)
      requires Valid()
      reads this
      ensures s.total == |prompts| && s.favorites == |favorites| && s.recent == |recent|
      ensures s.custom == |Filter(Values(State()), IsCustom)|
      ensures s.defaults == |Filter(Values(State()), IsDefault)|
      ensures ByUsage(s.mostUsed) && |s.mostUsed| == (if |prompts| < MostUsedCount then |prompts| else MostUsedCount)
      ensures forall p :: p in s.mostUsed ==> p in prompts.Values
      ensures multiset(s.mostUsed) <= multiset(Values(State()))
      ensures forall q :: q in prompts.Values && q !in s.mostUsed ==>
                s.mostUsed != [] && q.usageCount <= s.mostUsed[|s.mostUsed| - 1].usageCount
    {
      StatisticsCounts(State());
      MostUsedShape(State());
      MostUsedRest(State());
      Library.GetStatistics(State())
    }

    /** `destroy`: the state written out once more, then everything cleared. */
    method Destroy()
      modifies this
      ensures saved == Some(SaveDocument(old(State())))
      ensures prompts == map[] && order == [] && recent == [] && favorites == []
      ensures Valid()
    {
      SavePrompts();
      prompts := map[];
      order := [];
      recent := [];
      favorites := [];
    }
  }
}
