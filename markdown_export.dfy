/**
 * The Markdown export of `PromptManager` (`_exportAsMarkdown`): the records grouped by AI model,
 * a section per model and a block per record.
 */
module MarkdownExport {
  import opened Wrappers
  import opened Seqs
  import opened Strings
  import opened PromptModel

  /** The title and date lines; `dateText` is what `toLocaleDateString()` gives. */
  function MdHeader(dateText: string): string {
    "# AI Prompt Library\n\n" + "Exported on " + dateText + "\n\n"
  }

  /** The parts of one record's block; the description and tag lines only when there are any. */
  function MdTitle(p: Prompt): string {
    "### " + p.title + "\n\n"
  }

  function MdDescription(p: Prompt): string {
    if p.description != "" then p.description + "\n\n" else ""
  }

  function MdApplication(p: Prompt): string {
    "**Application:** " + p.category.application + "\n\n"
  }

  function MdTags(p: Prompt): string {
    if |p.tags| > 0 then "**Tags:** " + Join(p.tags, ", ") + "\n\n" else ""
  }

  function MdContent(p: Prompt): string {
    "```\n" + p.content + "\n```\n\n"
  }

  const MdRule := "---\n\n"

  /** The text `md` followed by the block of one record. */
  function WithBlock(md: string, p: Prompt): string {
    md + MdTitle(p) + MdDescription(p) + MdApplication(p) + MdTags(p) + MdContent(p) + MdRule
  }

  /** The text `md` followed by the blocks of a list of records, in order. */
  function WithBlocks(md: string, ps: seq<Prompt>): string {
    if ps == [] then md else WithBlock(WithBlocks(md, ps[..|ps| - 1]), ps[|ps| - 1])
  }

  /** The records of one AI model, in order: the array `groupedPrompts[model]`. */
  function OfModel(ps: seq<Prompt>, model: string): seq<Prompt> {
    if ps == [] then []
    else
      var last := ps[|ps| - 1];
      OfModel(ps[..|ps| - 1], model) + (if last.category.aiModel == model then [last] else [])
  }

  /** Grouping a list extended by one record extends that record's group alone. */
  lemma OfModelSnoc(ps: seq<Prompt>, p: Prompt, model: string)
    ensures OfModel(ps + [p], model) == OfModel(ps, model) + (if p.category.aiModel == model then [p] else [])
  {
    assert (ps + [p])[..|ps|] == ps;
  }

  /** The group of a model holds exactly the records of that model, in their order. */
  lemma OfModelMembers(ps: seq<Prompt>, model: string)
    ensures forall p :: p in OfModel(ps, model) <==> p in ps && p.category.aiModel == model
    ensures IsSubsequence(OfModel(ps, model), ps)
  {
    OfModelIsFilter(ps, model);
  }

  /** The test the grouping applies: the record is of `model`. */
  function HasModel(model: string): Prompt -> bool {
    (q: Prompt) => q.category.aiModel == model
  }

  /** The group of a model is the list filtered by that model. */
  lemma {:induction false} OfModelIsFilter(ps: seq<Prompt>, model: string)
    ensures OfModel(ps, model) == Filter(ps, HasModel(model))
  {
    if ps != [] {
      var init := ps[..|ps| - 1];
      var last := ps[|ps| - 1];
      assert ps == init + [last];
      OfModelIsFilter(init, model);
      FilterSnoc(init, last, HasModel(model));
    }
  }

  /** A model no record has has an empty group. */
  lemma {:induction false} OfModelAbsent(ps: seq<Prompt>, model: string)
    requires forall p :: p in ps ==> p.category.aiModel != model
    ensures OfModel(ps, model) == []
  {
    if ps != [] {
      var init := ps[..|ps| - 1];
      assert forall p :: p in init ==> p in ps;
      OfModelAbsent(init, model);
    }
  }

  /** When every record has the model, its group is the whole list. */
  lemma OfModelAll(ps: seq<Prompt>, model: string)
    requires forall p :: p in ps ==> p.category.aiModel == model
    ensures OfModel(ps, model) == ps
  {
    OfModelIsFilter(ps, model);
    FilterAll(ps, HasModel(model));
  }

  /** `Object.keys(groupedPrompts)`: the AI models in order of first appearance. */
  function ModelOrder(ps: seq<Prompt>): seq<string> {
    Dedup(Models(ps))
  }

  /** The model order lists each AI model of the records once, and nothing else. */
  lemma ModelOrderFacts(ps: seq<Prompt>)
    ensures Distinct(ModelOrder(ps))
    ensures forall m :: m in ModelOrder(ps) ==> exists p :: p in ps && p.category.aiModel == m
    ensures forall p :: p in ps ==> p.category.aiModel in ModelOrder(ps)
  {
    forall p | p in ps ensures p.category.aiModel in Models(ps) {
      var i :| 0 <= i < |ps| && ps[i] == p;
      assert Models(ps)[i] == p.category.aiModel;
    }
    forall m | m in ModelOrder(ps) ensures exists p :: p in ps && p.category.aiModel == m {
      var i :| 0 <= i < |ps| && Models(ps)[i] == m;
      assert ps[i] in ps;
    }
  }

  /** The model order of a list extended by one record: its model is added if new. */
  lemma ModelOrderSnoc(ps: seq<Prompt>, p: Prompt)
    ensures ModelOrder(ps + [p]) ==
              ModelOrder(ps) + (if p.category.aiModel in ModelOrder(ps) then [] else [p.category.aiModel])
  {
    var s := Models(ps + [p]);
    assert s[..|s| - 1] == Models(ps);
  }

  /** The text `md` followed by a heading and the blocks of each listed model, in order. */
  function WithSections(md: string, models: seq<string>, ps: seq<Prompt>): string {
    if models == [] then md
    else
      var m := models[|models| - 1];
      WithBlocks(WithSections(md, models[..|models| - 1], ps) + "## " + m + "\n\n", OfModel(ps, m))
  }

  /** The Markdown export. */
  function Markdown(ps: seq<Prompt>, dateText: string): string {
    WithSections(MdHeader(dateText), ModelOrder(ps), ps)
  }

  /** The groups of the listed models, one after another: the records in the order they are written. */
  function Grouped(models: seq<string>, ps: seq<Prompt>): seq<Prompt> {
    if models == [] then [] else Grouped(models[..|models| - 1], ps) + OfModel(ps, models[|models| - 1])
  }

  /** A record whose model is not listed changes none of the listed groups. */
  lemma {:induction false} GroupedSnocUnlisted(models: seq<string>, ps: seq<Prompt>, p: Prompt)
    requires p.category.aiModel !in models
    ensures Grouped(models, ps + [p]) == Grouped(models, ps)
  {
    if models != [] {
      var init := models[..|models| - 1];
      var m := models[|models| - 1];
      assert p.category.aiModel !in init by {
        assert forall x :: x in init ==> x in models;
      }
      GroupedSnocUnlisted(init, ps, p);
      OfModelSnoc(ps, p, m);
    }
  }

  /** A record whose model is listed joins that model's group. */
  lemma {:induction false} GroupedSnocListed(models: seq<string>, ps: seq<Prompt>, p: Prompt)
    requires Distinct(models) && p.category.aiModel in models
    ensures multiset(Grouped(models, ps + [p])) == multiset(Grouped(models, ps)) + multiset{p}
    decreases |models|, 1
  {
    var init := models[..|models| - 1];
    var m := models[|models| - 1];
    DistinctSnoc(models);
    if p.category.aiModel == m {
      GroupedSnocLast(models, ps, p);
    } else {
      var k :| 0 <= k < |models| && models[k] == p.category.aiModel;
      assert init[k] == models[k];
      GroupedSnocEarlier(models, ps, p);
    }
  }

  /** A record of a listed model other than the last joins a group before the last one. */
  lemma {:induction false} GroupedSnocEarlier(models: seq<string>, ps: seq<Prompt>, p: Prompt)
    requires Distinct(models) && models != [] && p.category.aiModel in models[..|models| - 1]
    ensures multiset(Grouped(models, ps + [p])) == multiset(Grouped(models, ps)) + multiset{p}
    decreases |models|, 0
  {
    var init := models[..|models| - 1];
    var m := models[|models| - 1];
    DistinctSnoc(models);
    GroupedSnocListed(init, ps, p);
    OfModelSnoc(ps, p, m);
    assert OfModel(ps + [p], m) == OfModel(ps, m);
  }

  /** A record of the last listed model, listed once, joins the last group. */
  lemma GroupedSnocLast(models: seq<string>, ps: seq<Prompt>, p: Prompt)
    requires models != [] && p.category.aiModel == models[|models| - 1]
    requires p.category.aiModel !in models[..|models| - 1]
    ensures Grouped(models, ps + [p]) == Grouped(models, ps) + [p]
  {
    var init := models[..|models| - 1];
    GroupedSnocUnlisted(init, ps, p);
    OfModelSnoc(ps, p, p.category.aiModel);
  }

  /** A record of a new model opens a group of its own at the end. */
  lemma GroupedNewModel(models: seq<string>, ps: seq<Prompt>, p: Prompt)
    requires p.category.aiModel !in models
    requires forall q :: q in ps ==> q.category.aiModel in models
    ensures Grouped(models + [p.category.aiModel], ps + [p]) == Grouped(models, ps) + [p]
  {
    var m := p.category.aiModel;
    var extended := models + [m];
    assert extended[..|extended| - 1] == models;
    GroupedSnocUnlisted(models, ps, p);
    OfModelAbsent(ps, m);
    OfModelSnoc(ps, p, m);
  }

  /**
   * The sections of the Markdown export together hold every record exactly once: the groups, in
   * model order, are a permutation of the records.
   */
  lemma {:induction false} GroupedIsPermutation(ps: seq<Prompt>)
    ensures multiset(Grouped(ModelOrder(ps), ps)) == multiset(ps)
  {
    if ps != [] {
      var init := ps[..|ps| - 1];
      var p := ps[|ps| - 1];
      assert ps == init + [p];
      GroupedIsPermutation(init);
      ModelOrderSnoc(init, p);
      ModelOrderFacts(init);
      var mo := ModelOrder(init);
      if p.category.aiModel in mo {
        assert ModelOrder(ps) == mo;
        GroupedSnocListed(mo, init, p);
      } else {
        assert ModelOrder(ps) == mo + [p.category.aiModel];
        GroupedNewModel(mo, init, p);
      }
      assert multiset(ps) == multiset(init) + multiset{p};
    }
  }

  /**
   * What the grouping loop keeps after the records `done`: the key order, the keys, each group,
   * and no records for a model without a key.
   */
  ghost predicate GroupedUpTo(done: seq<Prompt>, models: seq<string>, groups: map<string, seq<Prompt>>) {
    models == ModelOrder(done) &&
    (forall m :: m in groups <==> m in models) &&
    (forall m :: m in groups ==> groups[m] == OfModel(done, m)) &&
    (forall m :: m !in groups ==> OfModel(done, m) == [])
  }

  /** The groups of a list extended by one record: that record's model's group grows by it. */
  lemma OfModelSnocAll(done: seq<Prompt>, p: Prompt)
    ensures forall m :: OfModel(done + [p], m) == OfModel(done, m) + (if p.category.aiModel == m then [p] else [])
  {
    forall m ensures OfModel(done + [p], m) == OfModel(done, m) + (if p.category.aiModel == m then [p] else []) {
      OfModelSnoc(done, p, m);
    }
  }

  /** One pass of the grouping loop for a model that has a group: the push. */
  lemma GroupJoin(done: seq<Prompt>, p: Prompt, models: seq<string>, groups: map<string, seq<Prompt>>)
    requires GroupedUpTo(done, models, groups) && p.category.aiModel in groups
    ensures GroupedUpTo(done + [p], models, groups[p.category.aiModel := groups[p.category.aiModel] + [p]])
  {
    var model := p.category.aiModel;
    var after := groups[model := groups[model] + [p]];
    ModelOrderSnoc(done, p);
    forall m | m in after ensures after[m] == OfModel(done + [p], m) {
      OfModelSnoc(done, p, m);
    }
    forall m | m !in after ensures OfModel(done + [p], m) == [] {
      OfModelSnoc(done, p, m);
    }
  }

  /** One pass of the grouping loop for a new model: a key and a group holding the record. */
  lemma GroupOpen(done: seq<Prompt>, p: Prompt, models: seq<string>, groups: map<string, seq<Prompt>>)
    requires GroupedUpTo(done, models, groups) && p.category.aiModel !in groups
    ensures GroupedUpTo(done + [p], models + [p.category.aiModel], groups[p.category.aiModel := [p]])
  {
    ModelOrderSnoc(done, p);
    OfModelSnocAll(done, p);
  }

  /** One pass of the grouping loop: the group of the record's model, new or not, grows by it. */
  lemma GroupStep(done: seq<Prompt>, p: Prompt, models: seq<string>, groups: map<string, seq<Prompt>>)
    requires GroupedUpTo(done, models, groups)
    ensures var model := p.category.aiModel;
            var group := if model in groups then groups[model] else [];
            GroupedUpTo(done + [p], if model in groups then models else models + [model], groups[model := group + [p]])
  {
    var model := p.category.aiModel;
    if model in groups {
      GroupJoin(done, p, models, groups);
    } else {
      GroupOpen(done, p, models, groups);
      assert [] + [p] == [p];
    }
  }

  /**
   * The body of the first `forEach` of `_exportAsMarkdown`: the record's model gets a key and an
   * empty group if it has none, then the record is pushed onto its group.
   */
  method GroupOne(ghost done: seq<Prompt>, p: Prompt, models: seq<string>, groups: map<string, seq<Prompt>>)
    returns (models': seq<string>, groups': map<string, seq<Prompt>>)
    requires GroupedUpTo(done, models, groups)
    ensures GroupedUpTo(done + [p], models', groups')
  {
    var model := p.category.aiModel;
    var group := [];
    models' := models;
    if model in groups {
      group := groups[model];
    } else {
      models' := models + [model];
    }
    groups' := groups[model := group + [p]];
    GroupStep(done, p, models, groups);
  }

  /** Before the grouping loop: no records, no keys, no groups. */
  lemma GroupedNone()
    ensures GroupedUpTo([], [], map[])
  {
    assert Models([]) == [];
  }

  /**
   * The properties every object inherits from `Object.prototype` (section 20.1.3 and Annex B.2.2
   * of ECMA-262). In the grouping object `{}`, such a name already has a truthy value, so no array
   * is created for it, and `.push` is not a function there.
   */
  const Inherited: set<string> := {
    "constructor", "hasOwnProperty", "isPrototypeOf", "propertyIsEnumerable", "toLocaleString",
    "toString", "valueOf", "__proto__", "__defineGetter__", "__defineSetter__",
    "__lookupGetter__", "__lookupSetter__"}

  /** The message of the `TypeError` the grouping loop throws for such a model. */
  const PushFailure := "groupedPrompts[model].push is not a function"

  /** A model named like an inherited property: the grouping object already has a value for it. */
  predicate IsInherited(model: string) {
    model in Inherited
  }

  /** Some record's AI model is the name of an inherited property: the grouping throws. */
  predicate GroupingFails(prompts: seq<Prompt>) {
    exists i :: 0 <= i < |prompts| && IsInherited(prompts[i].category.aiModel)
  }

  /** One more record makes the grouping fail exactly when it already failed or that record fails it. */
  lemma GroupingFailsSnoc(prompts: seq<Prompt>, p: Prompt)
    ensures GroupingFails(prompts + [p]) <==> GroupingFails(prompts) || IsInherited(p.category.aiModel)
  {
    var all := prompts + [p];
    if GroupingFails(all) && !IsInherited(p.category.aiModel) {
      var i :| 0 <= i < |all| && IsInherited(all[i].category.aiModel);
      assert all[i] == prompts[i];
    }
    if GroupingFails(prompts) {
      var i :| 0 <= i < |prompts| && IsInherited(prompts[i].category.aiModel);
      assert all[i] == prompts[i];
    }
    if IsInherited(p.category.aiModel) {
      assert all[|prompts|] == p;
    }
  }

  /**
   * The body of the first `forEach` of `_exportAsMarkdown`, including its failure: `ok` is false
   * when `.push` throws for the record's model, and otherwise the record joins its group.
   */
  method GroupOrFail(ghost done: seq<Prompt>, p: Prompt, models: seq<string>, groups: map<string, seq<Prompt>>)
    returns (ok: bool, models': seq<string>, groups': map<string, seq<Prompt>>)
    requires GroupedUpTo(done, models, groups)
    ensures ok <==> !IsInherited(p.category.aiModel)
    ensures ok ==> GroupedUpTo(done + [p], models', groups')
  {
    if IsInherited(p.category.aiModel) {
      return false, models, groups;
    }
    ok := true;
    models', groups' := GroupOne(done, p, models, groups);
  }

  /**
   * The first `forEach` of `_exportAsMarkdown`: each record pushed onto the group of its model.
   * `models` is the key order of the grouping object. `ok` is false when the loop throws.
   */
  method GroupByModel(prompts: seq<Prompt>) returns (ok: bool, models: seq<string>, groups: map<string, seq<Prompt>>)
    ensures ok <==> !GroupingFails(prompts)
    ensures ok ==> models == ModelOrder(prompts)
    ensures ok ==> forall m :: m in groups <==> m in models
    ensures ok ==> forall m :: m in groups ==> groups[m] == OfModel(prompts, m)
  {
    models := [];
    groups := map[];
    GroupedNone();
    ok := true;
    var i := 0;
    while i < |prompts|
      invariant 0 <= i <= |prompts|
      invariant GroupedUpTo(prompts[..i], models, groups)
      invariant !GroupingFails(prompts[..i])
    {
      assert prompts[..i + 1] == prompts[..i] + [prompts[i]];
      ok, models, groups := GroupOrFail(prompts[..i], prompts[i], models, groups);
      if !ok {
        assert IsInherited(prompts[i].category.aiModel);
        return;
      }
      GroupingFailsSnoc(prompts[..i], prompts[i]);
      i := i + 1;
    }
    assert prompts[..i] == prompts;
  }

  /** The statements of the inner `forEach` of `_exportAsMarkdown`: one record's block appended. */
  method AppendBlock(md: string, p: Prompt) returns (r: string)
    ensures r == WithBlock(md, p)
  {
    r := md + "### " + p.title + "\n\n";
    assert r == md + MdTitle(p);
    if p.description != "" {
      r := r + p.description + "\n\n";
    }
    assert r == md + MdTitle(p) + MdDescription(p);
    ghost var upto := r;
    r := r + "**Application:** " + p.category.application + "\n\n";
    assert r == upto + MdApplication(p);
    upto := r;
    if |p.tags| > 0 {
      r := r + "**Tags:** " + Join(p.tags, ", ") + "\n\n";
    }
    assert r == upto + MdTags(p);
    upto := r;
    r := r + "```\n";
    r := r + p.content;
    r := r + "\n```\n\n";
    assert r == upto + MdContent(p);
    r := r + "---\n\n";
  }

  /** Appending the section of the next listed model. */
  lemma SectionStep(md: string, models: seq<string>, k: nat, ps: seq<Prompt>)
    requires k < |models|
    ensures WithSections(md, models[..k + 1], ps) ==
              WithBlocks(WithSections(md, models[..k], ps) + "## " + models[k] + "\n\n", OfModel(ps, models[k]))
  {
    assert models[..k + 1][..k] == models[..k];
  }

  /** Appending the block of the next record of a group. */
  lemma BlockStep(md: string, ps: seq<Prompt>, j: nat)
    requires j < |ps|
    ensures WithBlocks(md, ps[..j + 1]) == WithBlock(WithBlocks(md, ps[..j]), ps[j])
  {
    assert ps[..j + 1][..j] == ps[..j];
  }

  /** The inner `forEach` of `_exportAsMarkdown`: a model's heading, then the block of each record. */
  method AppendSection(md: string, model: string, group: seq<Prompt>) returns (r: string)
    ensures r == WithBlocks(md + "## " + model + "\n\n", group)
  {
    r := md + "## " + model + "\n\n";
    ghost var heading := r;
    var j := 0;
    while j < |group|
      invariant 0 <= j <= |group|
      invariant r == WithBlocks(heading, group[..j])
    {
      r := AppendBlock(r, group[j]);
      BlockStep(heading, group, j);
      j := j + 1;
    }
    assert group[..j] == group;
  }

  /**
   * `_exportAsMarkdown`: a section per AI model with a block per record of that model, or the
   * `TypeError` of the grouping loop.
   */
  method ExportAsMarkdown(prompts: seq<Prompt>, dateText: string) returns (r: Result<string>)
    ensures r.Err? <==> GroupingFails(prompts)
    ensures r.Err? ==> r.message == PushFailure
    ensures r.Ok? ==> r.value == Markdown(prompts, dateText)
  {
    var md := "# AI Prompt Library\n\n";
    md := md + "Exported on " + dateText + "\n\n";
    var ok, models, groups := GroupByModel(prompts);
    if !ok {
      return Err(PushFailure);
    }
    var k := 0;
    while k < |models|
      invariant 0 <= k <= |models|
      invariant md == WithSections(MdHeader(dateText), models[..k], prompts)
    {
      var model := models[k];
      assert model in groups;
      md := AppendSection(md, model, groups[model]);
      SectionStep(MdHeader(dateText), models, k, prompts);
      k := k + 1;
    }
    assert models[..k] == models;
    r := Ok(md);
  }

  /** When every record has the same AI model, the export is the header and one section. */
  lemma MarkdownOneModel(ps: seq<Prompt>, model: string, dateText: string)
    requires ps != [] && forall p :: p in ps ==> p.category.aiModel == model
    ensures Markdown(ps, dateText) == WithBlocks(MdHeader(dateText) + "## " + model + "\n\n", ps)
  {
    ModelOrderSingle(ps, model);
    OfModelAll(ps, model);
    SectionStep(MdHeader(dateText), [model], 0, ps);
    assert [model][..1] == [model];
    assert [model][..0] == [];
  }

  /** Records that all share one AI model have that model alone in their model order. */
  lemma ModelOrderSingle(ps: seq<Prompt>, model: string)
    requires ps != [] && forall p :: p in ps ==> p.category.aiModel == model
    ensures ModelOrder(ps) == [model]
  {
    var mo := ModelOrder(ps);
    ModelOrderFacts(ps);
    assert ps[0] in ps;
    assert model in mo;
    assert (set x | x in mo) == {model};
    DistinctCardinality(mo);
    assert mo[0] == model;
  }
}
