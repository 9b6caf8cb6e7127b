/**
 * The prompt record and the two ways a caller shapes one: the partial fields handed to
 * `addPrompt` and the field changes handed to `updatePrompt`.
 *
 * Timestamps are integers that order like the ISO-8601 strings the source stores.
 */
module PromptModel {
  import opened Wrappers

  /** The free-form classification of a prompt. */
  datatype Category = Category(aiModel: string, application: string)

  /** A stored prompt. `lastUsed` is absent until the prompt is first used. */
  datatype Prompt = Prompt(
    id: string,
    title: string,
    description: string,
    content: string,
    category: Category,
    tags: seq<string>,
    isCustom: bool,
    dateCreated: int,
    dateModified: int,
    usageCount: nat,
    lastUsed: Option<int>)

  /**
   * The fields a caller passes to `addPrompt`. A field the caller leaves out, or sets to a falsy
   * value, is the empty string here (the empty list for `tags`).
   */
  datatype PromptData = PromptData(
    title: string,
    description: string,
    content: string,
    aiModel: string,
    application: string,
    tags: seq<string>)

  /**
   * The fields a caller passes to `updatePrompt`: `Some` for each property present in the
   * `updates` object. `Object.assign` copies every property, `id` and `isCustom` included.
   */
  datatype PromptUpdate = PromptUpdate(
    id: Option<string>,
    title: Option<string>,
    description: Option<string>,
    content: Option<string>,
    category: Option<Category>,
    tags: Option<seq<string>>,
    isCustom: Option<bool>,
    dateCreated: Option<int>,
    usageCount: Option<nat>,
    lastUsed: Option<int>)

  /** The identifiers of a list of records, in order. */
  function Ids(ps: seq<Prompt>): (ids: seq<string>)
    ensures |ids| == |ps| && forall i :: 0 <= i < |ps| ==> ids[i] == ps[i].id
    ensures forall p :: p in ps ==> p.id in ids
  {
    seq(|ps|, i requires 0 <= i < |ps| => ps[i].id)
  }

  /** The ids of a list extended by one record. */
  lemma IdsSnoc(ps: seq<Prompt>, p: Prompt)
    ensures Ids(ps + [p]) == Ids(ps) + [p.id]
  {
  }

  /** The ids of a non-empty list: the first record's, then the rest's. */
  lemma IdsUncons(ps: seq<Prompt>)
    requires ps != []
    ensures Ids(ps) == [ps[0].id] + Ids(ps[1..])
  {
  }

  /** The AI models of a list of records, in order. */
  function Models(ps: seq<Prompt>): (ms: seq<string>)
    ensures |ms| == |ps| && forall i :: 0 <= i < |ps| ==> ms[i] == ps[i].category.aiModel
  {
    seq(|ps|, i requires 0 <= i < |ps| => ps[i].category.aiModel)
  }

  /** The applications of a list of records, in order. */
  function Applications(ps: seq<Prompt>): (apps: seq<string>)
    ensures |apps| == |ps| && forall i :: 0 <= i < |ps| ==> apps[i] == ps[i].category.application
  {
    seq(|ps|, i requires 0 <= i < |ps| => ps[i].category.application)
  }

  const UntitledPrompt := "Untitled Prompt"
  const OtherCategory := "Other"

  /** An update object with no properties. */
  const NoChanges := PromptUpdate(None, None, None, None, None, None, None, None, None, None)

  /** JavaScript's `s || fallback` on strings. */
  function OrElse(s: string, fallback: string): string {
    if s == "" then fallback else s
  }

  /**
   * The record `addPrompt` builds: a custom, unused prompt stamped `now`, whose title and
   * classification fall back to their defaults when the caller leaves them out.
   */
  function NewPrompt(data: PromptData, id: string, now: int): (p: Prompt)
    ensures p.id == id && p.isCustom && p.usageCount == 0 && p.lastUsed == None
    ensures p.dateCreated == now && p.dateModified == now
    ensures p.title != "" && p.category.aiModel != "" && p.category.application != ""
    ensures data.title == "" ==> p.title == UntitledPrompt
    ensures data.aiModel == "" ==> p.category.aiModel == OtherCategory
    ensures data.application == "" ==> p.category.application == OtherCategory
    ensures data.title != "" ==> p.title == data.title
    ensures data.aiModel != "" ==> p.category.aiModel == data.aiModel
    ensures data.application != "" ==> p.category.application == data.application
    ensures p.description == data.description && p.content == data.content && p.tags == data.tags
  {
    Prompt(
      id := id,
      title := OrElse(data.title, UntitledPrompt),
      description := data.description,
      content := data.content,
      category := Category(OrElse(data.aiModel, OtherCategory), OrElse(data.application, OtherCategory)),
      tags := data.tags,
      isCustom := true,
      dateCreated := now,
      dateModified := now,
      usageCount := 0,
      lastUsed := None)
  }

  /**
   * `Object.assign(prompt, updates)` followed by `prompt.dateModified = now`: a shallow merge in
   * which every supplied field wins and every other field is kept.
   */
  function ApplyUpdate(p: Prompt, u: PromptUpdate, now: int): (r: Prompt)
    ensures r.dateModified == now
    ensures r.id == (if u.id.Some? then u.id.value else p.id)
    ensures r.title == (if u.title.Some? then u.title.value else p.title)
    ensures r.description == (if u.description.Some? then u.description.value else p.description)
    ensures r.content == (if u.content.Some? then u.content.value else p.content)
    ensures r.category == (if u.category.Some? then u.category.value else p.category)
    ensures r.tags == (if u.tags.Some? then u.tags.value else p.tags)
    ensures r.isCustom == (if u.isCustom.Some? then u.isCustom.value else p.isCustom)
    ensures r.dateCreated == (if u.dateCreated.Some? then u.dateCreated.value else p.dateCreated)
    ensures r.usageCount == (if u.usageCount.Some? then u.usageCount.value else p.usageCount)
    ensures r.lastUsed == (if u.lastUsed.Some? then u.lastUsed else p.lastUsed)
  {
    p.(
      id := u.id.GetOr(p.id),
      title := u.title.GetOr(p.title),
      description := u.description.GetOr(p.description),
      content := u.content.GetOr(p.content),
      category := u.category.GetOr(p.category),
      tags := u.tags.GetOr(p.tags),
      isCustom := u.isCustom.GetOr(p.isCustom),
      dateCreated := u.dateCreated.GetOr(p.dateCreated),
      dateModified := now,
      usageCount := u.usageCount.GetOr(p.usageCount),
      lastUsed := if u.lastUsed.Some? then u.lastUsed else p.lastUsed)
  }

  /** An empty update only moves the modification stamp. */
  lemma NoChangesTouchesOnlyDate(p: Prompt, now: int)
    ensures ApplyUpdate(p, NoChanges, now) == p.(dateModified := now)
  {
  }

  /** Applying the same update twice is applying it once. */
  lemma ApplyUpdateIdempotent(p: Prompt, u: PromptUpdate, now: int)
    ensures ApplyUpdate(ApplyUpdate(p, u, now), u, now) == ApplyUpdate(p, u, now)
  {
  }

  /** The record `markAsUsed` leaves behind: one more use, last used `now`. */
  function MarkUsed(p: Prompt, now: int): (r: Prompt)
    ensures r.usageCount == p.usageCount + 1 && r.lastUsed == Some(now)
    ensures r.(usageCount := p.usageCount, lastUsed := p.lastUsed) == p
  {
    p.(usageCount := p.usageCount + 1, lastUsed := Some(now))
  }
}
