/**
 * The text helpers of `ClipboardManager`: the one-line preview shown in notifications, the
 * escaping of a placeholder for a regular expression, the substitution of template variables,
 * and the per-model formatting of a prompt before it is copied.
 */
module Clipboard {
  import opened Wrappers
  import opened Seqs
  import opened Strings
  import opened PromptModel

  // ---------------------------------------------------------------------------------------------
  // The content preview

  /**
   * The characters the regular-expression class `\s` matches and `String.prototype.trim`
   * removes: the ECMAScript white space and line terminator characters.
   */
  const Whitespace: set<char> := {
    '\t', '\n', '\U{B}', '\U{C}', '\r', ' ', '\U{A0}', '\U{1680}',
    '\U{2000}', '\U{2001}', '\U{2002}', '\U{2003}', '\U{2004}', '\U{2005}', '\U{2006}',
    '\U{2007}', '\U{2008}', '\U{2009}', '\U{200A}',
    '\U{2028}', '\U{2029}', '\U{202F}', '\U{205F}', '\U{3000}', '\U{FEFF}'}

  predicate IsSpace(c: char) {
    c in Whitespace
  }

  predicate NotSpace(c: char) {
    !IsSpace(c)
  }

  /** The text after its leading white space: `trimStart`. */
  function DropSpaces(s: string): (r: string)
    ensures |r| <= |s| && r == s[|s| - |r|..]
    ensures r == [] || !IsSpace(r[0])
    ensures s != [] && IsSpace(s[0]) ==> |r| < |s|
  {
    if s != [] && IsSpace(s[0]) then DropSpaces(s[1..]) else s
  }

  /** The text before its trailing white space: `trimEnd`. */
  function TrimEnd(s: string): (r: string)
    ensures |r| <= |s| && r == s[..|r|]
    ensures r == [] || !IsSpace(r[|r| - 1])
  {
    if s != [] && IsSpace(s[|s| - 1]) then TrimEnd(s[..|s| - 1]) else s
  }

  /** `s.replace(/\s+/g, ' ')`: every run of white space becomes one space. */
  function Collapse(s: string): string
    decreases |s|
  {
    if s == [] then []
    else if IsSpace(s[0]) then " " + Collapse(DropSpaces(s))
    else [s[0]] + Collapse(s[1..])
  }

  /** `content.replace(/\s+/g, ' ').trim()`. */
  function Clean(s: string): string {
    TrimEnd(DropSpaces(Collapse(s)))
  }

  /** Every white-space character is a plain space with no white space right after it. */
  ghost predicate SingleSpaced(s: string) {
    (forall i :: 0 <= i < |s| && IsSpace(s[i]) ==> s[i] == ' ') &&
    (forall i, j :: 0 <= i < j < |s| && j == i + 1 ==> !(IsSpace(s[i]) && IsSpace(s[j])))
  }

  /** What `Clean` leaves: single spaces between words, none at either end. */
  ghost predicate IsClean(s: string) {
    SingleSpaced(s) && (s == [] || (!IsSpace(s[0]) && !IsSpace(s[|s| - 1])))
  }

  /**
   * A character put before a single-spaced text keeps it single-spaced when it is a plain space
   * followed by no white space, or no white space at all.
   */
  lemma SingleSpacedCons(c: char, x: string)
    requires SingleSpaced(x)
    requires c == ' ' || !IsSpace(c)
    requires IsSpace(c) ==> x == [] || !IsSpace(x[0])
    ensures SingleSpaced([c] + x)
  {
    var y := [c] + x;
    assert forall i :: 0 < i < |y| ==> y[i] == x[i - 1];
  }

  /** Collapsing leaves single spaces, and a collapsed text starts with white space only where the text did. */
  lemma {:induction false} CollapseSingleSpaced(s: string)
    ensures SingleSpaced(Collapse(s))
    ensures Collapse(s) != [] ==> (IsSpace(Collapse(s)[0]) <==> IsSpace(s[0]))
    decreases |s|
  {
    if s != [] {
      if IsSpace(s[0]) {
        var rest := DropSpaces(s);
        CollapseSingleSpaced(rest);
        assert rest != [] ==> Collapse(rest) != [];
        SingleSpacedCons(' ', Collapse(rest));
      } else {
        CollapseSingleSpaced(s[1..]);
        SingleSpacedCons(s[0], Collapse(s[1..]));
      }
    }
  }

  /** A prefix of a single-spaced text is single-spaced. */
  lemma SingleSpacedPrefix(s: string, j: nat)
    requires SingleSpaced(s) && j <= |s|
    ensures SingleSpaced(s[..j])
  {
    assert forall k :: 0 <= k < j ==> s[..j][k] == s[k];
  }

  /** A suffix of a single-spaced text is single-spaced. */
  lemma SingleSpacedSuffix(s: string, i: nat)
    requires SingleSpaced(s) && i <= |s|
    ensures SingleSpaced(s[i..])
  {
    assert forall k :: 0 <= k < |s| - i ==> s[i..][k] == s[i + k];
  }

  /** Trimming both ends of a single-spaced text leaves a clean one. */
  lemma TrimmedIsClean(c: string)
    requires SingleSpaced(c)
    ensures IsClean(TrimEnd(DropSpaces(c)))
  {
    var d := DropSpaces(c);
    SingleSpacedSuffix(c, |c| - |d|);
    assert SingleSpaced(d);
    var t := TrimEnd(d);
    SingleSpacedPrefix(d, |t|);
    assert SingleSpaced(t);
    if t != [] {
      assert t[0] == d[0];
    }
  }

  /** The cleaned text has single spaces between words and none at either end. */
  lemma CleanIsClean(s: string)
    ensures IsClean(Clean(s))
  {
    CollapseSingleSpaced(s);
    TrimmedIsClean(Collapse(s));
  }

  /** A single-spaced text collapses to itself. */
  lemma {:induction false} CollapseSingleSpacedSelf(s: string)
    requires SingleSpaced(s)
    ensures Collapse(s) == s
    decreases |s|
  {
    if s != [] {
      SingleSpacedSuffix(s, 1);
      CollapseSingleSpacedSelf(s[1..]);
      if IsSpace(s[0]) {
        assert DropSpaces(s) == s[1..];
      }
      assert [s[0]] + s[1..] == s;
    }
  }

  /** A clean text is its own cleaning: cleaning is idempotent. */
  lemma CleanSelf(s: string)
    requires IsClean(s)
    ensures Clean(s) == s
  {
    CollapseSingleSpacedSelf(s);
  }

  /** Cleaning twice is cleaning once. */
  lemma CleanIdempotent(s: string)
    ensures Clean(Clean(s)) == Clean(s)
  {
    CleanIsClean(s);
    CleanSelf(Clean(s));
  }

  /** Trimming at the front removes only white space. */
  lemma {:induction false} DropSpacesKeepsText(s: string)
    ensures Filter(DropSpaces(s), NotSpace) == Filter(s, NotSpace)
  {
    if s != [] && IsSpace(s[0]) {
      DropSpacesKeepsText(s[1..]);
    }
  }

  /** Trimming at the back removes only white space. */
  lemma {:induction false} TrimEndKeepsText(s: string)
    ensures Filter(TrimEnd(s), NotSpace) == Filter(s, NotSpace)
  {
    if s != [] && IsSpace(s[|s| - 1]) {
      var init := s[..|s| - 1];
      TrimEndKeepsText(init);
      assert s == init + [s[|s| - 1]];
      FilterSnoc(init, s[|s| - 1], NotSpace);
    }
  }

  /** Collapsing changes only white space. */
  lemma {:induction false} CollapseKeepsText(s: string)
    ensures Filter(Collapse(s), NotSpace) == Filter(s, NotSpace)
    decreases |s|
  {
    if s != [] {
      if IsSpace(s[0]) {
        var rest := DropSpaces(s);
        CollapseKeepsText(rest);
        DropSpacesKeepsText(s);
        FilterConcat(" ", Collapse(rest), NotSpace);
      } else {
        CollapseKeepsText(s[1..]);
        FilterConcat([s[0]], Collapse(s[1..]), NotSpace);
      }
    }
  }

  /** Cleaning keeps every character that is not white space, in order. */
  lemma CleanKeepsText(s: string)
    ensures Filter(Clean(s), NotSpace) == Filter(s, NotSpace)
  {
    CollapseKeepsText(s);
    DropSpacesKeepsText(Collapse(s));
    TrimEndKeepsText(DropSpaces(Collapse(s)));
  }

  /** The longest preview, and the length kept before "..." when the text is longer. */
  const PreviewLength := 80
  const PreviewEllipsis := "..."

  /**
   * `_createContentPreview`: the empty string for empty content; otherwise the cleaned text when
   * it fits in eighty characters, and its first seventy-seven followed by "..." when it does not.
   */
  function ContentPreview(content: string): (r: string)
    ensures |r| <= PreviewLength
    ensures |Clean(content)| <= PreviewLength ==> r == Clean(content)
    ensures |Clean(content)| > PreviewLength ==>
              |r| == PreviewLength && r == Clean(content)[..PreviewLength - 3] + PreviewEllipsis
  {
    if content == "" then ""
    else
      var cleaned := Clean(content);
      if |cleaned| <= PreviewLength then cleaned
      else cleaned[..PreviewLength - 3] + PreviewEllipsis
  }

  /** A single-spaced text that starts with a word stays clean when "..." is appended. */
  lemma EllipsisIsClean(front: string)
    requires SingleSpaced(front) && front != [] && !IsSpace(front[0])
    ensures IsClean(front + PreviewEllipsis)
  {
    var r := front + PreviewEllipsis;
    assert !IsSpace('.');
    assert forall i :: 0 <= i < |front| ==> r[i] == front[i];
    assert forall i :: |front| <= i < |r| ==> r[i] == '.';
  }

  /** A preview is clean text: single spaces, none at either end. */
  lemma PreviewIsClean(content: string)
    ensures IsClean(ContentPreview(content))
  {
    var cleaned := Clean(content);
    CleanIsClean(content);
    if content != "" && |cleaned| > PreviewLength {
      SingleSpacedPrefix(cleaned, PreviewLength - 3);
      EllipsisIsClean(cleaned[..PreviewLength - 3]);
    }
  }

  /** The preview of a preview is the preview itself. */
  lemma PreviewIdempotent(content: string)
    ensures ContentPreview(ContentPreview(content)) == ContentPreview(content)
  {
    PreviewIsClean(content);
    CleanSelf(ContentPreview(content));
  }

  // ---------------------------------------------------------------------------------------------
  // Escaping for a regular expression

  /** The characters `_escapeRegExp` puts a backslash before. */
  const RegExpSpecials: set<char> := {'.', '*', '+', '?', '^', '$', '{', '}', '(', ')', '|', '[', ']', '\\'}

  predicate IsSpecial(c: char) {
    c in RegExpSpecials
  }

  /** `_escapeRegExp`: `s.replace(/[.*+?^${}()|[\]\\]/g, '\\$&')`. */
  function EscapeRegExp(s: string): (r: string)
    ensures |s| <= |r| <= 2 * |s|
    ensures forall i :: 0 <= i < |r| ==> r[i] == '\\' || r[i] in s
  {
    if s == [] then []
    else (if IsSpecial(s[0]) then ['\\', s[0]] else [s[0]]) + EscapeRegExp(s[1..])
  }

  /** A pattern in which every special character is escaped: it matches only its literal text. */
  predicate IsLiteral(p: string)
    decreases |p|
  {
    if p == [] then true
    else if p[0] == '\\' then |p| > 1 && IsSpecial(p[1]) && IsLiteral(p[2..])
    else !IsSpecial(p[0]) && IsLiteral(p[1..])
  }

  /** The text a literal pattern matches: each escaping backslash dropped. */
  function Unescape(p: string): string
    decreases |p|
  {
    if p == [] then []
    else if p[0] == '\\' && |p| > 1 then [p[1]] + Unescape(p[2..])
    else [p[0]] + Unescape(p[1..])
  }

  /** The escaped text is a literal pattern, and the text it matches is the original. */
  lemma {:induction false} EscapeRoundTrip(s: string)
    ensures IsLiteral(EscapeRegExp(s))
    ensures Unescape(EscapeRegExp(s)) == s
  {
    if s != [] {
      EscapeRoundTrip(s[1..]);
      var e := EscapeRegExp(s);
      if IsSpecial(s[0]) {
        assert e[2..] == EscapeRegExp(s[1..]);
      } else {
        assert e[1..] == EscapeRegExp(s[1..]);
      }
      assert s == [s[0]] + s[1..];
    }
  }

  /** Escaping adds one backslash per special character. */
  lemma {:induction false} EscapeLength(s: string)
    ensures |EscapeRegExp(s)| == |s| + |Filter(s, IsSpecial)|
  {
    if s != [] {
      EscapeLength(s[1..]);
    }
  }

  // ---------------------------------------------------------------------------------------------
  // Template variables

  /** The five placeholders the built-in prompts use. */
  const CodeSlot := "[INSERT CODE HERE]"
  const TopicSlot := "[INSERT TOPIC]"
  const TextSlot := "[INSERT TEXT HERE]"
  const AudienceSlot := "[DESCRIBE AUDIENCE]"
  const LanguageSlot := "[SPECIFY LANGUAGE]"

  /** The short names a caller fills those placeholders by. */
  const Shorthands := ["code", "topic", "text", "audience", "language"]

  /**
   * The own properties of an object, in their enumeration order, as (key, value) pairs: the
   * `variables` argument and the `templateVars` object.
   */
  type Entries = seq<(string, string)>

  function Keys(es: Entries): (ks: seq<string>)
    ensures |ks| == |es| && forall i :: 0 <= i < |es| ==> ks[i] == es[i].0
  {
    if es == [] then [] else [es[0].0] + Keys(es[1..])
  }

  /** `variables[key]`, the empty string when it is absent: the last entry with that key wins. */
  function Lookup(es: Entries, key: string): string {
    if es == [] then ""
    else if es[|es| - 1].0 == key then es[|es| - 1].1
    else Lookup(es[..|es| - 1], key)
  }

  /**
   * An object property assigned: an existing key gets the new value in its place, a new key is
   * added at the end.
   */
  function Assign(es: Entries, key: string, value: string): Entries {
    if es == [] then [(key, value)]
    else if es[0].0 == key then [(key, value)] + es[1..]
    else [es[0]] + Assign(es[1..], key, value)
  }

  /** `{...es, ...more}`: the properties of `more` assigned one by one. */
  function Spread(es: Entries, more: Entries): Entries {
    if more == [] then es
    else
      var last := more[|more| - 1];
      Assign(Spread(es, more[..|more| - 1]), last.0, last.1)
  }

  /** The five placeholders, each mapped to the variable of its short name or, failing that, to itself. */
  function SlotEntries(variables: Entries): Entries {
    [(CodeSlot, OrElse(Lookup(variables, "code"), CodeSlot)),
     (TopicSlot, OrElse(Lookup(variables, "topic"), TopicSlot)),
     (TextSlot, OrElse(Lookup(variables, "text"), TextSlot)),
     (AudienceSlot, OrElse(Lookup(variables, "audience"), AudienceSlot)),
     (LanguageSlot, OrElse(Lookup(variables, "language"), LanguageSlot))]
  }

  /**
   * The `templateVars` object as written: the five placeholders, then `...variables`, which adds
   * the short names themselves as further placeholders.
   */
  function TemplateEntriesAsWritten(variables: Entries): Entries {
    Spread(SlotEntries(variables), variables)
  }

  predicate IsShorthand(e: (string, string)) {
    e.0 in Shorthands
  }

  predicate IsExtraVariable(e: (string, string)) {
    e.0 !in Shorthands
  }

  /**
   * The `templateVars` object as intended: the five placeholders, then the caller's own
   * placeholders, leaving out the short names the five already consumed.
   */
  function TemplateEntries(variables: Entries): Entries {
    Spread(SlotEntries(variables), Filter(variables, IsExtraVariable))
  }

  /** Each placeholder replaced, in order, by its value. */
  function ReplaceEach(content: string, es: Entries): string {
    if es == [] then content
    else
      var last := es[|es| - 1];
      ReplaceAll(ReplaceEach(content, es[..|es| - 1]), last.0, last.1)
  }

  /** `processTemplateVariables` as written. */
  function ProcessTemplateVariablesAsWritten(content: string, variables: Entries): string {
    ReplaceEach(content, TemplateEntriesAsWritten(variables))
  }

  /** `processTemplateVariables` as intended. */
  function TemplateText(content: string, variables: Entries): string {
    ReplaceEach(content, TemplateEntries(variables))
  }

  /**
   * `processTemplateVariables`: each placeholder of the template object, as the source builds it,
   * replaced in turn everywhere in the content.
   */
  method ProcessTemplateVariables(content: string, variables: Entries) returns (processed: string)
    ensures processed == ProcessTemplateVariablesAsWritten(content, variables)
  {
    var templateVars := TemplateEntriesAsWritten(variables);
    processed := content;
    var i := 0;
    while i < |templateVars|
      invariant 0 <= i <= |templateVars|
      invariant processed == ReplaceEach(content, templateVars[..i])
    {
      var (placeholder, value) := templateVars[i];
      assert templateVars[..i + 1][..i] == templateVars[..i];
      processed := ReplaceAll(processed, placeholder, value);
      i := i + 1;
    }
    assert templateVars[..i] == templateVars;
  }

  /** Assigning a property keeps the existing keys in place and adds a new key at the end. */
  lemma {:induction false} AssignKeys(es: Entries, key: string, value: string)
    ensures Keys(Assign(es, key, value)) == if key in Keys(es) then Keys(es) else Keys(es) + [key]
  {
    if es != [] && es[0].0 != key {
      AssignKeys(es[1..], key, value);
      var rest := Assign(es[1..], key, value);
      assert ([es[0]] + rest)[1..] == rest;
    } else if es != [] {
      assert ([(key, value)] + es[1..])[1..] == es[1..];
    }
  }

  /** Assigning a property keeps the keys distinct and the keys before it in place. */
  lemma AssignDistinct(es: Entries, key: string, value: string)
    requires Distinct(Keys(es))
    ensures Distinct(Keys(Assign(es, key, value)))
    ensures |Assign(es, key, value)| >= |es|
    ensures forall i :: 0 <= i < |es| ==> Assign(es, key, value)[i].0 == es[i].0
  {
    AssignKeys(es, key, value);
  }

  /** Spreading properties into an object keeps its keys distinct and its first keys first. */
  lemma {:induction false} SpreadKeys(es: Entries, more: Entries)
    requires Distinct(Keys(es))
    ensures Distinct(Keys(Spread(es, more)))
    ensures |Spread(es, more)| >= |es|
    ensures forall i :: 0 <= i < |es| ==> Spread(es, more)[i].0 == es[i].0
  {
    if more != [] {
      var last := more[|more| - 1];
      SpreadKeys(es, more[..|more| - 1]);
      AssignDistinct(Spread(es, more[..|more| - 1]), last.0, last.1);
    }
  }

  /** The five placeholders, in order. */
  const Slots := [CodeSlot, TopicSlot, TextSlot, AudienceSlot, LanguageSlot]

  /** The five placeholders are different strings. */
  lemma SlotsDistinct()
    ensures Distinct(Slots)
  {
    assert |CodeSlot| == |TextSlot| == |LanguageSlot| == 18;
    assert |TopicSlot| == 14 && |AudienceSlot| == 19;
    assert CodeSlot[8] != TextSlot[8];
    assert CodeSlot[1] != LanguageSlot[1] && TextSlot[1] != LanguageSlot[1];
  }

  /** Properties spread into the five placeholders leave them first, with all keys distinct. */
  lemma SpreadSlotKeys(variables: Entries, more: Entries)
    ensures var r := Spread(SlotEntries(variables), more);
            Distinct(Keys(r)) && |r| >= 5 && Keys(r)[..5] == Slots
  {
    var slots := SlotEntries(variables);
    assert Keys(slots) == Slots;
    SlotsDistinct();
    SpreadKeys(slots, more);
    var r := Spread(slots, more);
    assert forall i :: 0 <= i < 5 ==> Keys(r)[i] == Slots[i];
  }

  /**
   * The template object, as written and as intended, has distinct keys, and its first five are
   * the placeholders, in order.
   */
  lemma TemplateKeys(variables: Entries)
    ensures Distinct(Keys(TemplateEntries(variables))) && Distinct(Keys(TemplateEntriesAsWritten(variables)))
    ensures |TemplateEntries(variables)| >= 5 && |TemplateEntriesAsWritten(variables)| >= 5
    ensures Keys(TemplateEntries(variables))[..5] == Slots
    ensures Keys(TemplateEntriesAsWritten(variables))[..5] == Slots
  {
    SpreadSlotKeys(variables, variables);
    SpreadSlotKeys(variables, Filter(variables, IsExtraVariable));
  }

  /** Replacing each placeholder by itself leaves the content unchanged. */
  lemma {:induction false} ReplaceEachSelf(content: string, es: Entries)
    requires forall i :: 0 <= i < |es| ==> es[i].1 == es[i].0
    ensures ReplaceEach(content, es) == content
  {
    if es != [] {
      ReplaceEachSelf(content, es[..|es| - 1]);
      ReplaceAllSelf(content, es[|es| - 1].0);
    }
  }

  /** The five placeholders mapped to themselves. */
  const SelfSlots := [(CodeSlot, CodeSlot), (TopicSlot, TopicSlot), (TextSlot, TextSlot),
                      (AudienceSlot, AudienceSlot), (LanguageSlot, LanguageSlot)]

  /** Without variables the content comes back unchanged, as written and as intended. */
  lemma NoVariablesUnchanged(content: string)
    ensures TemplateText(content, []) == content
    ensures ProcessTemplateVariablesAsWritten(content, []) == content
  {
    assert SlotEntries([]) == SelfSlots;
    assert Filter([], IsExtraVariable) == [];
    ReplaceEachSelf(content, SelfSlots);
  }

  /** Variables that use none of the short names are treated alike as written and as intended. */
  lemma WithoutShorthandsAgree(content: string, variables: Entries)
    requires forall e :: e in variables ==> !IsShorthand(e)
    ensures TemplateText(content, variables) == ProcessTemplateVariablesAsWritten(content, variables)
  {
    FilterAll(variables, IsExtraVariable);
  }

  /**
   * As intended, a `code` variable fills the code placeholder and nothing else; an empty value
   * leaves the placeholder in place.
   */
  lemma CodeFillsItsPlaceholder(content: string, value: string)
    ensures TemplateText(content, [("code", value)]) == ReplaceAll(content, CodeSlot, OrElse(value, CodeSlot))
  {
    var vars := [("code", value)];
    assert Filter(vars, IsExtraVariable) == [] by {
      assert !IsExtraVariable(vars[0]);
    }
    var es := SlotEntries(vars);
    assert Lookup(vars, "code") == value;
    assert Lookup(vars, "topic") == "" && Lookup(vars, "text") == "" by {
      assert vars[0].0[0] != "topic"[0] && vars[0].0[0] != "text"[0];
    }
    assert Lookup(vars, "audience") == "" && Lookup(vars, "language") == "" by {
      assert vars[0].0[0] != "audience"[0] && vars[0].0[0] != "language"[0];
    }
    assert es == [(CodeSlot, OrElse(value, CodeSlot))] + SelfSlots[1..];
    var filled := ReplaceAll(content, CodeSlot, OrElse(value, CodeSlot));
    assert es[..1] == [(CodeSlot, OrElse(value, CodeSlot))];
    assert ReplaceEach(content, es[..1]) == filled;
    ReplaceEachAfter(content, es, 1);
  }

  /** Placeholders after the first `k` that map to themselves change nothing further. */
  lemma {:induction false} ReplaceEachAfter(content: string, es: Entries, k: nat)
    requires k <= |es| && forall i :: k <= i < |es| ==> es[i].1 == es[i].0
    ensures ReplaceEach(content, es) == ReplaceEach(content, es[..k])
    decreases |es|
  {
    if |es| > k {
      var init := es[..|es| - 1];
      ReplaceEachAfter(content, init, k);
      assert init[..k] == es[..k];
      ReplaceAllSelf(ReplaceEach(content, init), es[|es| - 1].0);
    } else {
      assert es[..k] == es;
    }
  }

  /** A text shorter than a pattern does not contain it. */
  lemma {:induction false} ShorterLacks(s: string, p: string)
    requires |s| < |p|
    ensures !Contains(s, p)
    decreases |s|
  {
    if s != [] {
      ShorterLacks(s[1..], p);
    }
  }

  /**
   * As written, the word "code" in the content is replaced by the `code` variable too: the
   * content "code" with `{code: "x"}` becomes "x", where the intended result keeps it.
   */
  lemma ShorthandReplacedAsWritten()
    ensures ProcessTemplateVariablesAsWritten("code", [("code", "x")]) == "x"
    ensures TemplateText("code", [("code", "x")]) == "code"
  {
    var vars := [("code", "x")];
    var slots := SlotEntries(vars);
    assert slots == [(CodeSlot, "x")] + SelfSlots[1..];
    var es := TemplateEntriesAsWritten(vars);
    assert vars[..0] == [];
    assert es == Assign(slots, "code", "x");
    assert es == slots + [("code", "x")];
    ShorterLacks("code", CodeSlot);
    ReplaceAllAbsent("code", CodeSlot, "x");
    assert slots[..1] == [(CodeSlot, "x")];
    assert ReplaceEach("code", slots[..1]) == "code";
    ReplaceEachAfter("code", slots, 1);
    assert es[..|es| - 1] == slots;
    assert ReplaceAll("code", "code", "x") == "x" + ReplaceAll("", "code", "x");
    CodeFillsItsPlaceholder("code", "x");
  }

  // ---------------------------------------------------------------------------------------------
  // Formatting for a model

  /** The line `_formatForClaude` puts before a prompt that asks for nothing. */
  const ClaudePreamble := "Please help me with the following:\n\n"

  /** `_formatForClaude`: the preamble, unless the content already says "Please" or "Help". */
  function FormatForClaude(content: string): (r: string)
    ensures Contains(r, "Please") || Contains(r, "Help")
    ensures r == content || r == ClaudePreamble + content
    ensures r == content <==> Contains(content, "Please") || Contains(content, "Help")
  {
    if !Contains(content, "Please") && !Contains(content, "Help") then
      assert IsPrefix("Please", ClaudePreamble + content);
      ClaudePreamble + content
    else content
  }

  /**
   * `formatForAIModel`: the Claude formatting for a model named "claude" in any case, and the
   * content unchanged for "chatgpt", "gemini" and every other name.
   */
  function FormatForAIModel(content: string, aiModel: string): (r: string)
    ensures Lower(aiModel) != "claude" ==> r == content
    ensures Lower(aiModel) == "claude" ==> r == FormatForClaude(content)
  {
    match Lower(aiModel)
    case "chatgpt" => content
    case "claude" => FormatForClaude(content)
    case "gemini" => content
    case _ => content
  }

  /** Formatting for Claude twice adds the preamble at most once. */
  lemma FormatForClaudeIdempotent(content: string)
    ensures FormatForClaude(FormatForClaude(content)) == FormatForClaude(content)
  {
  }

  /** The model name is compared without regard to case. */
  lemma FormatIgnoresCase(content: string, m1: string, m2: string)
    requires Lower(m1) == Lower(m2)
    ensures FormatForAIModel(content, m1) == FormatForAIModel(content, m2)
  {
  }
}
