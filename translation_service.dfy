/**
 * The translation service: the current language (kept in storage), the
 * loaded translation tables, and the lookup of a dotted key with `:name`
 * parameters substituted the way `String.prototype.replace` does it with a
 * string pattern. Fetching the table files is an input: a loaded table
 * arrives as a value.
 */
module TranslationService {
  import opened Common
  import opened Json

  const LangKey := "gymunity_language"
  const DefaultLanguage := "en"

  /** `getStoredLanguage`: the stored language when truthy, else English. */
  function StoredLanguage(storage: map<string, string>): (lang: string)
    ensures PresentText(StoredText(storage, LangKey)) ==> lang == storage[LangKey]
    ensures !PresentText(StoredText(storage, LangKey)) ==> lang == DefaultLanguage
  {
    OrText(StoredText(storage, LangKey), DefaultLanguage)
  }

  // ---------------------------------------------------------------- nested lookup

  /** Following the path one property at a time; an `undefined` step stays undefined. */
  function Walk(v: Option<Json>, parts: seq<string>): Option<Json>
    decreases |parts|
  {
    if parts == [] then v else Walk(Prop(v, parts[0]), parts[1..])
  }

  /** `getNestedProperty`: `path.split('.').reduce((acc, part) => acc?.[part], obj)`. */
  function GetNestedProperty(obj: Option<Json>, path: string): (r: Option<Json>)
    ensures '.' !in path ==> r == Prop(obj, path)
    ensures obj.None? ==> r.None?
  {
    var parts := Split(path, '.');
    if '.' !in path then
      assert IndexOfChar(path, '.').None?;
      assert parts == [path] && parts[1..] == [];
      assert Walk(obj, parts) == Walk(Prop(obj, path), []);
      Walk(obj, parts)
    else
      WalkUndefined(parts);
      Walk(obj, parts)
  }

  lemma {:induction false} WalkConcat(v: Option<Json>, a: seq<string>, b: seq<string>)
    ensures Walk(v, a + b) == Walk(Walk(v, a), b)
    decreases |a|
  {
    if a != [] {
      assert (a + b)[0] == a[0] && (a + b)[1..] == a[1..] + b;
      WalkConcat(Prop(v, a[0]), a[1..], b);
    } else {
      assert a + b == b;
    }
  }

  /** Once a step is undefined, the rest of the path is too. */
  lemma {:induction false} WalkUndefined(parts: seq<string>)
    ensures Walk(None, parts).None?
    decreases |parts|
  {
    if parts != [] {
      WalkUndefined(parts[1..]);
    }
  }

  /** A dotted key is the first segment's property, then the rest of the key looked up inside it. */
  lemma NestedStep(obj: Option<Json>, segment: string, rest: string)
    requires '.' !in segment
    ensures GetNestedProperty(obj, segment + "." + rest) == GetNestedProperty(Prop(obj, segment), rest)
  {
    SplitCons(segment, '.', rest);
    assert segment + "." + rest == segment + ['.'] + rest;
  }

  /** A key written by joining segments with dots walks exactly those segments. */
  lemma NestedOfJoin(obj: Option<Json>, parts: seq<string>)
    requires |parts| >= 1
    requires forall i :: 0 <= i < |parts| ==> '.' !in parts[i]
    ensures GetNestedProperty(obj, Join(parts, ".")) == Walk(obj, parts)
  {
    SplitJoin(parts, '.');
  }

  /** A key `segment.<i>` reads element `i` of an array stored under `segment` (`menu.0`). */
  lemma NestedArrayElement(obj: Option<Json>, segment: string, items: seq<Json>, i: nat)
    requires '.' !in segment && Prop(obj, segment) == Some(JArr(items)) && i < |items|
    ensures GetNestedProperty(obj, segment + "." + NatToString(i)) == Some(items[i])
  {
    NestedStep(obj, segment, NatToString(i));
    assert '.' !in NatToString(i) by {
      assert forall k :: 0 <= k < |NatToString(i)| ==> IsDigit(NatToString(i)[k]);
    }
    PropArrayIndex(items, i);
  }

  /** An empty table has no entry under any key. */
  lemma EmptyTableFindsNothing(key: string)
    ensures GetNestedProperty(Some(JObj(map[])), key).None?
  {
    var parts := Split(key, '.');
    WalkUndefined(parts[1..]);
  }

  // ---------------------------------------------------------------- replace

  /**
   * The replacement text of `replace` with a string pattern: `$$` is `$`,
   * `$&` the match, `` $` `` the text before it, `$'` the text after it;
   * any other `$` stands for itself (there are no capture groups).
   */
  function Expand(rep: string, matched: string, before: string, after: string): string
  {
    if |rep| >= 2 && rep[0] == '$' && rep[1] == '$' then "$" + Expand(rep[2..], matched, before, after)
    else if |rep| >= 2 && rep[0] == '$' && rep[1] == '&' then matched + Expand(rep[2..], matched, before, after)
    else if |rep| >= 2 && rep[0] == '$' && rep[1] == '`' then before + Expand(rep[2..], matched, before, after)
    else if |rep| >= 2 && rep[0] == '$' && rep[1] == '\'' then after + Expand(rep[2..], matched, before, after)
    else if rep == [] then ""
    else [rep[0]] + Expand(rep[1..], matched, before, after)
  }

  /** A replacement without `$` is inserted literally. */
  lemma {:induction false} ExpandLiteral(rep: string, matched: string, before: string, after: string)
    requires '$' !in rep
    ensures Expand(rep, matched, before, after) == rep
    decreases |rep|
  {
    if rep != [] {
      assert rep[0] != '$';
      ExpandLiteral(rep[1..], matched, before, after);
    }
  }

  /** `s.replace(pat, rep)` for a string `pat`: only the first occurrence is replaced. */
  function ReplaceFirst(s: string, pat: string, rep: string): (r: string)
    ensures IndexOf(s, pat).None? ==> r == s
  {
    match IndexOf(s, pat)
    case None => s
    case Some(i) => s[..i] + Expand(rep, pat, s[..i], s[i + |pat|..]) + s[i + |pat|..]
  }

  /**
   * With a literal replacement, the text before the first occurrence (which
   * holds no occurrence) and the text after it (later occurrences included)
   * are kept, and the replacement stands where the first occurrence was.
   */
  lemma ReplaceFirstLiteral(s: string, pat: string, rep: string)
    requires '$' !in rep
    requires IndexOf(s, pat).Some?
    ensures var i := IndexOf(s, pat).value;
      ReplaceFirst(s, pat, rep) == s[..i] + rep + s[i + |pat|..] &&
      (forall j :: 0 <= j < i ==> !OccursAt(s[..i], pat, j))
  {
    var i := IndexOf(s, pat).value;
    ExpandLiteral(rep, pat, s[..i], s[i + |pat|..]);
    assert ReplaceFirst(s, pat, rep) == s[..i] + rep + s[i + |pat|..];
    NoOccurrenceInPrefix(s, pat, i);
  }

  /** `Object.keys(params).forEach(...)`: each parameter replaces its placeholder once, in key order. */
  function ApplyParams(s: string, params: seq<(string, string)>): (r: string)
    ensures params == [] ==> r == s
    ensures |params| == 1 ==> r == ReplaceFirst(s, ":" + params[0].0, params[0].1)
    decreases |params|
  {
    if params == [] then s
    else ApplyParams(ReplaceFirst(s, ":" + params[0].0, params[0].1), params[1..])
  }

  lemma {:induction false} ApplyParamsConcat(s: string, a: seq<(string, string)>, b: seq<(string, string)>)
    ensures ApplyParams(s, a + b) == ApplyParams(ApplyParams(s, a), b)
    decreases |a|
  {
    if a != [] {
      assert (a + b)[0] == a[0] && (a + b)[1..] == a[1..] + b;
      ApplyParamsConcat(ReplaceFirst(s, ":" + a[0].0, a[0].1), a[1..], b);
    } else {
      assert a + b == b;
    }
  }

  /** A text with none of the placeholders is returned unchanged. */
  lemma {:induction false} ApplyParamsNoPlaceholders(s: string, params: seq<(string, string)>)
    requires forall k :: 0 <= k < |params| ==> !Contains(s, ":" + params[k].0)
    ensures ApplyParams(s, params) == s
    decreases |params|
  {
    if params != [] {
      ApplyParamsNoPlaceholders(s, params[1..]);
    }
  }

  // ---------------------------------------------------------------- get

  /**
   * What `get` produces: a text, a non-text entry returned as it is (only
   * possible without parameters), or the `TypeError` of calling `replace`
   * on a non-text entry.
   */
  datatype Lookup = Text(text: string) | Value(value: Json) | ReplaceError

  /** `this.translations[lang] || {}` */
  function Table(translations: map<string, Json>, lang: string): (t: Json)
    ensures Truthy(t)
    ensures lang !in translations ==> t == JObj(map[])
    ensures lang in translations && Truthy(translations[lang]) ==> t == translations[lang]
  {
    if lang in translations && Truthy(translations[lang]) then translations[lang] else JObj(map[])
  }

  /**
   * `get(key, params)` once the entry is found: a missing or falsy entry
   * gives the key itself; no parameters (or none listed) leave the entry as
   * it is; otherwise the placeholders are replaced in a text entry.
   */
  function Translate(found: Option<Json>, key: string, params: Option<seq<(string, string)>>): (r: Lookup)
    ensures !TruthyOpt(found) ==> r == Text(key)
    ensures TruthyOpt(found) && found.value.JStr? && (params.None? || params.value == []) ==>
      r == Text(found.value.s)
    ensures TruthyOpt(found) && !found.value.JStr? && (params.None? || params.value == []) ==>
      r == Value(found.value)
    ensures TruthyOpt(found) && found.value.JStr? && params.Some? && params.value != [] ==>
      r == Text(ApplyParams(found.value.s, params.value))
    ensures r == ReplaceError <==> TruthyOpt(found) && !found.value.JStr? && params.Some? && params.value != []
  {
    if !TruthyOpt(found) then Text(key)
    else if params.None? || params.value == [] then
      (if found.value.JStr? then Text(found.value.s) else Value(found.value))
    else if found.value.JStr? then Text(ApplyParams(found.value.s, params.value))
    else ReplaceError
  }

  /** Without a table for the language, every key translates to itself. */
  lemma MissingTableGivesKey(translations: map<string, Json>, lang: string, key: string,
                             params: Option<seq<(string, string)>>)
    requires lang !in translations
    ensures Translate(GetNestedProperty(Some(Table(translations, lang)), key), key, params) == Text(key)
  {
    EmptyTableFindsNothing(key);
  }

  class TranslationServiceState {
    var storage: map<string, string>
    var currentLanguage: string
    var translations: map<string, Json>

    /** The language comes from storage; no table is loaded yet. */
    constructor (initial: map<string, string>)
      ensures storage == initial && currentLanguage == StoredLanguage(initial) && translations == map[]
    {
      storage := initial;
      currentLanguage := StoredLanguage(initial);
      translations := map[];
    }

    /** A table fetch came back: a successful reply is kept under its language. */
    method OnTranslationsLoaded(lang: string, reply: Option<Json>)
      modifies this`translations
      ensures reply.Some? ==> translations == old(translations)[lang := reply.value]
      ensures reply.None? ==> translations == old(translations)
    {
      if reply.Some? {
        translations := translations[lang := reply.value];
      }
    }

    /** `setLanguage`: stored and current; a later start reads it back unless it is empty. */
    method SetLanguage(language: string)
      modifies this`storage, this`currentLanguage
      ensures storage == old(storage)[LangKey := language]
      ensures GetLanguage() == language
      ensures StoredLanguage(storage) == if language != "" then language else DefaultLanguage
    {
      storage := storage[LangKey := language];
      currentLanguage := language;
    }

    /** `getLanguage`: the language in use. */
    function GetLanguage(): (l: string)
      reads this
      ensures l == currentLanguage
    {
      currentLanguage
    }

    /** `isArabic`; never together with `isEnglish`. */
    predicate IsArabic()
      reads this
      ensures IsArabic() ==> !IsEnglish()
    {
      GetLanguage() == "ar"
    }

    /** `isEnglish`; never together with `isArabic`. */
    predicate IsEnglish()
      reads this
      ensures IsEnglish() ==> GetLanguage() != "ar"
    {
      GetLanguage() == "en"
    }

    /** The `forEach` over the parameters, replacing one placeholder per step. */
    method ReplaceEach(s: string, ps: seq<(string, string)>) returns (translation: string)
      ensures translation == ApplyParams(s, ps)
    {
      translation := s;
      var k := 0;
      while k < |ps|
        invariant 0 <= k <= |ps|
        invariant ApplyParams(translation, ps[k..]) == ApplyParams(s, ps)
      {
        assert ps[k..] == [ps[k]] + ps[k + 1..];
        translation := ReplaceFirst(translation, ":" + ps[k].0, ps[k].1);
        k := k + 1;
      }
    }

    /** `get`: the entry under the dotted key, its parameters replaced one after the other. */
    method Get(key: string, params: Option<seq<(string, string)>>) returns (r: Lookup)
      ensures r == Translate(GetNestedProperty(Some(Table(translations, currentLanguage)), key), key, params)
    {
      var found := GetNestedProperty(Some(Table(translations, currentLanguage)), key);
      if !TruthyOpt(found) {
        return Text(key);
      }
      if params.None? || params.value == [] {
        return if found.value.JStr? then Text(found.value.s) else Value(found.value);
      }
      if !found.value.JStr? {
        return ReplaceError;
      }
      var translation := ReplaceEach(found.value.s, params.value);
      return Text(translation);
    }
  }
}
