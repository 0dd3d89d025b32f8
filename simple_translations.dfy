/**
 * lib/simple-translations.tsx: translation of whole Spanish texts through a
 * flat dictionary per language, with a fallback to keys that hold a
 * `{placeholder}`. A dictionary is its list of entries in insertion order
 * (the order `Object.entries` gives for keys that are not array indices); the
 * prose of the English and Russian dictionaries is not part of the model.
 */
module SimpleTranslations {
  import opened Common
  import TranslationsProvider

  datatype Language = Es | En | Ru

  /** A dictionary's entries, key and value, in insertion order. */
  type Dict = seq<(string, string)>

  /** The two non-Spanish dictionaries of `TRANSLATIONS`. */
  datatype Tables = Tables(en: Dict, ru: Dict)

  function TableOf(tables: Tables, l: Language): Dict
  {
    match l
    case Es => []
    case En => tables.en
    case Ru => tables.ru
  }

  /** `translations[text]`: the value of the first entry with that key. */
  function Get(dict: Dict, text: string): (r: Option<string>)
    ensures r.Some? <==> exists i | 0 <= i < |dict| :: dict[i].0 == text
    ensures r.Some? ==> exists i | 0 <= i < |dict| :: dict[i] == (text, r.value)
  {
    if dict == [] then None
    else if dict[0].0 == text then Some(dict[0].1)
    else
      var r := Get(dict[1..], text);
      assert forall i | 1 <= i < |dict| :: dict[i] == dict[1..][i - 1];
      r
  }

  /** `key.split('{')[0]`: the part of the key before its first brace. */
  function TemplatePrefix(key: string): (p: string)
    ensures '{' !in p
    ensures StartsWith(key, p)
  {
    var parts := TranslationsProvider.Split(key, '{');
    JoinStartsWithFirst(parts, '{');
    parts[0]
  }

  lemma JoinStartsWithFirst(parts: seq<string>, c: char)
    requires |parts| >= 1
    ensures StartsWith(TranslationsProvider.Join(parts, c), parts[0])
  {
    var j := TranslationsProvider.Join(parts, c);
    if |parts| > 1 {
      assert j == parts[0] + ([c] + TranslationsProvider.Join(parts[1..], c));
    }
    assert j[..|parts[0]|] == parts[0];
  }

  /** The partial-translation test: the key has a placeholder and the text contains what precedes it. */
  predicate TemplateMatch(key: string, text: string)
  {
    '{' in key && Contains(text, TemplatePrefix(key))
  }

  /** The position of the first entry whose key matches `text` as a template. */
  function FirstTemplate(dict: Dict, text: string): (r: Option<nat>)
    ensures r.Some? ==> r.value < |dict| && TemplateMatch(dict[r.value].0, text)
    ensures r.Some? ==> forall j | 0 <= j < r.value :: !TemplateMatch(dict[j].0, text)
    ensures r.None? ==> forall j | 0 <= j < |dict| :: !TemplateMatch(dict[j].0, text)
  {
    if dict == [] then None
    else if TemplateMatch(dict[0].0, text) then Some(0)
    else match FirstTemplate(dict[1..], text)
      case None => None
      case Some(k) => Some(k + 1)
  }

  /** `t(text)` in language `l`. */
  function Translate(l: Language, dict: Dict, text: string): (r: string)
    ensures l == Es ==> r == text
    ensures r == text || exists i | 0 <= i < |dict| :: dict[i].1 == r
    ensures l != Es && Get(dict, text).Some? && Get(dict, text).value != "" ==> r == Get(dict, text).value
  {
    if l == Es then text
    else if Get(dict, text).Some? && Get(dict, text).value != "" then Get(dict, text).value
    else match FirstTemplate(dict, text)
      case Some(i) => dict[i].1
      case None => text
  }

  /** Spanish is the identity. */
  lemma {:induction false} SpanishIsIdentity(dict: Dict, text: string)
    ensures Translate(Es, dict, text) == text
  {
  }

  /** A key with a non-empty value translates to that value. */
  lemma {:induction false} ExactMatchWins(l: Language, dict: Dict, text: string, v: string)
    requires l != Es && Get(dict, text) == Some(v) && v != ""
    ensures Translate(l, dict, text) == v
  {
  }

  /** Otherwise the first template entry whose prefix occurs in the text gives its value, placeholder and all. */
  lemma {:induction false} FirstTemplateWins(l: Language, dict: Dict, text: string, i: nat)
    requires l != Es && !(Get(dict, text).Some? && Get(dict, text).value != "")
    requires i < |dict| && TemplateMatch(dict[i].0, text)
    requires forall j | 0 <= j < i :: !TemplateMatch(dict[j].0, text)
    ensures Translate(l, dict, text) == dict[i].1
  {
    var r := FirstTemplate(dict, text);
    assert r.Some?;
  }

  /** With no exact and no template match the text comes back unchanged. */
  lemma {:induction false} NoMatchIsIdentity(l: Language, dict: Dict, text: string)
    requires Get(dict, text).None?
    requires forall j | 0 <= j < |dict| :: !TemplateMatch(dict[j].0, text)
    ensures Translate(l, dict, text) == text
  {
  }

  /** The placeholder key of the greeting has the prefix "¡Hola, ". */
  lemma {:induction false} GreetingPrefix()
    ensures TemplatePrefix("¡Hola, {name}!") == "¡Hola, "
  {
    var parts := ["¡Hola, ", "name}!"];
    TranslationsProvider.SplitJoin(parts, '{');
    assert TranslationsProvider.Join(parts, '{') == "¡Hola, {name}!";
  }

  lemma {:induction false} GreetingMatches(text: string)
    requires StartsWith(text, "¡Hola, ")
    ensures TemplateMatch("¡Hola, {name}!", text)
  {
    GreetingPrefix();
    assert "¡Hola, {name}!"[7] == '{';
  }

  /** The two entries before the greeting have no placeholder. */
  lemma HeadKeysHaveNoBrace()
    ensures '{' !in EnHead[0].0 && '{' !in EnHead[1].0
  {
    var k0, k1 := EnHead[0].0, EnHead[1].0;
    assert forall k | 0 <= k < |k0| :: k0[k] != '{';
    var a, b := "Descubre tus ciclos naturales", " y optimiza tu vida diaria";
    assert forall k | 0 <= k < |a| :: a[k] != '{';
    assert forall k | 0 <= k < |b| :: b[k] != '{';
    assert k1 == a + b;
  }

  /** The greeting: a text starting with "¡Hola, " becomes the English template verbatim, the name lost. */
  lemma {:induction false} GreetingExample(rest: Dict, text: string)
    requires StartsWith(text, "¡Hola, ")
    requires Get(EnHead + rest, text).None?
    ensures Translate(En, EnHead + rest, text) == "Hello, {name}!"
  {
    var dict := EnHead + rest;
    assert dict[0] == EnHead[0] && dict[1] == EnHead[1] && dict[2] == EnHead[2];
    HeadKeysHaveNoBrace();
    assert forall j | 0 <= j < 2 :: !TemplateMatch(dict[j].0, text);
    GreetingMatches(text);
    assert TemplateMatch(dict[2].0, text);
    FirstTemplateWins(En, dict, text, 2);
    assert dict[2].1 == "Hello, {name}!";
  }

  /** The first three entries of the English dictionary. */
  const EnHead: Dict := [
    ("¡Bienvenido a RitmoVital!", "Welcome to RitmoVital!"),
    ("Descubre tus ciclos naturales y optimiza tu vida diaria", "Discover your natural cycles and optimize your daily life"),
    ("¡Hola, {name}!", "Hello, {name}!")]

  /** The saved-language test: "es", "en" or "ru"; anything else keeps the current language. */
  function AdoptSaved(saved: Option<string>): (l: Option<Language>)
    ensures l.Some? <==> saved.Some? && (saved.value == "es" || saved.value == "en" || saved.value == "ru")
    ensures l == Some(Es) <==> saved == Some("es")
    ensures l == Some(En) <==> saved == Some("en")
    ensures l == Some(Ru) <==> saved == Some("ru")
  {
    if saved == Some("es") then Some(Es)
    else if saved == Some("en") then Some(En)
    else if saved == Some("ru") then Some(Ru)
    else None
  }

  class SimpleProvider {
    var currentLanguage: Language

    constructor ()
      ensures currentLanguage == Es
    {
      currentLanguage := Es;
    }

    /** The mount effect. */
    method Mount(saved: Option<string>)
      modifies this
      ensures AdoptSaved(saved).Some? ==> currentLanguage == AdoptSaved(saved).value
      ensures AdoptSaved(saved).None? ==> currentLanguage == old(currentLanguage)
    {
      var l := AdoptSaved(saved);
      if l.Some? {
        currentLanguage := l.value;
      }
    }

    /** `changeLanguage` (storing the choice is not modelled). */
    method ChangeLanguage(l: Language)
      modifies this
      ensures currentLanguage == l
    {
      currentLanguage := l;
    }

    /** `t(text)`: the es shortcut, the exact lookup, then the template scan with its early return. */
    method T(tables: Tables, text: string) returns (r: string)
      ensures r == Translate(currentLanguage, TableOf(tables, currentLanguage), text)
    {
      if currentLanguage == Es {
        return text;
      }
      var dict := TableOf(tables, currentLanguage);
      var exact := Get(dict, text);
      if exact.Some? && exact.value != "" {
        return exact.value;
      }
      var i := 0;
      while i < |dict|
        invariant 0 <= i <= |dict|
        invariant forall j | 0 <= j < i :: !TemplateMatch(dict[j].0, text)
      {
        var (key, value) := dict[i];
        if '{' in key && Contains(text, TemplatePrefix(key)) {
          FirstTemplateWins(currentLanguage, dict, text, i);
          return value;
        }
        i := i + 1;
      }
      r := text;
    }
  }
}
