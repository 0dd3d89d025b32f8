/**
 * lib/translations-provider.tsx: the context provider's dotted-path
 * translation lookup, its loading guard, and the adoption of a saved
 * language after the Spanish table has loaded. The translation table is a
 * parsed JSON value; the lookup walk and the result rule are defined here
 * once and shared with lib/use-translations.ts.
 */
module TranslationsProvider {
  import opened Common

  /**
   * A parsed JSON value as the lookup sees it: a string, an object, or anything else (null, a number or a
   * boolean), which is neither a string nor an object. Arrays are not modelled.
   */
  datatype Json = JString(s: string) | JObject(fields: map<string, Json>) | JOther

  // ---------------------------------------------------------------------------
  // `key.split('.')`

  /** `s.split(c)`: the pieces between the separators, empty pieces included. */
  function Split(s: string, c: char): (parts: seq<string>)
    ensures |parts| >= 1
    ensures forall k | 0 <= k < |parts| :: c !in parts[k]
    ensures Join(parts, c) == s
  {
    if s == [] then [""]
    else
      var rest := Split(s[1..], c);
      if s[0] == c then [""] + rest
      else
        assert Join(rest, c) == s[1..];
        JoinCons(s[0], rest, c);
        [[s[0]] + rest[0]] + rest[1..]
  }

  /** `parts.join(c)`. */
  function Join(parts: seq<string>, c: char): string
    requires |parts| >= 1
  {
    if |parts| == 1 then parts[0] else parts[0] + [c] + Join(parts[1..], c)
  }

  lemma JoinCons(x: char, parts: seq<string>, c: char)
    requires |parts| >= 1
    ensures Join([[x] + parts[0]] + parts[1..], c) == [x] + Join(parts, c)
  {
    var ps := [[x] + parts[0]] + parts[1..];
    assert ps[1..] == parts[1..];
  }

  /** Splitting undoes joining pieces that hold no separator, so a dotted key and its path determine each other. */
  lemma {:induction false} SplitJoin(parts: seq<string>, c: char)
    requires |parts| >= 1
    requires forall k | 0 <= k < |parts| :: c !in parts[k]
    ensures Split(Join(parts, c), c) == parts
    decreases |parts|, |parts[0]|
  {
    if |parts| == 1 {
      SplitNoSeparator(parts[0], c);
    } else if parts[0] == [] {
      assert Join(parts, c) == [c] + Join(parts[1..], c);
      SplitJoin(parts[1..], c);
      assert Join(parts, c)[1..] == Join(parts[1..], c);
    } else {
      var p0 := parts[0];
      assert p0[0] in parts[0];
      assert [p0[0]] + p0[1..] == p0;
      var tail := [p0[1..]] + parts[1..];
      assert tail[1..] == parts[1..];
      SplitJoin(tail, c);
      var j := Join(parts, c);
      assert j == [p0[0]] + Join(tail, c);
      assert j[1..] == Join(tail, c);
      assert [[p0[0]] + tail[0]] + tail[1..] == parts;
    }
  }

  lemma {:induction false} SplitNoSeparator(s: string, c: char)
    requires c !in s
    ensures Split(s, c) == [s]
    decreases |s|
  {
    if s != [] {
      SplitNoSeparator(s[1..], c);
      assert [s[0]] + s[1..] == s;
    }
  }

  // ---------------------------------------------------------------------------
  // The lookup

  /** The string at the end of `path` from `v`: every step needs an object holding the segment as a key. */
  function Resolve(v: Json, path: seq<string>): (r: Option<string>)
    ensures v.JOther? ==> r.None?
    ensures v.JString? ==> r == (if path == [] then Some(v.s) else None)
    ensures v.JObject? && |v.fields| == 0 ==> r.None?
    decreases |path|
  {
    if path == [] then (if v.JString? then Some(v.s) else None)
    else if v.JObject? && path[0] in v.fields then Resolve(v.fields[path[0]], path[1..])
    else None
  }

  /** `fallback || key`: an absent or empty fallback gives the key. */
  function FallbackOrKey(key: string, fallback: Option<string>): (r: string)
    ensures r == key || (fallback.Some? && r == fallback.value && r != "")
    ensures fallback.Some? && fallback.value != "" ==> r == fallback.value
  {
    if fallback.Some? && fallback.value != "" then fallback.value else key
  }

  /** The walk along the dotted key and the result rule, without a loading guard. */
  function ResolveOr(table: Json, key: string, fallback: Option<string>): (r: string)
    ensures Resolve(table, Split(key, '.')).Some? ==> r == Resolve(table, Split(key, '.')).value
    ensures Resolve(table, Split(key, '.')).None? ==> r == key || (fallback.Some? && r == fallback.value && r != "")
  {
    match Resolve(table, Split(key, '.'))
    case Some(s) => s
    case None => FallbackOrKey(key, fallback)
  }

  /** `!translations || Object.keys(translations).length === 0`. */
  predicate EmptyTable(t: Json)
  {
    match t
    case JObject(fields) => |fields| == 0
    case JString(s) => s == ""
    case JOther => true
  }

  /** The provider's `t`: the fallback-or-key while loading or with an empty table, the walk otherwise. */
  function Translate(isLoading: bool, table: Json, key: string, fallback: Option<string>): (r: string)
    ensures isLoading ==> r == FallbackOrKey(key, fallback)
    ensures !isLoading && !EmptyTable(table) ==> r == ResolveOr(table, key, fallback)
    ensures EmptyTable(table) ==> r == key || (fallback.Some? && r == fallback.value)
  {
    if isLoading || EmptyTable(table) then FallbackOrKey(key, fallback) else ResolveOr(table, key, fallback)
  }

  /** A string lies in the table when some path leads to it. */
  ghost predicate IsLeaf(table: Json, s: string)
  {
    exists path: seq<string> :: Resolve(table, path) == Some(s)
  }

  /** While loading, or with an empty table, `t` gives the non-empty fallback or else the key. */
  lemma {:induction false} GuardGivesFallbackOrKey(isLoading: bool, table: Json, key: string, fallback: Option<string>)
    requires isLoading || EmptyTable(table)
    ensures Translate(isLoading, table, key, fallback) == FallbackOrKey(key, fallback)
  {
  }

  /** When every segment is present and the last value is a string, that string is the translation. */
  lemma {:induction false} FoundPathGivesLeaf(table: Json, key: string, fallback: Option<string>, s: string)
    requires Resolve(table, Split(key, '.')) == Some(s)
    ensures Translate(false, table, key, fallback) == s
  {
    if EmptyTable(table) {
      EmptyTableResolvesNothing(table, Split(key, '.'));
    }
  }

  /** A missing segment or a non-string final value gives the non-empty fallback or else the key. */
  lemma {:induction false} MissingPathGivesFallbackOrKey(isLoading: bool, table: Json, key: string, fallback: Option<string>)
    requires Resolve(table, Split(key, '.')).None?
    ensures Translate(isLoading, table, key, fallback) == FallbackOrKey(key, fallback)
  {
  }

  /** The result is always a string of the table, the fallback, or the key itself. */
  lemma {:induction false} ResultIsLeafFallbackOrKey(isLoading: bool, table: Json, key: string, fallback: Option<string>)
    ensures var r := Translate(isLoading, table, key, fallback);
      IsLeaf(table, r) || (fallback.Some? && r == fallback.value) || r == key
  {
    var r := Translate(isLoading, table, key, fallback);
    if r != key && !(fallback.Some? && r == fallback.value) {
      assert Resolve(table, Split(key, '.')) == Some(r);
    }
  }

  /** A table with no keys, or one that is not an object, holds nothing at a non-empty path. */
  lemma {:induction false} EmptyTableResolvesNothing(table: Json, path: seq<string>)
    requires EmptyTable(table) && |path| >= 1
    ensures Resolve(table, path).None?
  {
    if table.JObject? {
      assert path[0] !in table.fields;
    }
  }

  /** Once loaded the guard changes nothing: the provider's `t` is the bare walk. */
  lemma {:induction false} GuardInvisibleWhenLoaded(table: Json, key: string, fallback: Option<string>)
    ensures Translate(false, table, key, fallback) == ResolveOr(table, key, fallback)
  {
    if EmptyTable(table) {
      EmptyTableResolvesNothing(table, Split(key, '.'));
    }
  }

  /** The walk of `t` over the split key: `value` moves one object level per segment, with an early exit. */
  method WalkTable(table: Json, key: string, fallback: Option<string>) returns (r: string)
    ensures r == ResolveOr(table, key, fallback)
  {
    var keys := Split(key, '.');
    var value := table;
    var i := 0;
    while i < |keys|
      invariant 0 <= i <= |keys|
      invariant Resolve(table, keys) == Resolve(value, keys[i..])
    {
      if value.JObject? && keys[i] in value.fields {
        assert keys[i..][1..] == keys[i + 1..];
        value := value.fields[keys[i]];
        i := i + 1;
      } else {
        return FallbackOrKey(key, fallback);
      }
    }
    r := if value.JString? then value.s else FallbackOrKey(key, fallback);
  }

  // ---------------------------------------------------------------------------
  // Languages

  datatype Language = Es | En | Ca | Fr | Ru | It

  function Code(l: Language): string
  {
    match l
    case Es => "es"
    case En => "en"
    case Ca => "ca"
    case Fr => "fr"
    case Ru => "ru"
    case It => "it"
  }

  /** `Object.keys(LANGUAGES).includes(s)`, returning the language named. */
  function ParseLanguage(s: string): (l: Option<Language>)
    ensures l.Some? ==> Code(l.value) == s
    ensures l.None? ==> forall x: Language :: Code(x) != s
  {
    if s == "es" then Some(Es) else if s == "en" then Some(En) else if s == "ca" then Some(Ca)
    else if s == "fr" then Some(Fr) else if s == "ru" then Some(Ru) else if s == "it" then Some(It)
    else None
  }

  lemma {:induction false} ParseCode(l: Language)
    ensures ParseLanguage(Code(l)) == Some(l)
  {
  }

  /** The saved-language test after the Spanish table loaded: one of the six codes, and not "es". */
  function AdoptSaved(saved: Option<string>): (l: Option<Language>)
    ensures l.Some? <==> saved.Some? && saved.value != "es" && ParseLanguage(saved.value).Some?
    ensures l.Some? ==> Code(l.value) == saved.value && l.value != Es
  {
    if saved.Some? && saved.value != "" && saved.value != "es" then ParseLanguage(saved.value) else None
  }

  /** The table installed when the Spanish file cannot be loaded. */
  const FallbackTable: Json := JObject(map[
    "welcome" := JObject(map[
      "title" := JString("¡Bienvenido a RitmoVital!"),
      "description" := JString("Descubre tus ciclos naturales")]),
    "fields" := JObject(map[
      "name" := JString("Nombre"),
      "birth_place" := JString("Lugar de Nacimiento"),
      "ethnicity" := JString("Origen Étnico")])])

  /** The provider's state. */
  class Provider {
    var currentLanguage: Language
    var translations: Json
    var isLoading: bool

    constructor ()
      ensures currentLanguage == Es && translations == JObject(map[]) && !isLoading
    {
      currentLanguage := Es;
      translations := JObject(map[]);
      isLoading := false;
    }

    /** The start of the initial load. */
    method BeginInitialLoad()
      modifies this
      ensures isLoading && currentLanguage == old(currentLanguage) && translations == old(translations)
    {
      isLoading := true;
    }

    /**
     * The end of the initial load, given the parsed Spanish file (`None` when the fetch or the parse failed)
     * and the stored language: a loaded file becomes the table and may let a saved language in; a failure
     * installs the fallback table and keeps the language.
     */
    method FinishInitialLoad(es: Option<Json>, saved: Option<string>)
      modifies this
      ensures !isLoading
      ensures es.Some? ==> translations == es.value
      ensures es.None? ==> translations == FallbackTable
      ensures es.Some? && AdoptSaved(saved).Some? ==> currentLanguage == AdoptSaved(saved).value
      ensures es.None? || AdoptSaved(saved).None? ==> currentLanguage == old(currentLanguage)
    {
      if es.Some? {
        translations := es.value;
        var adopted := AdoptSaved(saved);
        if adopted.Some? {
          currentLanguage := adopted.value;
        }
      } else {
        translations := FallbackTable;
      }
      isLoading := false;
    }

    /** `changeLanguage`: the language is switched at once (storing it is not modelled). */
    method ChangeLanguage(l: Language)
      modifies this
      ensures currentLanguage == l && translations == old(translations) && isLoading == old(isLoading)
    {
      currentLanguage := l;
    }

    /** `t(key, fallback)`. */
    method T(key: string, fallback: Option<string>) returns (r: string)
      ensures r == Translate(isLoading, translations, key, fallback)
    {
      if isLoading || EmptyTable(translations) {
        return FallbackOrKey(key, fallback);
      }
      r := WalkTable(translations, key, fallback);
    }
  }

  /** After a failed initial load the fallback table still translates its own keys. */
  lemma {:induction false} FallbackTableTranslates()
    ensures Translate(false, FallbackTable, "welcome.title", None) == "¡Bienvenido a RitmoVital!"
  {
    var path := ["welcome", "title"];
    SplitJoin(path, '.');
    assert Join(path, '.') == "welcome.title";
    var title := JString("¡Bienvenido a RitmoVital!");
    var welcome := JObject(map["title" := title, "description" := JString("Descubre tus ciclos naturales")]);
    assert FallbackTable.fields["welcome"] == welcome;
    assert Resolve(title, []) == Some(title.s);
    assert Resolve(welcome, ["title"]) == Some(title.s);
    assert Resolve(FallbackTable, path) == Some(title.s);
  }

  /** After a failed initial load a key the fallback table lacks is shown as the key itself. */
  lemma {:induction false} FallbackTableLacks()
    ensures Translate(false, FallbackTable, "app.name", None) == "app.name"
  {
    var path := ["app", "name"];
    SplitJoin(path, '.');
    assert Join(path, '.') == "app.name";
    assert "app" !in FallbackTable.fields;
  }
}
