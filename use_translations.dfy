/**
 * lib/use-translations.ts: the stand-alone translations hook. Its `t` walks
 * the table exactly like the provider's but has no loading guard; on mount
 * it takes the stored language when that is one of the six codes and falls
 * back to Spanish otherwise.
 */
module UseTranslations {
  import opened Common
  import opened TranslationsProvider

  /** The mount effect: a stored valid code is taken, anything else (missing, empty, unknown) gives "es". */
  function InitialLanguage(saved: Option<string>): (l: Language)
    ensures saved.Some? && ParseLanguage(saved.value).Some? ==> l == ParseLanguage(saved.value).value
    ensures saved.None? || ParseLanguage(saved.value).None? ==> l == Es
  {
    if saved.Some? && saved.value != "" && ParseLanguage(saved.value).Some? then ParseLanguage(saved.value).value else Es
  }

  /** The hook and the provider end up with the same language from the same stored value. */
  lemma {:induction false} SameSavedLanguage(saved: Option<string>)
    ensures AdoptSaved(saved).GetOr(Es) == InitialLanguage(saved)
  {
  }

  /** The hook's state. */
  class Hook {
    var currentLanguage: Language
    var translations: Json
    var isLoading: bool

    constructor ()
      ensures currentLanguage == Es && translations == JObject(map[]) && isLoading
    {
      currentLanguage := Es;
      translations := JObject(map[]);
      isLoading := true;
    }

    /** The mount effect (writing "es" back to storage is not modelled). */
    method Mount(saved: Option<string>)
      modifies this
      ensures currentLanguage == InitialLanguage(saved)
      ensures translations == old(translations) && isLoading == old(isLoading)
    {
      currentLanguage := InitialLanguage(saved);
    }

    /** `t(key, fallback)`: the walk over the split key, whatever `isLoading` says. */
    method T(key: string, fallback: Option<string>) returns (r: string)
      ensures r == ResolveOr(translations, key, fallback)
    {
      var keys := Split(key, '.');
      var value := translations;
      var i := 0;
      while i < |keys|
        invariant 0 <= i <= |keys|
        invariant Resolve(translations, keys) == Resolve(value, keys[i..])
      {
        if value.JObject? && keys[i] in value.fields {
          assert keys[i..][1..] == keys[i + 1..];
          value := value.fields[keys[i]];
          i := i + 1;
        } else {
          return FallbackOrKey(key, fallback);
        }
      }
      r := if value.JString? then value.s else FallbackOrKey(key, fallback);
    }
  }

  /** With no guard an empty table still gives the non-empty fallback or else the key, for every key. */
  lemma {:induction false} EmptyHookTable(key: string, fallback: Option<string>)
    ensures ResolveOr(JObject(map[]), key, fallback) == FallbackOrKey(key, fallback)
  {
    EmptyTableResolvesNothing(JObject(map[]), Split(key, '.'));
  }

  /** Loaded, the hook and the provider translate alike. */
  lemma {:induction false} AgreesWithProvider(table: Json, key: string, fallback: Option<string>)
    ensures ResolveOr(table, key, fallback) == Translate(false, table, key, fallback)
  {
    GuardInvisibleWhenLoaded(table, key, fallback);
  }

  /** While a table is marked as loading the provider answers with the key, the hook already with the entry. */
  lemma {:induction false} LoadingDiffers()
    ensures Translate(true, JObject(map["a" := JString("x")]), "a", None) == "a"
    ensures ResolveOr(JObject(map["a" := JString("x")]), "a", None) == "x"
  {
    SplitNoSeparator("a", '.');
    var t := JObject(map["a" := JString("x")]);
    assert Resolve(t.fields["a"], []) == Some("x");
  }
}
