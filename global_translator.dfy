/**
 * lib/global-translator.tsx: which page texts are sent to the automatic
 * translator (`shouldTranslate` and the guards around it) and when a text
 * node is replaced. Regular expressions run without flags, so `\d` and `\w`
 * are ASCII classes while `\s` and `trim` use JavaScript's Unicode white
 * space; `length` counts UTF-16 code units. The translator itself is a
 * function parameter that answers `None` when the call fails.
 */
module GlobalTranslator {
  import opened Common

  predicate IsDigit(c: char)
  {
    '0' <= c <= '9'
  }

  /** `\w` without the `u` flag. */
  predicate IsWordChar(c: char)
  {
    IsDigit(c) || 'a' <= c <= 'z' || 'A' <= c <= 'Z' || c == '_'
  }

  /** `\s` and the characters `trim` removes: white space and line terminators. */
  predicate IsJsSpace(c: char)
  {
    c == '\t' || c == '\n' || c == '\U{000B}' || c == '\U{000C}' || c == '\r' || c == ' '
    || c == '\U{00A0}' || c == '\U{1680}' || ('\U{2000}' <= c <= '\U{200A}')
    || c == '\U{2028}' || c == '\U{2029}' || c == '\U{202F}' || c == '\U{205F}' || c == '\U{3000}'
    || c == '\U{FEFF}'
  }

  /** `s.length`: characters outside the Basic Multilingual Plane take two UTF-16 code units. */
  function Utf16Length(s: string): (n: nat)
    ensures |s| <= n <= 2 * |s|
  {
    if s == [] then 0 else (if s[0] as int > 0xFFFF then 2 else 1) + Utf16Length(s[1..])
  }

  /** The white space at the front of `s`. */
  function LeadingSpaces(s: string): (n: nat)
    ensures n <= |s|
    ensures forall k | 0 <= k < n :: IsJsSpace(s[k])
    ensures n < |s| ==> !IsJsSpace(s[n])
  {
    if s != [] && IsJsSpace(s[0]) then 1 + LeadingSpaces(s[1..]) else 0
  }

  /** The white space at the end of `s`. */
  function TrailingSpaces(s: string): (n: nat)
    ensures n <= |s|
    ensures forall k | |s| - n <= k < |s| :: IsJsSpace(s[k])
    ensures n < |s| ==> !IsJsSpace(s[|s| - 1 - n])
  {
    if s != [] && IsJsSpace(s[|s| - 1]) then 1 + TrailingSpaces(s[..|s| - 1]) else 0
  }

  /** `s.trim()`: the part of `s` between its leading and its trailing white space. */
  function Trim(s: string): (r: string)
    ensures LeadingSpaces(s) + |r| <= |s|
    ensures r != [] ==> !IsJsSpace(r[0]) && !IsJsSpace(r[|r| - 1])
    ensures r == s[LeadingSpaces(s)..][..|r|]
    ensures forall k | 0 <= k < LeadingSpaces(s) :: IsJsSpace(s[k])
    ensures forall k | LeadingSpaces(s) + |r| <= k < |s| :: IsJsSpace(s[k])
  {
    var a := LeadingSpaces(s);
    var rest := s[a..];
    var b := TrailingSpaces(rest);
    rest[..|rest| - b]
  }

  /** Trimming twice trims nothing more. */
  lemma {:induction false} TrimIdempotent(s: string)
    ensures Trim(Trim(s)) == Trim(s)
  {
    var r := Trim(s);
    if r != [] {
      assert LeadingSpaces(r) == 0;
      assert TrailingSpaces(r[0..]) == 0 by {
        assert r[0..] == r;
      }
      assert r[0..][..|r|] == r;
    }
  }

  predicate AllDigits(s: string)
  {
    forall k | 0 <= k < |s| :: IsDigit(s[k])
  }

  /** `/^\d+%?$/`: one or more digits, optionally followed by one '%'. */
  predicate IsNumber(s: string)
  {
    var body := if |s| > 0 && s[|s| - 1] == '%' then s[..|s| - 1] else s;
    |body| >= 1 && AllDigits(body)
  }

  /** `a` digits, '/', `b` digits, '/', four digits, and nothing else. */
  predicate DateShape(s: string, a: int, b: int)
    requires 1 <= a <= 2 && 1 <= b <= 2
  {
    |s| == a + b + 6 && AllDigits(s[..a]) && s[a] == '/' && AllDigits(s[a + 1..a + 1 + b])
    && s[a + 1 + b] == '/' && AllDigits(s[a + b + 2..])
  }

  /** `/^\d{1,2}\/\d{1,2}\/\d{4}$/`. */
  predicate IsNumericDate(s: string)
  {
    DateShape(s, 1, 1) || DateShape(s, 1, 2) || DateShape(s, 2, 1) || DateShape(s, 2, 2)
  }

  /** `/^[^\w\s]+$/`: at least one character, none of them a word character or white space. */
  predicate OnlySymbols(s: string)
  {
    |s| >= 1 && forall k | 0 <= k < |s| :: !IsWordChar(s[k]) && !IsJsSpace(s[k])
  }

  /** Some of the proper nouns that are never translated occurs in `s`. */
  predicate MentionsProperNoun(s: string)
  {
    Contains(s, "RitmoVital") || Contains(s, "Victor") || Contains(s, "Avilan")
    || Contains(s, "GitHub") || Contains(s, "Netlify")
  }

  /** `shouldTranslate(text)`: the chain of rejections, each returning false, then true. */
  function ShouldTranslate(text: string): bool
  {
    if IsNumber(text) then false
    else if IsNumericDate(text) then false
    else if StartsWith(text, "http") then false
    else if Utf16Length(text) < 3 then false
    else if OnlySymbols(text) then false
    else if MentionsProperNoun(text) then false
    else true
  }

  /** A text is translated exactly when none of the six rejections applies. */
  lemma {:induction false} ShouldTranslateIff(text: string)
    ensures ShouldTranslate(text) <==>
      !IsNumber(text) && !IsNumericDate(text) && !StartsWith(text, "http") && Utf16Length(text) >= 3
      && !OnlySymbols(text) && !MentionsProperNoun(text)
  {
  }

  /** Every accepted text holds a word character or white space, and is at least three code units long. */
  lemma {:induction false} AcceptedTextHasWords(text: string)
    requires ShouldTranslate(text)
    ensures Utf16Length(text) >= 3 && text != []
    ensures exists k | 0 <= k < |text| :: IsWordChar(text[k]) || IsJsSpace(text[k])
  {
  }

  /** Percentages, numeric dates, links, symbols and the proper nouns are kept as they are. */
  lemma {:induction false} RejectionExamples()
    ensures !ShouldTranslate("75%") && !ShouldTranslate("12/05/2024")
    ensures !ShouldTranslate("https://ritmovital.app") && !ShouldTranslate("¡¿?")
    ensures !ShouldTranslate("RitmoVital Pro")
  {
    assert IsNumber("75%") by {
      assert "75%"[..2] == "75";
    }
    assert DateShape("12/05/2024", 2, 2) by {
      var s := "12/05/2024";
      assert s[..2] == "12" && s[3..5] == "05" && s[6..] == "2024";
    }
    assert StartsWith("https://ritmovital.app", "http");
    assert OnlySymbols("¡¿?");
    assert StartsWith("RitmoVital Pro", "RitmoVital");
  }

  /** Two characters outside the Basic Multilingual Plane pass the length test and fall to the symbol test. */
  lemma {:induction false} AstralSymbolsByLength()
    ensures Utf16Length("😀😀") == 4 && !ShouldTranslate("😀😀")
  {
    assert OnlySymbols("😀😀");
  }

  /** Text that starts with a lower-case letter other than 'h' and holds no capital letter is translated. */
  lemma {:induction false} LowerCaseTextIsTranslated(text: string)
    requires |text| >= 3
    requires 'a' <= text[0] <= 'z' && text[0] != 'h'
    requires forall k | 0 <= k < |text| :: !('A' <= text[k] <= 'Z')
    ensures ShouldTranslate(text)
  {
    assert !IsNumber(text) by {
      var body := if text[|text| - 1] == '%' then text[..|text| - 1] else text;
      assert body[0] == text[0];
    }
    assert text[..1][0] == text[0] && text[..2][0] == text[0];
    if |text| >= 4 {
      assert text[..4][0] == text[0];
    }
    assert IsWordChar(text[0]);
    CapitalFreeTextLacksWord(text, "RitmoVital", 0);
    CapitalFreeTextLacksWord(text, "Victor", 0);
    CapitalFreeTextLacksWord(text, "Avilan", 0);
    CapitalFreeTextLacksWord(text, "GitHub", 0);
    CapitalFreeTextLacksWord(text, "Netlify", 0);
  }

  /** A word with a capital letter at `pos` occurs nowhere in a text without capitals. */
  lemma {:induction false} CapitalFreeTextLacksWord(s: string, word: string, pos: nat)
    requires pos < |word| && 'A' <= word[pos] <= 'Z'
    requires forall k | 0 <= k < |s| :: !('A' <= s[k] <= 'Z')
    ensures !Contains(s, word)
    decreases |s|
  {
    if |word| <= |s| {
      assert s[..|word|][pos] == s[pos];
    }
    if |s| > 0 {
      var t := s[1..];
      assert forall k | 0 <= k < |t| :: t[k] == s[k + 1];
      CapitalFreeTextLacksWord(t, word, pos);
    }
  }

  /**
   * One text node of the loop: the trimmed text is skipped when empty or shorter than two code units, or when
   * it should not be translated; otherwise the node takes the translation when there is one and it differs.
   * The result is the node's new content, `None` when the node is left alone.
   */
  function NewContent(textContent: string, translate: string -> Option<string>): (r: Option<string>)
    ensures r.Some? ==> ShouldTranslate(Trim(textContent))
    ensures r.Some? ==> translate(Trim(textContent)) == r && r.value != Trim(textContent)
    ensures (ShouldTranslate(Trim(textContent)) && translate(Trim(textContent)).Some?
             && translate(Trim(textContent)).value != Trim(textContent)) ==> r == translate(Trim(textContent))
  {
    var original := Trim(textContent);
    if original == [] || Utf16Length(original) < 2 then None
    else if ShouldTranslate(original) then
      match translate(original)
      case Some(t) => if t != original then Some(t) else None
      case None => None
    else None
  }

  /** The caller's own length guard is implied by the predicate's stricter one. */
  lemma {:induction false} CallerGuardIsSubsumed(text: string)
    requires text == [] || Utf16Length(text) < 2
    ensures !ShouldTranslate(text)
  {
  }

  /**
   * The effect's loop over the collected text nodes: nothing happens in Spanish; otherwise each node gets its
   * new content or keeps its old one.
   */
  method TranslateNodes(isSpanish: bool, nodes: seq<string>, translate: string -> Option<string>) returns (out: seq<string>)
    ensures |out| == |nodes|
    ensures isSpanish ==> out == nodes
    ensures !isSpanish ==> forall i | 0 <= i < |nodes| :: out[i] == NewContent(nodes[i], translate).GetOr(nodes[i])
  {
    if isSpanish {
      return nodes;
    }
    out := [];
    for i := 0 to |nodes|
      invariant |out| == i
      invariant forall j | 0 <= j < i :: out[j] == NewContent(nodes[j], translate).GetOr(nodes[j])
    {
      var content := NewContent(nodes[i], translate).GetOr(nodes[i]);
      out := out + [content];
    }
  }
}
