/** The translation helper `t`: a key looked up in the current language, then in English, then the key itself. */
module Translation {
  import opened Types

  /** Every language's table of translated strings, keyed by language code and then by message key. */
  type Table = map<string, map<string, string>>

  /** The entry for `key` in `lang`'s table, when that table exists and holds a non-empty string for it
      (JavaScript's `table[code]?.[key]` being truthy). */
  predicate HasEntry(table: Table, lang: Language, key: string)
  {
    var code := LanguageCode(lang);
    code in table && key in table[code] && table[code][key] != ""
  }

  /** `t(key)`. The English table must exist: the lookup `table['en'][key]` dereferences it. */
  function Translate(table: Table, lang: Language, key: string): (r: string)
    requires "en" in table
    ensures HasEntry(table, lang, key) ==> r == table[LanguageCode(lang)][key]
    ensures !HasEntry(table, lang, key) && HasEntry(table, En, key) ==> r == table["en"][key]
    ensures !HasEntry(table, lang, key) && !HasEntry(table, En, key) ==> r == key
    ensures key != "" ==> r != ""
  {
    var code := LanguageCode(lang);
    if code in table && key in table[code] && table[code][key] != "" then table[code][key]
    else if key in table["en"] && table["en"][key] != "" then table["en"][key]
    else key
  }

  /** In English the fallback chain has only two levels. */
  lemma EnglishLookup(table: Table, key: string)
    requires "en" in table
    ensures Translate(table, En, key) == if HasEntry(table, En, key) then table["en"][key] else key
  {
  }

  /** Each language reads its own table: editing one language's table leaves every other language's
      translations as they were. */
  lemma OtherLanguagesUnaffected(table: Table, lang: Language, other: Language, entries: map<string, string>,
                                 key: string)
    requires "en" in table && lang != En && lang != other
    ensures Translate(table[LanguageCode(lang) := entries], other, key) == Translate(table, other, key)
  {
    LanguageCodeInjective(lang, other);
  }
}
