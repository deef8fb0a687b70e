/**
 * The `tr` lookup of main.py. The translation tables are a parameter: the
 * templates are opaque strings; only which languages and keys exist matters.
 */
module Translation {
  import opened Wrappers
  import opened Strings

  /** language code -> (message key -> template) */
  type Catalog = map<string, map<string, string>>

  /** The table used for `lang`: its own when it exists and is non-empty, else the "ru" one. */
  function TableFor(catalog: Catalog, lang: string): (r: map<string, string>)
    requires "ru" in catalog
    ensures lang in catalog && catalog[lang] != map[] ==> r == catalog[lang]
    ensures (lang in catalog && r == catalog[lang]) || r == catalog["ru"]
  {
    if lang in catalog && catalog[lang] != map[] then catalog[lang] else catalog["ru"]
  }

  /** A non-empty entry of the chosen table, else a non-empty "ru" entry, else the key itself. */
  function Template(catalog: Catalog, lang: string, key: string): (r: string)
    requires "ru" in catalog
    ensures r == key || r in TableFor(catalog, lang).Values || r in catalog["ru"].Values
    ensures r == "" ==> key == ""
  {
    var table := TableFor(catalog, lang);
    if key in table && table[key] != "" then table[key]
    else if key in catalog["ru"] && catalog["ru"][key] != "" then catalog["ru"][key]
    else key
  }

  /** `tr(lang, key, **args)`: the template formatted, or the raw template when formatting fails. */
  function Tr(catalog: Catalog, lang: string, key: string, args: map<string, string>): (r: string)
    requires "ru" in catalog
    ensures Format(Template(catalog, lang, key), args) == Some(r)
            || (Format(Template(catalog, lang, key), args) == None && r == Template(catalog, lang, key))
  {
    var template := Template(catalog, lang, key);
    match Format(template, args)
    case Some(text) => text
    case None => template
  }

  /** An unknown language is served from the "ru" table. */
  lemma UnknownLanguageUsesRussian(catalog: Catalog, lang: string, key: string, args: map<string, string>)
    requires "ru" in catalog && lang !in catalog
    ensures Tr(catalog, lang, key, args) == Tr(catalog, "ru", key, args)
  {
  }

  /** A key missing from the chosen table falls back to the "ru" entry. */
  lemma MissingKeyUsesRussian(catalog: Catalog, lang: string, key: string, args: map<string, string>)
    requires "ru" in catalog
    requires key !in TableFor(catalog, lang)
    requires key in catalog["ru"] && catalog["ru"][key] != ""
    ensures Tr(catalog, lang, key, args) == Tr(catalog, "ru", key, args)
  {
  }

  /** A key found nowhere is shown as the key itself. */
  lemma MissingEverywhereShowsKey(catalog: Catalog, lang: string, key: string, args: map<string, string>)
    requires "ru" in catalog
    requires key !in TableFor(catalog, lang) && key !in catalog["ru"]
    requires NoBraces(key)
    ensures Tr(catalog, lang, key, args) == key
  {
    FormatPlain(key, args);
  }

  /** When formatting fails the raw template comes back. */
  lemma FormatFailureShowsTemplate(catalog: Catalog, lang: string, key: string, args: map<string, string>)
    requires "ru" in catalog
    requires Format(Template(catalog, lang, key), args).None?
    ensures Tr(catalog, lang, key, args) == Template(catalog, lang, key)
  {
  }

  /** A template without placeholders is shown verbatim. */
  lemma PlainTemplateVerbatim(catalog: Catalog, lang: string, key: string, args: map<string, string>)
    requires "ru" in catalog
    requires NoBraces(Template(catalog, lang, key))
    ensures Tr(catalog, lang, key, args) == Template(catalog, lang, key)
  {
    FormatPlain(Template(catalog, lang, key), args);
  }
}
