/**
 * The colour scheme of src/components/category/CategoryBadge.tsx: a category name is reduced
 * to a key (lower-cased, whitespace removed) and looked up in a table of ten gradients, with
 * the `default` entry as fallback. The badge links to the category's product listing.
 */
module CategoryBadge {
  import Seqs
  import JsText
  import ProductsPage

  const Default: string := "from-rose-500 to-orange-500"

  /** The table's ten entries. */
  const ColorSchemes: map<string, string> := map[
    "default" := Default,
    "electronics" := "from-purple-600 to-blue-500",
    "clothing" := "from-emerald-500 to-teal-400",
    "books" := "from-amber-500 to-yellow-400",
    "furniture" := "from-rose-500 to-pink-500",
    "food" := "from-green-500 to-lime-400",
    "toys" := "from-cyan-500 to-blue-400",
    "sports" := "from-orange-500 to-amber-400",
    "beauty" := "from-pink-500 to-rose-400",
    "health" := "from-teal-500 to-emerald-400"
  ]

  /** A key as the lookup builds it: lower-case and free of whitespace. */
  predicate IsKey(s: string)
  {
    JsText.IsLower(s) && forall i :: 0 <= i < |s| ==> JsText.NotWhitespace(s[i])
  }

  /** `name.toLowerCase().replace(/\s+/g, "")`. */
  function NormalizeKey(name: string): (key: string)
    ensures IsKey(key)
    ensures |key| <= |name|
  {
    var lower := JsText.ToLower(name);
    var key := JsText.RemoveWhitespace(lower);
    Seqs.FilterMembers(lower, JsText.NotWhitespace);
    key
  }

  /**
   * The key is the lower-cased name with exactly its whitespace removed: it keeps the order of
   * the lower-cased name, holds every other character of it, and one character per
   * non-whitespace character of the name.
   */
  lemma NormalizeKeyContents(name: string)
    ensures Seqs.IsSubsequence(NormalizeKey(name), JsText.ToLower(name))
    ensures forall i :: 0 <= i < |name| && JsText.NotWhitespace(name[i]) ==> JsText.LowerChar(name[i]) in NormalizeKey(name)
    ensures |NormalizeKey(name)| == Seqs.Count(name, JsText.NotWhitespace)
  {
    var lower := JsText.ToLower(name);
    Seqs.FilterMembers(lower, JsText.NotWhitespace);
    Seqs.FilterIsSubsequence(lower, JsText.NotWhitespace);
    JsText.LowerKeepsNonWhitespaceCount(name);
    forall i | 0 <= i < |name| && JsText.NotWhitespace(name[i]) ensures JsText.NotWhitespace(lower[i]) {
      JsText.LowerKeepsWhitespace(name[i]);
    }
  }

  /** A string that is already a key normalises to itself. */
  lemma NormalizeKeyOfKey(s: string)
    requires IsKey(s)
    ensures NormalizeKey(s) == s
  {
    assert JsText.ToLower(s) == s;
    Seqs.FilterAll(s, JsText.NotWhitespace);
  }

  /** Normalising twice is normalising once. */
  lemma NormalizeKeyIdempotent(name: string)
    ensures NormalizeKey(NormalizeKey(name)) == NormalizeKey(name)
  {
    NormalizeKeyOfKey(NormalizeKey(name));
  }

  /** `getColorScheme` with the lookup restricted to the table's own entries. */
  function ColorScheme(name: string): (gradient: string)
    ensures gradient in ColorSchemes.Values
    ensures NormalizeKey(name) in ColorSchemes ==> gradient == ColorSchemes[NormalizeKey(name)]
    ensures NormalizeKey(name) !in ColorSchemes ==> gradient == Default
  {
    var key := NormalizeKey(name);
    if key in ColorSchemes then ColorSchemes[key] else assert ColorSchemes["default"] == Default; Default
  }

  /** The scheme ignores case and whitespace: a name and its normalised key get the same gradient. */
  lemma SchemeIgnoresCaseAndSpacing(name: string)
    ensures ColorScheme(NormalizeKey(name)) == ColorScheme(name)
  {
    NormalizeKeyIdempotent(name);
  }

  /** Upper-case letters in a name make no difference to its gradient. */
  lemma SchemeIgnoresCase(name: string)
    ensures ColorScheme(JsText.ToLower(name)) == ColorScheme(name)
  {
    JsText.ToLowerIdempotent(name);
  }

  /** Every table key is reached by the name spelled as that key. */
  lemma EveryEntryReachable(key: string)
    requires key in ColorSchemes
    ensures ColorScheme(key) == ColorSchemes[key]
  {
    TableKeysAreLetters(key);
    LettersAreKey(key);
  }

  /** The table's keys are spelled in lower-case ASCII letters only. */
  lemma TableKeysAreLetters(key: string)
    requires key in ColorSchemes
    ensures forall i :: 0 <= i < |key| ==> 'a' <= key[i] <= 'z'
  {
  }

  /** A name made of lower-case ASCII letters is its own key. */
  lemma LettersAreKey(s: string)
    requires forall i :: 0 <= i < |s| ==> 'a' <= s[i] <= 'z'
    ensures NormalizeKey(s) == s
  {
    NormalizeKeyOfKey(s);
  }

  /** A category outside the table, such as "garden", gets the default gradient. */
  lemma UnknownNameGetsDefault()
    ensures ColorScheme("garden") == Default
  {
    LettersAreKey("garden");
  }

  /**
   * The lookup as written: indexing an object literal also finds the members every object
   * inherits. Of those, only `constructor` and `__proto__` are lower-case and whitespace-free,
   * so only they can be produced by the key normalisation; both yield a truthy non-string.
   */
  datatype Lookup = Gradient(value: string) | Inherited(member: string)

  const InheritedKeys: set<string> := {"constructor", "__proto__"}

  function ColorSchemeAsWritten(name: string): (r: Lookup)
    ensures NormalizeKey(name) in ColorSchemes ==> r == Gradient(ColorSchemes[NormalizeKey(name)])
    ensures NormalizeKey(name) !in ColorSchemes && NormalizeKey(name) in InheritedKeys ==> r == Inherited(NormalizeKey(name))
    ensures NormalizeKey(name) !in ColorSchemes && NormalizeKey(name) !in InheritedKeys ==> r == Gradient(Default)
  {
    var key := NormalizeKey(name);
    if key in ColorSchemes then Gradient(ColorSchemes[key])
    else if key in InheritedKeys then Inherited(key)
    else Gradient(Default)
  }

  /**
   * A category named "constructor" gets the inherited `Object` constructor instead of a
   * gradient; the own-entry lookup gives it the default gradient.
   */
  lemma ConstructorNameIsNotAGradient()
    ensures ColorSchemeAsWritten("constructor") == Inherited("constructor")
    ensures ColorScheme("constructor") == Default
  {
    ConstructorIsInheritedKey();
  }

  lemma ConstructorIsInheritedKey()
    ensures NormalizeKey("constructor") == "constructor"
    ensures "constructor" !in ColorSchemes && "constructor" in InheritedKeys
  {
    LettersAreKey("constructor");
    assert "constructor"[0] != "electronics"[0];
  }

  /** Apart from the inherited keys, the lookup as written and the own-entry lookup agree. */
  lemma AsWrittenAgreesOffInheritedKeys(name: string)
    requires NormalizeKey(name) !in InheritedKeys
    ensures ColorSchemeAsWritten(name) == Gradient(ColorScheme(name))
  {
  }

  /** The badge's link: the same route the catalogue's category filter navigates to. */
  function BadgeLink(categoryId: string): (path: string)
    ensures categoryId != "" ==> path == ProductsPage.FilterPath(categoryId)
    ensures ProductsPage.CategoryPrefix <= path
  {
    ProductsPage.CategoryPrefix + categoryId
  }
}
