/**
 * The dashboard's colour theme: the stored name is normalised onto three
 * themes ("" is the default one) and the toggle button cycles through them.
 */
module Theme {
  import opened Ascii

  const Default: string := ""
  const Winter: string := "winter"
  const CyberFrost: string := "cyber-frost"

  predicate IsTheme(t: string)
  {
    t == Default || t == Winter || t == CyberFrost
  }

  /** The names accepted for the cyber-frost theme, after trimming and lower-casing. */
  predicate IsCyberFrostAlias(v: string)
  {
    v == "cyber-frost" || v == "cyber_frost" || v == "cyber"
  }

  /**
   * `normalizeTheme`: "winter" and the cyber-frost aliases, in any letter case
   * and with surrounding white space, name their theme; anything else is the
   * default theme.
   */
  function NormalizeTheme(t: string): (r: string)
    ensures IsTheme(r)
    ensures r == Winter <==> Lower(Trim(t)) == "winter"
    ensures r == CyberFrost <==> IsCyberFrostAlias(Lower(Trim(t)))
    ensures r == Default <==> Lower(Trim(t)) != "winter" && !IsCyberFrostAlias(Lower(Trim(t)))
  {
    var v := Lower(Trim(t));
    if v == "winter" then Winter
    else if v == "cyber-frost" || v == "cyber_frost" || v == "cyber" then CyberFrost
    else Default
  }

  /** `nextTheme`: the theme the toggle button switches to. */
  function NextTheme(theme: string): (r: string)
    ensures IsTheme(r)
  {
    var t := NormalizeTheme(theme);
    if t == Default then Winter
    else if t == Winter then CyberFrost
    else Default
  }

  /** Each of the three themes is its own normal form. */
  lemma NormalizeFixesThemes(t: string)
    requires IsTheme(t)
    ensures NormalizeTheme(t) == t
  {
    if t == Winter {
      assert TrimStart(t) == t && TrimEnd(t) == t;
      assert Lower(t) == t;
    } else if t == CyberFrost {
      assert TrimStart(t) == t && TrimEnd(t) == t;
      assert Lower(t) == t;
    } else {
      assert Trim(t) == "";
    }
  }

  /** Normalising twice is normalising once. */
  lemma NormalizeIdempotent(t: string)
    ensures NormalizeTheme(NormalizeTheme(t)) == NormalizeTheme(t)
  {
    NormalizeFixesThemes(NormalizeTheme(t));
  }

  /** White space around a stored theme name is ignored. */
  lemma NormalizeIgnoresPadding(w1: string, t: string, w2: string)
    requires AllSpace(w1) && AllSpace(w2)
    ensures NormalizeTheme(w1 + t + w2) == NormalizeTheme(t)
  {
    TrimPadded(w1, t, w2);
  }

  /** Letter case is ignored: an upper-cased name normalises like the original. */
  lemma NormalizeIgnoresCase(t: string)
    ensures NormalizeTheme(Upper(t)) == NormalizeTheme(t)
  {
    TrimUpper(t);
    LowerOfUpper(Trim(t));
  }

  /** Padding and letter case together are ignored. */
  lemma NormalizeIgnoresPaddingAndCase(w1: string, t: string, w2: string)
    requires AllSpace(w1) && AllSpace(w2)
    ensures NormalizeTheme(w1 + Upper(t) + w2) == NormalizeTheme(t)
  {
    NormalizeIgnoresPadding(w1, Upper(t), w2);
    NormalizeIgnoresCase(t);
  }

  /** "cyber_frost", "cyber" and "cyber-frost" all name the cyber-frost theme. */
  lemma CyberFrostAliases()
    ensures NormalizeTheme("cyber_frost") == CyberFrost
    ensures NormalizeTheme("cyber") == CyberFrost
    ensures NormalizeTheme("cyber-frost") == CyberFrost
  {
    AliasIsTrimmedLower("cyber_frost");
    AliasIsTrimmedLower("cyber");
    AliasIsTrimmedLower("cyber-frost");
  }

  lemma AliasIsTrimmedLower(a: string)
    requires IsCyberFrostAlias(a)
    ensures Lower(Trim(a)) == a
  {
    assert TrimStart(a) == a;
    assert TrimEnd(a) == a;
    assert Lower(a) == a;
  }

  /** Every theme the toggle produces is already normal. */
  lemma NextThemeIsNormal(t: string)
    ensures NormalizeTheme(NextTheme(t)) == NextTheme(t)
  {
    NormalizeFixesThemes(NextTheme(t));
  }

  /** The toggle steps "" to "winter" to "cyber-frost" and back to "". */
  lemma NextThemeSteps()
    ensures NextTheme(Default) == Winter
    ensures NextTheme(Winter) == CyberFrost
    ensures NextTheme(CyberFrost) == Default
  {
    NormalizeFixesThemes(Default);
    NormalizeFixesThemes(Winter);
    NormalizeFixesThemes(CyberFrost);
  }

  /** Three presses of the toggle return to the (normalised) starting theme. */
  lemma NextThemeCycle(t: string)
    ensures NextTheme(NextTheme(NextTheme(t))) == NormalizeTheme(t)
  {
    NextThemeSteps();
  }

  /** A name that is no theme is treated as the default, so the toggle goes to "winter". */
  lemma NextOfUnknownIsWinter(t: string)
    requires Lower(Trim(t)) != "winter" && !IsCyberFrostAlias(Lower(Trim(t)))
    ensures NextTheme(t) == Winter
  {
  }
}
