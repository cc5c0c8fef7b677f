/**
 Applying a theme to the page: the body element's class list and the
 content of the `<meta name="theme-color">` element, which mobile browsers
 use to tint their own interface. There is no real DOM: the class list is
 a set of class names and the meta element is an optional string.
 */
module ThemeDocument {
  import opened WeatherTheme

  datatype Option<T> = None | Some(value: T)

  /** The exceptions `DOMTokenList.add` throws for a token it refuses. */
  datatype DomException = SyntaxError | InvalidCharacterError

  /** What the theme code can see of the page. `meta` is None when the page has no
      theme-color meta element, and otherwise holds its content attribute. */
  datatype Page = Page(classes: set<string>, meta: Option<string>)

  /** ASCII whitespace as the DOM standard defines it: tab, line feed, form feed,
      carriage return and space. */
  predicate IsAsciiWhitespace(c: char) {
    c == '\t' || c == '\n' || c == '\U{000C}' || c == '\r' || c == ' '
  }

  /** Whether `DOMTokenList.add(token)` throws, and what: the empty token is a syntax
      error, a token holding whitespace an invalid character error. */
  function TokenError(token: string): (e: Option<DomException>)
    ensures e == Some(SyntaxError) <==> token == []
    ensures e == None <==> token != [] && forall i :: 0 <= i < |token| ==> !IsAsciiWhitespace(token[i])
  {
    if token == [] then Some(SyntaxError)
    else if exists i :: 0 <= i < |token| && IsAsciiWhitespace(token[i]) then Some(InvalidCharacterError)
    else None
  }

  /** The classes applying a theme takes off the body first: every value of the code
      table, then the day and night markers. */
  const RemovedClasses: set<string> := WeatherCodeToTheme.Values + {"theme-day", Night}

  /** The page after applying `themeClass`. When the class list refuses the token,
      the removals have already happened and the meta element is not reached. */
  function Applied(p: Page, themeClass: string): (r: Page)
    ensures TokenError(themeClass) == None ==> themeClass in r.classes
    ensures forall c :: c in RemovedClasses && c != themeClass ==> c !in r.classes
    ensures forall c :: c !in RemovedClasses && (c != themeClass || TokenError(themeClass).Some?)
                        ==> (c in r.classes <==> c in p.classes)
    ensures r.meta.Some? <==> p.meta.Some?
    ensures r.meta != p.meta ==> TokenError(themeClass) == None && themeClass in ThemeColors
                                 && r.meta == Some(ThemeColors[themeClass])
    ensures p.meta.Some? && TokenError(themeClass) == None && themeClass in ThemeColors
            ==> r.meta == Some(ThemeColors[themeClass])
  {
    var stripped := p.classes - RemovedClasses;
    if TokenError(themeClass).Some? then
      Page(stripped, p.meta)
    else
      Page(stripped + {themeClass},
           if p.meta.Some? && themeClass in ThemeColors then Some(ThemeColors[themeClass]) else p.meta)
  }

  /** Removal covers every theme class and the day marker, and nothing else. */
  lemma RemovedClassesAreThemes()
    ensures RemovedClasses == ThemeClasses + {"theme-day"}
  {
    TableThemes();
  }

  /** Applying the same theme a second time changes nothing. */
  lemma {:induction false} ApplyIsIdempotent(p: Page, themeClass: string)
    ensures Applied(Applied(p, themeClass), themeClass) == Applied(p, themeClass)
  {
  }

  /** The class list accepts every theme class. */
  lemma ThemeClassesAreTokens()
    ensures forall t :: t in ThemeClasses ==> TokenError(t) == None
  {
    assert TokenError(Sunny) == None && TokenError(Cloudy) == None && TokenError(Rainy) == None;
    assert TokenError(Snowy) == None && TokenError(Stormy) == None && TokenError(Foggy) == None;
    assert TokenError(Night) == None;
  }

  /** After applying a theme class, it is the only theme class on the body. */
  lemma ExactlyOneTheme(p: Page, theme: string)
    requires theme in ThemeClasses
    ensures Applied(p, theme).classes * ThemeClasses == {theme}
    ensures |Applied(p, theme).classes * ThemeClasses| == 1
  {
    RemovedClassesAreThemes();
    ThemeClassesAreTokens();
    var after := Applied(p, theme).classes;
    assert theme in after;
    forall c | c in after * ThemeClasses
      ensures c == theme
    {
      assert c in RemovedClasses;
    }
    assert after * ThemeClasses == {theme};
  }

  /** Of two themes applied one after the other, only the second remains. */
  lemma LastThemeWins(p: Page, first: string, second: string)
    requires first in ThemeClasses && second in ThemeClasses
    ensures Applied(Applied(p, first), second).classes * ThemeClasses == {second}
    ensures first != second ==> first !in Applied(Applied(p, first), second).classes
  {
    var after := Applied(Applied(p, first), second).classes;
    ExactlyOneTheme(Applied(p, first), second);
    if first != second {
      assert first !in after * ThemeClasses;
    }
  }

  /** A theme the resolver produces is always accepted by the class list, becomes the
      one theme on the body, and sets the meta colour when the meta element exists. */
  lemma ResolvedThemeApplies(p: Page, code: int, isDay: bool)
    ensures var t := GetWeatherTheme(code, isDay);
      && TokenError(t) == None
      && Applied(p, t).classes * ThemeClasses == {t}
      && (p.meta.Some? ==> Applied(p, t).meta == Some(ThemeColors[t]))
  {
    var t := GetWeatherTheme(code, isDay);
    ThemeClassesAreTokens();
    TablesCoverThemes();
    ExactlyOneTheme(p, t);
  }

  /** A non-empty set has a member: lets `RemoveTableThemes` pick its next entry with `:|`. */
  lemma NonEmptyHasMember(s: set<int>)
    requires s != {}
    ensures exists x :: x in s
  {
    if forall x :: x !in s {
      assert false;
    }
  }

  /** Every value of a map comes from some key: the last step of `RemoveTableThemes`,
      where the entries removed one by one add up to all the table's values. */
  lemma ValueHasKey(m: map<int, string>, v: string)
    requires v in m.Values
    ensures exists k :: k in m && m[k] == v
  {
    if forall k :: k in m ==> m[k] != v {
      assert false;
    }
  }

  /** The document the theme is applied to. */
  class Document {
    var bodyClasses: set<string>
    var metaContent: Option<string>

    function State(): (p: Page)
      reads this
    {
      Page(bodyClasses, metaContent)
    }

    constructor (classes: set<string>, meta: Option<string>)
      ensures State() == Page(classes, meta)
    {
      bodyClasses := classes;
      metaContent := meta;
    }

    /** Removes every weather theme class and the day/night markers from the body,
        adds `themeClass`, then points the meta theme colour at that class's colour
        if the page has the meta element and the class has a colour. */
    method ApplyWeatherTheme(themeClass: string) returns (error: Option<DomException>)
      modifies this
      ensures State() == Applied(old(State()), themeClass)
      ensures error == TokenError(themeClass)
    {
      RemoveTableThemes(WeatherCodeToTheme);
      bodyClasses := bodyClasses - {"theme-day", Night};

      error := TokenError(themeClass);
      if error.Some? {
        return;
      }
      bodyClasses := bodyClasses + {themeClass};

      if metaContent.Some? && themeClass in ThemeColors {
        metaContent := Some(ThemeColors[themeClass]);
      }
    }

    /** Takes every value of `table` off the body, one entry at a time. The order of
        the entries does not matter to a set, and a value met twice is removed twice. */
    method RemoveTableThemes(table: map<int, string>)
      modifies this
      ensures bodyClasses == old(bodyClasses) - table.Values
      ensures metaContent == old(metaContent)
    {
      var pending := table.Keys;
      while pending != {}
        invariant pending <= table.Keys
        invariant metaContent == old(metaContent)
        invariant bodyClasses == old(bodyClasses) - (set k | k in table.Keys - pending :: table[k])
        decreases pending
      {
        NonEmptyHasMember(pending);
        var code :| code in pending;
        bodyClasses := bodyClasses - {table[code]};
        pending := pending - {code};
      }
      assert table.Keys - pending == table.Keys;
      forall v | v in table.Values
        ensures v in (set k | k in table.Keys :: table[k])
      {
        ValueHasKey(table, v);
      }
    }
  }
}
