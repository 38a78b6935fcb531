/** What becomes of a name: each pattern that is replaced, after a part that is clean already, and what is left of the rest. */
module NamePatterns {
  import opened Naming

  // ---------------------------------------------------------------------------------------------
  // Replacing behind a part in which the pattern does not start

  ghost predicate NeverStarts(x: string, y: string, from: string) {
    forall p :: 0 <= p < |x| ==> !(from <= (x + y)[p..])
  }

  lemma {:induction false} ReplacedBehind(x: string, y: string, from: string, to: string)
    requires from != [] && NeverStarts(x, y, from)
    ensures Replace(x + y, from, to) == x + Replace(y, from, to)
    decreases |x|
  {
    if x == [] {
      assert x + y == y && x + Replace(y, from, to) == Replace(y, from, to);
    } else {
      var s, rest := x + y, x[1..];
      assert s[0..] == s && !(from <= s[0..]);
      assert s[1..] == rest + y;
      forall p | 0 <= p < |rest| ensures !(from <= (rest + y)[p..]) {
        assert (rest + y)[p..] == s[p + 1..];
      }
      ReplacedBehind(rest, y, from, to);
      assert x == [x[0]] + rest;
      assert [x[0]] + (rest + Replace(y, from, to)) == x + Replace(y, from, to);
    }
  }

  lemma ReplacedThere(y: string, from: string, to: string)
    requires from != []
    ensures Replace(from + y, from, to) == to + Replace(y, from, to)
  {
    assert from <= from + y && (from + y)[|from|..] == y;
  }

  lemma StartsNowhere(x: string, y: string, from: string)
    requires from != [] && from[0] !in x
    ensures NeverStarts(x, y, from)
  {
    forall p | 0 <= p < |x| ensures !(from <= (x + y)[p..]) {
      assert (x + y)[p..][0] == x[p] && x[p] in x;
    }
  }

  /** A pattern cannot start where one of its characters is missing. */
  lemma StartsNotAt(s: string, from: string, k: nat)
    requires k < |from| && (k >= |s| || s[k] != from[k])
    ensures !(from <= s)
  {
  }

  lemma {:induction false} FirstIsKept(s: string, from: string, to: string)
    requires from != [] && (s == [] || s[0] != from[0])
    ensures s == [] ==> Replace(s, from, to) == []
    ensures s != [] ==> Replace(s, from, to) != [] && Replace(s, from, to)[0] == s[0]
  {
  }

  /** No replacement text starts with `c`, so nothing that did not start with it does afterwards. */
  lemma FirstIsNot(s: string, from: string, to: string, c: char)
    requires from != [] && to != [] && to[0] != c && (s == [] || s[0] != c)
    ensures var r := Replace(s, from, to); r == [] || r[0] != c
  {
  }

  // ---------------------------------------------------------------------------------------------
  // The steps of sanitising

  function WithoutGenerics(s: string): string {
    Replace(Replace(Replace(Replace(s, "<T>", "T"), "[T]", "T"), "<T, A>", "T_A"), "<'a>", "a")
  }

  function WithoutColons(s: string): string {
    Replace(s, "::", "_")
  }

  function WithoutResults(s: string): string {
    Replace(s, "Result_<T, E>", "Result")
  }

  lemma Steps(name: string)
    ensures Sanitize(name) == ReplaceChars(WithoutResults(WithoutColons(WithoutGenerics(name))))
  {
    hide Replace, ReplaceChars;
  }

  /** A part without brackets is not touched by the first steps. */
  lemma GenericsBehind(x: string, y: string)
    requires '<' !in x && '[' !in x
    ensures WithoutGenerics(x + y) == x + WithoutGenerics(y)
  {
    hide Replace, NeverStarts;
    var y1 := Replace(y, "<T>", "T");
    var y2 := Replace(y1, "[T]", "T");
    var y3 := Replace(y2, "<T, A>", "T_A");
    StartsNowhere(x, y, "<T>");
    StartsNowhere(x, y1, "[T]");
    StartsNowhere(x, y2, "<T, A>");
    StartsNowhere(x, y3, "<'a>");
    ReplacedBehind(x, y, "<T>", "T");
    ReplacedBehind(x, y1, "[T]", "T");
    ReplacedBehind(x, y2, "<T, A>", "T_A");
    ReplacedBehind(x, y3, "<'a>", "a");
  }

  lemma ColonsBehind(x: string, y: string)
    requires NoDoubleColon(x) && (x == [] || y == [] || x[|x| - 1] != ':' || y[0] != ':')
    ensures WithoutColons(x + y) == x + WithoutColons(y)
  {
    hide Replace;
    forall p | 0 <= p < |x| ensures !("::" <= (x + y)[p..]) {
      var s := (x + y)[p..];
      if p + 1 < |x| {
        assert s[0] == x[p] && s[1] == x[p + 1];
        StartsNotAt(s, "::", if x[p] == ':' then 1 else 0);
      } else {
        assert s[0] == x[p];
        if y == [] {
          StartsNotAt(s, "::", 1);
        } else {
          assert s[1] == y[0];
          StartsNotAt(s, "::", if x[p] == ':' then 1 else 0);
        }
      }
    }
    ReplacedBehind(x, y, "::", "_");
  }

  const RESULT_PATTERN := "Result_<T, E>"

  /** The last step starts in a part without `<` only if the part ends in a beginning of `Result_`. */
  lemma ResultAcross(x: string, y: string, p: nat)
    requires '<' !in x && p < |x| && RESULT_PATTERN <= (x + y)[p..]
    ensures |x| - p <= 7 && x[|x| - 1] == RESULT_PATTERN[|x| - 1 - p] && y != [] && y[0] == RESULT_PATTERN[|x| - p]
    ensures forall k :: p <= k < |x| ==> x[k] == RESULT_PATTERN[k - p]
  {
    var s := (x + y)[p..];
    assert forall k :: 0 <= k < 13 ==> s[k] == RESULT_PATTERN[k];
    assert RESULT_PATTERN[7] == '<' && |RESULT_PATTERN| == 13;
    assert forall k :: p <= k < |x| ==> s[k - p] == x[k] && x[k] in x;
    assert s[|x| - 1 - p] == x[|x| - 1];
    assert s[|x| - p] == y[0];
  }

  lemma ResultsBehind(x: string, y: string)
    requires '<' !in x && forall k :: 0 <= k < 7 && x != [] && y != [] ==> x[|x| - 1] != RESULT_PATTERN[k] || y[0] != RESULT_PATTERN[k + 1]
    ensures WithoutResults(x + y) == x + WithoutResults(y)
  {
    hide Replace;
    forall p | 0 <= p < |x| ensures !(RESULT_PATTERN <= (x + y)[p..]) {
      if RESULT_PATTERN <= (x + y)[p..] {
        ResultAcross(x, y, p);
      }
    }
    ReplacedBehind(x, y, "Result_<T, E>", "Result");
  }

  lemma {:induction false} CharsBehind(x: string, y: string)
    ensures ReplaceChars(x + y) == ReplaceChars(x) + ReplaceChars(y)
  {
    if x == [] {
      assert x + y == y;
    } else {
      assert (x + y)[1..] == x[1..] + y;
      CharsBehind(x[1..], y);
    }
  }

  lemma CharsOfClean(x: string)
    requires Clean(x)
    ensures ReplaceChars(x) == x
  {
    CharsReplaced(x);
  }

  // ---------------------------------------------------------------------------------------------
  // What becomes of each pattern

  lemma GenericsThere(y: string)
    ensures WithoutGenerics("<T>" + y) == "T" + WithoutGenerics(y) && WithoutGenerics("[T]" + y) == "T" + WithoutGenerics(y)
  {
    hide Replace, NeverStarts;
    var y1 := Replace(y, "<T>", "T");
    var y2 := Replace(y1, "[T]", "T");
    ReplacedThere(y, "<T>", "T");
    BehindText("T", y1);
    StartsNowhere("[T]", y, "<T>");
    ReplacedBehind("[T]", y, "<T>", "T");
    ReplacedThere(y1, "[T]", "T");
    LaterBehindText("T", y2);
  }

  /** The steps after the first, behind a text without brackets. */
  lemma BehindText(x: string, y1: string)
    requires '<' !in x && '[' !in x
    ensures Replace(x + y1, "[T]", "T") == x + Replace(y1, "[T]", "T")
    ensures Replace(Replace(Replace(x + y1, "[T]", "T"), "<T, A>", "T_A"), "<'a>", "a")
         == x + Replace(Replace(Replace(y1, "[T]", "T"), "<T, A>", "T_A"), "<'a>", "a")
  {
    hide Replace, NeverStarts;
    StartsNowhere(x, y1, "[T]");
    ReplacedBehind(x, y1, "[T]", "T");
    LaterBehindText(x, Replace(y1, "[T]", "T"));
  }

  lemma LaterBehindText(x: string, y2: string)
    requires '<' !in x
    ensures Replace(Replace(x + y2, "<T, A>", "T_A"), "<'a>", "a") == x + Replace(Replace(y2, "<T, A>", "T_A"), "<'a>", "a")
  {
    hide Replace, NeverStarts;
    StartsNowhere(x, y2, "<T, A>");
    ReplacedBehind(x, y2, "<T, A>", "T_A");
    StartsNowhere(x, Replace(y2, "<T, A>", "T_A"), "<'a>");
    ReplacedBehind(x, Replace(y2, "<T, A>", "T_A"), "<'a>", "a");
  }

  /** A bracket that is not the start of the pattern. */
  lemma OtherStart(x: string, y: string, from: string, i: nat, k: nat)
    requires i < |x| && x[i] == '<' && '<' !in x[..i] && '<' !in x[i + 1..] && from != [] && from[0] == '<' && k < |from|
    requires i + k < |x| && x[i + k] != from[k]
    ensures NeverStarts(x, y, from)
  {
    forall p | 0 <= p < |x| ensures !(from <= (x + y)[p..]) {
      var s := (x + y)[p..];
      assert s[0] == x[p];
      if p == i {
        assert s[k] == x[i + k];
        StartsNotAt(s, from, k);
      } else {
        assert p < i ==> x[p] == x[..i][p];
        assert p > i ==> x[p] == x[i + 1..][p - i - 1];
        StartsNotAt(s, from, 0);
      }
    }
  }

  lemma PairThere(y: string)
    ensures WithoutGenerics("<T, A>" + y) == "T_A" + WithoutGenerics(y)
  {
    hide Replace, NeverStarts;
    var x, y1 := "<T, A>", Replace(y, "<T>", "T");
    var y2 := Replace(y1, "[T]", "T");
    OtherStart(x, y, "<T>", 0, 2);
    ReplacedBehind(x, y, "<T>", "T");
    StartsNowhere(x, y1, "[T]");
    ReplacedBehind(x, y1, "[T]", "T");
    ReplacedThere(y2, "<T, A>", "T_A");
    StartsNowhere("T_A", Replace(y2, "<T, A>", "T_A"), "<'a>");
    ReplacedBehind("T_A", Replace(y2, "<T, A>", "T_A"), "<'a>", "a");
  }

  lemma LifetimeThere(y: string)
    ensures WithoutGenerics("<'a>" + y) == "a" + WithoutGenerics(y)
  {
    hide Replace, NeverStarts;
    var x, y1 := "<'a>", Replace(y, "<T>", "T");
    var y2 := Replace(y1, "[T]", "T");
    var y3 := Replace(y2, "<T, A>", "T_A");
    OtherStart(x, y, "<T>", 0, 1);
    ReplacedBehind(x, y, "<T>", "T");
    StartsNowhere(x, y1, "[T]");
    ReplacedBehind(x, y1, "[T]", "T");
    OtherStart(x, y2, "<T, A>", 0, 1);
    ReplacedBehind(x, y2, "<T, A>", "T_A");
    ReplacedThere(y3, "<'a>", "a");
  }

  /** The parameters of a result are left for the last step. */
  lemma ParametersStay(x: string, i: nat, y: string)
    requires i + 3 < |x| && x[i] == '<' && x[i + 1] == 'T' && x[i + 2] == ',' && '<' !in x[..i] && '<' !in x[i + 1..] && '[' !in x
    requires i + 4 < |x| && x[i + 4] == 'E'
    ensures WithoutGenerics(x + y) == x + WithoutGenerics(y)
  {
    hide Replace, NeverStarts;
    var y1 := Replace(y, "<T>", "T");
    var y2 := Replace(y1, "[T]", "T");
    var y3 := Replace(y2, "<T, A>", "T_A");
    OtherStart(x, y, "<T>", i, 2);
    ReplacedBehind(x, y, "<T>", "T");
    StartsNowhere(x, y1, "[T]");
    ReplacedBehind(x, y1, "[T]", "T");
    OtherStart(x, y2, "<T, A>", i, 4);
    ReplacedBehind(x, y2, "<T, A>", "T_A");
    OtherStart(x, y3, "<'a>", i, 1);
    ReplacedBehind(x, y3, "<'a>", "a");
  }

  /** Behind a clean part and a text that replaced a pattern, the rest is sanitised on its own. */
  lemma TextBehind(a: string, text: string, y: string)
    requires Clean(a) && Clean(text) && text != [] && ':' !in text && text[|text| - 1] !in "Result_"
    ensures ReplaceChars(WithoutResults(WithoutColons(a + text + y))) == a + text + ReplaceChars(WithoutResults(WithoutColons(y)))
  {
    hide Replace, ReplaceChars;
    var x := a + text;
    assert x[|x| - 1] == text[|text| - 1] && text[|text| - 1] in text;
    CleanJoined(a, text);
    ColonsBehind(x, y);
    var y5 := WithoutColons(y);
    assert forall k :: 0 <= k < 7 ==> RESULT_PATTERN[k] in "Result_" by { ResultLetters(); }
    ResultsBehind(x, y5);
    CharsBehind(x, WithoutResults(y5));
    CharsOfClean(x);
  }

  lemma ResultLetters()
    ensures forall k :: 0 <= k < 7 ==> RESULT_PATTERN[k] in "Result_"
    ensures RESULT_PATTERN[..7] == "Result_" && RESULT_PATTERN[7] == '<'
  {
    forall k | 0 <= k < 7 ensures RESULT_PATTERN[k] in "Result_" {
      assert RESULT_PATTERN[k] == "Result_"[k];
    }
  }

  /** Type parameters, slices and lifetimes. */
  lemma GenericsBecome(a: string, b: string)
    requires Clean(a)
    ensures Sanitize(a + "<T>" + b) == a + "T" + Sanitize(b)
    ensures Sanitize(a + "[T]" + b) == a + "T" + Sanitize(b)
    ensures Sanitize(a + "<T, A>" + b) == a + "T_A" + Sanitize(b)
    ensures Sanitize(a + "<'a>" + b) == a + "a" + Sanitize(b)
  {
    hide Sanitize, WithoutGenerics, WithoutColons, WithoutResults, ReplaceChars;
    Steps(b);
    GenericsThere(b);
    PairThere(b);
    LifetimeThere(b);
    GenericBecomes(a, "<T>", "T", b);
    GenericBecomes(a, "[T]", "T", b);
    GenericBecomes(a, "<T, A>", "T_A", b);
    GenericBecomes(a, "<'a>", "a", b);
  }

  lemma GenericBecomes(a: string, pattern: string, text: string, b: string)
    requires Clean(a) && Clean(text) && text != [] && ':' !in text && text[|text| - 1] !in "Result_"
    requires WithoutGenerics(pattern + b) == text + WithoutGenerics(b)
    ensures Sanitize(a + pattern + b) == a + text + ReplaceChars(WithoutResults(WithoutColons(WithoutGenerics(b))))
  {
    hide Sanitize, WithoutGenerics, WithoutColons, WithoutResults, ReplaceChars;
    Steps(a + pattern + b);
    assert a + pattern + b == a + (pattern + b);
    NoBrackets(a);
    GenericsBehind(a, pattern + b);
    assert a + (text + WithoutGenerics(b)) == a + text + WithoutGenerics(b);
    TextBehind(a, text, WithoutGenerics(b));
  }

  lemma NoBrackets(a: string)
    requires Clean(a)
    ensures '<' !in a && '[' !in a
  {
  }

  predicate EndsIn(s: string, text: string) {
    |s| >= |text| && s[|s| - |text|..] == text
  }

  /** The parameters of a result come next, once generics and separators are replaced. */
  predicate ParametersFollow(b: string) {
    "<T, E>" <= WithoutColons(WithoutGenerics(b))
  }

  lemma SeparatorBecomes(a: string, b: string)
    requires Clean(a) && !EndsIn(a, ":") && !(EndsIn(a, "Result") && ParametersFollow(b))
    ensures Sanitize(a + "::" + b) == a + "_" + Sanitize(b)
  {
    hide Sanitize, WithoutGenerics, WithoutColons, WithoutResults, ReplaceChars;
    Steps(a + "::" + b);
    Steps(b);
    NoBrackets(a);
    GenericsBehind(a + "::", b);
    var y := WithoutGenerics(b);
    assert a + "::" + y == a + ("::" + y);
    if a != [] {
      assert a[|a| - 1..] == [a[|a| - 1]];
    }
    ColonsBehind(a, "::" + y);
    ColonsThere(y);
    var y5 := WithoutColons(y);
    assert a + ("_" + y5) == a + "_" + y5;
    ResultsBehindPath(a, y5);
    CleanJoined(a, "_");
    CharsBehind(a + "_", WithoutResults(y5));
    CharsOfClean(a + "_");
  }

  /** Of three colons the first two are the separator. */
  lemma ThreeColons(a: string, b: string)
    requires Clean(a) && EndsIn(a, ":")
    ensures Sanitize(a + "::" + b) != a + "_" + Sanitize(b)
  {
    hide Sanitize, WithoutGenerics, WithoutColons;
    var n := |a| - 1;
    var first, rest := a[..n], ":" + b;
    assert a[n] == ':' by { assert a[n..] == ":"; }
    assert a + "::" + b == first + "::" + rest;
    OneColon(a);
    NotABracket(rest);
    assert !ParametersFollow(rest);
    SeparatorBecomes(first, rest);
    assert (first + "_" + Sanitize(rest))[n] == '_' && (a + "_" + Sanitize(b))[n] == ':';
  }

  lemma OneColon(a: string)
    requires NoDoubleColon(a) && EndsIn(a, ":")
    ensures !EndsIn(a[..|a| - 1], ":")
  {
    var n := |a| - 1;
    var first := a[..n];
    assert a[n..][0] == a[n];
    if n > 0 {
      assert first[n - 1..][0] == first[n - 1] == a[n - 1] && a[n - 1 + 1] == ':';
    }
  }

  /** The parameters of a result go together with their separator. */
  lemma SeparatorDropped(a: string, b: string)
    requires Clean(a) && EndsIn(a, "Result") && ParametersFollow(b)
    ensures Sanitize(a + "::" + b) != a + "_" + Sanitize(b)
  {
    hide Sanitize, WithoutGenerics, WithoutColons, WithoutResults, ReplaceChars;
    var y, y5 := WithoutGenerics(b), WithoutColons(WithoutGenerics(b));
    var rest := y5[6..];
    assert y5 == "<T, E>" + rest;
    Steps(a + "::" + b);
    Steps(b);
    NoBrackets(a);
    GenericsBehind(a + "::", b);
    assert a + "::" + y == a + ("::" + y);
    assert a[|a| - 1] == 't' by { assert a[|a| - 6..] == "Result" && a[|a| - 6..][5] == 't'; }
    ColonsBehind(a, "::" + y);
    ColonsThere(y);
    var first := a[..|a| - 6];
    assert a == first + "Result";
    assert a + ("_" + y5) == first + ("Result_<T, E>" + rest);
    ResultThere(first, rest);
    ParametersKept(rest);
    CharsReplaced(a + WithoutResults(rest));
    CharsReplaced("<T, E>" + WithoutResults(rest));
  }

  lemma ParametersKept(y: string)
    ensures WithoutResults("<T, E>" + y) == "<T, E>" + WithoutResults(y)
  {
    hide Replace, NeverStarts;
    StartsNowhere("<T, E>", y, "Result_<T, E>");
    ReplacedBehind("<T, E>", y, "Result_<T, E>", "Result");
  }

  /** The separators of a path: each becomes one underscore, unless it is part of a match that starts before it. */
  lemma PathBecomes(a: string, b: string)
    requires Clean(a)
    ensures Sanitize(a + "::" + b) == a + "_" + Sanitize(b) <==> !EndsIn(a, ":") && !(EndsIn(a, "Result") && ParametersFollow(b))
    ensures ParametersFollow(b) ==> b != [] && b[0] == '<'
  {
    hide Sanitize, WithoutGenerics, WithoutColons;
    if EndsIn(a, ":") {
      ThreeColons(a, b);
    } else if EndsIn(a, "Result") && ParametersFollow(b) {
      SeparatorDropped(a, b);
    } else {
      SeparatorBecomes(a, b);
    }
    if b == [] || b[0] != '<' {
      NotABracket(b);
    }
  }

  lemma ColonsThere(y: string)
    ensures WithoutColons("::" + y) == "_" + WithoutColons(y)
  {
    hide Replace;
    ReplacedThere(y, "::", "_");
  }

  lemma NotABracket(b: string)
    requires b == [] || b[0] != '<'
    ensures var y := WithoutColons(WithoutGenerics(b)); y == [] || y[0] != '<'
  {
    hide Replace;
    var y1 := Replace(b, "<T>", "T");
    var y2 := Replace(y1, "[T]", "T");
    var y3 := Replace(y2, "<T, A>", "T_A");
    FirstIsNot(b, "<T>", "T", '<');
    FirstIsNot(y1, "[T]", "T", '<');
    FirstIsNot(y2, "<T, A>", "T_A", '<');
    FirstIsNot(y3, "<'a>", "a", '<');
    FirstIsNot(Replace(y3, "<'a>", "a"), "::", "_", '<');
  }

  lemma ResultsBehindPath(a: string, y: string)
    requires '<' !in a && !(EndsIn(a, "Result") && "<T, E>" <= y)
    ensures WithoutResults(a + "_" + y) == a + "_" + WithoutResults(y)
  {
    hide Replace;
    var x := a + "_";
    forall p | 0 <= p < |x| ensures !(RESULT_PATTERN <= (x + y)[p..]) {
      if RESULT_PATTERN <= (x + y)[p..] {
        ResultAcross(x, y, p);
        UnderscoreIsLast(|x| - 1 - p);
        EndsInResult(a, p);
        ParametersAcross(x, y, p);
      }
    }
    ReplacedBehind(x, y, "Result_<T, E>", "Result");
  }

  lemma UnderscoreIsLast(k: nat)
    requires k < 7 && RESULT_PATTERN[k] == '_'
    ensures k == 6
  {
  }

  lemma ParametersAcross(x: string, y: string, p: nat)
    requires p + 7 == |x| && RESULT_PATTERN <= (x + y)[p..]
    ensures "<T, E>" <= y
  {
    var s := (x + y)[p..];
    assert s[7..] == y;
    assert s[..13] == "Result_<T, E>";
    assert s[..13][7..] == s[7..][..6];
    assert "Result_<T, E>"[7..] == "<T, E>";
  }

  lemma EndsInResult(a: string, p: nat)
    requires p + 6 == |a| && forall k :: p <= k < |a| ==> (a + "_")[k] == RESULT_PATTERN[k - p]
    ensures EndsIn(a, "Result")
  {
    forall k | 0 <= k < 6 ensures a[p..][k] == "Result"[k] {
      assert (a + "_")[p + k] == a[p + k] && RESULT_PATTERN[k] == "Result"[k];
    }
    assert a[p..] == "Result";
  }

  lemma UnderscoreBecomes(a: string, b: string)
    requires Clean(a)
    ensures Sanitize(a + "Result_<T, E>" + b) == a + "Result" + Sanitize(b)
  {
    hide Sanitize, WithoutGenerics, WithoutColons, WithoutResults, ReplaceChars;
    var x, y := "Result_<T, E>", WithoutGenerics(b);
    Steps(a + x + b);
    Steps(b);
    NoBrackets(a);
    assert a + x + b == a + (x + b);
    GenericsBehind(a, x + b);
    ParametersStay(x, 7, b);
    var y5 := WithoutColons(y);
    CleanJoined(a, "Result_");
    assert a + (x + y) == (a + "Result_") + ("<T, E>" + y);
    ColonsBehind(a + "Result_", "<T, E>" + y);
    ColonsBehind("<T, E>", y);
    assert (a + "Result_") + ("<T, E>" + y5) == a + ("Result_<T, E>" + y5);
    ResultThere(a, y5);
    CleanJoined(a, "Result");
    CharsBehind(a + "Result", WithoutResults(y5));
    CharsOfClean(a + "Result");
  }

  /** The parameters of a result are dropped. */
  lemma ResultBecomes(a: string, b: string)
    requires Clean(a)
    ensures Sanitize(a + "Result::<T, E>" + b) == a + "Result" + Sanitize(b)
    ensures Sanitize(a + "Result_<T, E>" + b) == a + "Result" + Sanitize(b)
  {
    hide Sanitize, WithoutGenerics, WithoutColons, WithoutResults, ReplaceChars;
    UnderscoreBecomes(a, b);
    var x, y := "Result::<T, E>", WithoutGenerics(b);
    Steps(a + x + b);
    Steps(b);
    NoBrackets(a);
    assert a + x + b == a + (x + b);
    GenericsBehind(a, x + b);
    ParametersStay(x, 8, b);
    var y5 := WithoutColons(y);
    CleanJoined(a, "Result");
    assert a + (x + y) == (a + "Result") + ("::" + ("<T, E>" + y));
    ColonsBehind(a + "Result", "::" + ("<T, E>" + y));
    ColonsThere("<T, E>" + y);
    ColonsBehind("<T, E>", y);
    assert (a + "Result") + ("_" + ("<T, E>" + y5)) == a + ("Result_<T, E>" + y5);
    ResultThere(a, y5);
    CharsBehind(a + "Result", WithoutResults(y5));
    CharsOfClean(a + "Result");
  }

  lemma ResultThere(a: string, y: string)
    requires '<' !in a
    ensures WithoutResults(a + ("Result_<T, E>" + y)) == a + "Result" + WithoutResults(y)
  {
    hide Replace;
    var rest := "Result_<T, E>" + y;
    forall p | 0 <= p < |a| ensures !(RESULT_PATTERN <= (a + rest)[p..]) {
      if RESULT_PATTERN <= (a + rest)[p..] {
        ResultAcross(a, rest, p);
        OneCapital(|a| - p);
      }
    }
    ReplacedBehind(a, rest, "Result_<T, E>", "Result");
    ReplacedThere(y, "Result_<T, E>", "Result");
    assert a + ("Result" + WithoutResults(y)) == a + "Result" + WithoutResults(y);
  }

  lemma OneCapital(k: nat)
    requires 0 < k <= 7
    ensures RESULT_PATTERN[k] != 'R'
  {
  }

  /** Every other character that the output formats reject. */
  lemma CharacterBecomes(a: string, c: char, b: string)
    requires Clean(a) && c in {'{', '}', ']', '#', '>', ' '}
    ensures Sanitize(a + [c] + b) == a + "_" + Sanitize(b)
  {
    hide Sanitize, WithoutGenerics, WithoutColons, WithoutResults, ReplaceChars;
    var x, y := a + [c], WithoutGenerics(b);
    Steps(x + b);
    Steps(b);
    NoBrackets(a);
    GenericsBehind(x, b);
    NoColonAdded(a, c);
    ColonsBehind(x, y);
    assert forall k :: 0 <= k < 7 ==> RESULT_PATTERN[k] != c by { NotInResult(c); }
    ResultsBehind(x, WithoutColons(y));
    CharRejected(a, c, WithoutResults(WithoutColons(y)));
  }

  lemma NotInResult(c: char)
    requires c in {'{', '}', '[', ']', '#', '>', ' '}
    ensures forall k :: 0 <= k < 7 ==> RESULT_PATTERN[k] != c
  {
    ResultLetters();
  }

  lemma NoColonAdded(a: string, c: char)
    requires Clean(a) && c != ':'
    ensures NoDoubleColon(a + [c])
  {
    var x := a + [c];
    forall i | 0 <= i < |x| - 1 ensures !(x[i] == ':' && x[i + 1] == ':') {
      if i + 1 < |a| {
        assert x[i] == a[i] && x[i + 1] == a[i + 1];
      }
    }
  }

  lemma CharRejected(a: string, c: char, rest: string)
    requires Clean(a) && c in {'{', '}', '[', ']', '#', '<', '>', ' '}
    ensures ReplaceChars(a + [c] + rest) == a + "_" + ReplaceChars(rest)
  {
    CharsBehind(a + [c], rest);
    CharsBehind(a, [c]);
    CharsOfClean(a);
    assert [c][1..] == [];
  }

  /** An opening bracket that does not start one of the patterns. */
  lemma BracketBecomes(a: string, c: char, b: string)
    requires Clean(a) && (c == '<' || c == '[') && (b == [] || b[0] !in {'T', '\'', '<', '['})
    ensures Sanitize(a + [c] + b) == a + "_" + Sanitize(b)
  {
    hide Sanitize, WithoutGenerics, WithoutColons, WithoutResults, ReplaceChars;
    var x, y := a + [c], WithoutGenerics(b);
    Steps(x + b);
    Steps(b);
    NoBrackets(a);
    BracketStays(a, c, b);
    NoColonAdded(a, c);
    ColonsBehind(x, y);
    NoParameter(b);
    BracketIsLate(a, c, WithoutColons(y));
    CharRejected(a, c, WithoutResults(WithoutColons(y)));
  }

  lemma StartsElsewhere(a: string, c: char, y: string, from: string)
    requires '<' !in a && '[' !in a && |from| > 1 && (from[0] == '<' || from[0] == '[') && (y == [] || y[0] != from[1])
    ensures NeverStarts(a + [c], y, from)
  {
    var x := a + [c];
    forall p | 0 <= p < |x| ensures !(from <= (x + y)[p..]) {
      var s := (x + y)[p..];
      if p < |a| {
        assert s[0] == a[p] && a[p] in a;
        StartsNotAt(s, from, 0);
      } else {
        assert y != [] ==> s[1] == y[0];
        StartsNotAt(s, from, 1);
      }
    }
  }

  lemma BracketStays(a: string, c: char, b: string)
    requires '<' !in a && '[' !in a && (b == [] || b[0] !in {'T', '\'', '<', '['})
    ensures WithoutGenerics(a + [c] + b) == a + [c] + WithoutGenerics(b)
    ensures b == [] <==> WithoutGenerics(b) == []
    ensures b != [] ==> WithoutGenerics(b)[0] == b[0]
  {
    hide Replace, NeverStarts;
    var y1 := Replace(b, "<T>", "T");
    var y2 := Replace(y1, "[T]", "T");
    var y3 := Replace(y2, "<T, A>", "T_A");
    FirstIsKept(b, "<T>", "T");
    FirstIsKept(y1, "[T]", "T");
    FirstIsKept(y2, "<T, A>", "T_A");
    FirstIsKept(y3, "<'a>", "a");
    StartsElsewhere(a, c, b, "<T>");
    StartsElsewhere(a, c, y1, "[T]");
    StartsElsewhere(a, c, y2, "<T, A>");
    StartsElsewhere(a, c, y3, "<'a>");
    ReplacedBehind(a + [c], b, "<T>", "T");
    ReplacedBehind(a + [c], y1, "[T]", "T");
    ReplacedBehind(a + [c], y2, "<T, A>", "T_A");
    ReplacedBehind(a + [c], y3, "<'a>", "a");
  }

  lemma NoParameter(b: string)
    requires b == [] || b[0] !in {'T', '\'', '<', '['}
    ensures var y := WithoutColons(WithoutGenerics(b)); y == [] || y[0] != 'T'
  {
    hide Replace, WithoutGenerics;
    BracketStays("", '<', b);
    FirstIsNot(WithoutGenerics(b), "::", "_", 'T');
  }

  lemma BracketIsLate(a: string, c: char, y: string)
    requires '<' !in a && (c == '<' || c == '[') && (y == [] || y[0] != 'T')
    ensures WithoutResults(a + [c] + y) == a + [c] + WithoutResults(y)
  {
    hide Replace;
    var x := a + [c];
    forall p | 0 <= p < |x| ensures !(RESULT_PATTERN <= (x + y)[p..]) {
      var s, k := (x + y)[p..], |a| - p;
      assert s[k] == c;
      if k < 7 {
        assert RESULT_PATTERN[k] != c by { NoBracketBefore(k); }
        StartsNotAt(s, RESULT_PATTERN, k);
      } else if k == 7 {
        assert y != [] ==> s[8] == y[0];
        assert RESULT_PATTERN[8] == 'T';
        StartsNotAt(s, RESULT_PATTERN, 8);
      } else {
        assert s[7] == a[p + 7] && a[p + 7] in a;
        assert RESULT_PATTERN[7] == '<';
        StartsNotAt(s, RESULT_PATTERN, 7);
      }
    }
    ReplacedBehind(x, y, "Result_<T, E>", "Result");
  }

  lemma NoBracketBefore(k: nat)
    requires k < 7
    ensures RESULT_PATTERN[k] != '<' && RESULT_PATTERN[k] != '['
  {
  }

  // ---------------------------------------------------------------------------------------------
  // Names of calls

  /** For example the name of a lock. */
  lemma NameOfLock()
    ensures Sanitize("std::sync::Mutex::<T>::lock") == "std_sync_Mutex_T_lock"
  {
    hide Sanitize, Clean;
    NameInModule();
    Cleans();
    SeparatorBecomes("std", "sync::Mutex::<T>::lock");
    SeparatorBecomes("sync", "Mutex::<T>::lock");
    assert "std::sync::Mutex::<T>::lock" == "std" + "::" + "sync::Mutex::<T>::lock";
    assert "sync::Mutex::<T>::lock" == "sync" + "::" + "Mutex::<T>::lock";
    assert "std" + "_" + ("sync" + "_" + "Mutex_T_lock") == "std_sync_Mutex_T_lock";
  }

  lemma NameInModule()
    ensures Sanitize("Mutex::<T>::lock") == "Mutex_T_lock"
  {
    hide Sanitize, Clean;
    Cleans();
    SeparatorBecomes("Mutex", "<T>::lock");
    GenericsBecome("", "::lock");
    SeparatorBecomes("", "lock");
    CleanIsUnchanged("lock");
    assert "Mutex::<T>::lock" == "Mutex" + "::" + "<T>::lock";
    assert "<T>::lock" == "" + "<T>" + "::lock";
    assert "::lock" == "" + "::" + "lock";
    assert "Mutex" + "_" + ("" + "T" + ("" + "_" + "lock")) == "Mutex_T_lock";
  }

  lemma Cleans()
    ensures Clean("std") && Clean("sync") && Clean("Mutex") && Clean("lock") && Clean("") && Clean("main")
  {
  }

  lemma EdgeLabelsOfMain()
    ensures LabelOf("main", PlaceLabel(3)) == "main_BB3"
    ensures LabelOf("main", GotoLabel(3)) == "main_GOTO_3"
    ensures LabelOf("main", SwitchIntLabel(3, 12)) == "main_SWITCH_INT_FROM_BB3_TO_BB12"
    ensures LabelOf("main", UnwindLabel(3)) == "main_UNWIND_3"
  {
    hide Sanitize, Clean, Decimal;
    Cleans();
    CleanIsUnchanged("main");
    Numerals();
  }

  lemma DropLabelsOfMain()
    ensures LabelOf("main", DropLabel(3)) == "main_DROP_3"
    ensures LabelOf("main", DropUnwindLabel(3)) == "main_DROP_UNWIND_3"
    ensures LabelOf("main", AssertLabel(3)) == "main_ASSERT_3"
    ensures LabelOf("main", AssertCleanupLabel(3)) == "main_ASSERT_CLEANUP_3"
    ensures LabelOf("main", UnreachableLabel(3)) == "main_UNREACHABLE_3"
  {
    hide Sanitize, Clean, Decimal;
    Cleans();
    CleanIsUnchanged("main");
    Numerals();
  }

  /** The labels of the blocks of the main function, for example. */
  lemma LabelsOfMain()
    ensures LabelOf("main", PlaceLabel(3)) == "main_BB3"
    ensures LabelOf("main", GotoLabel(3)) == "main_GOTO_3"
    ensures LabelOf("main", SwitchIntLabel(3, 12)) == "main_SWITCH_INT_FROM_BB3_TO_BB12"
    ensures LabelOf("main", UnwindLabel(3)) == "main_UNWIND_3"
    ensures LabelOf("main", DropLabel(3)) == "main_DROP_3"
    ensures LabelOf("main", DropUnwindLabel(3)) == "main_DROP_UNWIND_3"
    ensures LabelOf("main", AssertLabel(3)) == "main_ASSERT_3"
    ensures LabelOf("main", AssertCleanupLabel(3)) == "main_ASSERT_CLEANUP_3"
    ensures LabelOf("main", UnreachableLabel(3)) == "main_UNREACHABLE_3"
  {
    hide LabelOf;
    EdgeLabelsOfMain();
    DropLabelsOfMain();
  }

  lemma Numerals()
    ensures Decimal(3) == "3" && Decimal(12) == "12"
  {
    assert Decimal(1) == "1";
  }

  /** Calls of one function with different indices have different names, and so have all their labels. */
  lemma IndexedNamesDiffer(functionName: string, i: nat, j: nat, kind: BlockLabel)
    ensures IndexedName(functionName, i) == IndexedName(functionName, j) <==> i == j
    ensures LabelOf(IndexedName(functionName, i), kind) == LabelOf(IndexedName(functionName, j), kind) <==> i == j
  {
    hide Sanitize, Decimal, Suffix, LabelOf;
    var text := Sanitize(functionName) + "_";
    if IndexedName(functionName, i) == IndexedName(functionName, j) {
      SameNumeral(text, i, j);
    }
    IndexedLabel(functionName, i, kind);
    IndexedLabel(functionName, j, kind);
    var rest := Suffix(kind);
    if IndexedName(functionName, i) + rest == IndexedName(functionName, j) + rest {
      SameFront(IndexedName(functionName, i), IndexedName(functionName, j), rest);
      SameNumeral(text, i, j);
    }
  }

  lemma SameFront(a: string, b: string, rest: string)
    requires a + rest == b + rest
    ensures a == b
  {
    assert a == (a + rest)[..|a|] && b == (b + rest)[..|b|];
  }
}
