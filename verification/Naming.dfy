/** The labels of the net: sanitised function names, and the suffixes that number the places and transitions of the
    blocks of a function. */
module Naming {
  import opened Wrappers

  // ---------------------------------------------------------------------------------------------
  // Sanitising names

  /** Replaces the occurrences of `from`, left to right, without overlaps. */
  function Replace(s: string, from: string, to: string): string
    requires from != []
  {
    if |s| < |from| then s
    else if from <= s then to + Replace(s[|from|..], from, to)
    else [s[0]] + Replace(s[1..], from, to)
  }

  const CATCH_ALL: set<char> := {'{', '}', '[', ']', '#', '<', '>', ' '}

  function ReplaceChars(s: string): string {
    if s == [] then []
    else [if s[0] in CATCH_ALL then '_' else s[0]] + ReplaceChars(s[1..])
  }

  function Sanitize(name: string): string {
    var s1 := Replace(name, "<T>", "T");
    var s2 := Replace(s1, "[T]", "T");
    var s3 := Replace(s2, "<T, A>", "T_A");
    var s4 := Replace(s3, "<'a>", "a");
    var s5 := Replace(s4, "::", "_");
    var s6 := Replace(s5, "Result_<T, E>", "Result");
    ReplaceChars(s6)
  }

  predicate NoDoubleColon(s: string) {
    forall i :: 0 <= i < |s| - 1 ==> !(s[i] == ':' && s[i + 1] == ':')
  }

  predicate Clean(s: string) {
    NoDoubleColon(s) && forall i :: 0 <= i < |s| ==> s[i] !in CATCH_ALL
  }

  /** Nothing is replaced if some character of the pattern does not occur. */
  lemma {:induction false} NothingToReplace(s: string, from: string, to: string, k: nat)
    requires k < |from| && forall i :: 0 <= i < |s| ==> s[i] != from[k]
    ensures Replace(s, from, to) == s
    decreases |s|
  {
    if |s| >= |from| {
      assert s[k] != from[k];
      NothingToReplace(s[1..], from, to, k);
    }
  }

  lemma {:induction false} NoColonsToReplace(s: string)
    requires NoDoubleColon(s)
    ensures Replace(s, "::", "_") == s
    decreases |s|
  {
    if |s| >= 2 {
      assert s[0] != "::"[0] || s[1] != "::"[1];
      NoColonsToReplace(s[1..]);
    }
  }

  /** Where the result of replacing double colons starts with a colon, so does the name. */
  lemma {:induction false} ColonsReplaced(s: string)
    ensures NoDoubleColon(Replace(s, "::", "_"))
    ensures Replace(s, "::", "_") != [] && Replace(s, "::", "_")[0] == ':' ==> s != [] && s[0] == ':' && !("::" <= s)
    decreases |s|
  {
    if |s| >= 2 {
      if "::" <= s {
        ColonsReplaced(s[2..]);
      } else {
        ColonsReplaced(s[1..]);
        assert s[0] == ':' && s[1] == ':' ==> "::" <= s;
      }
    }
  }

  /** A replacement whose text has no colons, and whose pattern has none, brings no double colons. */
  lemma {:induction false} StillNoColons(s: string, from: string, to: string)
    requires NoDoubleColon(s) && from != [] && to != [] && ':' !in from && ':' !in to
    ensures NoDoubleColon(Replace(s, from, to))
    ensures Replace(s, from, to) != [] && Replace(s, from, to)[0] == ':' ==> s != [] && s[0] == ':'
    decreases |s|
  {
    if |s| >= |from| {
      if from <= s {
        StillNoColons(s[|from|..], from, to);
        NoColonsJoined(to, Replace(s[|from|..], from, to));
      } else {
        StillNoColons(s[1..], from, to);
      }
    }
  }

  lemma NoColonsJoined(first: string, second: string)
    requires ':' !in first && NoDoubleColon(second)
    ensures NoDoubleColon(first + second)
  {
    forall i | 0 <= i < |first + second| - 1 ensures !((first + second)[i] == ':' && (first + second)[i + 1] == ':') {
      if i < |first| {
        assert (first + second)[i] == first[i] && first[i] in first;
      } else {
        assert (first + second)[i] == second[i - |first|] && (first + second)[i + 1] == second[i + 1 - |first|];
      }
    }
  }

  lemma {:induction false} CharsReplaced(s: string)
    ensures |ReplaceChars(s)| == |s|
    ensures forall i :: 0 <= i < |s| ==> ReplaceChars(s)[i] == if s[i] in CATCH_ALL then '_' else s[i]
  {
    if s != [] {
      CharsReplaced(s[1..]);
    }
  }

  /** A sanitised name has none of the characters the output formats reject, and no double colons. */
  lemma SanitizedIsClean(name: string)
    ensures Clean(Sanitize(name))
  {
    hide Replace, ReplaceChars;
    var s4 := Replace(Replace(Replace(Replace(name, "<T>", "T"), "[T]", "T"), "<T, A>", "T_A"), "<'a>", "a");
    ColonsReplaced(s4);
    StillNoColons(Replace(s4, "::", "_"), "Result_<T, E>", "Result");
    CharsReplaced(Replace(Replace(s4, "::", "_"), "Result_<T, E>", "Result"));
  }

  lemma CleanIsUnchanged(name: string)
    requires Clean(name)
    ensures Sanitize(name) == name
  {
    hide Replace, ReplaceChars;
    assert forall i :: 0 <= i < |name| ==> name[i] != '<' && name[i] != '[';
    NothingToReplace(name, "<T>", "T", 0);
    NothingToReplace(name, "[T]", "T", 0);
    NothingToReplace(name, "<T, A>", "T_A", 0);
    NothingToReplace(name, "<'a>", "a", 0);
    NoColonsToReplace(name);
    assert "Result_<T, E>"[7] == '<';
    NothingToReplace(name, "Result_<T, E>", "Result", 7);
    CharsReplaced(name);
  }

  /** Sanitising twice, as happens to indexed names, does no harm. */
  lemma SanitizeIsIdempotent(name: string)
    ensures Sanitize(Sanitize(name)) == Sanitize(name)
  {
    hide Sanitize;
    SanitizedIsClean(name);
    CleanIsUnchanged(Sanitize(name));
  }

  /** Different names can become the same label. */
  lemma SanitizeIsNotInjective()
    ensures Sanitize("a::b") == Sanitize("a_b")
  {
    hide Replace, ReplaceChars;
    var name := "a::b";
    CleanIsUnchanged("a_b");
    NothingToReplace(name, "<T>", "T", 0);
    NothingToReplace(name, "[T]", "T", 0);
    NothingToReplace(name, "<T, A>", "T_A", 0);
    NothingToReplace(name, "<'a>", "a", 0);
    ColonsInside();
    assert "Result_<T, E>"[7] == '<';
    NothingToReplace("a_b", "Result_<T, E>", "Result", 7);
    CharsReplaced("a_b");
  }

  lemma ColonsInside()
    ensures Replace("a::b", "::", "_") == "a_b"
  {
    var name := "a::b";
    assert name[1..] == "::b" && name[1..][2..] == "b";
    assert "::" <= name[1..];
    assert "::"[0] != name[0];
    assert !("::" <= name);
    assert Replace("b", "::", "_") == "b";
    assert Replace(name[1..], "::", "_") == "_" + "b";
  }

  /** A name is kept exactly if it is clean; any other name gets the label of a different name, its sanitised form. */
  lemma KeptIffClean(name: string)
    ensures Sanitize(name) == name <==> Clean(name)
    ensures !Clean(name) ==> Sanitize(name) != name && Sanitize(Sanitize(name)) == Sanitize(name)
  {
    hide Sanitize, Clean;
    SanitizedIsClean(name);
    SanitizeIsIdempotent(name);
    if Clean(name) {
      CleanIsUnchanged(name);
    }
  }

  /** Among names that include their sanitised forms, all labels differ exactly if all names are clean. */
  lemma LabelsDifferIffClean(names: iset<string>)
    requires forall n :: n in names ==> Sanitize(n) in names
    ensures (forall a, b :: a in names && b in names && Sanitize(a) == Sanitize(b) ==> a == b) <==> forall n :: n in names ==> Clean(n)
  {
    hide Sanitize, Clean;
    forall n ensures (Sanitize(n) == n <==> Clean(n)) && Sanitize(Sanitize(n)) == Sanitize(n) {
      KeptIffClean(n);
      SanitizeIsIdempotent(n);
    }
    if forall a, b :: a in names && b in names && Sanitize(a) == Sanitize(b) ==> a == b {
      forall n | n in names ensures Clean(n) {
        assert Sanitize(n) in names && Sanitize(Sanitize(n)) == Sanitize(n);
      }
    }
  }

  // ---------------------------------------------------------------------------------------------
  // Labels of blocks

  /** The places and transitions of the blocks of a function. */
  datatype BlockLabel =
    | PlaceLabel(index: nat)
    | GotoLabel(index: nat)
    | SwitchIntLabel(from: nat, to: nat)
    | UnwindLabel(index: nat)
    | DropLabel(index: nat)
    | DropUnwindLabel(index: nat)
    | AssertLabel(index: nat)
    | AssertCleanupLabel(index: nat)
    | UnreachableLabel(index: nat)

  function Digit(d: nat): char
    requires d < 10
  {
    ['0', '1', '2', '3', '4', '5', '6', '7', '8', '9'][d]
  }

  /** Decimal numerals. */
  function Decimal(n: nat): (s: string)
    ensures s != []
  {
    if n < 10 then [Digit(n)] else Decimal(n / 10) + [Digit(n % 10)]
  }

  function Suffix(kind: BlockLabel): string {
    match kind
    case PlaceLabel(i) => "_BB" + Decimal(i)
    case GotoLabel(i) => "_GOTO_" + Decimal(i)
    case SwitchIntLabel(i, j) => "_SWITCH_INT_FROM_BB" + Decimal(i) + "_TO_BB" + Decimal(j)
    case UnwindLabel(i) => "_UNWIND_" + Decimal(i)
    case DropLabel(i) => "_DROP_" + Decimal(i)
    case DropUnwindLabel(i) => "_DROP_UNWIND_" + Decimal(i)
    case AssertLabel(i) => "_ASSERT_" + Decimal(i)
    case AssertCleanupLabel(i) => "_ASSERT_CLEANUP_" + Decimal(i)
    case UnreachableLabel(i) => "_UNREACHABLE_" + Decimal(i)
  }

  function LabelOf(functionName: string, kind: BlockLabel): string {
    Sanitize(functionName) + Suffix(kind)
  }

  predicate IsDigit(c: char) {
    '0' <= c <= '9'
  }

  function Value(s: string): int
    requires forall i :: 0 <= i < |s| ==> IsDigit(s[i])
  {
    if s == [] then 0 else 10 * Value(s[..|s| - 1]) + (s[|s| - 1] as int - '0' as int)
  }

  lemma {:induction false} DecimalIsDigits(n: nat)
    ensures forall i :: 0 <= i < |Decimal(n)| ==> IsDigit(Decimal(n)[i])
    ensures Value(Decimal(n)) == n && (n > 0 ==> Decimal(n)[0] != '0')
  {
    if n >= 10 {
      DecimalIsDigits(n / 10);
      assert Decimal(n)[..|Decimal(n)| - 1] == Decimal(n / 10);
    }
  }

  lemma DecimalIsInjective(n: nat, m: nat)
    requires Decimal(n) == Decimal(m)
    ensures n == m
  {
    DecimalIsDigits(n);
    DecimalIsDigits(m);
  }

  lemma NotShorter(a: string, restA: string, b: string, restB: string)
    requires a + restA == b + restB && (restA != [] ==> !IsDigit(restA[0]))
    requires forall i :: 0 <= i < |b| ==> IsDigit(b[i])
    ensures |a| >= |b|
  {
    assert forall i :: 0 <= i < |b| ==> (a + restA)[i] == b[i];
    assert restA != [] ==> (a + restA)[|a|] == restA[0];
  }

  /** A numeral ends where the next character is not a digit. */
  lemma NumeralEnds(a: nat, b: nat, restA: string, restB: string)
    requires Decimal(a) + restA == Decimal(b) + restB
    requires (restA != [] ==> !IsDigit(restA[0])) && (restB != [] ==> !IsDigit(restB[0]))
    ensures a == b && restA == restB
  {
    DecimalIsDigits(a);
    DecimalIsDigits(b);
    var s := Decimal(a) + restA;
    NotShorter(Decimal(a), restA, Decimal(b), restB);
    NotShorter(Decimal(b), restB, Decimal(a), restA);
    assert Decimal(a) == s[..|Decimal(a)|] == Decimal(b);
    assert restA == s[|Decimal(a)|..] == restB;
    DecimalIsInjective(a, b);
  }

  /** The characters that tell the kinds of labels apart. */
  lemma KindIsVisible(kind: BlockLabel)
    ensures var s := Suffix(kind);
      && |s| > 3
      && s[1] == (match kind
                  case PlaceLabel(_) => 'B'
                  case GotoLabel(_) => 'G'
                  case SwitchIntLabel(_, _) => 'S'
                  case UnwindLabel(_) => 'U'
                  case UnreachableLabel(_) => 'U'
                  case DropLabel(_) => 'D'
                  case DropUnwindLabel(_) => 'D'
                  case AssertLabel(_) => 'A'
                  case AssertCleanupLabel(_) => 'A')
      && (kind.UnwindLabel? ==> s[3] == 'W') && (kind.UnreachableLabel? ==> s[3] == 'R')
      && (kind.DropLabel? ==> |s| > 6 && IsDigit(s[6])) && (kind.DropUnwindLabel? ==> |s| > 6 && s[6] == 'U')
      && (kind.AssertLabel? ==> |s| > 8 && IsDigit(s[8])) && (kind.AssertCleanupLabel? ==> |s| > 8 && s[8] == 'C')
  {
    hide Decimal, Value;
    if !kind.SwitchIntLabel? {
      DecimalIsDigits(kind.index);
    }
    match kind
    case PlaceLabel(i) =>
    case GotoLabel(i) =>
    case SwitchIntLabel(i, j) =>
    case UnwindLabel(i) =>
    case DropLabel(i) => assert Suffix(kind)[6] == Decimal(i)[0];
    case DropUnwindLabel(i) =>
    case AssertLabel(i) => assert Suffix(kind)[8] == Decimal(i)[0];
    case AssertCleanupLabel(i) =>
    case UnreachableLabel(i) =>
  }

  /** The numeral after a fixed text. */
  lemma SameNumeral(text: string, a: nat, b: nat)
    requires text + Decimal(a) == text + Decimal(b)
    ensures a == b
  {
    assert Decimal(a) == (text + Decimal(a))[|text|..] == Decimal(b);
    DecimalIsInjective(a, b);
  }

  lemma SameSwitch(a: BlockLabel, b: BlockLabel)
    requires a.SwitchIntLabel? && b.SwitchIntLabel? && Suffix(a) == Suffix(b)
    ensures a == b
  {
    hide Decimal;
    var text, s := "_SWITCH_INT_FROM_BB", Suffix(a);
    assert s == text + (Decimal(a.from) + ("_TO_BB" + Decimal(a.to)));
    assert s == text + (Decimal(b.from) + ("_TO_BB" + Decimal(b.to)));
    assert s[|text|..] == Decimal(a.from) + ("_TO_BB" + Decimal(a.to)) == Decimal(b.from) + ("_TO_BB" + Decimal(b.to));
    NumeralEnds(a.from, b.from, "_TO_BB" + Decimal(a.to), "_TO_BB" + Decimal(b.to));
    SameNumeral("_TO_BB", a.to, b.to);
  }

  /** Within a function, a label tells its kind and its block indices. */
  lemma LabelsAreUnique(functionName: string, a: BlockLabel, b: BlockLabel)
    requires LabelOf(functionName, a) == LabelOf(functionName, b)
    ensures a == b
  {
    hide Decimal, Sanitize;
    var name := Sanitize(functionName);
    assert Suffix(a) == LabelOf(functionName, a)[|name|..] == Suffix(b);
    KindIsVisible(a);
    KindIsVisible(b);
    match a
    case PlaceLabel(i) => SameNumeral("_BB", i, b.index);
    case GotoLabel(i) => SameNumeral("_GOTO_", i, b.index);
    case SwitchIntLabel(_, _) => SameSwitch(a, b);
    case UnwindLabel(i) => SameNumeral("_UNWIND_", i, b.index);
    case DropLabel(i) => SameNumeral("_DROP_", i, b.index);
    case DropUnwindLabel(i) => SameNumeral("_DROP_UNWIND_", i, b.index);
    case AssertLabel(i) => SameNumeral("_ASSERT_", i, b.index);
    case AssertCleanupLabel(i) => SameNumeral("_ASSERT_CLEANUP_", i, b.index);
    case UnreachableLabel(i) => SameNumeral("_UNREACHABLE_", i, b.index);
  }

  /** The name of the frame of a called function: its sanitised name and the index of the call. */
  function IndexedName(functionName: string, index: nat): string {
    Sanitize(functionName) + "_" + Decimal(index)
  }

  lemma CleanJoined(first: string, second: string)
    requires Clean(first) && Clean(second) && (second != [] ==> second[0] != ':')
    ensures Clean(first + second)
  {
    var s := first + second;
    forall i | 0 <= i < |s| - 1 ensures !(s[i] == ':' && s[i + 1] == ':') {
      if i + 1 < |first| {
        assert s[i] == first[i] && s[i + 1] == first[i + 1];
      } else if i >= |first| {
        assert s[i] == second[i - |first|] && s[i + 1] == second[i + 1 - |first|];
      }
    }
  }

  /** Labels of the blocks of a called function start with the indexed name as it is, although it is sanitised again. */
  lemma IndexedLabel(functionName: string, index: nat, kind: BlockLabel)
    ensures LabelOf(IndexedName(functionName, index), kind) == IndexedName(functionName, index) + Suffix(kind)
  {
    hide Sanitize, Suffix, Decimal, Value;
    SanitizedIsClean(functionName);
    DecimalIsDigits(index);
    CleanJoined(Sanitize(functionName), "_");
    CleanJoined(Sanitize(functionName) + "_", Decimal(index));
    CleanIsUnchanged(IndexedName(functionName, index));
  }
}
