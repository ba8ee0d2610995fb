/**
 * `parseGroupTitle` of scripts/parseM3u.js: eight ordered rules that map a
 * playlist group title to a location code and a cleaned title.
 *
 * The regular expressions are modelled by the functions ending in `Match`,
 * which return the capture groups. `Rule(t, j)` is what the `j`-th test
 * would decide, in source order, and `Decide` takes the first that fires.
 * The method `ParseGroupTitle` follows the source statement by statement
 * (the `matched` flag, the loops with `break`) and is proved to compute
 * `GroupTitleOf`.
 */
module GroupTitle {
  import opened Js

  /** What a rule decides: a location code and the title it leaves behind. */
  datatype Hit = Hit(code: string, cleaned: string)

  /** The object `parseGroupTitle` returns. */
  datatype Classification = Classification(locationCode: string, groupTitle: string)

  /** Capture groups of the anchored prefix expressions: the code and the text after the separator. */
  datatype Captures = Captures(code: string, rest: string)

  /** `locationMappings`, in insertion order (which `Object.entries` follows). */
  const LocationMappings: seq<(string, string)> := [
    ("ESPA\U{00D1}A", "ES"), ("GERMANY", "DE"), ("FRANCE", "FR"), ("ITALY", "IT"),
    ("ENGLISH", "EN"), ("NORDIC", "ND"), ("TURKISH", "TR"), ("TURKSIH", "TR"),
    ("\U{00CD}SLANDS", "IS"), ("HEBREW", "IL"), ("QU\U{00C9}BEC", "QC"), ("POLSKA", "PL"),
    ("SUOMEN", "FI"), ("SUOMI", "FI"), ("SVENSK", "SE"), ("SVENSKA", "SE"),
    ("NORGE", "NO"), ("NORSK", "NO"), ("INDIA", "IN"), ("INDIAN", "IN"),
    ("KOREAN", "KO"), ("KURDISH", "KU"), ("LATINO", "LA"), ("MALTA", "MT"),
    ("PAKISTAN", "PK"), ("PERSIAN", "IR"), ("PHILIPPINES", "PH"), ("RUSSAIN", "RU"),
    ("SOUTH AFRICA", "ZA"), ("VIDEOLAND", "NL")
  ]

  const WorldwideKeywords: seq<string> := [
    "NETFLIX", "DISNEY+", "AMAZON PRIME", "APPLE TV+", "PARAMOUNT",
    "HBO MAX", "SHOWTIME", "UNIVERSAL", "PEACOCK", "DREAMWORKS",
    "MARVEL", "STAR WARS", "SOCCER", "VIAPLAY", "SKY"
  ]

  /** Every code the classifier can produce: two capitals, `XXX` or `OTHER`. */
  predicate IsTwoCapitals(code: string) {
    |code| == 2 && IsUpperAscii(code[0]) && IsUpperAscii(code[1])
  }

  predicate IsKnownCode(code: string) {
    IsTwoCapitals(code) || code == "XXX" || code == "OTHER"
  }

  lemma MappingCodesAreTwoCapitals(i: nat)
    requires i < |LocationMappings|
    ensures IsTwoCapitals(LocationMappings[i].1)
  {
  }

  // ---------------------------------------------------------------------
  // The regular expressions
  // ---------------------------------------------------------------------

  /** `/^([A-Z]{2})\|\s*(.*)$/` */
  function PipeMatch(t: string): (m: Option<Captures>)
    ensures m.Some? ==> IsTwoCapitals(m.value.code)
  {
    if |t| >= 3 && IsUpperAscii(t[0]) && IsUpperAscii(t[1]) && t[2] == '|'
       && NoLineTerminator(TrimStart(t[3..]))
    then Some(Captures(t[..2], TrimStart(t[3..])))
    else None
  }

  /** `/^([A-Z]{2})\s+-\s+(.*)$/` */
  function DashMatch(t: string): (m: Option<Captures>)
    ensures m.Some? ==> IsTwoCapitals(m.value.code)
  {
    if |t| >= 2 && IsUpperAscii(t[0]) && IsUpperAscii(t[1]) then
      var gap := TrimStart(t[2..]);
      if |gap| < |t[2..]| && |gap| >= 2 && gap[0] == '-' && IsSpace(gap[1])
         && NoLineTerminator(TrimStart(gap[1..]))
      then Some(Captures(t[..2], TrimStart(gap[1..])))
      else None
    else None
  }

  /** `/^PT\/BR\s*-\s*(.*)$/`; the code slot holds the literal prefix. */
  function PtBrMatch(t: string): Option<Captures> {
    if StartsWith(t, "PT/BR") then
      var gap := TrimStart(t[5..]);
      if |gap| >= 1 && gap[0] == '-' && NoLineTerminator(TrimStart(gap[1..]))
      then Some(Captures("PT/BR", TrimStart(gap[1..])))
      else None
    else None
  }

  /** `/^(WT)\|\s*(.*)$/` */
  function WtPipeMatch(t: string): Option<Captures> {
    if StartsWith(t, "WT|") && NoLineTerminator(TrimStart(t[3..]))
    then Some(Captures("WT", TrimStart(t[3..])))
    else None
  }

  /** `/[؀-ۿ]/` */
  predicate IsArabic(c: char) { '\U{0600}' <= c <= '\U{06FF}' }

  predicate HasArabicScript(t: string) {
    exists i :: 0 <= i < |t| && IsArabic(t[i])
  }

  // ---------------------------------------------------------------------
  // The rules as a specification
  // ---------------------------------------------------------------------

  /** Whether mapping `i`'s name, followed by a space, starts `upper`. */
  predicate NameStarts(upper: string, i: nat)
    requires i < |LocationMappings|
  {
    StartsWith(upper, LocationMappings[i].0 + " ")
  }

  /** Index of the first mapping, from `i` on, whose name followed by a space starts `upper`. */
  function MappingFrom(upper: string, i: nat): (k: Option<nat>)
    requires i <= |LocationMappings|
    ensures k.Some? ==> i <= k.value < |LocationMappings| && NameStarts(upper, k.value)
                        && forall j :: i <= j < k.value ==> !NameStarts(upper, j)
    ensures k.None? ==> forall j :: i <= j < |LocationMappings| ==> !NameStarts(upper, j)
    decreases |LocationMappings| - i
  {
    if i == |LocationMappings| then None
    else if NameStarts(upper, i) then Some(i)
    else MappingFrom(upper, i + 1)
  }

  /** Removes one leading `-` (and the whitespace after it). */
  function StripDash(s: string): string {
    if StartsWith(s, "-") then Trim(s[1..]) else s
  }

  /** Rule 3: a mapped name, upper-cased, followed by a space. */
  function NameRule(t: string): Option<Hit> {
    match MappingFrom(ToUpper(t), 0)
    case None => None
    case Some(k) => Some(Hit(LocationMappings[k].1, StripDash(Trim(t[|LocationMappings[k].0|..]))))
  }

  /** Rules 1 and 2: the captured two capitals are the code. */
  function CapturedCodeRule(m: Option<Captures>): (h: Option<Hit>)
    ensures h.Some? ==> m.Some? && h.value.code == m.value.code
  {
    match m
    case None => None
    case Some(c) => Some(Hit(c.code, Trim(c.rest)))
  }

  /** The PT/BR and WT| rules: a fixed code. */
  function FixedCodeRule(m: Option<Captures>, code: string): (h: Option<Hit>)
    ensures h.Some? ==> h.value.code == code
  {
    match m
    case None => None
    case Some(c) => Some(Hit(code, Trim(c.rest)))
  }

  /** The keyword and script tests: a fixed code, the title kept as it is. */
  function KeepTitle(fires: bool, code: string, t: string): (h: Option<Hit>)
    ensures h.Some? ==> h.value == Hit(code, t)
  {
    if fires then Some(Hit(code, t)) else None
  }

  /** A code a rule (as opposed to the fallbacks) can give. */
  predicate IsRuleCode(code: string) {
    IsTwoCapitals(code) || code == "XXX"
  }

  /** Rules 1 to 6 are tried as nine tests, numbered 0 to 8. */
  const RuleCount: nat := 9

  /**
   * What test `j` decides, in the order the source applies them: the
   * anchored prefixes and mapped names (rules 1 to 4 up to `WT|`), then the
   * tests anywhere in the title, which keep the title as it is.
   */
  function Rule(t: string, j: nat): Option<Hit>
    requires j < RuleCount
  {
    if j == 0 then CapturedCodeRule(PipeMatch(t))                      // 1: XX|
    else if j == 1 then CapturedCodeRule(DashMatch(t))                 // 2: XX -
    else if j == 2 then NameRule(t)                                    // 3: mapped names
    else if j == 3 then FixedCodeRule(PtBrMatch(t), "BR")              // 4: PT/BR -
    else if j == 4 then FixedCodeRule(WtPipeMatch(t), "WW")            //    WT|
    else if j == 5 then KeepTitle(ContainsIgnoringCase(t, "MENA"), "AR", t)  // /MENA/i
    else if j == 6 then KeepTitle(ContainsIgnoringCase(t, "EU"), "EU", t)    // /EU/i
    else if j == 7 then KeepTitle(HasArabicScript(t), "AR", t)         // 5: Arabic script
    else KeepTitle(ContainsIgnoringCase(t, "FOR ADULTS"), "XXX", t)    // 6: /FOR ADULTS/i
  }

  /** Every test that fires gives two capitals or `XXX`. */
  lemma RuleCode(t: string, j: nat)
    requires j < RuleCount && Rule(t, j).Some?
    ensures IsRuleCode(Rule(t, j).value.code)
  {
    if j == 0 {
      var m := PipeMatch(t);
      assert Rule(t, 0) == CapturedCodeRule(m);
    } else if j == 1 {
      var m := DashMatch(t);
      assert Rule(t, 1) == CapturedCodeRule(m);
    } else if j == 2 {
      var k := MappingFrom(ToUpper(t), 0);
      MappingCodesAreTwoCapitals(k.value);
    }
  }

  /** The first test, from `from` on, that fires, or `RuleCount` when none does. */
  function FirstFiring(t: string, from: nat): (k: nat)
    requires from <= RuleCount
    ensures from <= k <= RuleCount
    decreases RuleCount - from
  {
    if from == RuleCount then RuleCount
    else if Rule(t, from).Some? then from
    else FirstFiring(t, from + 1)
  }

  /** `FirstFiring` finds a test that fires, and none before it does. */
  lemma {:induction false} FirstFiringFacts(t: string, from: nat)
    requires from <= RuleCount
    ensures FirstFiring(t, from) < RuleCount ==> Rule(t, FirstFiring(t, from)).Some?
    ensures forall j :: from <= j < FirstFiring(t, from) ==> Rule(t, j).None?
    decreases RuleCount - from
  {
    if from < RuleCount && Rule(t, from).None? {
      FirstFiringFacts(t, from + 1);
    }
  }

  /** The first test to fire from `from` on is test `k`. */
  lemma {:induction false} FirstFiringIs(t: string, from: nat, k: nat)
    requires from <= k < RuleCount && Rule(t, k).Some?
    requires forall j :: from <= j < k ==> Rule(t, j).None?
    ensures FirstFiring(t, from) == k
    decreases k - from
  {
    if from < k {
      FirstFiringIs(t, from + 1, k);
    }
  }

  /** Whether worldwide keyword `j` occurs in `upper`. */
  predicate HasKeyword(upper: string, j: nat)
    requires j < |WorldwideKeywords|
  {
    Contains(upper, WorldwideKeywords[j])
  }

  /** Whether a worldwide keyword, from index `i` on, occurs in `upper`. */
  function KeywordFrom(upper: string, i: nat): (found: bool)
    requires i <= |WorldwideKeywords|
    ensures found <==> exists j :: i <= j < |WorldwideKeywords| && HasKeyword(upper, j)
    decreases |WorldwideKeywords| - i
  {
    if i == |WorldwideKeywords| then false
    else HasKeyword(upper, i) || KeywordFrom(upper, i + 1)
  }

  /** The first test that fires, else rule 7 (worldwide keywords), else rule 8 (`OTHER`). */
  function Decide(t: string): (h: Hit)
    ensures IsKnownCode(h.code)
    ensures h.code == "OTHER" ==> h.cleaned == t
  {
    var k := FirstFiring(t, 0);
    FirstFiringFacts(t, 0);
    if k < RuleCount then
      RuleCode(t, k);
      Rule(t, k).value
    else if KeywordFrom(ToUpper(t), 0) then Hit("WW", t)
    else Hit("OTHER", t)
  }

  /** The title after the empty-title fallbacks of parseM3u.js. */
  function GroupTitleOf(title: Option<string>): (r: Classification)
    ensures IsKnownCode(r.locationCode)
    ensures r.groupTitle != ""
  {
    var original := title.GetOr("");
    var h := Decide(original);
    var cleaned := if h.cleaned == "" && original != "" then original else h.cleaned;
    Classification(h.code, if cleaned == "" then "Uncategorized" else cleaned)
  }

  // ---------------------------------------------------------------------
  // Properties of the rules
  // ---------------------------------------------------------------------

  /** No test fires on the empty title. */
  lemma NoRuleOnEmpty(j: nat)
    requires j < RuleCount
    ensures Rule("", j).None?
  {
    if j == 2 {
      assert !NameStarts(ToUpper(""), 0);
      assert MappingFrom(ToUpper(""), 0).None?;
    } else if 5 <= j {
      var e := FoldAsciiString("");
      assert !Contains(e, "MENA") && !Contains(e, "EU") && !Contains(e, "FOR ADULTS");
    }
  }

  /** None of the eight tests fires on the empty title. */
  lemma NothingFiresOnEmpty()
    ensures FirstFiring("", 0) == RuleCount
  {
    forall j | 0 <= j < RuleCount
      ensures Rule("", j).None?
    {
      NoRuleOnEmpty(j);
    }
    FirstFiringFacts("", 0);
  }

  /** No worldwide keyword occurs in the empty title. */
  lemma NoKeywordInEmpty()
    ensures !KeywordFrom(ToUpper(""), 0)
  {
    assert ToUpper("") == "";
    forall j | 0 <= j < |WorldwideKeywords|
      ensures !HasKeyword("", j)
    {
      assert |WorldwideKeywords[j]| > 0;
    }
  }

  /** A missing title is classified like the empty one: no rule fires, so `OTHER` and `Uncategorized`. */
  lemma NullIsEmpty()
    ensures GroupTitleOf(None) == GroupTitleOf(Some(""))
    ensures GroupTitleOf(None) == Classification("OTHER", "Uncategorized")
  {
    NothingFiresOnEmpty();
    NoKeywordInEmpty();
  }

  /** Rule 1 comes first: `XX|rest` gives code `XX` and `rest` trimmed, or the title itself if that is empty. */
  lemma PipeRuleWins(t: string)
    requires |t| >= 3 && IsUpperAscii(t[0]) && IsUpperAscii(t[1]) && t[2] == '|'
    requires NoLineTerminator(TrimStart(t[3..]))
    ensures GroupTitleOf(Some(t)).locationCode == t[..2]
    ensures GroupTitleOf(Some(t)).groupTitle == if Trim(t[3..]) == "" then t else Trim(t[3..])
  {
    TrimAfterTrimStart(t[3..]);
    assert Rule(t, 0) == Some(Hit(t[..2], Trim(t[3..])));
    FirstFiringIs(t, 0, 0);
  }

  /** The `WT|` test never decides: any title it matches was already taken by rule 1, with code `WT`. */
  lemma WtRuleNeverDecides(t: string)
    requires WtPipeMatch(t).Some?
    ensures PipeMatch(t).Some? && Decide(t).code == "WT"
  {
    assert t[..3] == "WT|";
    assert t[0] == 'W' && t[1] == 'T' && t[2] == '|';
    assert t[..2] == "WT";
    assert Rule(t, 0).Some?;
    FirstFiringIs(t, 0, 0);
  }

  /** Rule 3: the first mapped name that starts the upper-cased title, followed by a space, gives the code. */
  lemma NameRuleDecides(t: string, k: nat)
    requires PipeMatch(t).None? && DashMatch(t).None?
    requires k < |LocationMappings| && StartsWith(ToUpper(t), LocationMappings[k].0 + " ")
    requires forall j :: 0 <= j < k ==> !StartsWith(ToUpper(t), LocationMappings[j].0 + " ")
    ensures Decide(t) == Hit(LocationMappings[k].1, StripDash(Trim(t[|LocationMappings[k].0|..])))
  {
    var upper := ToUpper(t);
    assert NameStarts(upper, k);
    assert forall j :: 0 <= j < k ==> !NameStarts(upper, j);
    MappingFromIs(upper, 0, k);
    assert Rule(t, 0).None? && Rule(t, 1).None?;
    assert Rule(t, 2) == Some(Hit(LocationMappings[k].1, StripDash(Trim(t[|LocationMappings[k].0|..]))));
    FirstFiringIs(t, 0, 2);
  }

  /** The first mapping from `i` on whose name starts `upper` is mapping `k`. */
  lemma {:induction false} MappingFromIs(upper: string, i: nat, k: nat)
    requires i <= k < |LocationMappings| && NameStarts(upper, k)
    requires forall j :: i <= j < k ==> !NameStarts(upper, j)
    ensures MappingFrom(upper, i) == Some(k)
    decreases k - i
  {
    if i < k {
      MappingFromIs(upper, i + 1, k);
    }
  }

  /**
   * Rule 4's `MENA` and `EU`, then rule 5 (Arabic script), then rule 6 (adult
   * content): when no anchored test fires, the first of these tests that holds
   * decides and the title is kept as it is.
   */
  lemma KeywordPrecedence(t: string)
    requires forall j :: 0 <= j < 5 ==> Rule(t, j).None?
    ensures ContainsIgnoringCase(t, "MENA") ==> Decide(t) == Hit("AR", t)
    ensures !ContainsIgnoringCase(t, "MENA") && ContainsIgnoringCase(t, "EU") ==> Decide(t) == Hit("EU", t)
    ensures (!ContainsIgnoringCase(t, "MENA") && !ContainsIgnoringCase(t, "EU") && HasArabicScript(t))
            ==> Decide(t) == Hit("AR", t)
    ensures (!ContainsIgnoringCase(t, "MENA") && !ContainsIgnoringCase(t, "EU") && !HasArabicScript(t)
             && ContainsIgnoringCase(t, "FOR ADULTS")) ==> Decide(t) == Hit("XXX", t)
  {
    if ContainsIgnoringCase(t, "MENA") {
      FirstFiringIs(t, 0, 5);
    } else if ContainsIgnoringCase(t, "EU") {
      FirstFiringIs(t, 0, 6);
    } else if HasArabicScript(t) {
      FirstFiringIs(t, 0, 7);
    } else if ContainsIgnoringCase(t, "FOR ADULTS") {
      FirstFiringIs(t, 0, 8);
    }
  }

  /** Rules 7 and 8: when no test fires, the code is `WW` exactly when a worldwide keyword occurs, else `OTHER`. */
  lemma FallbackCodes(t: string)
    requires FirstFiring(t, 0) == RuleCount
    ensures Decide(t).code == "WW" <==> exists j :: 0 <= j < |WorldwideKeywords| && Contains(ToUpper(t), WorldwideKeywords[j])
    ensures Decide(t).code != "WW" ==> Decide(t).code == "OTHER"
    ensures Decide(t).cleaned == t
  {
    var upper := ToUpper(t);
    if exists j :: 0 <= j < |WorldwideKeywords| && Contains(upper, WorldwideKeywords[j]) {
      var j :| 0 <= j < |WorldwideKeywords| && Contains(upper, WorldwideKeywords[j]);
      assert HasKeyword(upper, j);
    }
  }

  // ---------------------------------------------------------------------
  // The source's procedure
  // ---------------------------------------------------------------------

  /**
   * Where `parseGroupTitle` stands after trying the first `n` tests: either
   * none fired and nothing is assigned yet, or test `f` was the first to fire
   * and its decision is in the locals.
   */
  ghost predicate Progress(t: string, n: nat, matched: bool, f: nat, code: Option<string>, cleaned: string)
    requires n <= RuleCount
  {
    && (!matched ==> code.None? && cleaned == t && forall j :: 0 <= j < n ==> Rule(t, j).None?)
    && (matched ==> f < n && code.Some? && Rule(t, f) == Some(Hit(code.value, cleaned))
                    && forall j :: 0 <= j < f ==> Rule(t, j).None?)
  }

  /** After all nine tests, the locals hold what `Decide` takes from the tests. */
  lemma ProgressComplete(t: string, matched: bool, f: nat, code: Option<string>, cleaned: string)
    requires Progress(t, RuleCount, matched, f, code, cleaned)
    ensures matched <==> FirstFiring(t, 0) < RuleCount
    ensures matched ==> Decide(t) == Hit(code.value, cleaned)
  {
    FirstFiringFacts(t, 0);
    if matched {
      FirstFiringIs(t, 0, f);
    }
  }

  /** Rules 1 and 2 of `parseGroupTitle`: `XX|` and `XX -`. */
  method TryCapturedCodes(t: string) returns (matched: bool, ghost f: nat, code: Option<string>, cleaned: string)
    ensures Progress(t, 2, matched, f, code, cleaned)
  {
    matched, f, code, cleaned := false, 0, None, t;
    // Rule 1: XX|
    var m := PipeMatch(t);
    assert Rule(t, 0) == CapturedCodeRule(m);
    if m.Some? { code := Some(m.value.code); cleaned := Trim(m.value.rest); matched := true; f := 0; }
    // Rule 2: XX -
    m := if !matched then DashMatch(t) else None;
    assert !matched ==> Rule(t, 1) == CapturedCodeRule(m);
    if m.Some? { code := Some(m.value.code); cleaned := Trim(m.value.rest); matched := true; f := 1; }
  }

  /** Rule 3 of `parseGroupTitle`: the first mapped name followed by a space. */
  method TryMappedNames(t: string, matched0: bool, ghost f0: nat, code0: Option<string>, cleaned0: string)
    returns (matched: bool, ghost f: nat, code: Option<string>, cleaned: string)
    requires Progress(t, 2, matched0, f0, code0, cleaned0)
    ensures Progress(t, 3, matched, f, code, cleaned)
  {
    matched, f, code, cleaned := matched0, f0, code0, cleaned0;
    if !matched {
      var upper := ToUpper(t);
      var i := 0;
      while i < |LocationMappings|
        invariant 0 <= i <= |LocationMappings|
        invariant !matched && code.None? && cleaned == t
        invariant MappingFrom(upper, 0) == MappingFrom(upper, i)
      {
        var (name, mapped) := LocationMappings[i];
        assert NameStarts(upper, i) == StartsWith(upper, name + " ");
        if StartsWith(upper, name + " ") {
          code := Some(mapped);
          cleaned := Trim(t[|name|..]);
          if StartsWith(cleaned, "-") { cleaned := Trim(cleaned[1..]); }
          matched := true;
          break;
        }
        i := i + 1;
      }
      assert Rule(t, 2) == NameRule(t);
      if matched { f := 2; }
    }
  }

  /** Rule 4 of `parseGroupTitle`: `PT/BR -`, `WT|`, `MENA`, `EU`. */
  method TryRegionalPatterns(t: string, matched0: bool, ghost f0: nat, code0: Option<string>, cleaned0: string)
    returns (matched: bool, ghost f: nat, code: Option<string>, cleaned: string)
    requires Progress(t, 3, matched0, f0, code0, cleaned0)
    ensures Progress(t, 7, matched, f, code, cleaned)
  {
    matched, f, code, cleaned := matched0, f0, code0, cleaned0;
    var m := if !matched then PtBrMatch(t) else None;
    assert !matched ==> Rule(t, 3) == FixedCodeRule(m, "BR");
    if m.Some? { code := Some("BR"); cleaned := Trim(m.value.rest); matched := true; f := 3; }
    m := if !matched then WtPipeMatch(t) else None;
    assert !matched ==> Rule(t, 4) == FixedCodeRule(m, "WW");
    if m.Some? { code := Some("WW"); cleaned := Trim(m.value.rest); matched := true; f := 4; }
    assert !matched ==> Rule(t, 5) == KeepTitle(ContainsIgnoringCase(t, "MENA"), "AR", t);
    if !matched && ContainsIgnoringCase(t, "MENA") { code := Some("AR"); matched := true; f := 5; }
    assert !matched ==> Rule(t, 6) == KeepTitle(ContainsIgnoringCase(t, "EU"), "EU", t);
    if !matched && ContainsIgnoringCase(t, "EU") { code := Some("EU"); matched := true; f := 6; }
  }

  /** Rules 5 and 6 of `parseGroupTitle`: Arabic script, adult content. */
  method TryScriptAndAdult(t: string, matched0: bool, ghost f0: nat, code0: Option<string>, cleaned0: string)
    returns (matched: bool, ghost f: nat, code: Option<string>, cleaned: string)
    requires Progress(t, 7, matched0, f0, code0, cleaned0)
    ensures Progress(t, RuleCount, matched, f, code, cleaned)
  {
    matched, f, code, cleaned := matched0, f0, code0, cleaned0;
    assert !matched ==> Rule(t, 7) == KeepTitle(HasArabicScript(t), "AR", t);
    if !matched && HasArabicScript(t) { code := Some("AR"); cleaned := t; matched := true; f := 7; }
    assert !matched ==> Rule(t, 8) == KeepTitle(ContainsIgnoringCase(t, "FOR ADULTS"), "XXX", t);
    if !matched && ContainsIgnoringCase(t, "FOR ADULTS") { code := Some("XXX"); matched := true; f := 8; }
  }

  /**
   * Rules 1 to 8 as `parseGroupTitle` and the loop body of `updateGroups`
   * both apply them: the location code and cleaned title before the final
   * empty-title check.
   */
  method ApplyRules(originalTitle: string) returns (h: Hit)
    ensures h == Decide(originalTitle)
  {
    var matched, locationCode, cleanedTitle;
    ghost var f;
    matched, f, locationCode, cleanedTitle := TryCapturedCodes(originalTitle);
    matched, f, locationCode, cleanedTitle := TryMappedNames(originalTitle, matched, f, locationCode, cleanedTitle);
    matched, f, locationCode, cleanedTitle := TryRegionalPatterns(originalTitle, matched, f, locationCode, cleanedTitle);
    matched, f, locationCode, cleanedTitle := TryScriptAndAdult(originalTitle, matched, f, locationCode, cleanedTitle);
    ProgressComplete(originalTitle, matched, f, locationCode, cleanedTitle);

    // Rule 7: worldwide keywords, only while no code is assigned
    if locationCode.None? {
      var upper := ToUpper(originalTitle);
      var i := 0;
      while i < |WorldwideKeywords|
        invariant 0 <= i <= |WorldwideKeywords|
        invariant locationCode.None?
        invariant KeywordFrom(upper, 0) == KeywordFrom(upper, i)
      {
        assert HasKeyword(upper, i) == Contains(upper, WorldwideKeywords[i]);
        if Contains(upper, WorldwideKeywords[i]) {
          locationCode := Some("WW");
          break;
        }
        i := i + 1;
      }
    }

    // Rule 8: fallback
    if locationCode.None? {
      locationCode := Some("OTHER");
    }
    h := Hit(locationCode.value, cleanedTitle);
  }

  /** `parseGroupTitle(originalTitle)`: the rules, then the final check that the title is never empty. */
  method ParseGroupTitle(title: Option<string>) returns (r: Classification)
    ensures r == GroupTitleOf(title)
  {
    var originalTitle := title.GetOr("");
    var h := ApplyRules(originalTitle);
    var cleanedTitle := h.cleaned;
    if cleanedTitle == "" && originalTitle != "" {
      cleanedTitle := originalTitle;
    }
    if cleanedTitle == "" {
      cleanedTitle := "Uncategorized";
    }
    r := Classification(h.code, cleanedTitle);
  }
}
