/**
 * Locator bookkeeping: finding locators whose selector is still the
 * PLACEHOLDER text, the verified/failed counters driven by lookups against
 * the page, the alternative selectors suggested after a timeout, and the
 * summary report.  The browser is replaced by an abstract lookup outcome.
 */
module LocatorVerification {
  import opened Common
  import opened Text

  /** Marker left in a selector that has not been filled in yet. */
  const Placeholder := "PLACEHOLDER"

  /** A class attribute as `check_for_placeholders` sees it: a tuple of
      strings (a locator is `(by, selector)`) or anything else. */
  datatype Value = Tuple(items: seq<string>) | NotTuple

  /** A public attribute holding a two-element tuple whose selector still
      contains the placeholder marker. */
  predicate IsPlaceholderEntry(entry: (string, Value)) {
    && !StartsWith(entry.0, "_")
    && entry.1.Tuple? && |entry.1.items| == 2
    && Contains(entry.1.items[1], Placeholder)
  }

  /** The names `check_for_placeholders` reports for a class whose
      attributes, in `dir()` order, are `attrs`. */
  function PlaceholderNames(attrs: seq<(string, Value)>): seq<string>
  {
    if attrs == [] then []
    else
      var last := attrs[|attrs| - 1];
      PlaceholderNames(attrs[..|attrs| - 1]) + (if IsPlaceholderEntry(last) then [last.0] else [])
  }

  /** A name is reported exactly when some placeholder entry carries it. */
  lemma {:induction false} PlaceholderNamesMembers(attrs: seq<(string, Value)>, name: string)
    ensures name in PlaceholderNames(attrs) <==>
      exists i :: 0 <= i < |attrs| && IsPlaceholderEntry(attrs[i]) && attrs[i].0 == name
  {
    if attrs != [] {
      var init := attrs[..|attrs| - 1];
      PlaceholderNamesMembers(init, name);
      if exists i :: 0 <= i < |init| && IsPlaceholderEntry(init[i]) && init[i].0 == name {
        var i :| 0 <= i < |init| && IsPlaceholderEntry(init[i]) && init[i].0 == name;
        assert attrs[i] == init[i];
      }
      if exists i :: 0 <= i < |attrs| && IsPlaceholderEntry(attrs[i]) && attrs[i].0 == name {
        var i :| 0 <= i < |attrs| && IsPlaceholderEntry(attrs[i]) && attrs[i].0 == name;
        if i < |init| { assert init[i] == attrs[i]; }
      }
    }
  }

  /** The report of a concatenated listing is the concatenation of the
      reports: entries keep their order and are judged one by one. */
  lemma {:induction false} PlaceholderNamesAppend(a: seq<(string, Value)>, b: seq<(string, Value)>)
    ensures PlaceholderNames(a + b) == PlaceholderNames(a) + PlaceholderNames(b)
  {
    if b != [] {
      var init := b[..|b| - 1];
      PlaceholderNamesAppend(a, init);
      assert (a + b)[..|a + b| - 1] == a + init;
      assert (a + b)[|a + b| - 1] == b[|b| - 1];
    } else {
      assert a + b == a;
    }
  }

  /** A listing without any placeholder entry reports nothing, and one of
      placeholder entries only reports every name. */
  lemma {:induction false} PlaceholderNamesLength(attrs: seq<(string, Value)>)
    ensures |PlaceholderNames(attrs)| <= |attrs|
    ensures |PlaceholderNames(attrs)| == |attrs| <==> forall i :: 0 <= i < |attrs| ==> IsPlaceholderEntry(attrs[i])
  {
    if attrs != [] {
      var init := attrs[..|attrs| - 1];
      PlaceholderNamesLength(init);
      assert forall i :: 0 <= i < |init| ==> init[i] == attrs[i];
    }
  }

  /** Prefixes every name with its class, as the report lists them. */
  function Qualified(prefix: string, names: seq<string>): seq<string>
  {
    seq(|names|, i requires 0 <= i < |names| => prefix + names[i])
  }

  /** Prefixing a concatenation prefixes each part. */
  lemma QualifiedAppend(prefix: string, a: seq<string>, b: seq<string>)
    ensures Qualified(prefix, a + b) == Qualified(prefix, a) + Qualified(prefix, b)
  {
    var q, qa, qb := Qualified(prefix, a + b), Qualified(prefix, a), Qualified(prefix, b);
    assert forall i :: 0 <= i < |q| ==> q[i] == (qa + qb)[i] by {
      forall i | 0 <= i < |q| ensures q[i] == (qa + qb)[i] {
        if i < |a| { assert (a + b)[i] == a[i]; } else { assert (a + b)[i] == b[i - |a|]; }
      }
    }
  }

  /** A qualified name is listed exactly when the bare name is: the prefix
      can be stripped again. */
  lemma QualifiedMembers(prefix: string, names: seq<string>, name: string)
    ensures prefix + name in Qualified(prefix, names) <==> name in names
  {
    var q := Qualified(prefix, names);
    if prefix + name in q {
      var i :| 0 <= i < |q| && q[i] == prefix + name;
      assert (prefix + names[i])[|prefix|..] == names[i];
      assert (prefix + name)[|prefix|..] == name;
    }
    if name in names {
      var i :| 0 <= i < |names| && names[i] == name;
      assert q[i] == prefix + name;
    }
  }

  /** What a lookup on the page ended in. */
  datatype LookupOutcome =
    | Visible        // present and displayed
    | Invisible      // present, not displayed
    | Timeout        // not present within the timeout
    | NoSuchElement
    | OtherError(message: string)

  datatype TestError =
    | PlaceholderNotFilled
    | NotVisible
    | NotFoundWithin(seconds: int)
    | DoesNotExist
    | Unexpected(message: string)

  datatype LocatorTestResult = LocatorTestResult(
    name: string, selector: string, strategy: string,
    found: bool, error: Option<TestError>, suggestions: seq<string>)

  /** Outcomes that `test_locator` counts as a failed locator. */
  predicate CountsAsFailure(selector: string, outcome: LookupOutcome) {
    !Contains(selector, Placeholder) && (outcome.Invisible? || outcome.Timeout? || outcome.NoSuchElement?)
  }

  /** The result dictionary of `test_locator` (without the screenshot). */
  function LocatorTest(name: string, strategy: string, selector: string, outcome: LookupOutcome, timeout: int)
    : (result: LocatorTestResult)
    ensures result.name == name && result.selector == selector && result.strategy == strategy
    ensures result.found <==> !Contains(selector, Placeholder) && outcome == Visible
    ensures result.found <==> result.error.None?
    ensures result.found ==> !CountsAsFailure(selector, outcome)
    ensures Contains(selector, Placeholder) ==> result.error == Some(PlaceholderNotFilled)
    ensures result.suggestions != [] <==> !Contains(selector, Placeholder) && outcome == Timeout
  {
    var blank := LocatorTestResult(name, selector, strategy, false, None, []);
    if Contains(selector, Placeholder) then blank.(error := Some(PlaceholderNotFilled))
    else match outcome
      case Visible => blank.(found := true)
      case Invisible => blank.(error := Some(NotVisible))
      case Timeout => blank.(error := Some(NotFoundWithin(timeout)), suggestions := SuggestAlternatives(selector))
      case NoSuchElement => blank.(error := Some(DoesNotExist))
      case OtherError(message) => blank.(error := Some(Unexpected(message)))
  }

  /** A selector `_suggest_alternatives` treats as a class selector. */
  predicate IsClassSelector(selector: string) {
    '.' in selector && !StartsWith(selector, "//")
  }

  /** `selector.split('.')[1].split('[')[0]`. */
  function ClassName(selector: string): (name: string)
    requires '.' in selector
    ensures '.' !in name && '[' !in name
    ensures var after := AfterFirst(selector, '.');
      && |name| <= |after| && name == after[..|name|]
      && (|name| < |after| ==> after[|name|] == '.' || after[|name|] == '[')
  {
    var after := AfterFirst(selector, '.');
    var field := BeforeFirst(after, '.');
    var name := BeforeFirst(field, '[');
    assert field[..|name|] == after[..|name|];
    name
  }

  const DisplayBlock := "[style*='display: block']"

  const GeneralSuggestions := [
    "Check if element is in an iframe",
    "Check if element loads after page navigation",
    "Try using XPath instead of CSS"]

  /** `_suggest_alternatives`. */
  function SuggestAlternatives(selector: string): (suggestions: seq<string>)
    ensures |suggestions| == 3 + (if IsClassSelector(selector) then 2 else 0)
                               + (if Contains(selector, DisplayBlock) then 2 else 0)
    ensures suggestions[|suggestions| - 3..] == GeneralSuggestions
    ensures IsClassSelector(selector) ==>
      && suggestions[0] == "Try without style attribute: ." + ClassName(selector)
      && suggestions[1] == "Try with partial class: [class*='" + ClassName(selector) + "']"
    ensures Contains(selector, DisplayBlock) ==>
      var k := if IsClassSelector(selector) then 2 else 0;
      && suggestions[k] == "Try without style check: " + BeforeFirst(selector, '[')
      && suggestions[k + 1] == "Try with :not([style*='none']): " + BeforeFirst(selector, '[') + ":not([style*='none'])"
  {
    var classSuggestions :=
      if IsClassSelector(selector) then
        var className := ClassName(selector);
        ["Try without style attribute: ." + className,
         "Try with partial class: [class*='" + className + "']"]
      else [];
    var displaySuggestions :=
      if Contains(selector, DisplayBlock) then
        var baseSelector := BeforeFirst(selector, '[');
        ["Try without style check: " + baseSelector,
         "Try with :not([style*='none']): " + baseSelector + ":not([style*='none'])"]
      else [];
    classSuggestions + displaySuggestions + GeneralSuggestions
  }

  /** The suggestion list always has 3, 5 or 7 entries. */
  lemma SuggestionCount(selector: string)
    ensures |SuggestAlternatives(selector)| in {3, 5, 7}
  {
  }

  datatype ReportSummary = ReportSummary(totalPlaceholders: nat, verified: nat, failed: nat)

  datatype VerificationReport = VerificationReport(placeholderLocators: seq<string>, summary: ReportSummary)

  /** The summary of `generate_report` and the verdicts it logs. */
  datatype FinalReport = FinalReport(
    totalLocators: nat, placeholders: nat, verified: nat, failed: nat,
    warnsFailed: bool, warnsPlaceholders: bool, allVerified: bool)

  function Summarize(placeholders: nat, verified: nat, failed: nat): (report: FinalReport)
    ensures report.totalLocators == placeholders + verified + failed
    ensures report.warnsFailed <==> 0 < failed
    ensures report.warnsPlaceholders <==> 0 < placeholders
    ensures report.allVerified <==> placeholders == 0 && failed == 0
  {
    var total := placeholders + verified + failed;
    FinalReport(total, placeholders, verified, failed, failed > 0, placeholders > 0, verified == total)
  }

  class LocatorVerifier {
    var placeholderCount: nat
    var verifiedCount: nat
    var failedCount: nat

    constructor ()
      ensures placeholderCount == 0 && verifiedCount == 0 && failedCount == 0
    {
      placeholderCount := 0;
      verifiedCount := 0;
      failedCount := 0;
    }

    /** `check_for_placeholders`: one increment of the counter per name. */
    method CheckForPlaceholders(attrs: seq<(string, Value)>) returns (names: seq<string>)
      modifies this`placeholderCount
      ensures names == PlaceholderNames(attrs)
      ensures placeholderCount == old(placeholderCount) + |names|
    {
      names := [];
      for i := 0 to |attrs|
        invariant names == PlaceholderNames(attrs[..i])
        invariant placeholderCount == old(placeholderCount) + |names|
      {
        assert attrs[..i + 1][..i] == attrs[..i];
        var (attrName, attr) := attrs[i];
        if StartsWith(attrName, "_") {
          continue;
        }
        if attr.Tuple? && |attr.items| == 2 {
          var selector := attr.items[1];
          if Contains(selector, Placeholder) {
            names := names + [attrName];
            placeholderCount := placeholderCount + 1;
          }
        }
      }
      assert attrs[..|attrs|] == attrs;
    }

    /** `verify_all_locators` without the timestamp and the logging. */
    method VerifyAllLocators(battle: seq<(string, Value)>, summon: seq<(string, Value)>)
      returns (report: VerificationReport)
      modifies this`placeholderCount
      ensures report.placeholderLocators ==
        Qualified("BattleLocators.", PlaceholderNames(battle)) + Qualified("SummonLocators.", PlaceholderNames(summon))
      ensures placeholderCount == old(placeholderCount) + |PlaceholderNames(battle)| + |PlaceholderNames(summon)|
      ensures report.summary == ReportSummary(placeholderCount, verifiedCount, failedCount)
    {
      var placeholderLocators: seq<string> := [];
      var battlePlaceholders := CheckForPlaceholders(battle);
      if battlePlaceholders != [] {
        placeholderLocators := placeholderLocators + Qualified("BattleLocators.", battlePlaceholders);
      }
      var summonPlaceholders := CheckForPlaceholders(summon);
      if summonPlaceholders != [] {
        placeholderLocators := placeholderLocators + Qualified("SummonLocators.", summonPlaceholders);
      }
      report := VerificationReport(placeholderLocators, ReportSummary(placeholderCount, verifiedCount, failedCount));
    }

    /** `test_locator`: a visible element is counted as verified; invisible,
        timed-out and missing elements as failed; a placeholder selector or
        an unexpected error changes no counter. */
    method TestLocator(name: string, strategy: string, selector: string, outcome: LookupOutcome, timeout: int)
      returns (result: LocatorTestResult)
      modifies this`verifiedCount, this`failedCount
      ensures result == LocatorTest(name, strategy, selector, outcome, timeout)
      ensures verifiedCount == old(verifiedCount) + (if result.found then 1 else 0)
      ensures failedCount == old(failedCount) + (if CountsAsFailure(selector, outcome) then 1 else 0)
    {
      result := LocatorTest(name, strategy, selector, outcome, timeout);
      if result.found {
        verifiedCount := verifiedCount + 1;
      }
      if CountsAsFailure(selector, outcome) {
        failedCount := failedCount + 1;
      }
    }

    /** `generate_report` without writing the file: the counters as they
        stand. */
    function GenerateReport(): (report: FinalReport)
      reads this
      ensures report.totalLocators == placeholderCount + verifiedCount + failedCount
      ensures report.allVerified <==> placeholderCount == 0 && failedCount == 0
    {
      Summarize(placeholderCount, verifiedCount, failedCount)
    }
  }

  /** The report of `verify_all_locators` names a battle locator exactly
      when it is a placeholder entry of the battle class, and likewise for
      the summon class: the two prefixes keep the classes apart. */
  lemma ReportedLocators(battle: seq<(string, Value)>, summon: seq<(string, Value)>, name: string)
    ensures var report := Qualified("BattleLocators.", PlaceholderNames(battle))
                          + Qualified("SummonLocators.", PlaceholderNames(summon));
      && ("BattleLocators." + name in report <==>
          exists i :: 0 <= i < |battle| && IsPlaceholderEntry(battle[i]) && battle[i].0 == name)
      && ("SummonLocators." + name in report <==>
          exists i :: 0 <= i < |summon| && IsPlaceholderEntry(summon[i]) && summon[i].0 == name)
  {
    var battleName, summonName := "BattleLocators." + name, "SummonLocators." + name;
    var qb := Qualified("BattleLocators.", PlaceholderNames(battle));
    var qs := Qualified("SummonLocators.", PlaceholderNames(summon));
    QualifiedMembers("BattleLocators.", PlaceholderNames(battle), name);
    QualifiedMembers("SummonLocators.", PlaceholderNames(summon), name);
    PlaceholderNamesMembers(battle, name);
    PlaceholderNamesMembers(summon, name);
    QualifiedNotListed("SummonLocators.", PlaceholderNames(summon), battleName);
    QualifiedNotListed("BattleLocators.", PlaceholderNames(battle), summonName);
  }

  /** A string that does not begin like the prefix is not among the
      prefixed names. */
  lemma QualifiedNotListed(prefix: string, names: seq<string>, s: string)
    requires |prefix| > 0 && |s| > 0 && s[0] != prefix[0]
    ensures s !in Qualified(prefix, names)
  {
  }

  /** Verifying the same classes twice counts their placeholders twice:
      the counter is never reset. */
  method VerifyTwice(v: LocatorVerifier, battle: seq<(string, Value)>, summon: seq<(string, Value)>)
    returns (first: VerificationReport, second: VerificationReport)
    modifies v`placeholderCount
    ensures first.placeholderLocators == second.placeholderLocators
    ensures second.summary.totalPlaceholders
            == old(v.placeholderCount) + 2 * (|PlaceholderNames(battle)| + |PlaceholderNames(summon)|)
  {
    first := v.VerifyAllLocators(battle, summon);
    second := v.VerifyAllLocators(battle, summon);
  }

  // ---------------------------------------------------------------------
  // SmartElementFinder
  // ---------------------------------------------------------------------

  /** What the waits of `find_element` end in: the element is present
      (displayed or not, and, if not, whether a wait for visibility
      succeeds), the presence wait times out, or another exception. */
  datatype FindLookup =
    | Present(displayed: bool, becomesVisible: bool)
    | WaitTimedOut
    | WaitFailed(message: string)

  datatype FindError =
    | PlaceholderLocator             // ValueError
    | NotFound                       // NoSuchElementException
    | Reraised(message: string)      // the original exception

  datatype Element = Element(displayedWhenFound: bool)

  /** `find_element`: a placeholder selector is refused before the driver
      is consulted; `required` turns every failure into an exception. */
  function FindElement(selector: string, required: bool, lookup: FindLookup)
    : (r: Result<Option<Element>, FindError>)
    ensures Contains(selector, Placeholder) ==>
      r == if required then Failure(PlaceholderLocator) else Success(None)
    ensures !required ==> r.Success?
    ensures r.Success? && r.value.Some? ==> !Contains(selector, Placeholder) && lookup.Present?
    ensures required && r.Success? ==> r.value.Some? && (lookup.displayed || lookup.becomesVisible)
  {
    if Contains(selector, Placeholder) then
      if required then Failure(PlaceholderLocator) else Success(None)
    else match lookup
      case Present(displayed, becomesVisible) =>
        if !displayed && required && !becomesVisible then Failure(NotFound)
        else Success(Some(Element(displayed)))
      case WaitTimedOut =>
        if required then Failure(NotFound) else Success(None)
      case WaitFailed(message) =>
        if required then Failure(Reraised(message)) else Success(None)
  }

  /** The placeholder guard decides before any lookup: the outcome of the
      driver makes no difference. */
  lemma PlaceholderGuardIgnoresDriver(selector: string, required: bool, l1: FindLookup, l2: FindLookup)
    requires Contains(selector, Placeholder)
    ensures FindElement(selector, required, l1) == FindElement(selector, required, l2)
  {
  }

  /** `is_element_visible`: looks the element up without requiring it and
      asks it whether it is displayed (`displayedNow`). */
  function IsElementVisible(selector: string, lookup: FindLookup, displayedNow: bool): (visible: bool)
    ensures visible <==> !Contains(selector, Placeholder) && lookup.Present? && displayedNow
  {
    match FindElement(selector, false, lookup)
    case Success(Some(_)) => displayedNow
    case Success(None) => false
    case Failure(_) => false
  }
}
